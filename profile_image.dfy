/**
 * The checks `handleProfileImageChange` makes on the chosen file before it
 * reads it (script.js:853-867).
 */
module ProfileImage {
  import opened Wrappers
  import N = Notices

  /** The `type` and `size` (in bytes) of the selected `File`. */
  datatype ImageFile = ImageFile(mimeType: string, size: nat)

  /** Why a file is refused, or that it goes on to be read. */
  datatype ImageCheck = NoFile | NotAnImage | TooLarge | Accepted

  /** 5 MB: `5 * 1024 * 1024` bytes. */
  const MaxImageBytes: nat := 5 * 1024 * 1024

  function CheckProfileImage(file: Option<ImageFile>): (c: ImageCheck)
    ensures c == Accepted <==>
      file.Some? && "image/" <= file.value.mimeType && file.value.size <= MaxImageBytes
    ensures c == NoFile <==> file.None?
    ensures c == NotAnImage <==> file.Some? && !("image/" <= file.value.mimeType)
    ensures c == TooLarge <==>
      file.Some? && "image/" <= file.value.mimeType && file.value.size > MaxImageBytes
  {
    match file
    case None => NoFile
    case Some(f) =>
      if !("image/" <= f.mimeType) then NotAnImage
      else if f.size > MaxImageBytes then TooLarge
      else Accepted
  }

  /** The 'error' notification shown for a refused file; a missing file is refused silently. */
  function RejectionMessage(c: ImageCheck): (m: Option<N.Notice>)
    ensures m.Some? <==> c == NotAnImage || c == TooLarge
    ensures m.Some? ==> m.value.kind == N.Error
  {
    match c
    case NotAnImage => Some(N.Notice("Por favor, selecione apenas arquivos de imagem", N.Error))
    case TooLarge => Some(N.Notice("A imagem deve ter no máximo 5MB", N.Error))
    case _ => None
  }

  /** The limit is inclusive: exactly 5 MB passes, one byte more does not;
      the type test comes first, so an oversized non-image is refused as a non-image. */
  lemma SizeLimitBoundary(mimeType: string)
    requires "image/" <= mimeType
    ensures CheckProfileImage(Some(ImageFile(mimeType, 5242880))) == Accepted
    ensures CheckProfileImage(Some(ImageFile(mimeType, 5242881))) == TooLarge
    ensures CheckProfileImage(Some(ImageFile("text/plain", 5242881))) == NotAnImage
  {
    assert !("image/" <= "text/plain") by {
      assert "text/plain"[0] != "image/"[0];
    }
  }
}
