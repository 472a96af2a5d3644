/** The notifications `showNotification(message, type)` raises (script.js:917-952),
    kept as values: their rendering is not part of this model. */
module Notices {

  datatype Kind = Success | Warning | Error | Info

  datatype Notice = Notice(message: string, kind: Kind)
}
