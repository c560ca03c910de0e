/** The toast both dashboards show after an action. */
module Toasts {
  datatype ToastKind = Info | Success | Error

  /** The message last shown; hiding it again after four seconds is not
      part of this model. */
  datatype Toast = Toast(message: string, kind: ToastKind)
}
