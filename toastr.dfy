/** The toasts the views raise through `ToastrService`: `success`, `error`, `warning` and
    `info` with a message, a title and, optionally, per-call options. */
module Toastr {
  import opened Wrappers

  datatype ToastKind = SuccessToast | ErrorToast | WarningToast | InfoToast

  datatype ToastOptions = ToastOptions(timeOut: nat, closeButton: bool, progressBar: bool, positionClass: string, enableHtml: bool)

  /** `options` is `None` for a call that passes none and so takes the application's global settings. */
  datatype Toast = Toast(kind: ToastKind, message: string, title: string, options: Option<ToastOptions>)
}
