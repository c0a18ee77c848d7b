/** The notification records handed to the application's `addToast`. */
module Toasts {

  datatype Severity = Danger | Success | Info

  /** A toast shows either a translation key or a message given verbatim. */
  datatype ToastContent = TranslateKey(key: string) | Message(text: string)

  datatype Toast = Toast(severity: Severity, content: ToastContent)
}
