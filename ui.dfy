/** The transient notices ("toasts") every page raises on success or failure. */
module Ui {
  datatype Notice = SuccessNotice(text: string) | ErrorNotice(text: string)
}
