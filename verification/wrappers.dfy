/** The Option datatype used throughout the model for JavaScript values that may be
    `null`, `undefined` or absent. */
module Wrappers {

  datatype Option<+T> = None | Some(value: T) {

    /** The value, or `default` when there is none (JavaScript's `x ?? default`). */
    function GetOr(default: T): (v: T) {
      match this
      case Some(v) => v
      case None => default
    }
  }
}

/** What a page shows the user besides its own markup. */
module Ui {

  /** A `toast.success(text)` or `toast.error(text)` notification. */
  datatype Toast = SuccessToast(text: string) | ErrorToast(text: string)
}
