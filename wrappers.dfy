/** Option and Outcome values used where the source returns `null`/`undefined` or throws. */
module Wrappers {

  datatype Option<+T> = None | Some(value: T) {
    function GetOr(default: T): T {
      match this
      case Some(v) => v
      case None => default
    }
  }

  /** A JavaScript truthy string: present and not empty. */
  predicate Truthy(s: Option<string>) {
    s.Some? && s.value != ""
  }

  /** Pass, or Fail with the message of the error the source throws. */
  datatype Outcome<+E> = Pass | Fail(error: E)
}

/** The toast record of types/toast.ts. */
module Toasts {

  datatype ToastType = Success | Error | Warning

  datatype Toast = Toast(message: string, kind: ToastType)
}
