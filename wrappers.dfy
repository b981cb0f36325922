/** Failure-compatible values used across the model.  A network reply, a
    completion reply or a parse is an input of the model: it either
    succeeded with a value or failed with a message. */
module Wrappers {

  /** A value that may be absent: `null` or `undefined` in the source. */
  datatype Option<+T> = None | Some(value: T) {
    function GetOr(default: T): T {
      match this
      case Some(v) => v
      case None => default
    }
  }

  /** The outcome of an awaited call: its value, or the message it failed
      with (the empty message stands for a failure that carries none). */
  datatype Result<+T> = Ok(value: T) | Err(message: string)
}

/** The signed-in user the application shell hands to every page. */
module Accounts {

  datatype User = User(name: string, email: string)
}

/** The routes a page can navigate to. */
module Navigation {

  /** Targets of `router.push`.  The category route is kept abstract: its
      percent-encoding by `encodeURIComponent` is not modelled. */
  datatype Route = LoginRoute | DashboardRoute | QuizRoute(category: string)
}
