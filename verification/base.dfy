/** Shared result types of the publisher model.

    The controller never lets a plugin's exception escape, but a few programmer
    errors do escape it: a plugin id registered twice in the run report
    (`ValueError`), a missing plugin or action id (`KeyError`), pulling from a
    generator that has already ended (`StopIteration`) and using the run's
    context or a plugin proxy that is still `None`. Operations that can hit
    one of these return an `Outcome`: the state reached when the exception was
    raised, plus the fault itself.
 */
module Base {

  datatype Option<+T> = None | Some(value: T)
  {
    function GetOr(default: T): T
    {
      match this
      case Some(v) => v
      case None => default
    }
  }

  /** The exceptions that propagate out of the controller. */
  datatype Fault =
    | DuplicatePlugin(pluginId: string)  // `ValueError` from the report maker
    | LookupFailure                      // `KeyError` on a plugin, action or record id
    | IteratorExhausted                  // `StopIteration` from a finished publish iterator
    | IteratorMissing                    // `next(None)` before the first reset
    | NoContext                          // attribute access on a pyblish context or plugin proxy that is still `None`

  /** The state an operation reached, and the fault that ended it early, if any. */
  datatype Outcome<+S> = Outcome(state: S, fault: Option<Fault>)
  {
    predicate Ok()
    {
      fault.None?
    }
  }
}
