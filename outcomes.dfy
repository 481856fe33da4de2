/** The outcome taxonomy of a Wayfire test run: the five `Status` kinds, their
    value-based equality, and the `(Status, optional message)` pair that every
    test step returns. */
module Outcomes {

  /** Python's `Optional[str]`: `None` or a value. */
  datatype Option<+T> = None | Some(value: T)

  /** The closed enumeration of outcome kinds. */
  datatype Status = OK | WRONG | GUI_WRONG | CRASHED | SKIPPED {

    /** The enumeration value: the machine name and the display colour.
        Green marks success, yellow a skip, red every kind of failure. */
    function Value(): (v: (string, string))
      ensures v.0 != ""
      ensures v.1 == "green" <==> this == OK
      ensures v.1 == "yellow" <==> this == SKIPPED
      ensures v.1 == "red" <==> this in {WRONG, GUI_WRONG, CRASHED}
    {
      match this
      case OK => ("OK", "green")
      case WRONG => ("WRONG", "red")
      case GUI_WRONG => ("GUI_WRONG", "red")
      case CRASHED => ("CRASHED", "red")
      case SKIPPED => ("SKIPPED", "yellow")
    }
  }

  /** The harness's `==` on statuses: it compares the value pairs, not
      identity. No two kinds share a value pair, so this is equality of kinds. */
  predicate SameStatus(a: Status, b: Status): (r: bool)
    ensures r <==> a == b
  {
    a.Value() == b.Value()
  }

  /** What `prepare`, `_run` and `run` return. */
  datatype Outcome = Outcome(status: Status, message: Option<string>)

  /** WRONG and GUI_WRONG share their colour but are different outcomes. */
  lemma WrongDiffersFromGuiWrong()
    ensures WRONG.Value().1 == GUI_WRONG.Value().1
    ensures !SameStatus(WRONG, GUI_WRONG)
  {
  }

  /** A skip is not a success: OK and SKIPPED differ in name and in colour. */
  lemma OkDiffersFromSkipped()
    ensures OK.Value().0 != SKIPPED.Value().0
    ensures OK.Value().1 != SKIPPED.Value().1
    ensures !SameStatus(OK, SKIPPED)
  {
  }
}
