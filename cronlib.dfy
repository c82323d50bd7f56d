/**
 * The cron library the controllers call (github.com/robfig/cron/v3), reduced to
 * the two operations they use: parsing a schedule string and asking a parsed
 * schedule for its next activation after a given instant. Instants are integers.
 */
module CronLib {
  import opened Wrappers

  /** A parsed schedule: the time zone it is evaluated in and its cron fields. */
  datatype Schedule = Schedule(location: string, expression: string)

  /**
   * `parse` is the standard five-field parser with descriptors; `None` is a parse
   * error. `next(s, t)` is the first activation of `s` after `t`; `None` stands for
   * Go's zero time, which the library returns when no activation exists.
   */
  datatype CronLibrary = CronLibrary(
    parse: string -> Option<Schedule>,
    next: (Schedule, int) -> Option<int>)
  {
    /** The library's promise: an activation it reports lies strictly after the instant asked about. */
    ghost predicate NextIsLater()
    {
      forall s, t :: next(s, t).Some? ==> next(s, t).value > t
    }
  }
}
