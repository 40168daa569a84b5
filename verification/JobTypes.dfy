/** Types shared by the whole model: optional values and the states a job file can be in. */
module JobTypes {

  datatype Option<+T> = None | Some(value: T)

  type JobId = nat

  // The directories of a queue, in the order in which a scan visits them. Kill holds kill orders,
  // never job files, and Unk is the answer of a scan that did not meet the job.
  datatype JobState = Unk | Hold | Pend | Run | Tied | Kill | Done

  // The moves a job file may make from one state directory to another.
  predicate Edge(a: JobState, b: JobState) {
    match a
    case Hold => b == Pend
    case Pend => b == Run || b == Tied || b == Done
    case Run => b == Pend || b == Tied || b == Done
    case Tied => b == Done
    case _ => false
  }
}
