// Task statuses, the groups the scheduler tests for, their levels, and the
// table of status changes the task tables accept.
module Statuses {
  datatype Status = Waiting | Running | Canceled | Timeout | Failed | Pass | Success

  /** Position in the declaration order of all statuses; READY is 1 and never a task status. */
  function Level(s: Status): nat {
    match s
    case Waiting => 0
    case Running => 2
    case Canceled => 3
    case Timeout => 4
    case Failed => 5
    case Pass => 6
    case Success => 7
  }

  predicate Interrupt(s: Status) { s.Canceled? || s.Timeout? || s.Failed? }
  predicate Done(s: Status) { s.Pass? || s.Success? }
  predicate End(s: Status) { Interrupt(s) || Done(s) }
  predicate AutoRerun(s: Status) { s.Timeout? || s.Failed? }

  /** The status changes a row of a task table accepts; every other update leaves the row alone. */
  predicate CanChange(from: Status, to: Status) {
    match from
    case Waiting => to.Running? || to.Success?
    case Running => End(to)
    case Canceled => to.Waiting?
    case Timeout => to.Failed? || to.Success?
    case _ => false
  }

  function Changed(from: Status, to: Status): Status {
    if CanChange(from, to) then to else from
  }

  /** The same table for the job row. */
  predicate JobCanChange(from: Status, to: Status) {
    match from
    case Waiting => to.Running? || Interrupt(to) || to.Success?
    case Running => Interrupt(to) || to.Success?
    case Canceled => to.Waiting?
    case Timeout => to.Failed? || to.Success? || to.Waiting?
    case Failed => to.Waiting? || to.Canceled?
    case Success => to.Waiting?
    case Pass => false
  }

  /** What one round tells the job-level fold. */
  datatype Code = NoNext | HaveNext | CodeFailed
}
