/**
 * The Vera/Luup job-status codes a controller reports for a device, and the
 * three-way verdict the poll loop draws from each of them.
 */
module JobStatus {

  const STATE_NO_JOB: int := -1
  const STATE_JOB_WAITING_TO_START: int := 0
  const STATE_JOB_IN_PROGRESS: int := 1
  const STATE_JOB_ERROR: int := 2
  const STATE_JOB_ABORTED: int := 3
  const STATE_JOB_DONE: int := 4
  const STATE_JOB_WAITING_FOR_CALLBACK: int := 5
  const STATE_JOB_REQUEUE: int := 6
  const STATE_JOB_PENDING_DATA: int := 7

  /** Pending: check again later. Success: update and notify. Error: drop. */
  datatype JobClass = Pending | Success | Error

  /**
   * The classification of a job-status code, tested in the order the
   * dispatcher tests it: the five in-progress codes first, then anything
   * that is neither "done" nor "no job" is an error.
   * The contract spells the classes out with the raw Luup numbers, so it
   * also pins the constants above to their published values.
   */
  function Classify(state: int): (c: JobClass)
    ensures c == Pending <==> state in {0, 1, 5, 6, 7}
    ensures c == Success <==> state in {-1, 4}
    ensures c == Error <==> state !in {-1, 0, 1, 4, 5, 6, 7}
  {
    if state == STATE_JOB_WAITING_TO_START
       || state == STATE_JOB_IN_PROGRESS
       || state == STATE_JOB_WAITING_FOR_CALLBACK
       || state == STATE_JOB_REQUEUE
       || state == STATE_JOB_PENDING_DATA
    then Pending
    else if !(state == STATE_JOB_DONE || state == STATE_NO_JOB) then Error
    else Success
  }
}
