/** A job of the queue under a fixed id: adding it twice does nothing, a failing attempt is repeated a few times,
  * and a job that is over is remembered for a while.
  */
module JobQueue {
  const ATTEMPTS := 5

  /** Over: finished or failed for good, and still remembered. */
  datatype Job = Absent | Waiting(failures: nat) | Over

  function Added(job: Job): Job {
    if job == Absent then Waiting(0) else job
  }

  function Failed(job: Job): Job {
    if !job.Waiting? then job
    else if job.failures + 1 >= ATTEMPTS then Over
    else Waiting(job.failures + 1)
  }

  function Finished(job: Job): Job {
    if job.Waiting? then Over else job
  }

  function Forgotten(job: Job): Job {
    if job.Over? then Absent else job
  }
}
