// The two critical sections of the pool, run on the ring buffer itself: a job is queued
// as two words and taken as two words, and whole jobs come back in the order they went in.

module PoolQueue {
  import opened Sequences
  import opened Pool
  import opened RingQueue

  ghost predicate HoldsJobs(q: Queue<Word>, jobs: seq<Job>)
    reads q, q.data
  {
    && q.Valid() && q.Contents() == Flatten(jobs)
    && forall i :: 0 <= i < |jobs| ==> |jobs[i]| == UNIX_WORKERS.slots
  }

  method QueueJob(q: Queue<Word>, job: Word, args: Word, ghost jobs: seq<Job>)
    requires HoldsJobs(q, jobs) && q.size + 1 < MAX_CAPACITY
    modifies q, q.data
    ensures HoldsJobs(q, jobs + [[job, args]]) && q.size == old(q.size) + 2
    ensures q.data == old(q.data) || fresh(q.data)
  {
    q.Push(job);
    q.Push(args);
    FlattenAppend(jobs, [job, args]);
  }

  method TakeJob(q: Queue<Word>, ghost jobs: seq<Job>) returns (empty: bool, function_p: Word, args: Word)
    requires HoldsJobs(q, jobs)
    modifies q`front, q`size
    ensures empty <==> jobs == []
    ensures !empty ==> [function_p, args] == jobs[0] && HoldsJobs(q, jobs[1..])
  {
    function_p, args := 0, 0;
    empty := q.IsEmpty();
    HeadOfJobs(jobs);
    if !empty {
      function_p := q.Next();
      args := q.Next();
    }
  }

  // Two words are in the queue for the first job, and what follows them is the other jobs.
  lemma {:induction false} HeadOfJobs(jobs: seq<Job>)
    requires forall i :: 0 <= i < |jobs| ==> |jobs[i]| == 2
    ensures Flatten(jobs) == [] <==> jobs == []
    ensures jobs != [] ==>
      && |Flatten(jobs)| >= 2 && jobs[0] == [Flatten(jobs)[0], Flatten(jobs)[1]]
      && Flatten(jobs)[1..][1..] == Flatten(jobs[1..])
  {
    if jobs != [] {
      var words := Flatten(jobs);
      assert |jobs[0]| == 2 && words == jobs[0] + Flatten(jobs[1..]);
      assert jobs[0] == [words[0], words[1]];
    }
  }
}
