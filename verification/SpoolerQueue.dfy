/** The shared memory segment of Lab 8 and its semaphores, updated in place. */
module SpoolerQueue {
  import opened SpoolerModel

  const MAX_QUEUE := 10
  const JOB_LEN := 10

  class SharedQueue {
    const jobs: array2<char>
    var head: int
    var tail: int

    ghost function Row(i: int): Job
      requires 0 <= i < jobs.Length0
      reads jobs
    {
      seq(jobs.Length1, j requires 0 <= j < jobs.Length1 reads jobs => jobs[i, j])
    }

    /** The ring the segment holds. */
    ghost function View(): Ring
      reads this, jobs
    {
      Ring(seq(jobs.Length0, i requires 0 <= i < jobs.Length0 reads jobs => Row(i)), head, tail)
    }

    ghost predicate Valid()
      reads this, jobs
    {
      0 <= head < jobs.Length0 && 0 <= tail < jobs.Length0
    }

    constructor ()
      ensures Valid() && fresh(jobs) && jobs.Length0 == MAX_QUEUE && jobs.Length1 == JOB_LEN
      ensures head == tail == 0
    {
      jobs := new char[MAX_QUEUE, JOB_LEN]((_, _) => '\0');
      head, tail := 0, 0;
    }

    method CopyCharacter(k: nat, c: char)
      requires Valid() && k < jobs.Length1
      modifies jobs
      ensures Valid() && View() == WriteChar(old(View()), k, c)
    {
      jobs[tail, k] := c;
      assert Row(tail) == old(Row(tail))[k := c];
      assert forall i :: 0 <= i < jobs.Length0 && i != tail ==> Row(i) == old(Row(i));
    }

    /** A user's critical section: the job replaces the slot at tail and tail moves on. */
    method AddJob(job: array<char>)
      requires Valid() && job.Length == jobs.Length1
      modifies this`tail, jobs
      ensures Valid()
      ensures View() == AdvanceTail(old(View()).(jobs := old(View()).jobs[old(tail) := job[..]]))
    {
      ghost var before := View();
      var i := 0;
      assert job[..0] + before.jobs[tail][0..] == before.jobs[tail];
      while i < job.Length
        invariant 0 <= i <= job.Length && Valid() && tail == old(tail)
        invariant job[..] == old(job[..])
        invariant View() == before.(jobs := before.jobs[tail := job[..i] + before.jobs[tail][i..]])
      {
        ghost var row := job[..i] + before.jobs[tail][i..];
        CopyCharacter(i, job[i]);
        assert job[..i + 1] == job[..i] + [job[i]];
        assert row[i := job[i]] == job[..i + 1] + before.jobs[tail][i + 1..];
        i := i + 1;
      }
      assert job[..i] + before.jobs[tail][i..] == job[..];
      tail := (tail + 1) % jobs.Length0;
    }

    /** A printer's critical section: head moves on. */
    method RetireJob()
      requires Valid()
      modifies this`head
      ensures Valid() && View() == AdvanceHead(old(View()))
    {
      head := (head + 1) % jobs.Length0;
    }
  }
}
