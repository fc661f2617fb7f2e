/** The store the scheduler drives: rows by id, a queue with leases, an audit log.
    Reads hand out copies, so a caller's list goes stale while it works. */
module Stores {
  import opened Model
  import opened Entities
  import opened Steps

  /** A row is found under its own id. */
  type RunRows = m: map<int, Run> | forall id :: id in m ==> m[id].id == id
  type JobRows = m: map<int, Job> | forall id :: id in m ==> m[id].id == id

  class Store {
    var runs: RunRows
    var nextRun: int
    var jobs: JobRows
    var nextJob: int
    var queue: map<int, Row>
    var steps: map<(int, int), seq<Step>>
    var events: seq<Event>

    /** The store's part of the state. */
    ghost function Rows(): (w: World)
      reads this
    {
      World(runs, nextRun, jobs, nextJob, queue, steps, events, map[], map[], map[])
    }

    constructor ()
      ensures Rows() == EmptyWorld
    {
      runs, nextRun, jobs, nextJob := map[], 1, map[], 1;
      queue, steps, events := map[], map[], [];
    }

    method RecordEvent(e: Event)
      modifies this`events
      ensures events == old(events) + [e]
    {
      events := events + [e];
    }

    method CreateRun(createdAt: int, forkPR: bool) returns (id: int)
      modifies this`runs, this`nextRun
      ensures id == old(nextRun)
      ensures Rows() == Steps.CreateRun(old(Rows()), createdAt, forkPR)
    {
      id := nextRun;
      runs := runs[id := Run(id, 1, createdAt, forkPR, false, Queued, NoConclusion, None, None, None)];
      nextRun := nextRun + 1;
    }

    method UpdateRun(r: Run) returns (found: bool)
      modifies this`runs
      ensures found <==> r.id in old(runs)
      ensures runs == if found then old(runs)[r.id := r] else old(runs)
    {
      found := r.id in runs;
      if found {
        runs := runs[r.id := r];
      }
    }

    /** The store allocates the id. */
    method CreateJob(j: Job) returns (created: Job)
      modifies this`jobs, this`nextJob
      ensures created == j.(id := old(nextJob))
      ensures jobs == old(jobs)[created.id := created] && nextJob == old(nextJob) + 1
    {
      created := j.(id := nextJob);
      jobs := jobs[created.id := created];
      nextJob := nextJob + 1;
    }

    /** Writes the row; completing a job takes its queue row too. */
    method UpdateJob(j: Job) returns (found: bool)
      modifies this`jobs, this`queue
      ensures found <==> j.id in old(jobs)
      ensures Rows() == if found then PutJob(old(Rows()), j) else old(Rows())
    {
      found := j.id in jobs;
      if found {
        jobs := jobs[j.id := j];
        if j.status.Completed? {
          queue := queue - {j.id};
        }
      }
    }

    method ListJobsForRun(runID: int) returns (out: seq<Job>)
      ensures out == JobsOf(Rows(), runID)
    {
      out := [];
      var n := 0;
      while n < nextJob
        invariant 0 <= n && (n <= nextJob || n == 0)
        invariant out == JobsBelow(jobs, n, runID)
      {
        if n in jobs && jobs[n].runID == runID {
          out := out + [jobs[n]];
        }
        n := n + 1;
      }
    }

    method ListJobsInConcurrencyGroup(group: string) returns (out: seq<Job>)
      ensures out == LiveBelow(jobs, nextJob, group)
    {
      out := [];
      var n := 0;
      while n < nextJob
        invariant 0 <= n && (n <= nextJob || n == 0)
        invariant out == LiveBelow(jobs, n, group)
      {
        if n in jobs && jobs[n].group == group && !jobs[n].status.Completed? {
          out := out + [jobs[n]];
        }
        n := n + 1;
      }
    }

    /** A queue row is made where there is none; one that is there stays. */
    method Enqueue(j: Job, queuedAt: int, notBefore: Option<int>) returns (found: bool)
      modifies this`jobs, this`queue
      ensures found <==> j.id in old(jobs)
      ensures Rows() == if found then Steps.Enqueue(old(Rows()), j, queuedAt, notBefore) else old(Rows())
    {
      found := j.id in jobs;
      if found && j.id !in queue {
        var start := if notBefore.Some? then notBefore.value else queuedAt;
        queue := queue[j.id := Row(j.labels, j.group, queuedAt, start, false, "", 0)];
        var stored := jobs[j.id].(status := Queued, labels := j.labels, group := j.group);
        if stored.queuedAt.None? {
          stored := stored.(queuedAt := Some(queuedAt));
        }
        jobs := jobs[j.id := stored];
      }
    }

    method DropFromQueue(id: int)
      modifies this`queue
      ensures queue == old(queue) - {id}
    {
      queue := queue - {id};
    }

    /** Claims some eligible row; None when there is none. */
    method Dequeue(runner: string, labels: seq<string>, now: int, ttl: int) returns (claimed: Option<Job>)
      modifies this`jobs, this`queue
      ensures claimed.None? ==> Rows() == old(Rows()) && forall id :: !Eligible(old(Rows()), id, labels, now)
      ensures claimed.Some? ==> exists id | Eligible(old(Rows()), id, labels, now)
        :: Rows() == Steps.Dequeue(old(Rows()), runner, id, now, ttl) && claimed.value == jobs[id]
    {
      if id :| id in queue && id in jobs && !queue[id].leased && queue[id].notBefore <= now
               && LabelsSatisfied(labels, queue[id].labels)
      {
        assert Eligible(Rows(), id, labels, now);
        queue := queue[id := queue[id].(leased := true, runnerID := runner, leaseExpiresAt := now + ttl)];
        jobs := jobs[id := jobs[id].(status := InProgress, runnerID := runner, leaseExpiresAt := Some(now + ttl),
                                     startedAt := Some(now), setupCompletedAt := None)];
        claimed := Some(jobs[id]);
      } else {
        claimed := None;
      }
    }

    method Heartbeat(runner: string, id: int, now: int, ttl: int) returns (held: bool)
      modifies this`jobs, this`queue
      ensures Outcome(Rows(), held) == Steps.Heartbeat(old(Rows()), runner, id, now, ttl)
    {
      held := id in queue && id in jobs && queue[id].leased && queue[id].runnerID == runner;
      if held {
        queue := queue[id := queue[id].(leaseExpiresAt := now + ttl)];
        jobs := jobs[id := jobs[id].(leaseExpiresAt := Some(now + ttl))];
      }
    }

    method ReleaseLease(runner: string, id: int, reason: CancelReason) returns (held: bool)
      modifies this`jobs, this`queue
      ensures held <==> reason.Valid() && Leases(old(Rows()), runner, id)
      ensures Rows() == if held then Steps.ReleaseLease(old(Rows()), id) else old(Rows())
    {
      held := reason.Valid() && id in queue && id in jobs && queue[id].leased && queue[id].runnerID == runner;
      if held {
        Requeue(id);
      }
    }

    /** Drops the lease of a queue row and marks its job queued again. */
    method Requeue(id: int)
      requires id in queue && id in jobs
      modifies this`jobs, this`queue
      ensures queue == old(queue)[id := Unleased(old(queue)[id])]
      ensures jobs == old(jobs)[id := Unclaimed(old(jobs)[id])]
    {
      queue := queue[id := queue[id].(leased := false, runnerID := "", leaseExpiresAt := 0)];
      jobs := jobs[id := jobs[id].(status := Queued, runnerID := "", leaseExpiresAt := None, startedAt := None,
                                   setupCompletedAt := None)];
    }

    /** Every expired lease is dropped; the copies returned still name the runner. */
    method ReapExpiredLeases(now: int) returns (reaped: seq<Job>)
      requires forall id :: id in queue ==> id in jobs && 0 <= id < nextJob
      modifies this`jobs, this`queue
      ensures Rows() == DropExpiredLeases(old(Rows()), now)
      ensures reaped == ReapedBelow(old(Rows()), nextJob, now)
    {
      hide DroppedBelow, DropExpiredLeases;
      reaped := [];
      ghost var before := Rows();
      NoneDroppedYet(before, now);
      var n := 0;
      while n < nextJob
        invariant 0 <= n && (n <= nextJob || n == 0)
        invariant Rows() == DroppedBelow(before, n, now)
        invariant reaped == ReapedBelow(before, n, now)
        invariant forall id :: id in before.queue ==> id in before.jobs
      {
        OneMoreDropped(before, n, now);
        if n in jobs && n in queue && queue[n].leased && queue[n].leaseExpiresAt <= now {
          var lost := queue[n].runnerID;
          Requeue(n);
          reaped := reaped + [jobs[n].(runnerID := lost)];
        }
        n := n + 1;
      }
      AllDropped(before, n, now);
    }
  }

  /** The state once the expired leases of the jobs below n are dropped. */
  ghost function DroppedBelow(w: World, n: int, now: int): World {
    w.(queue := map id | id in w.queue :: if id < n && Expired(w.queue[id], now) then Unleased(w.queue[id]) else w.queue[id],
       jobs := map id | id in w.jobs ::
         if id < n && id in w.queue && Expired(w.queue[id], now) then Unclaimed(w.jobs[id]) else w.jobs[id])
  }

  lemma NoneDroppedYet(w: World, now: int)
    requires forall id :: id in w.queue ==> id in w.jobs && 0 <= id < w.nextJob
    ensures DroppedBelow(w, 0, now) == w
  {
    assert DroppedBelow(w, 0, now).queue == w.queue;
    assert DroppedBelow(w, 0, now).jobs == w.jobs;
  }

  lemma AllDropped(w: World, n: int, now: int)
    requires n >= w.nextJob && forall id :: id in w.queue ==> id in w.jobs && 0 <= id < w.nextJob
    ensures DroppedBelow(w, n, now) == DropExpiredLeases(w, now)
  {
    assert DroppedBelow(w, n, now).queue == DropExpiredLeases(w, now).queue;
    assert DroppedBelow(w, n, now).jobs == DropExpiredLeases(w, now).jobs;
  }

  lemma OneMoreDropped(w: World, n: int, now: int)
    ensures var d := DroppedBelow(w, n, now);
      && (n in d.queue <==> n in w.queue) && (n in d.jobs <==> n in w.jobs)
      && (n in d.queue ==> d.queue[n] == w.queue[n]) && (n in d.jobs ==> d.jobs[n] == w.jobs[n])
      && DroppedBelow(w, n + 1, now) ==
           if n in w.queue && n in w.jobs && Expired(w.queue[n], now)
           then d.(queue := d.queue[n := Unleased(d.queue[n])], jobs := d.jobs[n := Unclaimed(d.jobs[n])])
           else if n in w.queue && Expired(w.queue[n], now) then d.(queue := d.queue[n := Unleased(d.queue[n])])
           else d
  {
    var d, e := DroppedBelow(w, n, now), DroppedBelow(w, n + 1, now);
    if n in w.queue && Expired(w.queue[n], now) {
      assert e.queue == d.queue[n := Unleased(d.queue[n])];
      if n in w.jobs {
        assert e.jobs == d.jobs[n := Unclaimed(d.jobs[n])];
      } else {
        assert e.jobs == d.jobs;
      }
    } else {
      assert e.queue == d.queue;
      assert e.jobs == d.jobs;
    }
  }
}
