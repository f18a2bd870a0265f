/** One replica's scheduler (delayx.Scheduler) over the shared table: the loops of RunOnce, Abort and Stop.
    Each method is tied to the statement functions the cluster model takes its steps with. */
module DelayScheduler {
  import opened Options
  import opened Numbers
  import opened DelayedTasks

  class TaskTable {
    var rows: Rows

    constructor ()
      ensures rows == map[]
    {
      rows := map[];
    }
  }

  /** A row as the claim read it. */
  datatype Task = Task(id: TaskId, kind: string, attempts: nat)

  function TasksOf(rows: Rows, ids: seq<TaskId>): (tasks: seq<Task>)
    requires forall id :: id in ids ==> id in rows
    ensures |tasks| == |ids|
    ensures forall k :: 0 <= k < |ids| ==> tasks[k] == Task(ids[k], rows[ids[k]].kind, rows[ids[k]].attempts)
  {
    if ids == [] then []
    else [Task(ids[0], rows[ids[0]].kind, rows[ids[0]].attempts)] + TasksOf(rows, ids[1..])
  }

  lemma TasksOfConcat(rows: Rows, a: seq<TaskId>, b: seq<TaskId>)
    requires (forall id :: id in a ==> id in rows) && (forall id :: id in b ==> id in rows)
    ensures TasksOf(rows, a + b) == TasksOf(rows, a) + TasksOf(rows, b)
  {
  }

  lemma NoneTwice(a: seq<TaskId>, b: seq<TaskId>)
    requires forall i, j :: 0 <= i < j < |a| ==> a[i] != a[j]
    requires forall i, j :: 0 <= i < j < |b| ==> b[i] != b[j]
    requires forall id :: id in a ==> id !in b
    ensures forall i, j :: 0 <= i < j < |a + b| ==> (a + b)[i] != (a + b)[j]
  {
    forall i, j | 0 <= i < j < |a + b| ensures (a + b)[i] != (a + b)[j] {
      if i < |a| <= j {
        assert a[i] in a && b[j - |a|] in b;
      }
    }
  }

  lemma ClaimOneMore(was: Rows, done: seq<TaskId>, id: TaskId, at: int, now: int)
    requires id in was && id !in done
    ensures ClaimRows(was, done, at, now)[id] == was[id]
    ensures ClaimRows(was, done + [id], at, now) == ClaimRows(was, done, at, now)[id := Claimed(was[id], at, now)]
  {
  }

  function Ended(cause: Cause, why: Cause): Cause { if cause.NoCause? then why else cause }

  class Scheduler {
    const c: Config
    const db: TaskTable
    const batch: nat
    const longWorkers: nat
    var specs: map<string, bool>      // kind -> registered with Long()
    var running: map<TaskId, Cause>   // the tracked runs of this process, and why each one's context ended
    var longBusy: nat                 // long runs in the pool
    var inflight: nat

    constructor (c: Config, db: TaskTable, batch: nat, longWorkers: nat)
      ensures this.c == c && this.db == db && this.batch == batch && this.longWorkers == longWorkers
      ensures specs == map[] && running == map[] && longBusy == 0 && inflight == 0
    {
      this.c, this.db, this.batch, this.longWorkers := c, db, batch, longWorkers;
      specs, running, longBusy, inflight := map[], map[], 0, 0;
    }

    method Handle(kind: string, long: bool)
      modifies this`specs
      ensures specs == old(specs)[kind := long]
    {
      specs := specs[kind := long];
    }

    /** What a locking select may return: distinct due rows of the given kinds, at most `limit` of them.
        Rows locked elsewhere are skipped, so any such choice is possible. */
    ghost predicate Selected(ids: seq<TaskId>, limit: nat, long: bool, at: int)
      reads this, db
    {
      && |ids| <= limit
      && (forall i, j :: 0 <= i < j < |ids| ==> ids[i] != ids[j])
      && (forall id :: id in ids ==>
            && id in db.rows && db.rows[id].kind in specs && specs[db.rows[id].kind] == long
            && Due(c, db.rows[id], at))
    }

    /** The claiming transaction: every selected row is marked running, and kept as it was read. */
    method ClaimBatch(rows: seq<TaskId>, at: int, now: int) returns (claimed: seq<Task>)
      requires forall id :: id in rows ==> id in db.rows
      requires forall i, j :: 0 <= i < j < |rows| ==> rows[i] != rows[j]
      modifies db
      ensures db.rows == ClaimRows(old(db.rows), rows, at, now)
      ensures claimed == TasksOf(old(db.rows), rows)
    {
      ghost var was := db.rows;
      claimed := [];
      var i := 0;
      while i < |rows|
        invariant 0 <= i <= |rows|
        invariant db.rows == ClaimRows(was, rows[..i], at, now)
        invariant |claimed| == i && forall k :: 0 <= k < i ==> claimed[k] == TasksOf(was, rows)[k]
      {
        var id := rows[i];
        assert id in rows && id !in rows[..i];
        assert rows[..i + 1] == rows[..i] + [id];
        ClaimOneMore(was, rows[..i], id, at, now);
        claimed := claimed + [Task(id, db.rows[id].kind, db.rows[id].attempts)];
        db.rows := db.rows[id := Claimed(db.rows[id], at, now)];
        i := i + 1;
      }
      assert rows[..|rows|] == rows;
    }

    /** The dispatch of a claimed batch: a long task goes to the pool, anything else runs here, in order. */
    method Dispatch(claimed: seq<Task>, ghost short: seq<Task>, ghost long: seq<Task>)
      returns (here: seq<Task>, pooled: seq<Task>)
      requires claimed == short + long
      requires forall t :: t in short ==> t.kind in specs && !specs[t.kind]
      requires forall t :: t in long ==> t.kind in specs && specs[t.kind]
      requires longBusy + |long| <= longWorkers
      modifies this`longBusy
      ensures here == short && pooled == long
      ensures longBusy == old(longBusy) + |long| <= longWorkers
    {
      here, pooled := [], [];
      var i := 0;
      while i < |claimed|
        invariant 0 <= i <= |claimed|
        invariant here == short[..Min(i, |short|)]
        invariant pooled == long[..i - Min(i, |short|)]
        invariant longBusy == old(longBusy) + |pooled|
      {
        var t := claimed[i];
        if i < |short| {
          assert t == short[i];
        } else {
          assert t == long[i - |short|];
        }
        if t.kind in specs && specs[t.kind] {
          assert longBusy < longWorkers;  // the send into the pool does not block
          longBusy := longBusy + 1;
          pooled := pooled + [t];
        } else {
          here := here + [t];
        }
        i := i + 1;
      }
    }

    /** One round of RunOnce: the transaction that claims, then the dispatch. `short` and `long` are the
        results of the two selects; the long one runs only when the pool has room. Short tasks run here in
        the order of the select; every long task finds room in the pool, so the poller never waits for it. */
    method RunOnce(short: seq<TaskId>, long: seq<TaskId>, at: int, now: int)
      returns (here: seq<Task>, pooled: seq<Task>)
      requires longBusy <= longWorkers
      requires Selected(short, batch, false, at)
      requires if longBusy < longWorkers then Selected(long, longWorkers - longBusy, true, at) else long == []
      modifies db, this`longBusy, this`inflight
      ensures db.rows == ClaimRows(old(db.rows), short + long, at, now)
      ensures here == TasksOf(old(db.rows), short)
      ensures pooled == TasksOf(old(db.rows), long)
      ensures longBusy == old(longBusy) + |long| <= longWorkers
      ensures inflight == old(inflight) + |short| + |long|
    {
      hide Due, ClaimRows, TasksOf;
      ghost var was := db.rows;
      NoneTwice(short, long);
      TasksOfConcat(was, short, long);
      var claimed := ClaimBatch(short + long, at, now);
      inflight := inflight + |claimed|;
      here, pooled := Dispatch(claimed, TasksOf(was, short), TasksOf(was, long));
    }

    /** The write of Abort after it read `ids`: the rows are cancelled, and the runs of this process end at once. */
    method Abort(ids: seq<TaskId>, now: int)
      modifies db, this`running
      ensures db.rows == AbortRows(old(db.rows), (set id | id in ids), now)
      ensures running == map id | id in old(running) ::
                           if id in ids then Ended(old(running)[id], Aborted) else old(running)[id]
    {
      ghost var was := running;
      db.rows := AbortRows(db.rows, (set id | id in ids), now);
      var i := 0;
      while i < |ids|
        modifies this`running
        invariant 0 <= i <= |ids|
        invariant running == map id | id in was :: if id in ids[..i] then Ended(was[id], Aborted) else was[id]
      {
        assert ids[..i + 1] == ids[..i] + [ids[i]];
        if ids[i] in running {
          running := running[ids[i] := Ended(running[ids[i]], Aborted)];
        }
        i := i + 1;
      }
      assert ids[..|ids|] == ids;
    }

    /** Stop ends every tracked run with the shutdown cause; a run that was ended before keeps its cause. */
    method Stop()
      modifies this`running
      ensures running == map id | id in old(running) :: Ended(old(running)[id], Shutdown)
    {
      ghost var was := running;
      var left := running.Keys;
      while left != {}
        invariant left <= was.Keys
        invariant running == map id | id in was :: if id in left then was[id] else Ended(was[id], Shutdown)
        decreases left
      {
        var id :| id in left;
        running := running[id := Ended(running[id], Shutdown)];
        left := left - {id};
      }
    }

    /** The end of a run that began at `began`: which outcome it is, and the guarded statement that writes it, under a
        context that is over ten seconds after the beginning. Returns how many rows it changed. */
    method Finish(t: Task, cause: Cause, err: bool, ctxOver: bool, began: int, now: int, answers: bool)
      returns (result: Result, n: nat)
      requires inflight > 0
      modifies db, this`inflight, this`running
      ensures result == Decide(c, cause, err, ctxOver, t.attempts)
      ensures db.rows == if Written(began, now, answers)
                         then WriteOutcome(old(db.rows), t.id, result, t.attempts, now) else old(db.rows)
      ensures n == if Written(began, now, answers) && t.id in old(db.rows) && old(db.rows)[t.id].status.Running?
                   then 1 else 0
      ensures inflight == old(inflight) - 1 && running == old(running) - {t.id}
    {
      running := running - {t.id};
      if cause.Aborted? {
        result := AbortedRun;
      } else if err && (cause.Shutdown? || ctxOver) {
        result := Requeued;
      } else if !err {
        result := Ok;
      } else {
        var attempts := t.attempts + 1;
        result := if attempts >= c.maxAttempts then FailedForGood else Retry;
      }
      n := 0;
      if answers && now <= began + BOOKKEEPING && t.id in db.rows && db.rows[t.id].status.Running? {
        db.rows := db.rows[t.id := Outcome(db.rows[t.id], result, t.attempts, now)];
        n := 1;
      }
      inflight := inflight - 1;
    }
  }
}
