/** The delayed-task table and its replicas (delayx).

    Every database statement of the scheduler is one atomic event over a shared
    clock. A claim hands the row to a holder; the holder keeps what it read
    when it claimed the row (the attempts) until it writes the outcome. Nothing
    ties the outcome to the claim except the row being running, so the model
    keeps stale holders and lets them write. */
module DelayedTasks {
  import opened Options
  import opened Numbers

  type TaskId = nat
  type HolderId = nat
  type Replica = nat

  datatype Status = Pending | Running | Done | Failed | Cancelled

  predicate Terminal(s: Status) { s.Done? || s.Failed? || s.Cancelled? }

  /** A row of delayed_task; times are milliseconds. */
  datatype Row = Row(kind: string, key: string, runAt: int, status: Status,
                     attempts: nat, lockedAt: Option<int>, updatedAt: int)

  type Rows = map<TaskId, Row>

  datatype Settings = Config(heartbeat: nat, maxAttempts: nat, retention: nat)
  type Config = c: Settings | c.heartbeat > 0 && c.maxAttempts > 0 witness Config(30000, 5, 604800000)

  function Stale(c: Config): nat { 3 * c.heartbeat }

  const MINUTE: nat := 60000
  const HOUR: nat := 3600000

  /** The wait after the given number of failed attempts: a minute shifted left, capped at an hour. */
  function Backoff(attempts: nat): (wait: nat)
    requires attempts >= 1
  {
    var d := MINUTE * Pow2(Min(attempts - 1, 10));
    if d > HOUR then HOUR else d
  }

  // ------------------------------------------------------------------
  // Statements on the table
  // ------------------------------------------------------------------

  /** What a claim may take at time `at`: a due pending row, or a running row without a heartbeat for stale(). */
  predicate Due(c: Config, r: Row, at: int) {
    || (r.status.Pending? && r.runAt <= at)
    || (r.status.Running? && r.lockedAt.Some? && r.lockedAt.value < at - Stale(c))
  }

  function Claimed(r: Row, at: int, now: int): Row {
    r.(status := Running, lockedAt := Some(at), updatedAt := now)
  }

  function ClaimRows(rows: Rows, picked: seq<TaskId>, at: int, now: int): Rows {
    map id | id in rows :: if id in picked then Claimed(rows[id], at, now) else rows[id]
  }

  function CancelRows(rows: Rows, kind: string, key: string, now: int): Rows {
    map id | id in rows ::
      if rows[id].kind == kind && rows[id].key == key && rows[id].status.Pending?
      then rows[id].(status := Cancelled, updatedAt := now) else rows[id]
  }

  function AbortRows(rows: Rows, ids: set<TaskId>, now: int): Rows {
    map id | id in rows ::
      if id in ids && (rows[id].status.Pending? || rows[id].status.Running?)
      then rows[id].(status := Cancelled, lockedAt := None, updatedAt := now) else rows[id]
  }

  function BeatRow(rows: Rows, id: TaskId, now: int): Rows {
    if id in rows && rows[id].status.Running?
    then rows[id := rows[id].(lockedAt := Some(now), updatedAt := now)] else rows
  }

  /** Why a run's context ended, the first cause winning. */
  datatype Cause = NoCause | Aborted | Shutdown | Deadline | Stopped

  datatype Result = Ok | AbortedRun | Requeued | Retry | FailedForGood | NoHandler

  /** Which outcome a finished run writes. `ctxOver`: the poller's own context has ended. */
  function Decide(c: Config, cause: Cause, err: bool, ctxOver: bool, attempts: nat): Result {
    if cause.Aborted? then AbortedRun
    else if err && (cause.Shutdown? || ctxOver) then Requeued
    else if !err then Ok
    else if attempts + 1 >= c.maxAttempts then FailedForGood
    else Retry
  }

  function Outcome(r: Row, result: Result, attempts: nat, now: int): Row {
    match result
    case AbortedRun => r.(status := Cancelled, lockedAt := None, updatedAt := now)
    case Requeued => r.(status := Pending, lockedAt := None, runAt := now, updatedAt := now)
    case Ok => r.(status := Done, attempts := attempts + 1, lockedAt := None, updatedAt := now)
    case FailedForGood => r.(status := Failed, attempts := attempts + 1, lockedAt := None, updatedAt := now)
    case Retry => r.(status := Pending, attempts := attempts + 1, lockedAt := None,
                     runAt := now + Backoff(attempts + 1), updatedAt := now)
    case NoHandler => r.(status := Pending, lockedAt := None, updatedAt := now)
  }

  /** The outcome statement: guarded by the row being running, and by nothing else. */
  function WriteOutcome(rows: Rows, id: TaskId, result: Result, attempts: nat, now: int): Rows {
    if id in rows && rows[id].status.Running?
    then rows[id := Outcome(rows[id], result, attempts, now)] else rows
  }

  /** The context the outcome is written under is made when the run begins, so it is over ten seconds later. */
  predicate Written(began: int, now: int, answers: bool) { answers && now <= began + BOOKKEEPING }

  predicate Expired(c: Config, r: Row, now: int) {
    (r.status.Done? || r.status.Cancelled?) && r.updatedAt < now - c.retention
  }

  // ------------------------------------------------------------------
  // The cluster
  // ------------------------------------------------------------------

  /** Queued in a claimed batch, in the handler (tracked, with a heartbeat), or returned and about to write. */
  datatype Phase = Queued | InHandler | Returned(err: bool)

  /** began: when the run began, and with it the ten seconds its bookkeeping context lives. */
  datatype Holder = Holder(replica: Replica, task: TaskId, attempts: nat, phase: Phase, cause: Cause, began: int)

  const BOOKKEEPING: nat := 10000

  datatype World = World(
    rows: Rows, nextId: TaskId,
    holders: map<HolderId, Holder>, nextHolder: HolderId,
    kinds: map<Replica, set<string>>,  // what each replica registered with Handle
    stopping: set<Replica>,            // replicas whose poller context has ended
    now: int)

  function KindsOf(w: World, r: Replica): set<string> { if r in w.kinds then w.kinds[r] else {} }

  function Init(now: int): World { World(map[], 0, map[], 0, map[], {}, now) }

  datatype Event =
    | Tick(to: int)
    | Handle(replica: Replica, kind: string)
    | Schedule(kind: string, key: string, runAt: int)
    | Cancel(kind: string, key: string)
    | Abort(ids: set<TaskId>)                        // the ids a statement before it read
    | AbortLocal(h: HolderId)                        // the abort reaches a run of its own process
    | Claim(replica: Replica, picked: seq<TaskId>, at: int)
    | Start(h: HolderId)
    | Beat(h: HolderId)
    | StrayBeat(id: TaskId)                          // a heartbeat that lands after its run has ended
    | Timeout(h: HolderId)
    | Stop(replica: Replica)
    | Return(h: HolderId, err: bool)
    | Finish(h: HolderId, answers: bool)             // answers: the database takes the outcome statement
    | Unhandled(h: HolderId, answers: bool)
    | Crash(replica: Replica)
    | Cleanup(replica: Replica, ids: set<TaskId>)

  predicate Enabled(c: Config, w: World, e: Event) {
    match e
    case Tick(to) => w.now <= to
    case AbortLocal(h) => h in w.holders && w.holders[h].phase.InHandler?
    case Claim(r, picked, at) =>
      && at <= w.now
      && (forall i, j :: 0 <= i < j < |picked| ==> picked[i] != picked[j])
      && (forall id :: id in picked ==> id in w.rows && w.rows[id].kind in KindsOf(w, r) && Due(c, w.rows[id], at))
    case Start(h) => h in w.holders && w.holders[h].phase.Queued? && HasHandler(w, w.holders[h])
    case Beat(h) => h in w.holders && w.holders[h].phase.InHandler?
    case Timeout(h) => h in w.holders && w.holders[h].phase.InHandler?
    case Return(h, _) => h in w.holders && w.holders[h].phase.InHandler?
    case Finish(h, _) => h in w.holders && w.holders[h].phase.Returned?
    case Unhandled(h, _) => h in w.holders && w.holders[h].phase.Queued? && !HasHandler(w, w.holders[h])
    case Cleanup(r, ids) =>
      forall id :: id in ids ==> id in w.rows && w.rows[id].kind in KindsOf(w, r) && Expired(c, w.rows[id], w.now)
    case _ => true
  }

  /** The spec lookup of a run; a row that is gone leaves what it was claimed as. */
  predicate HasHandler(w: World, h: Holder) { h.task in w.rows ==> w.rows[h.task].kind in KindsOf(w, h.replica) }

  function Caused(h: Holder, cause: Cause): Holder {
    if h.phase.InHandler? && h.cause.NoCause? then h.(cause := cause) else h
  }

  function Span(lo: nat, n: nat): (s: set<nat>)
    ensures forall h :: h in s <==> lo <= h < lo + n
  {
    if n == 0 then {} else Span(lo, n - 1) + {lo + n - 1}
  }

  function NewHolders(w: World, r: Replica, picked: seq<TaskId>): map<HolderId, Holder>
    requires forall id :: id in picked ==> id in w.rows
  {
    map h | h in Span(w.nextHolder, |picked|) ::
      Holder(r, picked[h - w.nextHolder], w.rows[picked[h - w.nextHolder]].attempts, Queued, NoCause, 0)
  }

  function Step(c: Config, w: World, e: Event): World
    requires Enabled(c, w, e)
  {
    match e
    case Tick(to) => w.(now := to)
    case Handle(r, kind) => w.(kinds := w.kinds[r := KindsOf(w, r) + {kind}])
    case Schedule(kind, key, runAt) =>
      w.(rows := w.rows[w.nextId := Row(kind, key, runAt, Pending, 0, None, w.now)], nextId := w.nextId + 1)
    case Cancel(kind, key) => w.(rows := CancelRows(w.rows, kind, key, w.now))
    case Abort(ids) => w.(rows := AbortRows(w.rows, ids, w.now))
    case AbortLocal(h) => w.(holders := w.holders[h := Caused(w.holders[h], Aborted)])
    case Claim(r, picked, at) =>
      w.(rows := ClaimRows(w.rows, picked, at, w.now),
         holders := w.holders + NewHolders(w, r, picked),
         nextHolder := w.nextHolder + |picked|)
    case Start(h) =>
      var cause := if w.holders[h].replica in w.stopping then Stopped else NoCause;
      w.(holders := w.holders[h := w.holders[h].(phase := InHandler, cause := cause, began := w.now)])
    case Beat(h) =>
      var id := w.holders[h].task;
      if id in w.rows && w.rows[id].status.Running?
      then w.(rows := BeatRow(w.rows, id, w.now))
      else w.(holders := w.holders[h := Caused(w.holders[h], Aborted)])
    case StrayBeat(id) => w.(rows := BeatRow(w.rows, id, w.now))
    case Timeout(h) => w.(holders := w.holders[h := Caused(w.holders[h], Deadline)])
    case Stop(r) =>
      w.(holders := map h | h in w.holders ::
                      if w.holders[h].replica == r then Caused(w.holders[h], Shutdown) else w.holders[h],
         stopping := w.stopping + {r})
    case Return(h, err) => w.(holders := w.holders[h := w.holders[h].(phase := Returned(err))])
    case Finish(h, answers) =>
      var x := w.holders[h];
      var rows := if Written(x.began, w.now, answers)
                  then WriteOutcome(w.rows, x.task, ResultOf(c, w, x), x.attempts, w.now) else w.rows;
      w.(rows := rows, holders := w.holders - {h})
    case Unhandled(h, answers) =>
      var x := w.holders[h];
      var rows := if answers then WriteOutcome(w.rows, x.task, NoHandler, x.attempts, w.now) else w.rows;
      w.(rows := rows, holders := w.holders - {h})
    case Crash(r) =>
      w.(holders := map h | h in w.holders && w.holders[h].replica != r :: w.holders[h],
         stopping := w.stopping - {r})
    case Cleanup(_, ids) => w.(rows := w.rows - ids)
  }

  function ResultOf(c: Config, w: World, x: Holder): Result
    requires x.phase.Returned?
  {
    Decide(c, x.cause, x.phase.err, x.replica in w.stopping, x.attempts)
  }

  /** A run: the worlds it visits, linked by enabled events. */
  ghost predicate IsRun(c: Config, ws: seq<World>, es: seq<Event>) {
    && |ws| == |es| + 1
    && ws[0] == Init(ws[0].now)
    && forall i :: 0 <= i < |es| ==> Enabled(c, ws[i], es[i]) && ws[i + 1] == Step(c, ws[i], es[i])
  }

  // ------------------------------------------------------------------
  // What every event keeps, stale holders included
  // ------------------------------------------------------------------

  ghost predicate RowInv(c: Config, r: Row, now: int) {
    && (r.status.Running? <==> r.lockedAt.Some?)
    && (r.lockedAt.Some? ==> r.lockedAt.value <= now)
    && r.updatedAt <= now
    && (r.status.Pending? || r.status.Running? || r.status.Cancelled? ==> r.attempts < c.maxAttempts)
    && (r.status.Failed? ==> r.attempts == c.maxAttempts)
    && (r.status.Done? ==> 1 <= r.attempts <= c.maxAttempts)
  }

  ghost predicate Inv(c: Config, w: World) {
    && (forall id :: id in w.rows ==> id < w.nextId && RowInv(c, w.rows[id], w.now))
    && (forall h :: h in w.holders ==>
          && h < w.nextHolder && w.holders[h].task < w.nextId && w.holders[h].attempts < c.maxAttempts
          && HasHandler(w, w.holders[h]))
  }

  /** Events that write rows and leave the holders alone. */
  predicate OnRows(e: Event) { e.Schedule? || e.Cancel? || e.Abort? || e.StrayBeat? || e.Cleanup? }

  /** Events that change the phase or the cause of holders, or drop them. */
  predicate OnHolders(e: Event) {
    e.AbortLocal? || e.Start? || e.Timeout? || e.Stop? || e.Return? || e.Crash?
  }

  lemma StepKeepsInv(c: Config, w: World, e: Event)
    requires Inv(c, w) && Enabled(c, w, e)
    ensures Inv(c, Step(c, w, e))
  {
    hide Inv, Enabled, Step;
    if e.Claim? {
      ClaimKeepsInv(c, w, e.replica, e.picked, e.at);
    } else if e.Finish? || e.Unhandled? {
      FinishKeepsInv(c, w, e, e.h);
    } else if OnRows(e) {
      RowsKeepInv(c, w, e);
    } else if OnHolders(e) {
      HoldersKeepInv(c, w, e);
    } else {
      OthersKeepInv(c, w, e);
    }
  }

  lemma OthersKeepInv(c: Config, w: World, e: Event)
    requires Inv(c, w) && Enabled(c, w, e) && (e.Tick? || e.Handle? || e.Beat?)
    ensures Inv(c, Step(c, w, e))
  {
    if e.Handle? {
      hide RowInv;
      assert forall q :: KindsOf(w, q) <= KindsOf(Step(c, w, e), q);
    } else if e.Beat? {
      hide KindsOf;
      BeatKeepsRowInv(c, w, w.holders[e.h].task);
      hide RowInv, BeatRow;
    }
  }

  lemma BeatKeepsRowInv(c: Config, w: World, id: TaskId)
    requires Inv(c, w)
    ensures BeatRow(w.rows, id, w.now).Keys == w.rows.Keys
    ensures forall x :: x in w.rows ==>
              && RowInv(c, BeatRow(w.rows, id, w.now)[x], w.now)
              && BeatRow(w.rows, id, w.now)[x].kind == w.rows[x].kind
  {
  }

  lemma RowsKeepInv(c: Config, w: World, e: Event)
    requires Inv(c, w) && Enabled(c, w, e) && OnRows(e)
    ensures Inv(c, Step(c, w, e))
  {
  }

  lemma HoldersKeepInv(c: Config, w: World, e: Event)
    requires Inv(c, w) && Enabled(c, w, e) && OnHolders(e)
    ensures Inv(c, Step(c, w, e))
  {
  }

  lemma ClaimKeepsInv(c: Config, w: World, r: Replica, picked: seq<TaskId>, at: int)
    requires Inv(c, w) && Enabled(c, w, Claim(r, picked, at))
    ensures Inv(c, Step(c, w, Claim(r, picked, at)))
  {
    hide Enabled, Step, RowInv, HasHandler;
    ClaimedRows(c, w, r, picked, at);
    var w' := Step(c, w, Claim(r, picked, at));
    forall h | h in w'.holders
      ensures h < w'.nextHolder && w'.holders[h].task < w'.nextId && w'.holders[h].attempts < c.maxAttempts
      ensures HasHandler(w', w'.holders[h])
    {
      ClaimedHolderFits(c, w, r, picked, at, h);
    }
  }

  lemma ClaimedRows(c: Config, w: World, r: Replica, picked: seq<TaskId>, at: int)
    requires Inv(c, w) && Enabled(c, w, Claim(r, picked, at))
    ensures var w' := Step(c, w, Claim(r, picked, at));
            && w'.now == w.now && w'.nextId == w.nextId
            && forall id :: id in w'.rows ==> id < w'.nextId && RowInv(c, w'.rows[id], w'.now)
  {
    hide NewHolders, HasHandler;
  }

  lemma ClaimedHolderFits(c: Config, w: World, r: Replica, picked: seq<TaskId>, at: int, h: HolderId)
    requires Inv(c, w) && Enabled(c, w, Claim(r, picked, at)) && h in Step(c, w, Claim(r, picked, at)).holders
    ensures var w' := Step(c, w, Claim(r, picked, at));
            && h < w'.nextHolder && w'.holders[h].task < w'.nextId && w'.holders[h].attempts < c.maxAttempts
            && HasHandler(w', w'.holders[h])
  {
    ClaimedHolder(c, w, r, picked, at, h);
    hide NewHolders;
    var w' := Step(c, w, Claim(r, picked, at));
    assert w'.holders[h].task in picked ==> RowInv(c, w.rows[w'.holders[h].task], w.now);
  }

  /** What an outcome makes of a running row, with attempts as its holder read them. */
  lemma OutcomeKeepsRowInv(c: Config, r: Row, result: Result, attempts: nat, now: int)
    requires RowInv(c, r, now) && r.status.Running? && attempts < c.maxAttempts
    requires result.Retry? ==> attempts + 1 < c.maxAttempts
    requires result.FailedForGood? ==> attempts + 1 >= c.maxAttempts
    ensures RowInv(c, Outcome(r, result, attempts, now), now)
  {
    hide Backoff;
  }

  lemma FinishKeepsInv(c: Config, w: World, e: Event, h: HolderId)
    requires Inv(c, w) && Enabled(c, w, e)
    requires (e.Finish? || e.Unhandled?) && e.h == h
    ensures Inv(c, Step(c, w, e))
  {
    var x, w' := w.holders[h], Step(c, w, e);
    if x.task in w.rows && w.rows[x.task].status.Running? {
      var result := if e.Finish? then ResultOf(c, w, x) else NoHandler;
      OutcomeKeepsRowInv(c, w.rows[x.task], result, x.attempts, w.now);
      SameKind(w.rows[x.task], result, x.attempts, w.now);
    }
    hide Outcome, RowInv, Decide;
  }

  lemma SameKind(r: Row, result: Result, attempts: nat, now: int)
    ensures Outcome(r, result, attempts, now).kind == r.kind
  {
  }

  lemma {:induction false} InvAlong(c: Config, ws: seq<World>, es: seq<Event>, i: nat)
    requires IsRun(c, ws, es) && i < |ws|
    ensures Inv(c, ws[i])
  {
    if i > 0 {
      InvAlong(c, ws, es, i - 1);
      StepKeepsInv(c, ws[i - 1], es[i - 1]);
    }
  }

  // ------------------------------------------------------------------
  // A finished row is never touched again
  // ------------------------------------------------------------------

  lemma TerminalStep(c: Config, w: World, e: Event, id: TaskId)
    requires Inv(c, w) && Enabled(c, w, e) && id in w.rows && Terminal(w.rows[id].status)
    ensures id in Step(c, w, e).rows ==> Step(c, w, e).rows[id] == w.rows[id]
    ensures id !in Step(c, w, e).rows ==> e.Cleanup? && Expired(c, w.rows[id], w.now)
  {
    hide RowInv, NewHolders, Outcome, HasHandler, Caused, ResultOf;
  }

  lemma GoneStays(c: Config, w: World, e: Event, id: TaskId)
    requires Enabled(c, w, e) && id !in w.rows && id < w.nextId
    ensures id !in Step(c, w, e).rows && id < Step(c, w, e).nextId
  {
  }

  /** A done, failed or cancelled row stays exactly as it is for the rest of the run. Only a row that is
      done or cancelled, and older than the retention, may be deleted; then its id never comes back. */
  lemma {:induction false} FinishedForGood(c: Config, ws: seq<World>, es: seq<Event>, i: nat, j: nat, id: TaskId)
    requires IsRun(c, ws, es) && i <= j < |ws|
    requires id in ws[i].rows && Terminal(ws[i].rows[id].status)
    ensures id in ws[j].rows ==> ws[j].rows[id] == ws[i].rows[id]
    ensures id !in ws[j].rows ==> !ws[i].rows[id].status.Failed? && ws[i].rows[id].updatedAt < ws[j].now - c.retention
    ensures id < ws[j].nextId && ws[i].now <= ws[j].now
  {
    if i < j {
      FinishedForGood(c, ws, es, i, j - 1, id);
      InvAlong(c, ws, es, j - 1);
      if id in ws[j - 1].rows {
        TerminalStep(c, ws[j - 1], es[j - 1], id);
      } else {
        GoneStays(c, ws[j - 1], es[j - 1], id);
      }
      ClockStep(c, ws[j - 1], es[j - 1]);
    } else {
      InvAlong(c, ws, es, i);
    }
  }

  lemma ClockStep(c: Config, w: World, e: Event)
    requires Enabled(c, w, e)
    ensures w.now <= Step(c, w, e).now && w.nextId <= Step(c, w, e).nextId
  {
  }

  // ------------------------------------------------------------------
  // One holder from claim to outcome
  // ------------------------------------------------------------------

  /** No two claims of one task are outstanding, and a claimed row is still the one its holder read:
      running with those attempts, or cancelled under it (Abort), or gone after that. */
  ghost predicate Exclusive(w: World) {
    && (forall h, k :: h in w.holders && k in w.holders && h != k ==> w.holders[h].task != w.holders[k].task)
    && (forall h :: h in w.holders && w.holders[h].task in w.rows ==> Follows(w.rows[w.holders[h].task], w.holders[h]))
  }

  ghost predicate Follows(r: Row, h: Holder) {
    r.status.Cancelled? || (r.status.Running? && r.attempts == h.attempts)
  }

  predicate Held(w: World, id: TaskId) { exists h :: h in w.holders && w.holders[h].task == id }

  /** The refresh assumption: no claimed row that is still running, queued or in its handler, is older than stale(). */
  ghost predicate Fresh(c: Config, w: World) {
    forall h :: h in w.holders && w.holders[h].task in w.rows && w.rows[w.holders[h].task].lockedAt.Some? ==>
      w.now - Stale(c) <= w.rows[w.holders[h].task].lockedAt.value
  }

  /** A claim that takes a row somebody holds. */
  ghost predicate TakesHeld(w: World, e: Event) { e.Claim? && exists id :: id in e.picked && Held(w, id) }

  /** Exclusion is lost at one place only, and always lost there: a claim that takes a row somebody holds. */
  lemma ExclusionStep(c: Config, w: World, e: Event)
    requires Inv(c, w) && Exclusive(w) && Enabled(c, w, e)
    ensures Exclusive(Step(c, w, e)) <==> !TakesHeld(w, e)
  {
    if e.Claim? {
      if id :| id in e.picked && Held(w, id) {
        ClaimOfHeld(c, w, e.replica, e.picked, e.at, id);
      } else {
        ClaimOfFree(c, w, e.replica, e.picked, e.at);
      }
    } else if e.Finish? || e.Unhandled? {
      FinishKeepsExclusive(c, w, e, e.h);
    } else if OnRows(e) {
      RowsKeepExclusive(c, w, e);
    } else if OnHolders(e) {
      HoldersKeepExclusive(c, w, e);
    }
  }

  lemma RowsKeepExclusive(c: Config, w: World, e: Event)
    requires Inv(c, w) && Exclusive(w) && Enabled(c, w, e) && OnRows(e)
    ensures Exclusive(Step(c, w, e))
  {
    var w' := Step(c, w, e);
    assert w'.holders == w.holders;
    forall h | h in w'.holders && w'.holders[h].task in w'.rows
      ensures Follows(w'.rows[w'.holders[h].task], w'.holders[h])
    {
      assert w.holders[h].task in w.rows && Follows(w.rows[w.holders[h].task], w.holders[h]);
    }
  }

  lemma HoldersKeepExclusive(c: Config, w: World, e: Event)
    requires Inv(c, w) && Exclusive(w) && Enabled(c, w, e) && OnHolders(e)
    ensures Exclusive(Step(c, w, e))
  {
    var w' := Step(c, w, e);
    assert w'.rows == w.rows;
    forall h | h in w'.holders
      ensures h in w.holders && w'.holders[h].task == w.holders[h].task
      ensures w'.holders[h].attempts == w.holders[h].attempts
    {
    }
  }

  lemma ClaimOfHeld(c: Config, w: World, r: Replica, picked: seq<TaskId>, at: int, id: TaskId)
    requires Inv(c, w) && Enabled(c, w, Claim(r, picked, at)) && id in picked && Held(w, id)
    ensures !Exclusive(Step(c, w, Claim(r, picked, at)))
  {
    var w' := Step(c, w, Claim(r, picked, at));
    var h :| h in w.holders && w.holders[h].task == id;
    var i :| 0 <= i < |picked| && picked[i] == id;
    var k := w.nextHolder + i;
    assert k in NewHolders(w, r, picked) && k in w'.holders && w'.holders[k].task == id;
    assert h in w'.holders && w'.holders[h].task == id;
  }

  lemma ClaimOfFree(c: Config, w: World, r: Replica, picked: seq<TaskId>, at: int)
    requires Inv(c, w) && Exclusive(w) && Enabled(c, w, Claim(r, picked, at))
    requires forall id :: id in picked ==> !Held(w, id)
    ensures Exclusive(Step(c, w, Claim(r, picked, at)))
  {
    var w' := Step(c, w, Claim(r, picked, at));
    forall h | h in w'.holders && w'.holders[h].task in w'.rows
      ensures Follows(w'.rows[w'.holders[h].task], w'.holders[h])
    {
      ClaimedHolder(c, w, r, picked, at, h);
      if h in w.holders {
        assert Held(w, w.holders[h].task);
        assert Follows(w.rows[w.holders[h].task], w.holders[h]);
      }
    }
    forall h, k | h in w'.holders && k in w'.holders && h != k
      ensures w'.holders[h].task != w'.holders[k].task
    {
      ClaimedHolder(c, w, r, picked, at, h);
      ClaimedHolder(c, w, r, picked, at, k);
      assert h in w.holders ==> Held(w, w.holders[h].task);
      assert k in w.holders ==> Held(w, w.holders[k].task);
    }
  }

  /** The holders after a claim: the old ones as they were, and one for each picked row. */
  lemma ClaimedHolder(c: Config, w: World, r: Replica, picked: seq<TaskId>, at: int, h: HolderId)
    requires Inv(c, w) && Enabled(c, w, Claim(r, picked, at)) && h in Step(c, w, Claim(r, picked, at)).holders
    ensures var w' := Step(c, w, Claim(r, picked, at));
            if h in w.holders then w'.holders[h] == w.holders[h]
            else
              && w.nextHolder <= h < w.nextHolder + |picked|
              && w'.holders[h].task == picked[h - w.nextHolder] && w'.holders[h].task in picked
              && w'.holders[h].attempts == w.rows[w'.holders[h].task].attempts
  {
    if h !in w.holders {
      NewHolderIs(w, r, picked, h);
    }
  }

  lemma NewHolderIs(w: World, r: Replica, picked: seq<TaskId>, h: HolderId)
    requires (forall id :: id in picked ==> id in w.rows) && h in NewHolders(w, r, picked)
    ensures w.nextHolder <= h < w.nextHolder + |picked|
    ensures var x := NewHolders(w, r, picked)[h];
            x.task == picked[h - w.nextHolder] && x.task in picked && x.attempts == w.rows[x.task].attempts
  {
  }

  lemma FinishKeepsExclusive(c: Config, w: World, e: Event, h: HolderId)
    requires Inv(c, w) && Exclusive(w) && Enabled(c, w, e) && (e.Finish? || e.Unhandled?) && e.h == h
    ensures Exclusive(Step(c, w, e))
  {
  }

  /** A held row can be taken only when it went stale under its holder. */
  lemma TakenMeansStale(c: Config, w: World, r: Replica, picked: seq<TaskId>, at: int, id: TaskId)
    requires Exclusive(w) && Enabled(c, w, Claim(r, picked, at)) && id in picked && Held(w, id)
    ensures w.rows[id].status.Running? && w.rows[id].lockedAt.value < w.now - Stale(c)
    ensures !Fresh(c, w)
  {
    var h :| h in w.holders && w.holders[h].task == id;
    assert Follows(w.rows[id], w.holders[h]);
  }

  /** Over any run in which no claimed row goes stale, every task has at most one holder from its claim to
      its outcome, and that holder's row is running as claimed until the holder or an abort ends it. */
  lemma {:induction false} OneHolderPerTask(c: Config, ws: seq<World>, es: seq<Event>, i: nat)
    requires IsRun(c, ws, es) && i < |ws|
    requires forall k :: 0 <= k < |ws| ==> Fresh(c, ws[k])
    ensures Exclusive(ws[i])
  {
    hide IsRun, Step, Enabled, Exclusive, Fresh, Inv, TakesHeld;
    if i == 0 {
      StartsEmpty(c, ws, es);
    } else {
      Lengths(c, ws, es);
      StepOf(c, ws, es, i - 1);
      OneHolderPerTask(c, ws, es, i - 1);
      InvAlong(c, ws, es, i - 1);
      ExclusionStep(c, ws[i - 1], es[i - 1]);
      assert Fresh(c, ws[i - 1]);
      FreshMeansFree(c, ws[i - 1], es[i - 1]);
    }
  }

  lemma FreshMeansFree(c: Config, w: World, e: Event)
    requires Exclusive(w) && Fresh(c, w) && Enabled(c, w, e)
    ensures !TakesHeld(w, e)
  {
    if TakesHeld(w, e) {
      var id :| id in e.picked && Held(w, id);
      TakenMeansStale(c, w, e.replica, e.picked, e.at, id);
    }
  }

  // ------------------------------------------------------------------
  // Attempts
  // ------------------------------------------------------------------

  /** The service stopping is the reason the run ended with an error. */
  predicate Interrupted(w: World, x: Holder)
    requires x.phase.Returned?
  {
    x.phase.err && !x.cause.Aborted? && (x.cause.Shutdown? || x.replica in w.stopping)
  }

  /** The row is over, or waits at least a minute with fewer attempts to go. */
  predicate EndsOrSpends(c: Config, r: Row, r': Row, now: int) {
    || Terminal(r'.status)
    || (r'.status.Pending? && c.maxAttempts - r'.attempts < c.maxAttempts - r.attempts && r'.runAt >= now + MINUTE)
  }

  /** What the end of a run does to a row its holder holds alone. It ends the row or spends an attempt exactly when the
      run ended within ten seconds of its beginning and the database answers; an interruption by shutdown puts it back
      unspent exactly then. Otherwise the row stays running as it was, with nobody at it. */
  lemma OutcomeEndsOrSpends(c: Config, w: World, h: HolderId, answers: bool)
    requires Inv(c, w) && Exclusive(w) && Enabled(c, w, Finish(h, answers))
    requires w.holders[h].task in w.rows && w.rows[w.holders[h].task].status.Running?
    ensures var x, w' := w.holders[h], Step(c, w, Finish(h, answers));
            var r, r' := w.rows[x.task], w'.rows[x.task];
            && (!Interrupted(w, x) ==> (EndsOrSpends(c, r, r', w.now) <==> Written(x.began, w.now, answers)))
            && (Interrupted(w, x) ==> (PutBack(r, r', w.now) <==> Written(x.began, w.now, answers)))
            && (!Written(x.began, w.now, answers) ==> w'.rows == w.rows && !Held(w', x.task))
  {
    var x := w.holders[h];
    var r := w.rows[x.task];
    assert Follows(r, x);
    OutcomeEffect(c, r, ResultOf(c, w, x), w.now);
    hide Outcome;
  }

  /** Pending again at once, with the attempts it had. */
  predicate PutBack(r: Row, r': Row, now: int) { r'.status.Pending? && r'.attempts == r.attempts && r'.runAt == now }

  lemma OutcomeEffect(c: Config, r: Row, result: Result, now: int)
    requires r.attempts < c.maxAttempts && !result.NoHandler?
    ensures var r' := Outcome(r, result, r.attempts, now);
            && (EndsOrSpends(c, r, r', now) <==> !result.Requeued?)
            && (PutBack(r, r', now) <==> result.Requeued?)
  {
    BackoffBounds(r.attempts + 1);
    hide Backoff;
  }

  /** A minute first, never shorter after a later failure, never more than an hour; the shift is cut at 10,
      where the cap has long been reached. */
  lemma BackoffBounds(attempts: nat)
    requires attempts >= 1
    ensures Backoff(1) == MINUTE <= Backoff(attempts) <= Backoff(attempts + 1) <= HOUR
    ensures Backoff(attempts) == Min(MINUTE * Pow2(attempts - 1), HOUR)
  {
    Pow2Grows(0, attempts - 1);
    if attempts <= 10 {
      Pow2Grows(attempts - 1, attempts);
    } else {
      Pow2Grows(10, attempts - 1);
      assert Pow2(10) == 1024;
    }
  }

  /** The event writes an outcome that counts as an attempt of this row. */
  predicate Counts(c: Config, w: World, e: Event, id: TaskId) {
    && e.Finish? && e.h in w.holders && w.holders[e.h].task == id && w.holders[e.h].phase.Returned?
    && Written(w.holders[e.h].began, w.now, e.answers)
    && id in w.rows && w.rows[id].status.Running?
    && var result := ResultOf(c, w, w.holders[e.h]); result.Ok? || result.Retry? || result.FailedForGood?
  }

  ghost function CountedRuns(c: Config, ws: seq<World>, es: seq<Event>, id: TaskId, n: nat): nat
    requires n <= |es| && n <= |ws|
  {
    if n == 0 then 0
    else CountedRuns(c, ws, es, id, n - 1) + if Counts(c, ws[n - 1], es[n - 1], id) then 1 else 0
  }

  /** A counted outcome is written over attempts its holder did not read: what a fencing token would refuse. */
  predicate Overwrites(c: Config, w: World, e: Event, id: TaskId) {
    Counts(c, w, e, id) && w.holders[e.h].attempts != w.rows[id].attempts
  }

  /** Row and holders know of no more than n counted runs, of fewer once an outcome was written over. */
  ghost predicate Knows(w: World, id: TaskId, n: nat, over: bool) {
    && (id in w.rows ==> w.rows[id].attempts <= n && (w.rows[id].attempts < n <==> over))
    && (forall h :: h in w.holders && w.holders[h].task == id ==>
          w.holders[h].attempts <= n && (over ==> w.holders[h].attempts < n))
  }

  lemma KnowsStep(c: Config, w: World, e: Event, id: TaskId, n: nat, over: bool)
    requires Inv(c, w) && Enabled(c, w, e) && Knows(w, id, n, over) && id in Step(c, w, e).rows && id in w.rows
    ensures Knows(Step(c, w, e), id, n + if Counts(c, w, e, id) then 1 else 0, over || Overwrites(c, w, e, id))
  {
    hide Inv, Enabled, Step, Knows, Counts, Overwrites;
    OnlyFinishCounts(c, w, e, id);
    if e.Claim? {
      KnowsClaim(c, w, e.replica, e.picked, e.at, id, n, over);
    } else if e.Finish? {
      KnowsFinish(c, w, e.h, e.answers, id, n, over);
    } else if e.Unhandled? {
      EveryClaimHasAHandler(c, w, e.h, e.answers);
    } else if OnRows(e) {
      KnowsRows(c, w, e, id, n, over);
    } else if OnHolders(e) {
      KnowsHolders(c, w, e, id, n, over);
    } else {
      KnowsOthers(c, w, e, id, n, over);
    }
  }

  lemma OnlyFinishCounts(c: Config, w: World, e: Event, id: TaskId)
    ensures !e.Finish? ==> !Counts(c, w, e, id) && !Overwrites(c, w, e, id)
  {
  }

  lemma KnowsOthers(c: Config, w: World, e: Event, id: TaskId, n: nat, over: bool)
    requires Enabled(c, w, e) && Knows(w, id, n, over) && (e.Tick? || e.Handle? || e.Beat?)
    ensures Knows(Step(c, w, e), id, n, over)
  {
  }

  lemma KnowsClaim(c: Config, w: World, r: Replica, picked: seq<TaskId>, at: int, id: TaskId, n: nat, over: bool)
    requires Inv(c, w) && Enabled(c, w, Claim(r, picked, at)) && Knows(w, id, n, over) && id in w.rows
    ensures Knows(Step(c, w, Claim(r, picked, at)), id, n, over)
  {
    var w' := Step(c, w, Claim(r, picked, at));
    forall h | h in w'.holders && w'.holders[h].task == id
      ensures w'.holders[h].attempts <= n && (over ==> w'.holders[h].attempts < n)
    {
      ClaimedHolder(c, w, r, picked, at, h);
    }
  }

  lemma KnowsFinish(c: Config, w: World, h: HolderId, answers: bool, id: TaskId, n: nat, over: bool)
    requires Inv(c, w) && Enabled(c, w, Finish(h, answers)) && Knows(w, id, n, over) && id in w.rows
    ensures var e := Finish(h, answers);
            Knows(Step(c, w, e), id, n + if Counts(c, w, e, id) then 1 else 0, over || Overwrites(c, w, e, id))
  {
  }

  lemma KnowsRows(c: Config, w: World, e: Event, id: TaskId, n: nat, over: bool)
    requires Inv(c, w) && Enabled(c, w, e) && Knows(w, id, n, over) && OnRows(e)
    requires id in w.rows && id in Step(c, w, e).rows
    ensures Knows(Step(c, w, e), id, n, over)
  {
  }

  lemma KnowsHolders(c: Config, w: World, e: Event, id: TaskId, n: nat, over: bool)
    requires Inv(c, w) && Enabled(c, w, e) && Knows(w, id, n, over) && OnHolders(e)
    ensures Knows(Step(c, w, e), id, n, over)
  {
    var w' := Step(c, w, e);
    forall h | h in w'.holders ensures h in w.holders && w'.holders[h].task == w.holders[h].task
                                       && w'.holders[h].attempts == w.holders[h].attempts {
    }
  }

  /** A row that is new was never held and never counted. */
  lemma {:induction false} UnknownYet(c: Config, ws: seq<World>, es: seq<Event>, id: TaskId, n: nat)
    requires IsRun(c, ws, es) && n <= |es| && id >= ws[n].nextId
    ensures CountedRuns(c, ws, es, id, n) == 0
    ensures forall k :: 0 <= k < n ==> !Overwrites(c, ws[k], es[k], id)
  {
    if n > 0 {
      ClockStep(c, ws[n - 1], es[n - 1]);
      UnknownYet(c, ws, es, id, n - 1);
      InvAlong(c, ws, es, n - 1);
    }
  }

  lemma NewRow(c: Config, w: World, e: Event, id: TaskId)
    requires Inv(c, w) && Enabled(c, w, e) && id !in w.rows && id in Step(c, w, e).rows
    ensures id >= w.nextId && !Counts(c, w, e, id) && Knows(Step(c, w, e), id, 0, false)
  {
  }

  ghost predicate Overwritten(c: Config, ws: seq<World>, es: seq<Event>, id: TaskId, n: nat)
    requires n <= |es| && n <= |ws|
  {
    exists k :: 0 <= k < n && Overwrites(c, ws[k], es[k], id)
  }

  lemma CountsNext(c: Config, ws: seq<World>, es: seq<Event>, id: TaskId, n: nat)
    requires n < |es| && n < |ws|
    ensures CountedRuns(c, ws, es, id, n + 1) ==
            CountedRuns(c, ws, es, id, n) + if Counts(c, ws[n], es[n], id) then 1 else 0
    ensures Overwritten(c, ws, es, id, n + 1) <==> Overwritten(c, ws, es, id, n) || Overwrites(c, ws[n], es[n], id)
  {
    hide Counts, Overwrites;
  }

  lemma {:induction false} KnowsAlong(c: Config, ws: seq<World>, es: seq<Event>, id: TaskId, n: nat)
    requires IsRun(c, ws, es) && n <= |es| && id in ws[n].rows
    ensures Knows(ws[n], id, CountedRuns(c, ws, es, id, n), Overwritten(c, ws, es, id, n))
  {
    hide *;
    if n == 0 {
      StartsEmpty(c, ws, es);
    } else {
      StepOf(c, ws, es, n - 1);
      if id in ws[n - 1].rows {
        KnowsAlong(c, ws, es, id, n - 1);
        KnowsMore(c, ws, es, id, n - 1);
      } else {
        KnowsNew(c, ws, es, id, n - 1);
      }
    }
  }

  lemma KnowsMore(c: Config, ws: seq<World>, es: seq<Event>, id: TaskId, n: nat)
    requires IsRun(c, ws, es) && n < |es| && id in ws[n].rows && id in ws[n + 1].rows
    requires Knows(ws[n], id, CountedRuns(c, ws, es, id, n), Overwritten(c, ws, es, id, n))
    ensures Knows(ws[n + 1], id, CountedRuns(c, ws, es, id, n + 1), Overwritten(c, ws, es, id, n + 1))
  {
    hide *;
    StepOf(c, ws, es, n);
    InvAlong(c, ws, es, n);
    CountsNext(c, ws, es, id, n);
    KnowsStep(c, ws[n], es[n], id, CountedRuns(c, ws, es, id, n), Overwritten(c, ws, es, id, n));
  }

  lemma KnowsNew(c: Config, ws: seq<World>, es: seq<Event>, id: TaskId, n: nat)
    requires IsRun(c, ws, es) && n < |es| && id !in ws[n].rows && id in ws[n + 1].rows
    ensures Knows(ws[n + 1], id, CountedRuns(c, ws, es, id, n + 1), Overwritten(c, ws, es, id, n + 1))
  {
    hide *;
    StepOf(c, ws, es, n);
    InvAlong(c, ws, es, n);
    NewRow(c, ws[n], es[n], id);
    UnknownYet(c, ws, es, id, n);
    NotOverwrites(c, ws[n], es[n], id);
    NoneOverwritten(c, ws, es, id, n);
    CountsNext(c, ws, es, id, n);
  }

  lemma Lengths(c: Config, ws: seq<World>, es: seq<Event>)
    requires IsRun(c, ws, es)
    ensures |ws| == |es| + 1
  {
  }

  lemma StepOf(c: Config, ws: seq<World>, es: seq<Event>, k: nat)
    requires IsRun(c, ws, es) && k < |es|
    ensures |ws| == |es| + 1 && Enabled(c, ws[k], es[k]) && ws[k + 1] == Step(c, ws[k], es[k])
  {
  }

  lemma StartsEmpty(c: Config, ws: seq<World>, es: seq<Event>)
    requires IsRun(c, ws, es)
    ensures ws[0].rows == map[] && Exclusive(ws[0])
  {
  }

  lemma NoneOverwritten(c: Config, ws: seq<World>, es: seq<Event>, id: TaskId, n: nat)
    requires n <= |es| && n <= |ws| && forall k :: 0 <= k < n ==> !Overwrites(c, ws[k], es[k], id)
    ensures !Overwritten(c, ws, es, id, n)
  {
  }

  lemma NotOverwrites(c: Config, w: World, e: Event, id: TaskId)
    requires !Counts(c, w, e, id)
    ensures !Overwrites(c, w, e, id)
  {
  }

  /** In every run, stale holders or not: attempts is the number of runs that counted exactly when none of their
      outcomes was written over attempts its holder had not read; otherwise it is less. */
  lemma AttemptsAreExactIff(c: Config, ws: seq<World>, es: seq<Event>, id: TaskId, n: nat)
    requires IsRun(c, ws, es) && n <= |es| && id in ws[n].rows
    ensures ws[n].rows[id].attempts <= CountedRuns(c, ws, es, id, n)
    ensures ws[n].rows[id].attempts == CountedRuns(c, ws, es, id, n) <==>
              forall k :: 0 <= k < n ==> !Overwrites(c, ws[k], es[k], id)
  {
    KnowsAlong(c, ws, es, id, n);
    hide Overwrites, CountedRuns, IsRun;
  }

  /** A sole holder has read what it writes over. */
  lemma FollowersDoNot(c: Config, w: World, e: Event, id: TaskId)
    requires Exclusive(w)
    ensures !Overwrites(c, w, e, id)
  {
    if Counts(c, w, e, id) {
      assert Follows(w.rows[w.holders[e.h].task], w.holders[e.h]);
    }
  }

  lemma CountsSpends(c: Config, w: World, e: Event, id: TaskId)
    requires Inv(c, w) && Enabled(c, w, e)
    ensures id !in Step(c, w, e).rows ==> !Counts(c, w, e, id)
  {
  }

  /** So while no claimed row goes stale, `attempts` is exactly the number of runs that counted, and no row has more
      than max_attempts of them. */
  lemma {:induction false} AttemptsAreExact(c: Config, ws: seq<World>, es: seq<Event>, id: TaskId, n: nat)
    requires IsRun(c, ws, es) && n <= |es|
    requires forall k :: 0 <= k < |ws| ==> Fresh(c, ws[k])
    ensures id in ws[n].rows ==> ws[n].rows[id].attempts == CountedRuns(c, ws, es, id, n)
    ensures id >= ws[n].nextId ==> CountedRuns(c, ws, es, id, n) == 0
    ensures CountedRuns(c, ws, es, id, n) <= c.maxAttempts
  {
    hide Overwrites, Counts, Step, Enabled, Exclusive, Fresh;
    if id in ws[n].rows {
      forall k | 0 <= k < n ensures !Overwrites(c, ws[k], es[k], id) {
        OneHolderPerTask(c, ws, es, k);
        FollowersDoNot(c, ws[k], es[k], id);
      }
      AttemptsAreExactIff(c, ws, es, id, n);
      InvAlong(c, ws, es, n);
      assert RowInv(c, ws[n].rows[id], ws[n].now);
    }
    if id >= ws[n].nextId {
      UnknownYet(c, ws, es, id, n);
    } else if n > 0 {
      AttemptsAreExact(c, ws, es, id, n - 1);
      InvAlong(c, ws, es, n - 1);
      CountsSpends(c, ws[n - 1], es[n - 1], id);
    }
  }

  // ------------------------------------------------------------------
  // Runs of more than ten seconds
  // ------------------------------------------------------------------

  /** No run of the row is written in time. */
  predicate Late(w: World, e: Event, id: TaskId) {
    e.Finish? && e.h in w.holders && w.holders[e.h].task == id ==> w.now > w.holders[e.h].began + BOOKKEEPING
  }

  predicate Unspent(r: Row) { r.attempts == 0 && (r.status.Pending? || r.status.Running? || r.status.Cancelled?) }

  lemma LateStep(c: Config, w: World, e: Event, id: TaskId)
    requires Inv(c, w) && Enabled(c, w, e) && Late(w, e, id)
    requires id in w.rows ==> Unspent(w.rows[id])
    ensures id in Step(c, w, e).rows ==> Unspent(Step(c, w, e).rows[id])
    ensures !Counts(c, w, e, id)
  {
  }

  /** A row whose runs all take more than ten seconds never gets through: however often it is handled, and whatever its
      handler returns, it is never done and never failed, and no attempt is ever spent. Only a cancellation ends it. */
  lemma {:induction false} LateRunsNeverCount(c: Config, ws: seq<World>, es: seq<Event>, id: TaskId, n: nat)
    requires IsRun(c, ws, es) && n <= |es|
    requires forall k :: 0 <= k < n ==> Late(ws[k], es[k], id)
    ensures id in ws[n].rows ==> Unspent(ws[n].rows[id])
    ensures CountedRuns(c, ws, es, id, n) == 0
  {
    if n > 0 {
      LateRunsNeverCount(c, ws, es, id, n - 1);
      InvAlong(c, ws, es, n - 1);
      LateStep(c, ws[n - 1], es[n - 1], id);
    }
  }

  /** How often the row's handler returned nil. */
  function Handlings(ws: seq<World>, es: seq<Event>, id: TaskId, n: nat): nat
    requires n <= |es| && n <= |ws|
  {
    if n == 0 then 0
    else
      var w, e := ws[n - 1], es[n - 1];
      Handlings(ws, es, id, n - 1) +
      if e.Return? && !e.err && e.h in w.holders && w.holders[e.h].task == id then 1 else 0
  }

  /** The branch of a run without a handler is dead: a replica claims only the kinds it registered, and
      registrations are never withdrawn. */
  lemma EveryClaimHasAHandler(c: Config, w: World, h: HolderId, answers: bool)
    requires Inv(c, w)
    ensures !Enabled(c, w, Unhandled(h, answers))
  {
  }

  /** A running row can be claimed again exactly from stale() after its last heartbeat on, whoever held it. */
  lemma ReclaimedAfterStale(c: Config, w: World, r: Replica, id: TaskId, at: int)
    requires Inv(c, w) && id in w.rows && w.rows[id].status.Running?
    requires w.rows[id].kind in KindsOf(w, r) && at <= w.now
    ensures w.rows[id].lockedAt.Some?
    ensures Enabled(c, w, Claim(r, [id], at)) <==> w.rows[id].lockedAt.value + Stale(c) < at
  {
    assert RowInv(c, w.rows[id], w.now);
    assert id in [id];
  }

  // ------------------------------------------------------------------
  // What the code does not promise
  // ------------------------------------------------------------------

  lemma {:induction false} CountedPrefix(c: Config, ws: seq<World>, es: seq<Event>, ws': seq<World>, es': seq<Event>,
                                         id: TaskId, n: nat)
    requires n <= |es| && n <= |ws| && ws <= ws' && es <= es'
    ensures CountedRuns(c, ws, es, id, n) == CountedRuns(c, ws', es', id, n)
  {
    if n > 0 {
      CountedPrefix(c, ws, es, ws', es', id, n - 1);
    }
  }

  lemma Extend(c: Config, ws: seq<World>, es: seq<Event>, e: Event) returns (ws': seq<World>, es': seq<Event>)
    requires IsRun(c, ws, es) && Enabled(c, ws[|es|], e)
    ensures ws' == ws + [Step(c, ws[|es|], e)] && es' == es + [e] && IsRun(c, ws', es')
    ensures forall id :: CountedRuns(c, ws', es', id, |es'|)
                      == CountedRuns(c, ws, es, id, |es|) + if Counts(c, ws[|es|], e, id) then 1 else 0
  {
    ws', es' := ws + [Step(c, ws[|es|], e)], es + [e];
    forall id ensures CountedRuns(c, ws', es', id, |es|) == CountedRuns(c, ws, es, id, |es|) {
      CountedPrefix(c, ws, es, ws', es', id, |es|);
    }
  }

  const USUAL: Config := Config(30000, 5, 604800000)

  /** A row queued behind another of its batch has no heartbeat. Here task 1 waits for task 0, whose
      heartbeats are all on time, and a second replica takes task 1 while the first one still holds it. */
  lemma QueuedRowIsTaken() returns (ws: seq<World>, es: seq<Event>)
    ensures IsRun(USUAL, ws, es)
    ensures var w := ws[|es|];
            && {1, 2} <= w.holders.Keys && w.holders[1].replica != w.holders[2].replica
            && w.holders[1].task == w.holders[2].task && w.holders[1].phase.Queued?
            && 0 in w.rows && w.rows[0].status.Running? && !Due(USUAL, w.rows[0], w.now)
  {
    ws, es := OneBeaten();
    ws, es := ClaimTask1(ws, es, 1);
  }

  /** Task 0 has run for a minute and been refreshed; task 1 has been queued for a hundred seconds. */
  lemma OneBeaten() returns (ws: seq<World>, es: seq<Event>)
    ensures IsRun(USUAL, ws, es)
    ensures ws[|es|] == World(map[0 := Row("k", "a", 0, Running, 0, Some(60000), 60000),
                                  1 := Row("k", "b", 0, Running, 0, Some(0), 0)], 2,
                              map[0 := Holder(0, 0, 0, InHandler, NoCause, 0),
                                  1 := Holder(0, 1, 0, Queued, NoCause, 0)], 2,
                              map[0 := {"k"}, 1 := {"k"}], {}, 100000)
  {
    ws, es := TwoTasksClaimed();
    ws, es := Extend(USUAL, ws, es, Start(0));
    ws, es := Extend(USUAL, ws, es, Tick(60000));
    assert ws[|es|].rows[0].status.Running?;
    ws, es := Extend(USUAL, ws, es, Beat(0));
    ws, es := Extend(USUAL, ws, es, Tick(100000));
  }

  ghost const TWO_SCHEDULED: World := World(
    map[0 := Row("k", "a", 0, Pending, 0, None, 0), 1 := Row("k", "b", 0, Pending, 0, None, 0)], 2,
    map[], 0, map[0 := {"k"}, 1 := {"k"}], {}, 0)

  lemma TwoTasksScheduled() returns (ws: seq<World>, es: seq<Event>)
    ensures IsRun(USUAL, ws, es) && ws[|es|] == TWO_SCHEDULED
  {
    ws, es := [Init(0)], [];
    ws, es := Extend(USUAL, ws, es, Handle(0, "k"));
    assert {} + {"k"} == {"k"};
    assert ws[|es|].kinds == map[0 := {"k"}];
    ws, es := Extend(USUAL, ws, es, Handle(1, "k"));
    assert ws[|es|].kinds == TWO_SCHEDULED.kinds;
    ws, es := Extend(USUAL, ws, es, Schedule("k", "a", 0));
    ws, es := Extend(USUAL, ws, es, Schedule("k", "b", 0));
    assert ws[|es|].rows == TWO_SCHEDULED.rows;
  }

  ghost const TWO_CLAIMED: World := World(
    map[0 := Row("k", "a", 0, Running, 0, Some(0), 0), 1 := Row("k", "b", 0, Running, 0, Some(0), 0)], 2,
    map[0 := Holder(0, 0, 0, Queued, NoCause, 0), 1 := Holder(0, 1, 0, Queued, NoCause, 0)], 2,
    map[0 := {"k"}, 1 := {"k"}], {}, 0)

  lemma ClaimOfTwo()
    ensures Enabled(USUAL, TWO_SCHEDULED, Claim(0, [0, 1], 0))
    ensures Step(USUAL, TWO_SCHEDULED, Claim(0, [0, 1], 0)) == TWO_CLAIMED
  {
    TwoNewHolders();
    TwoNewRows();
    hide NewHolders, ClaimRows;
    assert map[] + TWO_CLAIMED.holders == TWO_CLAIMED.holders;
  }

  lemma TwoNewHolders()
    ensures NewHolders(TWO_SCHEDULED, 0, [0, 1]) == TWO_CLAIMED.holders
  {
    assert Span(0, 2) == {0, 1};
    hide Span;
  }

  lemma TwoNewRows()
    ensures ClaimRows(TWO_SCHEDULED.rows, [0, 1], 0, 0) == TWO_CLAIMED.rows
  {
  }

  lemma TwoTasksClaimed() returns (ws: seq<World>, es: seq<Event>)
    ensures IsRun(USUAL, ws, es) && ws[|es|] == TWO_CLAIMED
  {
    ws, es := TwoTasksScheduled();
    ClaimOfTwo();
    ws, es := Extend(USUAL, ws, es, Claim(0, [0, 1], 0));
  }

  /** A queued holder runs, fails and writes a retry; one more run counts. */
  lemma FailedRun(c: Config, ws: seq<World>, es: seq<Event>, h: HolderId) returns (ws': seq<World>, es': seq<Event>)
    requires IsRun(c, ws, es)
    requires var w := ws[|es|];
             && h in w.holders && w.holders[h].phase.Queued? && HasHandler(w, w.holders[h])
             && w.holders[h].replica !in w.stopping && w.holders[h].attempts + 1 < c.maxAttempts
             && w.holders[h].task in w.rows && w.rows[w.holders[h].task].status.Running?
    ensures IsRun(c, ws', es')
    ensures var w, x := ws[|es|], ws[|es|].holders[h];
            && ws'[|es'|] == w.(rows := WriteOutcome(w.rows, x.task, Retry, x.attempts, w.now),
                                holders := w.holders - {h})
            && CountedRuns(c, ws', es', x.task, |es'|) == CountedRuns(c, ws, es, x.task, |es|) + 1
  {
    var w, x := ws[|es|], ws[|es|].holders[h];
    ws', es' := Extend(c, ws, es, Start(h));
    ws', es' := Extend(c, ws', es', Return(h, true));
    assert ws'[|es'|].holders[h] == x.(phase := Returned(true), cause := NoCause, began := w.now);
    ws', es' := Extend(c, ws', es', Finish(h, true));
    assert ws'[|es'|].holders == w.holders - {h};
  }

  /** The outcome carries no token of its claim. Task 1 is held by both replicas; its first run fails and is
      put back, a third holder claims it from there, and the outcome of the stale holder lands on that claim
      with the attempts read at its own: two failed runs, one attempt. */
  lemma StaleOutcomeLosesAnAttempt() returns (ws: seq<World>, es: seq<Event>)
    ensures IsRun(USUAL, ws, es)
    ensures 1 in ws[|es|].rows && ws[|es|].rows[1].status.Pending? && ws[|es|].rows[1].attempts == 1
    ensures CountedRuns(USUAL, ws, es, 1, |es|) >= 2
  {
    ws, es := TwoTasksClaimed();
    ws, es := Extend(USUAL, ws, es, Tick(100000));
    ws, es := ClaimTask1(ws, es, 1);
    ws, es := FailedRun(USUAL, ws, es, 1);
    assert Backoff(1) == 60000 by { BackoffBounds(1); }
    ws, es := Extend(USUAL, ws, es, Tick(160000));
    ws, es := ClaimTask1(ws, es, 0);
    ws, es := FailedRun(USUAL, ws, es, 2);
  }

  lemma ClaimTask1(ws: seq<World>, es: seq<Event>, r: Replica) returns (ws': seq<World>, es': seq<Event>)
    requires IsRun(USUAL, ws, es)
    requires var w := ws[|es|];
             && r in w.kinds && w.kinds[r] == {"k"}
             && 1 in w.rows && w.rows[1].kind == "k" && Due(USUAL, w.rows[1], w.now)
             && (forall h :: h in w.holders ==> h < w.nextHolder)
    ensures IsRun(USUAL, ws', es')
    ensures var w, w' := ws[|es|], ws'[|es'|];
            && w' == w.(rows := w.rows[1 := Claimed(w.rows[1], w.now, w.now)],
                        holders := w.holders[w.nextHolder := Holder(r, 1, w.rows[1].attempts, Queued, NoCause, 0)],
                        nextHolder := w.nextHolder + 1)
    ensures CountedRuns(USUAL, ws', es', 1, |es'|) == CountedRuns(USUAL, ws, es, 1, |es|)
  {
    var w := ws[|es|];
    hide NewHolders, ClaimRows, IsRun, CountedRuns, Enabled, Step, Counts, Overwrites;
    ClaimsOne(w, r);
    OnlyFinishCounts(USUAL, w, Claim(r, [1], w.now), 1);
    ws', es' := Extend(USUAL, ws, es, Claim(r, [1], w.now));
  }

  lemma ClaimsOne(w: World, r: Replica)
    requires r in w.kinds && w.kinds[r] == {"k"}
    requires 1 in w.rows && w.rows[1].kind == "k" && Due(USUAL, w.rows[1], w.now)
    requires forall h :: h in w.holders ==> h < w.nextHolder
    ensures Enabled(USUAL, w, Claim(r, [1], w.now))
    ensures Step(USUAL, w, Claim(r, [1], w.now)) ==
              w.(rows := w.rows[1 := Claimed(w.rows[1], w.now, w.now)],
                 holders := w.holders[w.nextHolder := Holder(r, 1, w.rows[1].attempts, Queued, NoCause, 0)],
                 nextHolder := w.nextHolder + 1)
  {
    hide NewHolders, ClaimRows, Due;
    OneNewHolder(w, r, 1);
    OneNewRow(w.rows, 1, w.now);
  }

  lemma OneNewHolder(w: World, r: Replica, id: TaskId)
    requires id in w.rows
    ensures NewHolders(w, r, [id]) == map[w.nextHolder := Holder(r, id, w.rows[id].attempts, Queued, NoCause, 0)]
  {
    assert Span(w.nextHolder, 1) == {w.nextHolder} by { assert Span(w.nextHolder, 0) == {}; }
    hide Span;
  }

  lemma OneNewRow(rows: Rows, id: TaskId, now: int)
    requires id in rows
    ensures ClaimRows(rows, [id], now, now) == rows[id := Claimed(rows[id], now, now)]
  {
  }

  // ------------------------------------------------------------------
  // A slow handler runs without end
  // ------------------------------------------------------------------

  ghost predicate AllFresh(c: Config, ws: seq<World>) { forall k :: 0 <= k < |ws| ==> Fresh(c, ws[k]) }

  lemma {:induction false} HandlingsPrefix(ws: seq<World>, es: seq<Event>, ws': seq<World>, es': seq<Event>,
                                           id: TaskId, n: nat)
    requires n <= |es| && n <= |ws| && ws <= ws' && es <= es'
    ensures Handlings(ws, es, id, n) == Handlings(ws', es', id, n)
  {
    if n > 0 {
      HandlingsPrefix(ws, es, ws', es', id, n - 1);
    }
  }

  /** The event leads from w to w', where no claimed row is stale, with k runs of row 0 ended and no attempt counted. */
  ghost predicate Link(w: World, e: Event, w': World, k: nat) {
    && Enabled(USUAL, w, e) && Step(USUAL, w, e) == w' && Fresh(USUAL, w') && !Counts(USUAL, w, e, 0)
    && k == if e.Return? && !e.err && e.h in w.holders && w.holders[e.h].task == 0 then 1 else 0
  }

  /** A run in which row 0 was handled n times, no attempt counted and no claimed row was ever stale. */
  ghost predicate SlowRun(ws: seq<World>, es: seq<Event>, n: nat) {
    && IsRun(USUAL, ws, es) && AllFresh(USUAL, ws)
    && Handlings(ws, es, 0, |es|) == n && CountedRuns(USUAL, ws, es, 0, |es|) == 0
  }

  lemma ExtendSlow(ws: seq<World>, es: seq<Event>, n: nat, e: Event, w': World, k: nat)
    returns (ws': seq<World>, es': seq<Event>)
    requires |ws| == |es| + 1 && SlowRun(ws, es, n) && Link(ws[|es|], e, w', k)
    ensures |ws'| == |es'| + 1 && SlowRun(ws', es', n + k) && ws'[|es'|] == w'
  {
    hide Step, Enabled, Fresh, Counts;
    ws', es' := Extend(USUAL, ws, es, e);
    HandlingsPrefix(ws, es, ws', es', 0, |es|);
  }

  /** Row 0 of one replica, with nobody at it: due, or stale a moment after stale(). */
  ghost predicate Abandoned(w: World) {
    && w.holders == map[] && w.kinds == map[0 := {"k"}] && w.stopping == {} && w.nextId == 1 && w.rows.Keys == {0}
    && w.rows[0].kind == "k" && w.rows[0].attempts == 0 && w.rows[0].runAt == 0 && w.now >= 0
    && (w.rows[0].status.Pending? ||
        (w.rows[0].status.Running? && w.rows[0].lockedAt.Some? && w.rows[0].lockedAt.value <= w.now))
  }

  /** The same with one holder, and the row locked at time t. */
  function Taken(w: World, t: int, h: HolderId, x: Holder): World
    requires w.rows.Keys == {0}
  {
    w.(rows := map[0 := Claimed(w.rows[0], t, t)], nextHolder := h + 1, holders := map[h := x])
  }

  lemma LinkTick(w: World, t: int)
    requires w.now <= t
    requires w.holders == map[] || (exists h, x :: w.holders == map[h := x] && x.task == 0 && w.rows.Keys == {0}
                                                   && w.rows[0].lockedAt == Some(w.now) && t <= w.now + Stale(USUAL))
    ensures Link(w, Tick(t), w.(now := t), 0)
  {
  }

  lemma LinkClaim(w: World)
    requires w.holders == map[] && w.kinds == map[0 := {"k"}] && w.rows.Keys == {0} && w.rows[0].kind == "k"
    requires w.rows[0].attempts == 0 && Due(USUAL, w.rows[0], w.now)
    ensures Link(w, Claim(0, [0], w.now), Taken(w, w.now, w.nextHolder, Holder(0, 0, 0, Queued, NoCause, 0)), 0)
  {
    OneNewHolder(w, 0, 0);
    OneNewRow(w.rows, 0, w.now);
    hide NewHolders, ClaimRows;
    assert w.rows[0 := Claimed(w.rows[0], w.now, w.now)] == map[0 := Claimed(w.rows[0], w.now, w.now)];
    assert map[] + NewHolders(w, 0, [0]) == NewHolders(w, 0, [0]);
  }

  lemma LinkStart(w: World, h: HolderId)
    requires w.rows.Keys == {0} && w.rows[0].kind == "k" && w.stopping == {} && w.kinds == map[0 := {"k"}]
    requires w.rows[0].lockedAt == Some(w.now) && w.holders == map[h := Holder(0, 0, 0, Queued, NoCause, 0)]
    ensures Link(w, Start(h), w.(holders := map[h := Holder(0, 0, 0, InHandler, NoCause, w.now)]), 0)
  {
    var x := Holder(0, 0, 0, InHandler, NoCause, w.now);
    assert w.holders[h := x] == map[h := x];
  }

  lemma LinkReturn(w: World, h: HolderId, began: int)
    requires w.rows.Keys == {0} && w.rows[0].lockedAt == Some(began) && began <= w.now <= began + Stale(USUAL)
    requires w.holders == map[h := Holder(0, 0, 0, InHandler, NoCause, began)]
    ensures Link(w, Return(h, false), w.(holders := map[h := Holder(0, 0, 0, Returned(false), NoCause, began)]), 1)
  {
    var x := Holder(0, 0, 0, Returned(false), NoCause, began);
    assert w.holders[h := x] == map[h := x];
  }

  lemma LinkFinish(w: World, h: HolderId, began: int)
    requires w.holders == map[h := Holder(0, 0, 0, Returned(false), NoCause, began)] && w.now > began + BOOKKEEPING
    ensures Link(w, Finish(h, true), w.(holders := map[]), 0)
  {
    assert w.holders - {h} == map[];
  }

  /** The row just claimed and its run begun at t. */
  ghost predicate Begun(w: World, h: HolderId, t: int) {
    && w.holders == map[h := Holder(0, 0, 0, InHandler, NoCause, t)] && w.kinds == map[0 := {"k"}] && w.stopping == {}
    && w.nextId == 1 && w.rows.Keys == {0} && w.rows[0].kind == "k" && w.rows[0].attempts == 0 && w.rows[0].runAt == 0
    && w.rows[0].status.Running? && w.rows[0].lockedAt == Some(t) && w.now == t >= 0
  }

  /** Ninety seconds and a millisecond later the row is claimed and its run begins. */
  lemma SlowRunBegins(ws: seq<World>, es: seq<Event>, n: nat)
    returns (ws': seq<World>, es': seq<Event>, h: HolderId, t: int)
    requires |ws| == |es| + 1 && SlowRun(ws, es, n) && Abandoned(ws[|es|])
    ensures |ws'| == |es'| + 1 && SlowRun(ws', es', n) && Begun(ws'[|es'|], h, t)
  {
    var w := ws[|es|];
    t, h := w.now + Stale(USUAL) + 1, w.nextHolder;
    var w1, w2, w3 := BeginWorlds(w, h, t);
    hide Link, SlowRun, Abandoned, Begun, Stale;
    ws', es' := ExtendSlow(ws, es, n, Tick(t), w1, 0);
    ws', es' := ExtendSlow(ws', es', n, Claim(0, [0], t), w2, 0);
    ws', es' := ExtendSlow(ws', es', n, Start(h), w3, 0);
  }

  lemma BeginWorlds(w: World, h: HolderId, t: int) returns (w1: World, w2: World, w3: World)
    requires Abandoned(w) && t == w.now + Stale(USUAL) + 1 && h == w.nextHolder
    ensures Link(w, Tick(t), w1, 0) && Link(w1, Claim(0, [0], t), w2, 0) && Link(w2, Start(h), w3, 0) && Begun(w3, h, t)
  {
    w1 := w.(now := t);
    w2 := Taken(w1, t, h, Holder(0, 0, 0, Queued, NoCause, 0));
    w3 := w2.(holders := map[h := Holder(0, 0, 0, InHandler, NoCause, t)]);
    LinkTick(w, t);
    assert w1.rows[0] == w.rows[0];
    hide Link;
    LinkClaim(w1);
    LinkStart(w2, h);
  }

  /** It takes ten seconds and a millisecond and returns without an error; nothing is written. */
  lemma SlowRunEnds(ws: seq<World>, es: seq<Event>, n: nat, h: HolderId, t: int)
    returns (ws': seq<World>, es': seq<Event>)
    requires |ws| == |es| + 1 && SlowRun(ws, es, n) && Begun(ws[|es|], h, t)
    ensures |ws'| == |es'| + 1 && SlowRun(ws', es', n + 1)
    ensures Abandoned(ws'[|es'|]) && ws'[|es'|].rows[0].status.Running?
  {
    var w, t' := ws[|es|], t + BOOKKEEPING + 1;
    var w4, w5, w6 := EndWorlds(w, h, t);
    hide Link, SlowRun, Abandoned, Begun, Stale;
    ws', es' := ExtendSlow(ws, es, n, Tick(t'), w4, 0);
    ws', es' := ExtendSlow(ws', es', n, Return(h, false), w5, 1);
    ws', es' := ExtendSlow(ws', es', n + 1, Finish(h, true), w6, 0);
  }

  lemma EndWorlds(w: World, h: HolderId, t: int) returns (w4: World, w5: World, w6: World)
    requires Begun(w, h, t)
    ensures Link(w, Tick(t + BOOKKEEPING + 1), w4, 0) && Link(w4, Return(h, false), w5, 1)
    ensures Link(w5, Finish(h, true), w6, 0)
    ensures Abandoned(w6) && w6.rows[0].status.Running?
  {
    w4 := w.(now := t + BOOKKEEPING + 1);
    w5 := w4.(holders := map[h := Holder(0, 0, 0, Returned(false), NoCause, t)]);
    w6 := w5.(holders := map[]);
    assert w.holders == map[h := Holder(0, 0, 0, InHandler, NoCause, t)];
    LinkTick(w, t + BOOKKEEPING + 1);
    hide Link;
    LinkReturn(w4, h, t);
    LinkFinish(w5, h, t);
  }

  /** For any n: one row, one replica, no claimed row ever stale, every database statement answered in time to its
      context; its handler returns nil n times, and the row is running with no attempt spent. */
  lemma {:induction false} HandledWithoutEnd(n: nat) returns (ws: seq<World>, es: seq<Event>)
    ensures IsRun(USUAL, ws, es) && AllFresh(USUAL, ws) && 0 in ws[|es|].rows
    ensures Handlings(ws, es, 0, |es|) == n && CountedRuns(USUAL, ws, es, 0, |es|) == 0
    ensures n > 0 ==> ws[|es|].rows[0].status.Running? && ws[|es|].rows[0].attempts == 0
  {
    ws, es := SlowRounds(n);
  }

  lemma {:induction false} SlowRounds(n: nat) returns (ws: seq<World>, es: seq<Event>)
    ensures |ws| == |es| + 1 && SlowRun(ws, es, n) && Abandoned(ws[|es|])
    ensures n > 0 ==> ws[|es|].rows[0].status.Running?
  {
    if n == 0 {
      ws, es := OneScheduled();
    } else {
      ws, es := SlowRounds(n - 1);
      var h, t;
      ws, es, h, t := SlowRunBegins(ws, es, n - 1);
      ws, es := SlowRunEnds(ws, es, n - 1, h, t);
    }
  }

  lemma OneScheduled() returns (ws: seq<World>, es: seq<Event>)
    ensures |ws| == |es| + 1 && SlowRun(ws, es, 0) && Abandoned(ws[|es|])
  {
    ws, es := [Init(0)], [];
    var w1 := Init(0).(kinds := map[0 := {"k"}]);
    assert {} + {"k"} == {"k"};
    assert Link(Init(0), Handle(0, "k"), w1, 0);
    ws, es := ExtendSlow(ws, es, 0, Handle(0, "k"), w1, 0);
    var w2 := w1.(rows := map[0 := Row("k", "a", 0, Pending, 0, None, 0)], nextId := 1);
    assert Link(w1, Schedule("k", "a", 0), w2, 0);
    ws, es := ExtendSlow(ws, es, 0, Schedule("k", "a", 0), w2, 0);
  }
}
