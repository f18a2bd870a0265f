/** Dead-letter replay (kafkax): the records services parked in one dlq topic, the position this service's tool
    group committed in each partition, and which records its handler has been through without an error. */
module DeadLetters {
  import opened Options

  type Partition = nat

  /** A parked record; `consumer` is the service in its header, "" on a record from before the header. */
  datatype Rec = Rec(partition: Partition, offset: nat, consumer: string)

  type Log = map<Partition, seq<Rec>>

  datatype State = State(log: Log, committed: map<Partition, nat>, handled: set<Rec>)

  predicate ParkedHere(service: string, r: Rec) { r.consumer == "" || r.consumer == service }

  function Position(s: State, p: Partition): nat { if p in s.committed then s.committed[p] else 0 }

  function Records(s: State, p: Partition): seq<Rec> { if p in s.log then s.log[p] else [] }

  /** Offsets grow within a partition; they need not be dense. */
  ghost predicate LogOk(log: Log) {
    forall p :: p in log ==>
      && (forall r :: r in log[p] ==> r.partition == p)
      && (forall i, j :: 0 <= i < j < |log[p]| ==> log[p][i].offset < log[p][j].offset)
  }

  /** What a read of the pending records may return, in any order across and within partitions: of each
      partition a contiguous run from the committed position. */
  ghost predicate ReadOf(s: State, recs: seq<Rec>) {
    && Distinct(recs)
    && (forall r :: r in recs ==> r in Records(s, r.partition) && Position(s, r.partition) <= r.offset)
    && (forall r, x :: r in recs && x in Records(s, r.partition) ==>
          Position(s, r.partition) <= x.offset <= r.offset ==> x in recs)
  }

  // ------------------------------------------------------------------
  // Sorting one partition
  // ------------------------------------------------------------------

  function InPartition(recs: seq<Rec>, p: Partition): (rs: seq<Rec>)
    ensures forall r :: r in rs <==> r in recs && r.partition == p
  {
    if recs == [] then []
    else if recs[0].partition == p then [recs[0]] + InPartition(recs[1..], p)
    else InPartition(recs[1..], p)
  }

  function Insert(r: Rec, rs: seq<Rec>): (out: seq<Rec>)
    ensures forall x :: x in out <==> x == r || x in rs
  {
    if rs == [] || r.offset <= rs[0].offset then [r] + rs else [rs[0]] + Insert(r, rs[1..])
  }

  function ByOffset(rs: seq<Rec>): (out: seq<Rec>)
    ensures forall x :: x in out <==> x in rs
  {
    if rs == [] then [] else Insert(rs[0], ByOffset(rs[1..]))
  }

  ghost predicate Distinct(rs: seq<Rec>) { forall i, j :: 0 <= i < j < |rs| ==> rs[i] != rs[j] }

  ghost predicate Ascending(rs: seq<Rec>) { forall i, j :: 0 <= i < j < |rs| ==> rs[i].offset <= rs[j].offset }

  ghost predicate StrictlyAscending(q: seq<Rec>) { forall i, j :: 0 <= i < j < |q| ==> q[i].offset < q[j].offset }

  lemma {:induction false} InsertAscends(r: Rec, rs: seq<Rec>)
    requires Ascending(rs)
    ensures Ascending(Insert(r, rs))
  {
    if rs != [] && r.offset > rs[0].offset {
      InsertAscends(r, rs[1..]);
      var out := Insert(r, rs[1..]);
      forall j | 0 <= j < |out| ensures rs[0].offset <= out[j].offset {
        assert out[j] in out;
      }
    }
  }

  lemma {:induction false} ByOffsetAscends(rs: seq<Rec>)
    ensures Ascending(ByOffset(rs))
  {
    if rs != [] {
      ByOffsetAscends(rs[1..]);
      InsertAscends(rs[0], ByOffset(rs[1..]));
    }
  }

  lemma {:induction false} InsertDistinct(r: Rec, rs: seq<Rec>)
    requires r !in rs && Distinct(rs)
    ensures Distinct(Insert(r, rs))
  {
    if rs != [] && r.offset > rs[0].offset {
      InsertDistinct(r, rs[1..]);
      var out := Insert(r, rs[1..]);
      forall j | 0 <= j < |out| ensures rs[0] != out[j] {
        assert out[j] in out;
      }
    }
  }

  lemma {:induction false} ByOffsetDistinct(rs: seq<Rec>)
    requires Distinct(rs)
    ensures Distinct(ByOffset(rs))
  {
    if rs != [] {
      ByOffsetDistinct(rs[1..]);
      InsertDistinct(rs[0], ByOffset(rs[1..]));
    }
  }

  lemma {:induction false} InPartitionDistinct(recs: seq<Rec>, p: Partition)
    requires Distinct(recs)
    ensures Distinct(InPartition(recs, p))
  {
    if recs != [] {
      InPartitionDistinct(recs[1..], p);
    }
  }

  /** The pending records of a partition in the order the replay takes them. */
  function Queue(recs: seq<Rec>, p: Partition): seq<Rec> { ByOffset(InPartition(recs, p)) }

  // ------------------------------------------------------------------
  // The two commands
  // ------------------------------------------------------------------

  /** How process ends for a record of this service: true is nil, handled or a duplicate. */
  type Outcome = Rec -> bool

  predicate Passes(service: string, ok: Outcome, r: Rec) { ParkedHere(service, r) ==> ok(r) }

  /** How many records of the queue the replay gets past: up to the first of this service that fails. */
  function Done(service: string, ok: Outcome, rs: seq<Rec>): (n: nat)
    ensures n <= |rs|
    ensures forall k :: 0 <= k < n ==> Passes(service, ok, rs[k])
    ensures n < |rs| ==> !Passes(service, ok, rs[n])
  {
    if rs == [] || !Passes(service, ok, rs[0]) then 0 else 1 + Done(service, ok, rs[1..])
  }

  function DoneIn(service: string, ok: Outcome, recs: seq<Rec>, p: Partition): (n: nat)
    ensures n <= |Queue(recs, p)|
  {
    Done(service, ok, Queue(recs, p))
  }

  function Partitions(recs: seq<Rec>): set<Partition> { set r | r in recs :: r.partition }

  /** The offsets a full replay commits: one past the last record done, in each partition where one was. */
  function Marks(service: string, ok: Outcome, recs: seq<Rec>): map<Partition, nat> {
    map p | p in Partitions(recs) && DoneIn(service, ok, recs, p) > 0 ::
      Queue(recs, p)[DoneIn(service, ok, recs, p) - 1].offset + 1
  }

  /** The records of this service the full replay ran without an error. */
  function HandledBy(service: string, ok: Outcome, recs: seq<Rec>): set<Rec> {
    set r | r in recs && ParkedHere(service, r) &&
            r in Queue(recs, r.partition)[..DoneIn(service, ok, recs, r.partition)]
  }

  function ReplayAll(s: State, service: string, ok: Outcome, recs: seq<Rec>, commits: bool): State {
    s.(handled := s.handled + HandledBy(service, ok, recs),
       committed := if commits then s.committed + Marks(service, ok, recs) else s.committed)
  }

  /** No earlier pending record of this service in the partition. */
  predicate FirstOwn(service: string, recs: seq<Rec>, r: Rec) {
    forall x :: x in recs && x.partition == r.partition && x.offset < r.offset ==> !ParkedHere(service, x)
  }

  function ReplayOne(s: State, service: string, ok: Outcome, recs: seq<Rec>, r: Rec, commits: bool): State {
    if !ParkedHere(service, r) || !ok(r) then s
    else s.(handled := s.handled + {r},
            committed := if FirstOwn(service, recs, r) && commits then s.committed[r.partition := r.offset + 1]
                         else s.committed)
  }

  datatype Event =
    | Park(r: Rec)                                          // some service parks a record
    | All(ok: Outcome, recs: seq<Rec>, commits: bool)
    | One(ok: Outcome, recs: seq<Rec>, r: Rec, commits: bool)

  ghost predicate Enabled(s: State, e: Event) {
    match e
    case Park(r) => forall x :: x in Records(s, r.partition) ==> x.offset < r.offset
    case All(_, recs, _) => ReadOf(s, recs)
    case One(_, recs, r, _) => ReadOf(s, recs) && r in recs
  }

  function Step(s: State, service: string, e: Event): State {
    match e
    case Park(r) => s.(log := s.log[r.partition := Records(s, r.partition) + [r]])
    case All(ok, recs, commits) => ReplayAll(s, service, ok, recs, commits)
    case One(ok, recs, r, commits) => ReplayOne(s, service, ok, recs, r, commits)
  }

  ghost predicate IsRun(service: string, ss: seq<State>, es: seq<Event>) {
    && |ss| == |es| + 1
    && ss[0] == State(map[], map[], {})
    && forall i :: 0 <= i < |es| ==> Enabled(ss[i], es[i]) && ss[i + 1] == Step(ss[i], service, es[i])
  }

  // ------------------------------------------------------------------
  // The position never passes a record that was not handled
  // ------------------------------------------------------------------

  ghost predicate SafeIn(service: string, log: seq<Rec>, at: nat, handled: set<Rec>) {
    forall x :: x in log && x.offset < at && ParkedHere(service, x) ==> x in handled
  }

  /** A position is where it began or one past a record of the log, so what is parked later lies behind it. */
  ghost predicate ReachedIn(log: seq<Rec>, at: nat) {
    at > 0 ==> exists x :: x in log && at == x.offset + 1
  }

  ghost predicate Inv(service: string, s: State) {
    && LogOk(s.log)
    && (forall p :: SafeIn(service, Records(s, p), Position(s, p), s.handled))
    && (forall p :: ReachedIn(Records(s, p), Position(s, p)))
  }

  lemma ParkedBehind(service: string, log: seq<Rec>, at: nat, handled: set<Rec>, r: Rec)
    requires SafeIn(service, log, at, handled) && ReachedIn(log, at)
    requires forall x :: x in log ==> x.offset < r.offset
    ensures SafeIn(service, log + [r], at, handled) && ReachedIn(log + [r], at)
  {
    if at > 0 {
      var x :| x in log && at == x.offset + 1;
      assert x in log + [r];
    }
  }

  lemma ParkKeeps(service: string, s: State, r: Rec)
    requires Inv(service, s) && Enabled(s, Park(r))
    ensures Inv(service, Step(s, service, Park(r)))
  {
    var s' := Step(s, service, Park(r));
    hide SafeIn, ReachedIn;
    forall p
      ensures SafeIn(service, Records(s', p), Position(s', p), s'.handled)
      ensures ReachedIn(Records(s', p), Position(s', p))
    {
      assert SafeIn(service, Records(s, p), Position(s, p), s.handled) && ReachedIn(Records(s, p), Position(s, p));
      if p == r.partition {
        ParkedBehind(service, Records(s, p), Position(s, p), s.handled, r);
      }
    }
  }

  lemma InLog(s: State, recs: seq<Rec>, r: Rec)
    requires ReadOf(s, recs) && r in recs
    ensures r in Records(s, r.partition) && Position(s, r.partition) <= r.offset
  {
  }

  /** What is pending up to a record that was read was read too. */
  lemma PendingIsRead(s: State, recs: seq<Rec>, f: Rec, x: Rec)
    requires ReadOf(s, recs) && LogOk(s.log) && f in recs && x in Records(s, f.partition)
    requires Position(s, f.partition) <= x.offset <= f.offset
    ensures x in recs && x.partition == f.partition
  {
  }

  lemma SameOffset(s: State, p: Partition, x: Rec, y: Rec)
    requires LogOk(s.log) && x in Records(s, p) && y in Records(s, p) && x.offset == y.offset
    ensures x == y
  {
  }

  lemma QueueAscends(s: State, recs: seq<Rec>, p: Partition)
    requires ReadOf(s, recs)
    ensures Ascending(Queue(recs, p)) && Distinct(Queue(recs, p))
  {
    InPartitionDistinct(recs, p);
    ByOffsetDistinct(InPartition(recs, p));
    ByOffsetAscends(InPartition(recs, p));
  }

  lemma QueueHolds(recs: seq<Rec>, p: Partition, x: Rec)
    ensures x in Queue(recs, p) <==> x in recs && x.partition == p
  {
  }

  /** The queue of a partition is the pending part of its log that was read, strictly by offset. */
  lemma QueueFacts(s: State, recs: seq<Rec>, p: Partition)
    requires LogOk(s.log) && ReadOf(s, recs)
    ensures var q := Queue(recs, p);
            && StrictlyAscending(q)
            && (forall x :: x in q <==> x in recs && x.partition == p)
            && (forall k :: 0 <= k < |q| ==> q[k] in Records(s, p) && Position(s, p) <= q[k].offset)
  {
    var q := Queue(recs, p);
    QueueAscends(s, recs, p);
    hide Queue, ReadOf, LogOk, Records, Position;
    forall x ensures x in q <==> x in recs && x.partition == p {
      QueueHolds(recs, p, x);
    }
    forall k | 0 <= k < |q| ensures q[k] in Records(s, p) && Position(s, p) <= q[k].offset {
      assert q[k] in q;
      InLog(s, recs, q[k]);
    }
    forall i, j | 0 <= i < j < |q| ensures q[i].offset < q[j].offset {
      if q[i].offset == q[j].offset {
        SameOffset(s, p, q[i], q[j]);
      }
    }
  }

  /** Of the log, nothing pending lies before a place of the queue but what stands before it in the queue. */
  lemma QueueIsTheLog(s: State, recs: seq<Rec>, p: Partition, n: nat, x: Rec) returns (k: nat)
    requires LogOk(s.log) && ReadOf(s, recs) && n < |Queue(recs, p)|
    requires x in Records(s, p) && Position(s, p) <= x.offset <= Queue(recs, p)[n].offset
    ensures k <= n && Queue(recs, p)[k] == x
  {
    hide Queue, ReadOf, LogOk, Records, Position;
    var q := Queue(recs, p);
    QueueFacts(s, recs, p);
    assert q[n] in q;
    PendingIsRead(s, recs, q[n], x);
    k :| 0 <= k < |q| && q[k] == x;
  }

  lemma DoneIsHandled(service: string, ok: Outcome, recs: seq<Rec>, p: Partition, k: nat)
    requires k < DoneIn(service, ok, recs, p) && ParkedHere(service, Queue(recs, p)[k])
    ensures Queue(recs, p)[k] in HandledBy(service, ok, recs)
  {
    hide Done;
    var q, n := Queue(recs, p), DoneIn(service, ok, recs, p);
    QueueHolds(recs, p, q[k]);
    hide Queue;
    assert q[k] in q && q[k] in q[..n];
  }

  lemma MarkIsSafe(service: string, s: State, ok: Outcome, recs: seq<Rec>, p: Partition)
    requires LogOk(s.log) && ReadOf(s, recs) && DoneIn(service, ok, recs, p) > 0
    requires SafeIn(service, Records(s, p), Position(s, p), s.handled)
    ensures var at := Queue(recs, p)[DoneIn(service, ok, recs, p) - 1].offset + 1;
            && SafeIn(service, Records(s, p), at, s.handled + HandledBy(service, ok, recs))
            && ReachedIn(Records(s, p), at) && Position(s, p) < at
  {
    hide Queue, DoneIn, HandledBy, ReadOf, LogOk, Records, Position;
    var last := DoneIn(service, ok, recs, p) - 1;
    QueueFacts(s, recs, p);
    assert Queue(recs, p)[last] in Records(s, p);
    var at := Queue(recs, p)[last].offset + 1;
    forall x | x in Records(s, p) && x.offset < at && ParkedHere(service, x)
      ensures x in s.handled + HandledBy(service, ok, recs)
    {
      if Position(s, p) <= x.offset {
        var k := QueueIsTheLog(s, recs, p, last, x);
        DoneIsHandled(service, ok, recs, p, k);
      }
    }
  }

  lemma AllKeepsAt(service: string, s: State, ok: Outcome, recs: seq<Rec>, commits: bool, p: Partition)
    requires LogOk(s.log) && ReadOf(s, recs)
    requires SafeIn(service, Records(s, p), Position(s, p), s.handled) && ReachedIn(Records(s, p), Position(s, p))
    ensures var s' := ReplayAll(s, service, ok, recs, commits);
            && SafeIn(service, Records(s', p), Position(s', p), s'.handled)
            && ReachedIn(Records(s', p), Position(s', p)) && Position(s, p) <= Position(s', p)
  {
    hide DoneIn, Queue, HandledBy, ReadOf, LogOk;
    if commits && p in Partitions(recs) && DoneIn(service, ok, recs, p) > 0 {
      MarkIsSafe(service, s, ok, recs, p);
    }
  }

  lemma AllKeeps(service: string, s: State, ok: Outcome, recs: seq<Rec>, commits: bool)
    requires Inv(service, s) && ReadOf(s, recs)
    ensures Inv(service, ReplayAll(s, service, ok, recs, commits))
    ensures forall p :: Position(s, p) <= Position(ReplayAll(s, service, ok, recs, commits), p)
  {
    hide SafeIn, ReachedIn, Marks, HandledBy, ReadOf;
    forall p
      ensures var s' := ReplayAll(s, service, ok, recs, commits);
              && SafeIn(service, Records(s', p), Position(s', p), s'.handled)
              && ReachedIn(Records(s', p), Position(s', p)) && Position(s, p) <= Position(s', p)
    {
      AllKeepsAt(service, s, ok, recs, commits, p);
    }
  }

  lemma OneIsSafe(service: string, s: State, recs: seq<Rec>, r: Rec)
    requires LogOk(s.log) && ReadOf(s, recs) && r in recs && FirstOwn(service, recs, r)
    requires SafeIn(service, Records(s, r.partition), Position(s, r.partition), s.handled)
    ensures SafeIn(service, Records(s, r.partition), r.offset + 1, s.handled + {r})
  {
    InLog(s, recs, r);
    hide LogOk, ReadOf, Records, Position;
    forall x | x in Records(s, r.partition) && x.offset < r.offset + 1 && ParkedHere(service, x)
      ensures x in s.handled + {r}
    {
      if x.offset == r.offset {
        SameOffset(s, r.partition, x, r);
      } else if Position(s, r.partition) <= x.offset {
        PendingIsRead(s, recs, r, x);
      }
    }
  }

  lemma MoreHandled(service: string, log: seq<Rec>, at: nat, handled: set<Rec>, r: Rec)
    requires SafeIn(service, log, at, handled)
    ensures SafeIn(service, log, at, handled + {r})
  {
  }

  lemma OneMoves(service: string, s: State, ok: Outcome, recs: seq<Rec>, r: Rec, commits: bool, p: Partition)
    ensures var s' := ReplayOne(s, service, ok, recs, r, commits);
            && Records(s', p) == Records(s, p)
            && (if ParkedHere(service, r) && ok(r) then s'.handled == s.handled + {r} else s'.handled == s.handled)
            && Position(s', p) ==
               if ParkedHere(service, r) && ok(r) && FirstOwn(service, recs, r) && commits && p == r.partition
               then r.offset + 1 else Position(s, p)
  {
    hide FirstOwn;
  }

  lemma OneKeepsAt(service: string, s: State, ok: Outcome, recs: seq<Rec>, r: Rec, commits: bool, p: Partition)
    requires LogOk(s.log) && ReadOf(s, recs) && r in recs
    requires SafeIn(service, Records(s, p), Position(s, p), s.handled) && ReachedIn(Records(s, p), Position(s, p))
    ensures var s' := ReplayOne(s, service, ok, recs, r, commits);
            && SafeIn(service, Records(s', p), Position(s', p), s'.handled)
            && ReachedIn(Records(s', p), Position(s', p)) && Position(s, p) <= Position(s', p)
  {
    OneMoves(service, s, ok, recs, r, commits, p);
    InLog(s, recs, r);
    MoreHandled(service, Records(s, p), Position(s, p), s.handled, r);
    hide ReplayOne, LogOk, ReadOf, FirstOwn, SafeIn, Records, Position;
    if p == r.partition && FirstOwn(service, recs, r) {
      OneIsSafe(service, s, recs, r);
    }
  }

  lemma OneKeeps(service: string, s: State, ok: Outcome, recs: seq<Rec>, r: Rec, commits: bool)
    requires Inv(service, s) && ReadOf(s, recs) && r in recs
    ensures Inv(service, ReplayOne(s, service, ok, recs, r, commits))
    ensures forall p :: Position(s, p) <= Position(ReplayOne(s, service, ok, recs, r, commits), p)
  {
    hide SafeIn, ReachedIn, ReadOf, FirstOwn, LogOk;
    forall p
      ensures var s' := ReplayOne(s, service, ok, recs, r, commits);
              && SafeIn(service, Records(s', p), Position(s', p), s'.handled)
              && ReachedIn(Records(s', p), Position(s', p)) && Position(s, p) <= Position(s', p)
    {
      OneKeepsAt(service, s, ok, recs, r, commits, p);
    }
  }

  lemma StepKeeps(service: string, s: State, e: Event)
    requires Inv(service, s) && Enabled(s, e)
    ensures Inv(service, Step(s, service, e))
    ensures forall p :: Position(s, p) <= Position(Step(s, service, e), p)
    ensures s.handled <= Step(s, service, e).handled
  {
    match e
    case Park(r) => ParkKeeps(service, s, r);
    case All(ok, recs, commits) => AllKeeps(service, s, ok, recs, commits);
    case One(ok, recs, r, commits) => OneKeeps(service, s, ok, recs, r, commits);
  }

  lemma {:induction false} InvAlong(service: string, ss: seq<State>, es: seq<Event>, i: nat)
    requires IsRun(service, ss, es) && i < |ss|
    ensures Inv(service, ss[i])
  {
    if i > 0 {
      InvAlong(service, ss, es, i - 1);
      StepKeeps(service, ss[i - 1], es[i - 1]);
    }
  }

  lemma StepForward(service: string, ss: seq<State>, es: seq<Event>, i: nat, p: Partition)
    requires IsRun(service, ss, es) && i + 1 < |ss|
    ensures Position(ss[i], p) <= Position(ss[i + 1], p)
  {
    InvAlong(service, ss, es, i);
    hide Inv;
    StepKeeps(service, ss[i], es[i]);
  }

  lemma {:induction false} NeverBack(service: string, ss: seq<State>, es: seq<Event>, i: nat, j: nat, p: Partition)
    requires IsRun(service, ss, es) && i <= j < |ss|
    ensures Position(ss[i], p) <= Position(ss[j], p)
  {
    hide *;
    if i < j {
      NeverBack(service, ss, es, i, j - 1, p);
      StepForward(service, ss, es, j - 1, p);
    }
  }

  /** Over any run of full and single replays, with services parking in between, no position moves back and none
      passes a record of this service that its handler has not been through. */
  lemma PositionIsSafe(service: string, ss: seq<State>, es: seq<Event>, i: nat, j: nat, p: Partition)
    requires IsRun(service, ss, es) && i <= j < |ss|
    ensures Position(ss[i], p) <= Position(ss[j], p)
    ensures forall x :: x in Records(ss[j], p) && ParkedHere(service, x) && x.offset < Position(ss[j], p) ==>
                          x in ss[j].handled
  {
    NeverBack(service, ss, es, i, j, p);
    InvAlong(service, ss, es, j);
    hide IsRun, LogOk, ReachedIn;
    assert SafeIn(service, Records(ss[j], p), Position(ss[j], p), ss[j].handled);
  }

  /** The walk stops at the earliest record that failed. */
  lemma StopsAtFailed(service: string, ok: Outcome, q: seq<Rec>, f: Rec)
    requires StrictlyAscending(q) && f in q && !Passes(service, ok, f)
    requires forall r :: r in q && !Passes(service, ok, r) ==> f.offset <= r.offset
    ensures Done(service, ok, q) < |q| && q[Done(service, ok, q)] == f
  {
    var n := Done(service, ok, q);
    var k :| 0 <= k < |q| && q[k] == f;
    assert n <= k;
    assert q[n] in q;
    assert f.offset <= q[n].offset;
  }

  lemma MarkedPartition(service: string, ok: Outcome, recs: seq<Rec>, p: Partition)
    requires DoneIn(service, ok, recs, p) > 0
    ensures p in Partitions(recs)
  {
    assert Queue(recs, p)[0] in Queue(recs, p);
  }

  lemma NewPosition(service: string, s: State, ok: Outcome, recs: seq<Rec>, p: Partition)
    ensures Records(ReplayAll(s, service, ok, recs, true), p) == Records(s, p)
    ensures var n := DoneIn(service, ok, recs, p);
            Position(ReplayAll(s, service, ok, recs, true), p) ==
            if n > 0 then Queue(recs, p)[n - 1].offset + 1 else Position(s, p)
  {
    hide Queue, Done, Partitions, HandledBy;
    if DoneIn(service, ok, recs, p) > 0 {
      MarkedPartition(service, ok, recs, p);
    }
  }

  lemma FirstAhead(q: seq<Rec>, n: nat, before: nat, after: nat, x: Rec)
    requires StrictlyAscending(q) && n < |q| && after == if n > 0 then q[n - 1].offset + 1 else before
    requires forall k :: 0 <= k < |q| ==> before <= q[k].offset
    requires x.offset < q[n].offset && before <= x.offset ==> x in q
    ensures before <= after <= q[n].offset
    ensures after <= x.offset ==> q[n].offset <= x.offset
  {
    if before <= x.offset < q[n].offset {
      var k :| 0 <= k < |q| && q[k] == x;
      assert k < n;
    }
  }

  /** After a full replay the first record of this service that failed is the first pending record of its
      partition. Records of other services hold nothing up. */
  lemma FailedIsFirst(service: string, s: State, ok: Outcome, recs: seq<Rec>, f: Rec, x: Rec)
    requires LogOk(s.log) && ReadOf(s, recs)
    requires f in recs && ParkedHere(service, f) && !ok(f)
    requires forall r :: r in recs && r.partition == f.partition && ParkedHere(service, r) && !ok(r) ==>
                           f.offset <= r.offset
    requires x in Records(s, f.partition)
    ensures var s' := ReplayAll(s, service, ok, recs, true);
            && f in Records(s', f.partition) && x in Records(s', f.partition)
            && Position(s, f.partition) <= Position(s', f.partition) <= f.offset
            && (Position(s', f.partition) <= x.offset ==> f.offset <= x.offset)
  {
    hide Queue, ByOffset, InPartition, Marks, HandledBy, Partitions, ReplayAll, Done, ReadOf, LogOk;
    var p, s' := f.partition, ReplayAll(s, service, ok, recs, true);
    var q := Queue(recs, p);
    QueueFacts(s, recs, p);
    NewPosition(service, s, ok, recs, p);
    StopsAtFailed(service, ok, q, f);
    if Position(s, p) <= x.offset < f.offset {
      PendingIsRead(s, recs, f, x);
    }
    FirstAhead(q, Done(service, ok, q), Position(s, p), Position(s', p), x);
  }

  lemma AllPass(service: string, ok: Outcome, q: seq<Rec>)
    requires forall x :: x in q ==> Passes(service, ok, x)
    ensures Done(service, ok, q) == |q|
  {
    forall k | 0 <= k < |q| ensures Passes(service, ok, q[k]) {
      assert q[k] in q;
    }
  }

  lemma LastIsGreatest(q: seq<Rec>, r: Rec)
    requires StrictlyAscending(q) && r in q
    ensures |q| > 0 && r.offset <= q[|q| - 1].offset
  {
    var k :| 0 <= k < |q| && q[k] == r;
  }

  /** A full replay in which nothing of a partition fails leaves none of what it read there pending, and has run
      the handler on all of this service's. */
  lemma CleanReplayEmpties(service: string, s: State, ok: Outcome, recs: seq<Rec>, r: Rec)
    requires LogOk(s.log) && ReadOf(s, recs) && r in recs
    requires forall x :: x in recs && x.partition == r.partition ==> Passes(service, ok, x)
    ensures r.offset < Position(ReplayAll(s, service, ok, recs, true), r.partition)
    ensures ParkedHere(service, r) ==> r in HandledBy(service, ok, recs)
  {
    hide ByOffset, InPartition, Marks, Partitions, ReplayAll, Done, ReadOf, LogOk;
    var p := r.partition;
    var q := Queue(recs, p);
    QueueFacts(s, recs, p);
    NewPosition(service, s, ok, recs, p);
    AllPass(service, ok, q);
    assert q[..Done(service, ok, q)] == q;
    LastIsGreatest(q, r);
  }

  /** Nothing counts as handled that the handler did not accept. */
  lemma HandledWasOk(service: string, s: State, ok: Outcome, recs: seq<Rec>, commits: bool, r: Rec)
    requires r in ReplayAll(s, service, ok, recs, commits).handled && r !in s.handled
    ensures r in recs && ParkedHere(service, r) && ok(r)
  {
    var q, n := Queue(recs, r.partition), DoneIn(service, ok, recs, r.partition);
    var k :| 0 <= k < n && q[k] == r;
    assert Passes(service, ok, q[k]);
  }

  /** A single replay moves the position exactly when it could: past its own record, if the handler accepted it,
      the commit succeeded and no earlier record of this service is pending. */
  lemma SingleReplay(service: string, s: State, ok: Outcome, recs: seq<Rec>, r: Rec, commits: bool)
    requires ReadOf(s, recs) && r in recs
    ensures var s' := ReplayOne(s, service, ok, recs, r, commits);
            && (s'.committed != s.committed <==>
                ParkedHere(service, r) && ok(r) && commits && FirstOwn(service, recs, r))
            && (s'.committed != s.committed ==> Position(s', r.partition) == r.offset + 1)
            && (forall p :: p != r.partition ==> Position(s', p) == Position(s, p))
  {
    assert Position(s, r.partition) <= r.offset;
  }
}
