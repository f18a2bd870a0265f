/** Instance numbers (idx): any number of generators of one service lease a number in Redis, renew it, take it
    again when it lapsed, move to another one, release it, and make ids. */
module Leases {
  import opened Options
  import opened Fates
  import opened Runs
  import opened TokenKeys
  import opened Ids
  import Numbers

  type GenId = Token      // a generator is known by its random token

  const LEASE_TTL: nat := 90_000

  datatype Id = Id(gen: GenId, number: nat, stamp: Stamp)

  /** Where a generator's lease stands: looking for a free number from n up, renewing every 30 s, found out that the
      lease is lost, never got a number, closed. */
  datatype Keeper = Looking(n: nat) | Idle | LeaseLost | Down | Closed

  datatype Gen = Gen(number: Option<nat>, keeper: Keeper, last: Stamp)

  /** taken: how many ids the service had made when the number's key was last set. */
  datatype World = World(now: int, keys: map<nat, Entry>, taken: map<nat, nat>, gens: map<GenId, Gen>, ids: seq<Id>)

  datatype Event =
    | Start(g: GenId)
    | Try(g: GenId, fate: Fate)        // SetNX on the number it is looking at
    | Renew(g: GenId, fate: Fate)
    | Retake(g: GenId, fate: Fate)     // SetNX on its own number after a failed renewal
    | Close(g: GenId, fate: Fate)
    | Make(g: GenId, clock: int, later: nat)
    | Pass(d: nat)                     // time
    | Drop(n: nat)                     // the key is gone: Redis flushed, somebody deleted it

  function KeyOf(w: World, n: nat): Key { if n in w.keys then Some(w.keys[n]) else None }

  ghost predicate Covered(w: World, g: GenId) {
    g in w.gens && w.gens[g].number.Some? && Holder(KeyOf(w, w.gens[g].number.value), w.now) == Some(g)
  }

  predicate Enabled(w: World, e: Event) {
    match e
    case Start(g) => g !in w.gens
    case Try(g, _) => g in w.gens && w.gens[g].keeper.Looking?
    case Renew(g, _) => g in w.gens && w.gens[g].keeper.Idle? && w.gens[g].number.Some?
    case Retake(g, _) => g in w.gens && w.gens[g].keeper.LeaseLost? && w.gens[g].number.Some?
    case Close(g, _) => g in w.gens && w.gens[g].keeper.Idle? && w.gens[g].number.Some?
    case Make(g, _, later) => g in w.gens && w.gens[g].number.Some? && w.gens[g].last.ms < later
    case Pass(_) => true
    case Drop(_) => true
  }

  /** One command on the key of a number. */
  function WithOp(w: World, n: nat, op: Op, fate: Fate): World {
    var k, k' := KeyOf(w, n), AfterFate(KeyOf(w, n), w.now, op, fate);
    w.(keys := if k'.Some? then w.keys[n := k'.value] else w.keys - {n},
       taken := if op.SetNX? && !fate.Lost? && Succeeds(k, w.now, op) then w.taken[n := |w.ids|] else w.taken)
  }

  function WithGen(w: World, g: GenId, gen: Gen): World { w.(gens := w.gens[g := gen]) }

  /** After a SetNX while looking: the number is taken, or the next one is tried, up to the highest. Without a number
      to fall back on the generator is never made. */
  function AfterTry(gen: Gen, bits: nat, ok: bool, fate: Fate): Gen
    requires gen.keeper.Looking?
  {
    var n := gen.keeper.n;
    if fate.Acked? && ok then gen.(number := Some(n), keeper := Idle)
    else if fate.Acked? && n < MaxInstance(bits) then gen.(keeper := Looking(n + 1))
    else gen.(keeper := if gen.number.Some? then Idle else Down)
  }

  function Step(w: World, bits: nat, e: Event): World
    requires BitsOk(bits) && Enabled(w, e)
  {
    match e
    case Start(g) => WithGen(w, g, Gen(None, Looking(0), Stamp(0, 0)))
    case Try(g, fate) =>
      var n, op := w.gens[g].keeper.n, SetNX(g, LEASE_TTL);
      var ok := Succeeds(KeyOf(w, n), w.now, op);
      WithGen(WithOp(w, n, op, fate), g, AfterTry(w.gens[g], bits, ok, fate))
    case Renew(g, fate) =>
      var n, op := w.gens[g].number.value, Extend(g, LEASE_TTL);
      var lost := fate.Acked? && !Succeeds(KeyOf(w, n), w.now, op);
      WithGen(WithOp(w, n, op, fate), g, w.gens[g].(keeper := if lost then LeaseLost else Idle))
    case Retake(g, fate) =>
      var n, op := w.gens[g].number.value, SetNX(g, LEASE_TTL);
      var taken := fate.Acked? && !Succeeds(KeyOf(w, n), w.now, op);
      WithGen(WithOp(w, n, op, fate), g, w.gens[g].(keeper := if taken then Looking(0) else Idle))
    case Close(g, fate) =>
      WithGen(WithOp(w, w.gens[g].number.value, Release(g), fate), g, w.gens[g].(keeper := Closed))
    case Make(g, clock, later) =>
      var s := NextStamp(bits, w.gens[g].last, clock, later);
      WithGen(w.(ids := w.ids + [Id(g, w.gens[g].number.value, s)]), g, w.gens[g].(last := s))
    case Pass(d) => w.(now := w.now + d)
    case Drop(n) => w.(keys := w.keys - {n})
  }

  function Rules(bits: nat): Protocol<World, Event> {
    Protocol((w: World, e: Event) => BitsOk(bits) && Enabled(w, e),
             (w: World, e: Event) => if BitsOk(bits) && Enabled(w, e) then Step(w, bits, e) else w)
  }

  const INIT: World := World(0, map[], map[], map[], [])

  ghost predicate IsRun(bits: nat, ws: seq<World>, es: seq<Event>) {
    && BitsOk(bits) && |ws| == |es| + 1
    && ws[0] == INIT
    && forall i :: 0 <= i < |es| ==> Enabled(ws[i], es[i]) && ws[i + 1] == Step(ws[i], bits, es[i])
  }

  // ------------------------------------------------------------------
  // What holds in every run
  // ------------------------------------------------------------------

  /** Stamps of one generator grow, whatever its number. */
  ghost predicate OwnOrder(gens: map<GenId, Gen>, ids: seq<Id>) {
    && (forall i :: 0 <= i < |ids| ==>
          ids[i].gen in gens && (ids[i].stamp == gens[ids[i].gen].last || Before(ids[i].stamp, gens[ids[i].gen].last)))
    && (forall i, j :: 0 <= i < j < |ids| && ids[i].gen == ids[j].gen ==> Before(ids[i].stamp, ids[j].stamp))
  }

  ghost predicate FieldsFit(bits: nat, gens: map<GenId, Gen>, ids: seq<Id>)
    requires BitsOk(bits)
  {
    && (forall g :: g in gens && gens[g].number.Some? ==> gens[g].number.value <= MaxInstance(bits))
    && (forall g :: g in gens && gens[g].keeper.Looking? ==> gens[g].keeper.n <= MaxInstance(bits))
    && (forall i :: 0 <= i < |ids| ==> Fits(bits, ids[i].number, ids[i].stamp.no))
  }

  ghost predicate Inv(bits: nat, w: World)
    requires BitsOk(bits)
  {
    OwnOrder(w.gens, w.ids) && FieldsFit(bits, w.gens, w.ids)
  }

  lemma MakeKeeps(w: World, bits: nat, e: Event)
    requires BitsOk(bits) && Inv(bits, w) && e.Make? && Enabled(w, e)
    ensures Inv(bits, Step(w, bits, e))
  {
    NextIsLater(bits, w.gens[e.g].last, e.clock, e.later);
    var w' := Step(w, bits, e);
    forall i, j | 0 <= i < j < |w'.ids| && w'.ids[i].gen == w'.ids[j].gen
      ensures Before(w'.ids[i].stamp, w'.ids[j].stamp)
    {
      assert i < |w.ids| && w'.ids[i] == w.ids[i];
      if j < |w.ids| {
        assert w'.ids[j] == w.ids[j];
      }
    }
  }

  lemma StepKeeps(w: World, bits: nat, e: Event)
    requires BitsOk(bits) && Inv(bits, w) && Enabled(w, e)
    ensures Inv(bits, Step(w, bits, e))
  {
    hide Numbers.Pow2;
    if e.Make? {
      hide Step, Inv;
      MakeKeeps(w, bits, e);
    } else {
      hide OwnOrder, FieldsFit;
      OthersOrder(w, bits, e);
      OthersFit(w, bits, e);
    }
  }

  lemma OthersOrder(w: World, bits: nat, e: Event)
    requires BitsOk(bits) && Enabled(w, e) && !e.Make? && OwnOrder(w.gens, w.ids)
    ensures OwnOrder(Step(w, bits, e).gens, Step(w, bits, e).ids)
  {
    hide Numbers.Pow2;
    assert Step(w, bits, e).ids == w.ids;
  }

  lemma OthersFit(w: World, bits: nat, e: Event)
    requires BitsOk(bits) && Enabled(w, e) && !e.Make? && FieldsFit(bits, w.gens, w.ids)
    ensures FieldsFit(bits, Step(w, bits, e).gens, Step(w, bits, e).ids)
  {
    SomeInstance(bits);
    hide Numbers.Pow2, Fits, MaxInstance;
    assert Step(w, bits, e).ids == w.ids;
  }

  lemma SomeInstance(bits: nat)
    ensures MaxInstance(bits) >= 0
  {
  }

  lemma {:induction false} InvAlong(bits: nat, ws: seq<World>, es: seq<Event>, i: nat)
    requires IsRun(bits, ws, es) && i < |ws|
    ensures Inv(bits, ws[i])
  {
    if i > 0 {
      InvAlong(bits, ws, es, i - 1);
      StepKeeps(ws[i - 1], bits, es[i - 1]);
    }
  }

  function Value(bits: nat, id: Id): nat
    requires BitsOk(bits)
  {
    Pack(bits, id.stamp.ms, id.number, id.stamp.no)
  }

  /** While a generator keeps its number its ids grow strictly, however its clock moves; across a change of number
      only the stamps do. */
  lemma IdsGrow(bits: nat, ws: seq<World>, es: seq<Event>, i: nat, a: nat, b: nat)
    requires IsRun(bits, ws, es) && i < |ws| && a < b < |ws[i].ids| && ws[i].ids[a].gen == ws[i].ids[b].gen
    ensures Before(ws[i].ids[a].stamp, ws[i].ids[b].stamp)
    ensures ws[i].ids[a].number == ws[i].ids[b].number ==> Value(bits, ws[i].ids[a]) < Value(bits, ws[i].ids[b])
    ensures Value(bits, ws[i].ids[a]) != Value(bits, ws[i].ids[b])
  {
    InvAlong(bits, ws, es, i);
    var x, y := ws[i].ids[a], ws[i].ids[b];
    if x.number == y.number {
      PackIsMonotone(bits, x.number, x.stamp, y.stamp);
    }
    if Value(bits, x) == Value(bits, y) {
      PackIsInjective(bits, x.stamp.ms, x.number, x.stamp.no, y.stamp.ms, y.number, y.stamp.no);
    }
  }

  /** Two generators covered by a live lease never share a number. */
  lemma CoveredNumbersDiffer(w: World, g: GenId, h: GenId)
    requires Covered(w, g) && Covered(w, h) && g != h
    ensures w.gens[g].number != w.gens[h].number
  {
  }

  // ------------------------------------------------------------------
  // All ids of the service
  // ------------------------------------------------------------------

  /** Later than every id another generator made under the number before the lease that is held now was taken. */
  ghost predicate Late(w: World, g: GenId, n: nat, ms: nat) {
    forall i :: 0 <= i < |w.ids| && n in w.taken && i < w.taken[n] && w.ids[i].number == n && w.ids[i].gen != g ==>
      w.ids[i].stamp.ms < ms
  }

  /** Ids are made only under a live lease, and a number that changed hands is used only at a later millisecond. */
  ghost predicate Careful(w: World, bits: nat, e: Event)
    requires BitsOk(bits) && Enabled(w, e)
  {
    e.Make? ==>
      Covered(w, e.g) && Late(w, e.g, w.gens[e.g].number.value, NextStamp(bits, w.gens[e.g].last, e.clock, e.later).ms)
  }

  ghost predicate CarefulRun(bits: nat, ws: seq<World>, es: seq<Event>) {
    IsRun(bits, ws, es) && forall i :: 0 <= i < |es| ==> Careful(ws[i], bits, es[i])
  }

  /** Since a number's key was set, only the one who set it made ids under it. */
  ghost predicate OnlyHolder(keys: map<nat, Entry>, taken: map<nat, nat>, ids: seq<Id>) {
    forall n :: n in keys ==>
      && n in taken && taken[n] <= |ids|
      && forall i :: taken[n] <= i < |ids| && ids[i].number == n ==> ids[i].gen == keys[n].token
  }

  ghost predicate Distinct(ids: seq<Id>) {
    forall i, j :: 0 <= i < j < |ids| && ids[i].number == ids[j].number ==> ids[i].stamp != ids[j].stamp
  }

  lemma OpKeepsHolder(w: World, n: nat, op: Op, fate: Fate)
    requires OnlyHolder(w.keys, w.taken, w.ids)
    ensures var w' := WithOp(w, n, op, fate); OnlyHolder(w'.keys, w'.taken, w'.ids)
  {
    hide Succeeds, AfterFate, Holder;
    var w' := WithOp(w, n, op, fate);
    EntryAfter(KeyOf(w, n), w.now, op, fate);
    forall m | m in w'.keys
      ensures m in w'.taken && w'.taken[m] <= |w.ids|
      ensures forall i :: w'.taken[m] <= i < |w.ids| && w.ids[i].number == m ==> w.ids[i].gen == w'.keys[m].token
    {
      if m != n {
        assert m in w.keys && w'.keys[m] == w.keys[m];
      }
    }
  }

  lemma MadeByHolder(w: World, bits: nat, e: Event)
    requires BitsOk(bits) && e.Make? && Enabled(w, e) && Careful(w, bits, e)
    requires OnlyHolder(w.keys, w.taken, w.ids)
    ensures var w' := Step(w, bits, e); OnlyHolder(w'.keys, w'.taken, w'.ids)
  {
    var w' := Step(w, bits, e);
    var id := w'.ids[|w.ids|];
    assert id.number in w.keys && w.keys[id.number].token == id.gen;
    assert forall i :: 0 <= i < |w.ids| ==> w'.ids[i] == w.ids[i];
  }

  lemma HolderStep(w: World, bits: nat, e: Event)
    requires BitsOk(bits) && Enabled(w, e) && Careful(w, bits, e)
    requires OnlyHolder(w.keys, w.taken, w.ids)
    ensures var w' := Step(w, bits, e); OnlyHolder(w'.keys, w'.taken, w'.ids)
  {
    hide OnlyHolder, WithOp, AfterTry;
    match e
    case Try(g, fate) => OpKeepsHolder(w, w.gens[g].keeper.n, SetNX(g, LEASE_TTL), fate);
    case Renew(g, fate) => OpKeepsHolder(w, w.gens[g].number.value, Extend(g, LEASE_TTL), fate);
    case Retake(g, fate) => OpKeepsHolder(w, w.gens[g].number.value, SetNX(g, LEASE_TTL), fate);
    case Close(g, fate) => OpKeepsHolder(w, w.gens[g].number.value, Release(g), fate);
    case Make(_, _, _) => MadeByHolder(w, bits, e);
    case Drop(n) => DropKeepsHolder(w, n);
    case _ =>
  }

  lemma DropKeepsHolder(w: World, n: nat)
    requires OnlyHolder(w.keys, w.taken, w.ids)
    ensures OnlyHolder(w.keys - {n}, w.taken, w.ids)
  {
  }

  /** The new id's stamp was not used under its number: not by its maker, and not by an earlier holder. */
  lemma NewIsDistinct(w: World, bits: nat, e: Event)
    requires BitsOk(bits) && Inv(bits, w) && e.Make? && Enabled(w, e) && Careful(w, bits, e)
    requires OnlyHolder(w.keys, w.taken, w.ids) && Distinct(w.ids)
    ensures Distinct(Step(w, bits, e).ids)
  {
    var w', n := Step(w, bits, e), w.gens[e.g].number.value;
    NextIsLater(bits, w.gens[e.g].last, e.clock, e.later);
    var s := NextStamp(bits, w.gens[e.g].last, e.clock, e.later);
    forall i | 0 <= i < |w.ids| && w.ids[i].number == n ensures w.ids[i].stamp != s {
      if w.ids[i].gen != e.g {
        assert n in w.keys && i < w.taken[n];
      }
    }
    assert forall i :: 0 <= i < |w.ids| ==> w'.ids[i] == w.ids[i];
  }

  lemma IdsStay(w: World, bits: nat, e: Event)
    requires BitsOk(bits) && Enabled(w, e) && !e.Make?
    ensures Step(w, bits, e).ids == w.ids
  {
  }

  lemma {:induction false} DistinctAlong(bits: nat, ws: seq<World>, es: seq<Event>, i: nat)
    requires CarefulRun(bits, ws, es) && i < |ws|
    ensures OnlyHolder(ws[i].keys, ws[i].taken, ws[i].ids) && Distinct(ws[i].ids)
  {
    if i > 0 {
      var w, e := ws[i - 1], es[i - 1];
      DistinctAlong(bits, ws, es, i - 1);
      InvAlong(bits, ws, es, i - 1);
      hide OnlyHolder, Distinct, Inv;
      HolderStep(w, bits, e);
      if e.Make? {
        NewIsDistinct(w, bits, e);
      } else {
        IdsStay(w, bits, e);
      }
    }
  }

  /** In a careful run no two ids of the service are equal. */
  lemma AllIdsDistinct(bits: nat, ws: seq<World>, es: seq<Event>, i: nat, a: nat, b: nat)
    requires CarefulRun(bits, ws, es) && i < |ws| && a < b < |ws[i].ids|
    ensures Value(bits, ws[i].ids[a]) != Value(bits, ws[i].ids[b])
  {
    DistinctAlong(bits, ws, es, i);
    InvAlong(bits, ws, es, i);
    var x, y := ws[i].ids[a], ws[i].ids[b];
    if Value(bits, x) == Value(bits, y) {
      PackIsInjective(bits, x.stamp.ms, x.number, x.stamp.no, y.stamp.ms, y.number, y.stamp.no);
    }
  }

  // ------------------------------------------------------------------
  // Exactly when ids repeat
  // ------------------------------------------------------------------

  /** The generator makes an id that another one made under the number it has. */
  ghost predicate Repeats(w: World, bits: nat, e: Event)
    requires BitsOk(bits) && Enabled(w, e)
  {
    e.Make? && UsedByOther(w.ids, e.g, w.gens[e.g].number.value, NextStamp(bits, w.gens[e.g].last, e.clock, e.later))
  }

  ghost predicate UsedByOther(ids: seq<Id>, g: GenId, n: nat, s: Stamp) {
    exists i :: 0 <= i < |ids| && ids[i].gen != g && ids[i].number == n && ids[i].stamp == s
  }

  /** Of its own ids a generator repeats none. */
  lemma MakeRepeatsIff(w: World, bits: nat, e: Event)
    requires BitsOk(bits) && Inv(bits, w) && e.Make? && Enabled(w, e)
    ensures Distinct(Step(w, bits, e).ids) <==> Distinct(w.ids) && !Repeats(w, bits, e)
  {
    var s, n := NextStamp(bits, w.gens[e.g].last, e.clock, e.later), w.gens[e.g].number.value;
    NextIsLater(bits, w.gens[e.g].last, e.clock, e.later);
    OwnIsLater(w, bits, e.g, s);
    var w' := Step(w, bits, e);
    hide NextStamp, Inv, Step, Numbers.Pow2;
    AppendDistinctIff(w.ids, Id(e.g, n, s));
    assert w'.ids == w.ids + [Id(e.g, n, s)] by {
      MadeIs(w, bits, e);
    }
  }

  lemma MadeIs(w: World, bits: nat, e: Event)
    requires BitsOk(bits) && e.Make? && Enabled(w, e)
    ensures Step(w, bits, e).ids
         == w.ids + [Id(e.g, w.gens[e.g].number.value, NextStamp(bits, w.gens[e.g].last, e.clock, e.later))]
  {
  }

  lemma OwnIsLater(w: World, bits: nat, g: GenId, s: Stamp)
    requires BitsOk(bits) && Inv(bits, w) && g in w.gens && Before(w.gens[g].last, s)
    ensures forall i :: 0 <= i < |w.ids| && w.ids[i].gen == g ==> w.ids[i].stamp != s
  {
  }

  lemma AppendDistinctIff(ids: seq<Id>, id: Id)
    requires forall i :: 0 <= i < |ids| && ids[i].gen == id.gen ==> ids[i].stamp != id.stamp
    ensures Distinct(ids + [id]) <==> Distinct(ids) && !UsedByOther(ids, id.gen, id.number, id.stamp)
  {
    var more := ids + [id];
    assert more[|ids|] == id && forall i :: 0 <= i < |ids| ==> more[i] == ids[i];
    if UsedByOther(ids, id.gen, id.number, id.stamp) {
      var i :| 0 <= i < |ids| && ids[i].gen != id.gen && ids[i].number == id.number && ids[i].stamp == id.stamp;
      assert more[i].number == more[|ids|].number && more[i].stamp == more[|ids|].stamp;
    }
  }

  /** In any run, leases or not, the ids of the service are distinct exactly when no generator ever made an id that
      another one made under the same number. */
  lemma {:induction false} DistinctIff(bits: nat, ws: seq<World>, es: seq<Event>, i: nat)
    requires IsRun(bits, ws, es) && i < |ws|
    ensures Distinct(ws[i].ids) <==> forall k :: 0 <= k < i ==> !Repeats(ws[k], bits, es[k])
  {
    if i > 0 {
      DistinctIff(bits, ws, es, i - 1);
      InvAlong(bits, ws, es, i - 1);
      hide Distinct, Inv, Repeats;
      if es[i - 1].Make? {
        MakeRepeatsIff(ws[i - 1], bits, es[i - 1]);
      } else {
        IdsStay(ws[i - 1], bits, es[i - 1]);
        OnlyMakeRepeats(ws[i - 1], bits, es[i - 1]);
      }
    }
  }

  lemma OnlyMakeRepeats(w: World, bits: nat, e: Event)
    requires BitsOk(bits) && Enabled(w, e) && !e.Make?
    ensures !Repeats(w, bits, e)
  {
  }

  /** No other generator made an id of the millisecond under the number. */
  ghost predicate Free(ids: seq<Id>, g: GenId, n: nat, ms: nat) {
    forall i :: 0 <= i < |ids| && ids[i].gen != g && ids[i].number == n ==> ids[i].stamp.ms != ms
  }

  /** g makes k ids with its clock at ms. */
  function MakeMany(w: World, bits: nat, g: GenId, ms: nat, k: nat): (w': World)
    requires BitsOk(bits) && g in w.gens && w.gens[g].number.Some? && w.gens[g].last.ms < ms
    requires k <= MaxSeq(bits) + 1
    ensures g in w'.gens && w'.gens[g].number == w.gens[g].number
    ensures w'.gens[g].last == if k == 0 then w.gens[g].last else Stamp(ms, k - 1)
    ensures w'.ids == w.ids + seq(k, no requires 0 <= no < k => Id(g, w.gens[g].number.value, Stamp(ms, no)))
  {
    if k == 0 then w
    else
      var before := MakeMany(w, bits, g, ms, k - 1);
      Step(before, bits, Make(g, ms, ms + 1))
  }

  /** A generator can use up a millisecond under its number without a repeat exactly when the millisecond is free: this
      is what a hand-over, leased or not, has to wait for. */
  lemma UsesUpIff(w: World, bits: nat, g: GenId, ms: nat)
    requires BitsOk(bits) && Inv(bits, w) && Distinct(w.ids)
    requires g in w.gens && w.gens[g].number.Some? && w.gens[g].last.ms < ms
    ensures Distinct(MakeMany(w, bits, g, ms, MaxSeq(bits) + 1).ids) <==> Free(w.ids, g, w.gens[g].number.value, ms)
  {
    var n, k := w.gens[g].number.value, MaxSeq(bits) + 1;
    var ids := MakeMany(w, bits, g, ms, k).ids;
    hide MakeMany, Numbers.Pow2;
    assert forall i :: 0 <= i < |w.ids| ==> ids[i] == w.ids[i];
    assert forall no :: 0 <= no < k ==> ids[|w.ids| + no] == Id(g, n, Stamp(ms, no));
    if !Free(w.ids, g, n, ms) {
      var i :| 0 <= i < |w.ids| && w.ids[i].gen != g && w.ids[i].number == n && w.ids[i].stamp.ms == ms;
      var j := |w.ids| + w.ids[i].stamp.no;
      assert Fits(bits, w.ids[i].number, w.ids[i].stamp.no);
      assert ids[i].number == ids[j].number && ids[i].stamp == ids[j].stamp;
    } else {
      forall i, j | 0 <= i < j < |ids| && ids[i].number == ids[j].number ensures ids[i].stamp != ids[j].stamp {
        if |w.ids| <= j {
          assert ids[j] == ids[|w.ids| + (j - |w.ids|)];
          if |w.ids| <= i {
            assert ids[i] == ids[|w.ids| + (i - |w.ids|)];
          }
        }
      }
    }
  }

  /** The hand-over condition gives that: under a live lease a later millisecond is free. It is more than is needed, and
      under a live lease only ids from before it was taken can stand in the way. */
  lemma LateIsFree(w: World, g: GenId, ms: nat)
    requires OnlyHolder(w.keys, w.taken, w.ids) && Covered(w, g)
    ensures Late(w, g, w.gens[g].number.value, ms) ==> Free(w.ids, g, w.gens[g].number.value, ms)
    ensures var n := w.gens[g].number.value;
            n in w.taken && w.taken[n] <= |w.ids|
            && (Free(w.ids, g, n, ms) <==> Free(w.ids[..w.taken[n]], g, n, ms))
  {
    var n := w.gens[g].number.value;
    assert n in w.keys && w.keys[n].token == g;
    var before := w.ids[..w.taken[n]];
    assert forall i :: 0 <= i < |before| ==> before[i] == w.ids[i];
  }

  // ------------------------------------------------------------------
  // How long a lease lasts
  // ------------------------------------------------------------------

  ghost predicate ExpiryFits(now: int, keys: map<nat, Entry>) {
    forall n :: n in keys ==> keys[n].expiry <= now + LEASE_TTL
  }

  lemma ExpiryStep(w: World, bits: nat, e: Event)
    requires BitsOk(bits) && Enabled(w, e) && ExpiryFits(w.now, w.keys)
    ensures ExpiryFits(Step(w, bits, e).now, Step(w, bits, e).keys)
  {
  }

  /** A command on any number leaves a lease to its holder, and no shorter, unless it is the holder's own release. */
  lemma OpKeepsLease(w: World, m: nat, op: Op, fate: Fate, g: GenId, n: nat)
    requires Holder(KeyOf(w, n), w.now) == Some(g) && KeyOf(w, n).value.expiry <= w.now + LEASE_TTL
    requires op != Release(g) && (!op.Release? ==> op.ttl == LEASE_TTL)
    ensures WithOp(w, m, op, fate).now == w.now && Holder(KeyOf(WithOp(w, m, op, fate), n), w.now) == Some(g)
    ensures KeyOf(WithOp(w, m, op, fate), n).value.expiry >= KeyOf(w, n).value.expiry
  {
    if m == n {
      if op.t == g {
        OwnIsKept(KeyOf(w, n), w.now, op, fate);
      } else {
        OthersAreUntouched(KeyOf(w, n), w.now, op, fate, g);
      }
      hide Succeeds, AfterFate;
    }
  }

  lemma LeaseStep(w: World, bits: nat, e: Event, g: GenId, n: nat)
    requires BitsOk(bits) && Enabled(w, e) && ExpiryFits(w.now, w.keys)
    requires Holder(KeyOf(w, n), w.now) == Some(g) && e != Drop(n) && !(e.Close? && e.g == g)
    ensures var w' := Step(w, bits, e);
            && n in w'.keys && w'.keys[n].token == g && w'.keys[n].expiry >= w.keys[n].expiry
            && (w'.now < w.keys[n].expiry ==> Holder(KeyOf(w', n), w'.now) == Some(g))
            && w'.now >= w.now
  {
    hide WithOp, AfterTry, Succeeds, AfterFate, Numbers.Pow2;
    match e
    case Try(h, fate) => OpKeepsLease(w, w.gens[h].keeper.n, SetNX(h, LEASE_TTL), fate, g, n);
    case Renew(h, fate) => OpKeepsLease(w, w.gens[h].number.value, Extend(h, LEASE_TTL), fate, g, n);
    case Retake(h, fate) => OpKeepsLease(w, w.gens[h].number.value, SetNX(h, LEASE_TTL), fate, g, n);
    case Close(h, fate) => OpKeepsLease(w, w.gens[h].number.value, Release(h), fate, g, n);
    case _ =>
  }

  lemma {:induction false} ExpiryAlong(bits: nat, ws: seq<World>, es: seq<Event>, i: nat)
    requires IsRun(bits, ws, es) && i < |ws|
    ensures ExpiryFits(ws[i].now, ws[i].keys)
  {
    if i > 0 {
      ExpiryAlong(bits, ws, es, i - 1);
      ExpiryStep(ws[i - 1], bits, es[i - 1]);
    }
  }

  /** A lease is its holder's until its expiry, whatever the others do: nothing but a removal of the key or its own
      Close ends it. Renewed every 30 s for 90, it outlives two renewals that fail in a row. */
  lemma {:induction false} LeaseLasts(bits: nat, ws: seq<World>, es: seq<Event>, i: nat, j: nat, g: GenId, n: nat)
    requires IsRun(bits, ws, es) && i <= j < |ws|
    requires Holder(KeyOf(ws[i], n), ws[i].now) == Some(g) && ws[j].now < ws[i].keys[n].expiry
    requires forall k :: i <= k < j ==> es[k] != Drop(n) && !(es[k].Close? && es[k].g == g)
    ensures Holder(KeyOf(ws[j], n), ws[j].now) == Some(g) && ws[j].keys[n].expiry >= ws[i].keys[n].expiry
    ensures ws[i].now <= ws[j].now
  {
    hide IsRun, Step, Enabled, ExpiryFits, Numbers.Pow2;
    if i < j {
      StepOf(bits, ws, es, j - 1);
      TimePasses(bits, ws, es, j - 1);
      LeaseLasts(bits, ws, es, i, j - 1, g, n);
      ExpiryAlong(bits, ws, es, j - 1);
      LeaseStep(ws[j - 1], bits, es[j - 1], g, n);
    }
  }

  lemma StepOf(bits: nat, ws: seq<World>, es: seq<Event>, k: nat)
    requires IsRun(bits, ws, es) && k + 1 < |ws|
    ensures BitsOk(bits) && |ws| == |es| + 1 && Enabled(ws[k], es[k]) && ws[k + 1] == Step(ws[k], bits, es[k])
  {
  }

  lemma TimePasses(bits: nat, ws: seq<World>, es: seq<Event>, i: nat)
    requires IsRun(bits, ws, es) && i + 1 < |ws|
    ensures ws[i].now <= ws[i + 1].now
  {
  }

  // ------------------------------------------------------------------
  // Why both conditions are needed
  // ------------------------------------------------------------------

  /** Every id made under a live lease, and still a duplicate: a number released and taken within one millisecond. */
  lemma SameMillisecond(bits: nat) returns (ws: seq<World>, es: seq<Event>)
    requires BitsOk(bits)
    ensures IsRun(bits, ws, es)
    ensures forall i :: 0 <= i < |es| ==> es[i].Make? ==> Covered(ws[i], es[i].g)
    ensures |ws[|es|].ids| == 2 && Value(bits, ws[|es|].ids[0]) == Value(bits, ws[|es|].ids[1])
    ensures |es| == 7 && es[6] == Make(1, 5, 6) && !Free(ws[6].ids, 1, 0, 5)
  {
    hide Numbers.Pow2, Step, Enabled;
    es := [Start(0), Try(0, Acked), Make(0, 5, 6), Close(0, Acked), Start(1), Try(1, Acked), Make(1, 5, 6)];
    var w1, w2 := TakeZero(INIT, bits, 0);
    var w3 := FirstId(w2, bits, 0);
    var w4 := GiveUp(w3, bits, 0);
    assert w4.keys == map[];
    var w5, w6 := TakeZero(w4, bits, 1);
    var w7 := FirstId(w6, bits, 1);
    ws := [INIT, w1, w2, w3, w4, w5, w6, w7];
    assert w6.ids[0] == Id(0, 0, Stamp(5, 0));
    assert w7.ids == [Id(0, 0, Stamp(5, 0)), Id(1, 0, Stamp(5, 0))];
  }

  /** A generator that goes on after its lease lapsed repeats the ids of the one that took its number. */
  lemma LapsedLease(bits: nat) returns (ws: seq<World>, es: seq<Event>)
    requires BitsOk(bits)
    ensures IsRun(bits, ws, es) && |ws[|es|].ids| == 2 && Value(bits, ws[|es|].ids[0]) == Value(bits, ws[|es|].ids[1])
    ensures |es| == 7 && es[6] == Make(0, 5, 6) && !Free(ws[6].ids, 0, 0, 5)
  {
    hide Numbers.Pow2, Step, Enabled;
    es := [Start(0), Try(0, Acked), Pass(LEASE_TTL), Start(1), Try(1, Acked), Make(1, 5, 6), Make(0, 5, 6)];
    var w1, w2 := TakeZero(INIT, bits, 0);
    var w3 := TimeGoes(w2, bits, LEASE_TTL);
    var w4, w5 := TakeZero(w3, bits, 1);
    var w6 := FirstId(w5, bits, 1);
    var w7 := FirstId(w6, bits, 0);
    ws := [INIT, w1, w2, w3, w4, w5, w6, w7];
    assert w6.ids[0] == Id(1, 0, Stamp(5, 0));
    assert w7.ids == [Id(1, 0, Stamp(5, 0)), Id(0, 0, Stamp(5, 0))];
  }

  lemma GiveUp(w: World, bits: nat, g: GenId) returns (w': World)
    requires BitsOk(bits) && g in w.gens && w.gens[g].number == Some(0) && w.gens[g].keeper.Idle?
    requires Holder(KeyOf(w, 0), w.now) == Some(g)
    ensures Enabled(w, Close(g, Acked)) && w' == Step(w, bits, Close(g, Acked))
    ensures w'.keys == w.keys - {0} && w'.ids == w.ids && w'.now == w.now && w'.gens.Keys == w.gens.Keys
  {
    w' := Step(w, bits, Close(g, Acked));
  }

  lemma TimeGoes(w: World, bits: nat, d: nat) returns (w': World)
    requires BitsOk(bits)
    ensures Enabled(w, Pass(d)) && w' == Step(w, bits, Pass(d)) && w' == w.(now := w.now + d)
  {
    w' := Step(w, bits, Pass(d));
  }

  lemma FirstId(w: World, bits: nat, g: GenId) returns (w': World)
    requires BitsOk(bits) && g in w.gens && w.gens[g].number == Some(0) && w.gens[g].last == Stamp(0, 0)
    ensures Enabled(w, Make(g, 5, 6)) && w' == Step(w, bits, Make(g, 5, 6))
    ensures w'.ids == w.ids + [Id(g, 0, Stamp(5, 0))] && w'.keys == w.keys && w'.now == w.now
    ensures w'.gens == w.gens[g := w.gens[g].(last := Stamp(5, 0))]
  {
    w' := Step(w, bits, Make(g, 5, 6));
  }

  /** A new generator takes number 0 when nobody holds it. */
  lemma TakeZero(w: World, bits: nat, g: GenId) returns (w1: World, w2: World)
    requires BitsOk(bits) && g !in w.gens && Holder(KeyOf(w, 0), w.now).None?
    ensures Enabled(w, Start(g)) && w1 == Step(w, bits, Start(g))
    ensures Enabled(w1, Try(g, Acked)) && w2 == Step(w1, bits, Try(g, Acked))
    ensures w2.now == w.now && w2.ids == w.ids && w2.gens == w.gens[g := Gen(Some(0), Idle, Stamp(0, 0))]
    ensures w2.keys == w.keys[0 := Entry(g, w.now + LEASE_TTL)]
  {
    w1 := Step(w, bits, Start(g));
    w2 := Step(w1, bits, Try(g, Acked));
  }

  // ------------------------------------------------------------------
  // One generator between the others
  // ------------------------------------------------------------------

  ghost predicate Foreign(g: GenId, w: World, bits: nat, es: seq<Event>) {
    ByOthers(Rules(bits), e => Mine(g, e), w, es)
  }

  predicate Mine(g: GenId, e: Event) { !e.Pass? && !e.Drop? && e.g == g }

  lemma {:induction false} ForeignKeeps(g: GenId, w: World, bits: nat, es: seq<Event>)
    requires BitsOk(bits) && Foreign(g, w, bits, es)
    ensures CanRun(Rules(bits), w, es)
    ensures g in w.gens <==> g in Exec(Rules(bits), w, es).gens
    ensures g in w.gens ==> Exec(Rules(bits), w, es).gens[g] == w.gens[g]
    decreases |es|
  {
    if es != [] {
      assert es[0] in es;
      ForeignStep(g, w, bits, es[0]);
      hide Step;
      ForeignKeeps(g, Step(w, bits, es[0]), bits, es[1..]);
    }
  }

  lemma ForeignStep(g: GenId, w: World, bits: nat, e: Event)
    requires BitsOk(bits) && Enabled(w, e) && !Mine(g, e)
    ensures g in w.gens <==> g in Step(w, bits, e).gens
    ensures g in w.gens ==> Step(w, bits, e).gens[g] == w.gens[g]
  {
  }
}
