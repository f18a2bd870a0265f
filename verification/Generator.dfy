/** The generator itself: Next under its mutex against a clock that may jump back, and what a replica does with its
    lease while the others go on. */
module Generator {
  import opened Options
  import opened Fates
  import opened Runs
  import opened TokenKeys
  import opened Ids
  import Numbers
  import opened Leases

  /** The clock as it will be read: anything, as long as it gets past every moment in the end. */
  type Clock = nat -> int

  ghost predicate Advances(clock: Clock) { forall from: nat, m: int :: GetsPast(clock, from, m) }

  ghost predicate GetsPast(clock: Clock, from: nat, m: int) { exists k: nat :: PastBy(clock, from, k, m) }

  ghost predicate PastBy(clock: Clock, from: nat, k: nat, m: int) { from <= k && clock(k) > m }

  class Counter {
    const bits: nat
    const unleased: bool      // neither Redis nor INSTANCE_ID in a deployment
    const clock: Clock
    var number: nat
    var last: Stamp           // lastMs and the sequence in it
    var ticks: nat

    ghost predicate Valid() reads this {
      BitsOk(bits) && number <= MaxInstance(bits) && last.no <= MaxSeq(bits) && Advances(clock)
    }

    constructor (bits: nat, unleased: bool, clock: Clock, number: nat)
      requires BitsOk(bits) && number <= MaxInstance(bits) && Advances(clock)
      ensures Valid() && last == Stamp(0, 0) && this.number == number && this.bits == bits && this.unleased == unleased
    {
      this.bits, this.unleased, this.clock, this.number := bits, unleased, clock, number;
      last, ticks := Stamp(0, 0), 0;
    }

    /** Sleeps until the clock reads more than the last millisecond. */
    method WaitPast() returns (now: nat)
      requires Valid()
      modifies this`ticks
      ensures ticks > old(ticks) && now == clock(ticks - 1) && now > last.ms
      ensures forall i :: old(ticks) <= i < ticks - 1 ==> clock(i) <= last.ms
    {
      assert GetsPast(clock, ticks, last.ms);
      ghost var k: nat :| PastBy(clock, ticks, k, last.ms);
      var t := clock(ticks);
      ticks := ticks + 1;
      while t <= last.ms
        invariant old(ticks) + 1 <= ticks <= k + 1 && t == clock(ticks - 1)
        invariant forall i :: old(ticks) <= i < ticks - 1 ==> clock(i) <= last.ms
        decreases k + 1 - ticks
      {
        t := clock(ticks);
        ticks := ticks + 1;
      }
      now := t;
    }

    /** A new id, later than every one before it: the next stamp for the clock as read now and, when the sequence is
        used up, at the first reading past the last millisecond. None stands for the panic with ErrNoInstance. */
    method Next() returns (id: Option<nat>)
      requires Valid()
      modifies this`last, this`ticks
      ensures Valid()
      ensures unleased ==> id.None? && last == old(last) && ticks == old(ticks)
      ensures !unleased ==> id == Some(Pack(bits, last.ms, number, last.no)) && Before(old(last), last)
      ensures !unleased && (clock(old(ticks)) > old(last).ms || old(last).no < MaxSeq(bits)) ==>
                ticks == old(ticks) + 1 && last == NextStamp(bits, old(last), clock(old(ticks)), old(last).ms + 1)
      ensures !unleased && !(clock(old(ticks)) > old(last).ms || old(last).no < MaxSeq(bits)) ==>
                && ticks > old(ticks) + 1 && clock(ticks - 1) > old(last).ms
                && (forall k :: old(ticks) <= k < ticks - 1 ==> clock(k) <= old(last).ms)
                && last == NextStamp(bits, old(last), clock(old(ticks)), clock(ticks - 1))
    {
      hide Numbers.Pow2, Pack, MaxSeq, Advances;
      SomeRoom(bits);
      if unleased {
        return None;
      }
      var now := clock(ticks);
      ticks := ticks + 1;
      if now < last.ms {
        now := last.ms;
      }
      if now == last.ms {
        if last.no + 1 > MaxSeq(bits) {
          now := WaitPast();
          last := Stamp(now, 0);
        } else {
          last := Stamp(now, last.no + 1);
        }
      } else {
        last := Stamp(now, 0);
      }
      id := Some(Pack(bits, last.ms, number, last.no));
    }
  }

  lemma SomeRoom(bits: nat)
    requires BitsOk(bits)
    ensures MaxSeq(bits) >= 0
  {
  }

  /** What the other replicas, time and Redis do in a pause. */
  type Others = World -> seq<Event>

  ghost predicate Apart(g: GenId, bits: nat, others: Others)
    requires BitsOk(bits)
  {
    forall w: World :: Foreign(g, w, bits, others(w))
  }

  class Replica {
    const bits: nat
    const g: GenId
    const fates: nat -> Fate     // how its n-th command on Redis goes
    var sent: nat
    var w: World

    constructor (bits: nat, g: GenId, fates: nat -> Fate, w: World)
      ensures this.bits == bits && this.g == g && this.w == w && sent == 0
    {
      this.bits, this.g, this.fates, this.w, this.sent := bits, g, fates, w, 0;
    }

    method Pause(others: Others, ghost es: seq<Event>, ghost w0: World) returns (ghost es': seq<Event>)
      requires BitsOk(bits) && Apart(g, bits, others)
      requires CanRun(Rules(bits), w0, es) && Exec(Rules(bits), w0, es) == w
      modifies this`w
      ensures CanRun(Rules(bits), w0, es') && Exec(Rules(bits), w0, es') == w
      ensures g in w.gens <==> g in old(w).gens
      ensures g in w.gens ==> w.gens[g] == old(w).gens[g]
    {
      hide CanRun, Exec;
      var more := others(w);
      assert Foreign(g, w, bits, more);
      ForeignKeeps(g, w, bits, more);
      ExecAppend(Rules(bits), w0, es, more);
      es' := es + more;
      w := Exec(Rules(bits), w, more);
    }

    method Command(e: Event, ghost es: seq<Event>, ghost w0: World) returns (ghost es': seq<Event>)
      requires BitsOk(bits) && CanRun(Rules(bits), w0, es) && Exec(Rules(bits), w0, es) == w && Enabled(w, e)
      modifies this`w, this`sent
      ensures w == Step(old(w), bits, e) && sent == old(sent) + 1
      ensures CanRun(Rules(bits), w0, es') && Exec(Rules(bits), w0, es') == w
    {
      hide CanRun, Exec, Step, Enabled;
      RunNext(Rules(bits), w0, es, e);
      es' := es + [e];
      w := Step(w, bits, e);
      sent := sent + 1;
    }

    /** Takes the first number that is free when its turn comes; `at` is Redis at each try that found it held. */
    method Lease(others: Others, ghost es: seq<Event>, ghost w0: World)
      returns (n: Option<nat>, ghost at: seq<World>, ghost es': seq<Event>)
      requires BitsOk(bits) && Apart(g, bits, others)
      requires CanRun(Rules(bits), w0, es) && Exec(Rules(bits), w0, es) == w
      requires g in w.gens && w.gens[g].keeper == Looking(0)
      modifies this`w, this`sent
      ensures CanRun(Rules(bits), w0, es') && Exec(Rules(bits), w0, es') == w
      ensures sent > old(sent) && g in w.gens && !w.gens[g].keeper.Looking?
      ensures n.Some? ==> n.value <= MaxInstance(bits) && w.gens[g] == Gen(n, Idle, old(w).gens[g].last)
      ensures n.None? ==> w.gens[g] == old(w).gens[g].(keeper := if old(w).gens[g].number.Some? then Idle else Down)
      ensures forall k :: 0 <= k < |at| ==> Holder(KeyOf(at[k], k), at[k].now).Some?
      ensures if n.Some? then |at| == n.value else |at| == MaxInstance(bits) + 1 || !fates(sent - 1).Acked?
    {
      hide CanRun, Exec, Rules, Apart, Step, Enabled, AfterTry, Succeeds, KeyOf, Holder, MaxInstance;
      AtLeastOne(bits);
      var k := 0;
      at, es' := [], es;
      while true
        invariant 0 <= k && |at| == k && sent == old(sent) + k
        invariant CanRun(Rules(bits), w0, es') && Exec(Rules(bits), w0, es') == w
        invariant g in w.gens && w.gens[g] == old(w).gens[g].(keeper := Looking(k))
        invariant forall i :: 0 <= i < k ==> Holder(KeyOf(at[i], i), at[i].now).Some?
        invariant k == 0 || k <= MaxInstance(bits)
        decreases MaxInstance(bits) - k
      {
        es' := Pause(others, es', w0);
        var ok := Succeeds(KeyOf(w, k), w.now, SetNX(g, LEASE_TTL));
        var fate := fates(sent);
        ghost var w1 := w;
        TryMoves(w, bits, g, fate);
        es' := Command(Try(g, fate), es', w0);
        if !fate.Acked? {
          return None, at, es';
        }
        if ok {
          return Some(k), at, es';
        }
        at := at + [w1];
        if k >= MaxInstance(bits) {
          return None, at, es';
        }
        k := k + 1;
      }
    }

    /** New with Redis: an error unless a number was leased. */
    method New(others: Others) returns (ok: bool, ghost es: seq<Event>)
      requires BitsOk(bits) && Apart(g, bits, others) && g !in w.gens
      modifies this`w, this`sent
      ensures CanRun(Rules(bits), old(w), es) && w == Exec(Rules(bits), old(w), es)
      ensures g in w.gens && (ok <==> w.gens[g].number.Some?) && w.gens[g].keeper == if ok then Idle else Down
    {
      hide CanRun, Exec, Apart;
      ghost var w0 := w;
      RunNothing(Rules(bits), w0);
      es := Command(Start(g), [], w0);
      var n, _, es' := Lease(others, es, w0);
      es := es';
      ok := n.Some?;
    }

    /** A lost lease is taken again, or another number is leased. */
    method Recover(others: Others, ghost es: seq<Event>, ghost w0: World) returns (ghost es': seq<Event>)
      requires BitsOk(bits) && Apart(g, bits, others)
      requires CanRun(Rules(bits), w0, es) && Exec(Rules(bits), w0, es) == w
      requires g in w.gens && w.gens[g].number.Some? && w.gens[g].keeper.LeaseLost?
      modifies this`w, this`sent
      ensures CanRun(Rules(bits), w0, es') && Exec(Rules(bits), w0, es') == w
      ensures g in w.gens && w.gens[g].number.Some? && w.gens[g].keeper.Idle? && w.gens[g].last == old(w).gens[g].last
    {
      hide CanRun, Exec, Apart, Step;
      es' := Pause(others, es, w0);
      KeeperMoves(w, bits, Retake(g, fates(sent)));
      es' := Command(Retake(g, fates(sent)), es', w0);
      if w.gens[g].keeper.Looking? {
        var _, _, more := Lease(others, es', w0);
        es' := more;
      }
    }

    /** One tick of the keeper: renew, and recover a lease found lost. The generator never goes without a number
        again, but it may go on under one it no longer holds. */
    method KeepOnce(others: Others) returns (ghost es: seq<Event>)
      requires BitsOk(bits) && Apart(g, bits, others) && g in w.gens && w.gens[g].number.Some? && w.gens[g].keeper.Idle?
      modifies this`w, this`sent
      ensures CanRun(Rules(bits), old(w), es) && w == Exec(Rules(bits), old(w), es)
      ensures g in w.gens && w.gens[g].number.Some? && w.gens[g].keeper.Idle? && w.gens[g].last == old(w).gens[g].last
    {
      hide CanRun, Exec, Apart, Step;
      ghost var w0 := w;
      RunNothing(Rules(bits), w0);
      es := Pause(others, [], w0);
      KeeperMoves(w, bits, Renew(g, fates(sent)));
      es := Command(Renew(g, fates(sent)), es, w0);
      if !w.gens[g].keeper.Idle? {
        es := Recover(others, es, w0);
      }
    }

    method Close(others: Others) returns (ghost es: seq<Event>)
      requires BitsOk(bits) && Apart(g, bits, others) && g in w.gens && w.gens[g].number.Some? && w.gens[g].keeper.Idle?
      modifies this`w, this`sent
      ensures CanRun(Rules(bits), old(w), es) && w == Exec(Rules(bits), old(w), es)
      ensures g in w.gens && w.gens[g] == old(w).gens[g].(keeper := Closed)
      ensures !fates(old(sent)).Lost? ==> !Covered(w, g)
    {
      hide CanRun, Exec, Apart;
      ghost var w0 := w;
      RunNothing(Rules(bits), w0);
      es := Pause(others, [], w0);
      es := Command(Event.Close(g, fates(sent)), es, w0);
    }
  }

  lemma TryMoves(w: World, bits: nat, g: GenId, fate: Fate)
    requires BitsOk(bits) && g in w.gens && w.gens[g].keeper.Looking?
    ensures Enabled(w, Try(g, fate))
    ensures var w', gen := Step(w, bits, Try(g, fate)), w.gens[g];
            var n := gen.keeper.n;
            var ok := Succeeds(KeyOf(w, n), w.now, SetNX(g, LEASE_TTL));
            && g in w'.gens && (ok <==> Holder(KeyOf(w, n), w.now).None?)
            && w'.gens[g] == if fate.Acked? && ok then gen.(number := Some(n), keeper := Idle)
                             else if fate.Acked? && n < MaxInstance(bits) then gen.(keeper := Looking(n + 1))
                             else gen.(keeper := if gen.number.Some? then Idle else Down)
  {
  }

  lemma KeeperMoves(w: World, bits: nat, e: Event)
    requires BitsOk(bits) && Enabled(w, e) && (e.Renew? || e.Retake?)
    ensures e.g in Step(w, bits, e).gens
    ensures var a, b := w.gens[e.g], Step(w, bits, e).gens[e.g];
            && b.number == a.number && b.last == a.last
            && (b.keeper.Idle? || (if e.Renew? then b.keeper.LeaseLost? else b.keeper == Looking(0)))
  {
  }

  lemma AtLeastOne(bits: nat)
    requires BitsOk(bits)
    ensures MaxInstance(bits) >= 1
  {
    assert Numbers.Pow2(bits) == 2 * Numbers.Pow2(bits - 1);
  }
}
