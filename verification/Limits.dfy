/** What one instance refuses under overload (kitexx.Limits): the in-flight counter's atomic steps and the 100 ms
    windows, for any number of calls at once. */
module Limits {
  import opened Numbers
  import opened Runs

  type CallId = nat

  /** The cap of the configuration: negative is no cap, written 0; zero is 1000. */
  function MaxInFlight(configured: int): (cap: nat)
    ensures cap == 0 <==> configured < 0
  {
    if configured < 0 then 0 else if configured == 0 then 1000 else configured
  }

  /** Calls admitted per 100 ms slot. */
  function PerWindow(maxQPS: nat): (n: nat)
    ensures n >= 1 && 10 * n <= if maxQPS > 10 then maxQPS else 10
  {
    if maxQPS / 10 < 1 then 1 else maxQPS / 10
  }

  /** A call: past its add and let in, the slot it read before it waits for the mutex, running, about to subtract. */
  datatype Phase = Counted | HasSlot(slot: nat) | Running | Leaving(served: bool) | Refusing | Done(served: bool)

  /** taken: the slots that came to the mutex, in order; admitted: those of them the window let in. */
  datatype World = World(now: nat, inFlight: int, window: nat, count: nat, calls: map<CallId, Phase>,
                         taken: seq<nat>, admitted: seq<nat>)

  datatype Config = Config(cap: nat, maxQPS: nat)

  datatype Event =
    | Add(c: CallId)
    | ReadClock(c: CallId)
    | Take(c: CallId)          // under the mutex
    | End(c: CallId)
    | Sub(c: CallId)
    | Tick(slot: nat)

  predicate Enabled(w: World, e: Event) {
    match e
    case Add(c) => c !in w.calls
    case ReadClock(c) => c in w.calls && w.calls[c].Counted?
    case Take(c) => c in w.calls && w.calls[c].HasSlot?
    case End(c) => c in w.calls && w.calls[c].Running?
    case Sub(c) => c in w.calls && (w.calls[c].Leaving? || w.calls[c].Refusing?)
    case Tick(slot) => slot >= w.now
  }

  /** The window after a call came with a slot: a new slot starts a new count. */
  function CountFor(w: World, slot: nat): nat { if slot != w.window then 0 else w.count }

  function Step(cfg: Config, w: World, e: Event): World
    requires Enabled(w, e)
  {
    match e
    case Add(c) =>
      if cfg.cap == 0 then w.(calls := w.calls[c := if cfg.maxQPS > 0 then Counted else Running])
      else if w.inFlight + 1 > cfg.cap then w.(inFlight := w.inFlight + 1, calls := w.calls[c := Refusing])
      else w.(inFlight := w.inFlight + 1, calls := w.calls[c := if cfg.maxQPS > 0 then Counted else Running])
    case ReadClock(c) => w.(calls := w.calls[c := HasSlot(w.now)])
    case Take(c) =>
      var slot := w.calls[c].slot;
      var n := CountFor(w, slot);
      var taken := w.taken + [slot];
      if n >= PerWindow(cfg.maxQPS) then
        w.(window := slot, count := n, calls := w.calls[c := Leaving(false)], taken := taken)
      else
        w.(window := slot, count := n + 1, calls := w.calls[c := Running], taken := taken,
           admitted := w.admitted + [slot])
    case End(c) => w.(calls := w.calls[c := Leaving(true)])
    case Sub(c) =>
      w.(inFlight := if cfg.cap == 0 then w.inFlight else w.inFlight - 1,
         calls := w.calls[c := Done(w.calls[c].Leaving? && w.calls[c].served)])
    case Tick(slot) => w.(now := slot)
  }

  const INIT: World := World(0, 0, 0, 0, map[], [], [])

  ghost predicate IsRun(cfg: Config, ws: seq<World>, es: seq<Event>) {
    && |ws| == |es| + 1
    && ws[0] == INIT
    && forall i :: 0 <= i < |es| ==> Enabled(ws[i], es[i]) && ws[i + 1] == Step(cfg, ws[i], es[i])
  }

  // ------------------------------------------------------------------
  // In flight
  // ------------------------------------------------------------------

  /** Between their add and their subtraction. */
  function Counting(calls: map<CallId, Phase>): set<CallId> { set c | c in calls && !calls[c].Done? }

  /** Those of them that were let past the cap. */
  function Inside(calls: map<CallId, Phase>): set<CallId> {
    set c | c in calls && !calls[c].Done? && !calls[c].Refusing?
  }

  ghost predicate Inv(cfg: Config, w: World) {
    cfg.cap > 0 ==> w.inFlight == |Counting(w.calls)| && |Inside(w.calls)| <= cfg.cap
  }

  lemma SetsStep(cfg: Config, w: World, e: Event)
    requires Enabled(w, e) && cfg.cap > 0
    ensures var w' := Step(cfg, w, e);
            if e.Add? then
              && Counting(w'.calls) == Counting(w.calls) + {e.c} && e.c !in Counting(w.calls)
              && (if w.inFlight + 1 > cfg.cap then Inside(w'.calls) == Inside(w.calls)
                  else Inside(w'.calls) == Inside(w.calls) + {e.c} && e.c !in Inside(w.calls))
            else if e.Sub? then
              && Counting(w'.calls) == Counting(w.calls) - {e.c} && e.c in Counting(w.calls)
              && Inside(w'.calls) == Inside(w.calls) - {e.c}
            else Counting(w'.calls) == Counting(w.calls) && Inside(w'.calls) == Inside(w.calls)
  {
  }

  lemma SmallerSet(a: set<CallId>, b: set<CallId>)
    requires a <= b
    ensures |a| <= |b|
  {
    var c := b - a;
    assert b == a + c;
  }

  lemma StepKeeps(cfg: Config, w: World, e: Event)
    requires Inv(cfg, w) && Enabled(w, e)
    ensures Inv(cfg, Step(cfg, w, e))
  {
    if cfg.cap > 0 {
      SetsStep(cfg, w, e);
      SmallerSet(Inside(w.calls), Counting(w.calls));
      if e.Sub? {
        SmallerSet(Inside(w.calls) - {e.c}, Inside(w.calls));
      }
    }
  }

  lemma {:induction false} InvAlong(cfg: Config, ws: seq<World>, es: seq<Event>, i: nat)
    requires IsRun(cfg, ws, es) && i < |ws|
    ensures Inv(cfg, ws[i])
  {
    if i == 0 {
      assert Counting(map[]) == {} && Inside(map[]) == {};
    } else {
      InvAlong(cfg, ws, es, i - 1);
      StepKeeps(cfg, ws[i - 1], es[i - 1]);
    }
  }

  /** The counter is the number of calls between their add and their subtraction, and never more than the cap are let
      in at once. */
  lemma CounterIsExact(cfg: Config, ws: seq<World>, es: seq<Event>, i: nat)
    requires IsRun(cfg, ws, es) && i < |ws| && cfg.cap > 0
    ensures ws[i].inFlight == |Counting(ws[i].calls)| && |Inside(ws[i].calls)| <= cfg.cap
  {
    InvAlong(cfg, ws, es, i);
  }

  /** A call is refused for the cap exactly when that many are counted, and calls being refused count too. */
  lemma RefusedIff(cfg: Config, ws: seq<World>, es: seq<Event>, i: nat)
    requires IsRun(cfg, ws, es) && i < |es| && es[i].Add? && cfg.cap > 0
    ensures ws[i + 1].calls[es[i].c].Refusing? <==> |Counting(ws[i].calls)| >= cfg.cap
  {
    InvAlong(cfg, ws, es, i);
  }

  /** So a call may be refused while a place is free: the counter still holds one that is on its way out. */
  lemma RefusedWithRoom() returns (ws: seq<World>, es: seq<Event>)
    ensures IsRun(Config(1, 0), ws, es) && |es| == 5 && es[4].Add?
    ensures Inside(ws[4].calls) == {} && ws[5].calls[es[4].c].Refusing?
  {
    var cfg := Config(1, 0);
    es := [Add(0), Add(1), End(0), Sub(0), Add(2)];
    var w1 := Step(cfg, INIT, es[0]);
    var w2 := Step(cfg, w1, es[1]);
    var w3 := Step(cfg, w2, es[2]);
    var w4 := Step(cfg, w3, es[3]);
    ws := [INIT, w1, w2, w3, w4, Step(cfg, w4, es[4])];
  }

  // ------------------------------------------------------------------
  // Windows
  // ------------------------------------------------------------------

  /** How many admitted calls had a slot of from..to. */
  function Within(admitted: seq<nat>, from: nat, to: nat): nat {
    if admitted == [] then 0
    else Within(admitted[..|admitted| - 1], from, to) + if from <= admitted[|admitted| - 1] < to then 1 else 0
  }

  lemma WithinNext(admitted: seq<nat>, slot: nat, from: nat, to: nat)
    ensures Within(admitted + [slot], from, to) == Within(admitted, from, to) + if from <= slot < to then 1 else 0
  {
    assert (admitted + [slot])[..|admitted|] == admitted;
  }

  function InSlot(admitted: seq<nat>, slot: nat): nat { Within(admitted, slot, slot + 1) }

  lemma {:induction false} WithinSplits(admitted: seq<nat>, a: nat, b: nat, c: nat)
    requires a <= b <= c
    ensures Within(admitted, a, c) == Within(admitted, a, b) + Within(admitted, b, c)
  {
    if admitted != [] {
      WithinSplits(admitted[..|admitted| - 1], a, b, c);
    }
  }

  lemma {:induction false} NoneWithin(admitted: seq<nat>, from: nat)
    ensures Within(admitted, from, from) == 0
  {
    if admitted != [] {
      NoneWithin(admitted[..|admitted| - 1], from);
    }
  }

  /** The window's count over the slots that came to the mutex, in the order they came. */
  function CountAfter(slots: seq<nat>, share: nat): nat {
    if slots == [] then 0
    else
      var before := slots[..|slots| - 1];
      var n := if before != [] && before[|before| - 1] == slots[|slots| - 1] then CountAfter(before, share) else 0;
      if n >= share then n else n + 1
  }

  /** How many of them with a slot were let in. */
  function LetIn(slots: seq<nat>, share: nat, slot: nat): nat {
    if slots == [] then 0
    else
      var before := slots[..|slots| - 1];
      var n := if before != [] && before[|before| - 1] == slots[|slots| - 1] then CountAfter(before, share) else 0;
      LetIn(before, share, slot) + if slots[|slots| - 1] == slot && n < share then 1 else 0
  }

  /** The visits of the window to a slot, each with the calls that came during it. */
  function Arrivals(slots: seq<nat>, slot: nat): seq<nat> {
    if slots == [] then []
    else
      var before := slots[..|slots| - 1];
      var visits := Arrivals(before, slot);
      if slots[|slots| - 1] != slot then visits
      else if before != [] && before[|before| - 1] == slot then OneMore(visits)
      else visits + [1]
  }

  function OneMore(visits: seq<nat>): seq<nat> {
    if visits == [] then [1] else visits[..|visits| - 1] + [visits[|visits| - 1] + 1]
  }

  function Visits(slots: seq<nat>, slot: nat): nat { |Arrivals(slots, slot)| }

  /** Of every visit no more than the share. */
  function Capped(visits: seq<nat>, share: nat): nat {
    if visits == [] then 0 else Capped(visits[..|visits| - 1], share) + Min(visits[|visits| - 1], share)
  }

  lemma CappedNext(visits: seq<nat>, n: nat, share: nat)
    ensures Capped(visits + [n], share) == Capped(visits, share) + Min(n, share)
  {
    assert (visits + [n])[..|visits|] == visits;
  }

  lemma CappedOneMore(visits: seq<nat>, share: nat)
    requires visits != []
    ensures Capped(OneMore(visits), share) == Capped(visits, share) + if visits[|visits| - 1] < share then 1 else 0
  {
    CappedNext(visits[..|visits| - 1], visits[|visits| - 1] + 1, share);
  }

  /** The visits after one more call came with slot x. */
  lemma ArrivalsNext(slots: seq<nat>, x: nat, slot: nat)
    ensures Arrivals(slots + [x], slot) ==
            var visits := Arrivals(slots, slot);
            if x != slot then visits
            else if slots != [] && slots[|slots| - 1] == slot then OneMore(visits)
            else visits + [1]
  {
    assert (slots + [x])[..|slots|] == slots;
  }

  /** The count when a call comes with a slot: a new slot starts a new count. */
  function Before(slots: seq<nat>, slot: nat, share: nat): nat {
    if slots != [] && slots[|slots| - 1] == slot then CountAfter(slots, share) else 0
  }

  lemma CountNext(slots: seq<nat>, slot: nat, share: nat)
    ensures CountAfter(slots + [slot], share) == var n := Before(slots, slot, share); if n >= share then n else n + 1
  {
    assert (slots + [slot])[..|slots|] == slots;
  }

  lemma LetInNext(slots: seq<nat>, slot: nat, share: nat, s: nat)
    ensures LetIn(slots + [slot], share, s) ==
            LetIn(slots, share, s) + if s == slot && Before(slots, slot, share) < share then 1 else 0
  {
    assert (slots + [slot])[..|slots|] == slots;
  }

  /** What a slot lets in is exact: of every visit of the window to it the calls that came, up to the share. */
  lemma {:induction false} LetInIsCapped(slots: seq<nat>, share: nat, slot: nat)
    ensures LetIn(slots, share, slot) == Capped(Arrivals(slots, slot), share)
    ensures slots != [] && slots[|slots| - 1] == slot ==>
              var visits := Arrivals(slots, slot);
              visits != [] && CountAfter(slots, share) == Min(visits[|visits| - 1], share)
  {
    if slots != [] {
      var before, x := slots[..|slots| - 1], slots[|slots| - 1];
      assert slots == before + [x];
      LetInIsCapped(before, share, slot);
      ArrivalsNext(before, x, slot);
      CountNext(before, x, share);
      LetInNext(before, x, share, slot);
      hide LetIn, CountAfter, Arrivals, Capped;
      if x == slot {
        var visits := Arrivals(before, slot);
        if before != [] && before[|before| - 1] == slot {
          CappedOneMore(visits, share);
        } else {
          CappedNext(visits, 1, share);
          NoneCapped(share);
        }
      }
    } else {
      NoneCapped(share);
    }
  }

  lemma NoneCapped(share: nat)
    ensures Capped([], share) == 0
  {
  }

  lemma {:induction false} ArrivalsCount(slots: seq<nat>, slot: nat)
    ensures forall k :: 0 <= k < Visits(slots, slot) ==> Arrivals(slots, slot)[k] >= 1
  {
    if slots != [] {
      ArrivalsCount(slots[..|slots| - 1], slot);
    }
  }

  lemma {:induction false} CappedBounds(visits: seq<nat>, share: nat)
    requires forall k :: 0 <= k < |visits| ==> visits[k] >= 1
    ensures Capped(visits, share) <= |visits| * share && Capped(visits, 1) == |visits|
  {
    if visits != [] {
      CappedBounds(visits[..|visits| - 1], share);
      assert |visits| * share == (|visits| - 1) * share + share;
    }
  }

  /** Whatever the share, the slot keeps to it exactly when the window comes to it once at most. */
  lemma AnyShareIff(slots: seq<nat>, slot: nat)
    ensures (forall share: nat :: share >= 1 ==> LetIn(slots, share, slot) <= share) <==> Visits(slots, slot) <= 1
  {
    ArrivalsCount(slots, slot);
    var visits := Arrivals(slots, slot);
    forall share: nat ensures LetIn(slots, share, slot) == Capped(visits, share) <= |visits| * share {
      LetInIsCapped(slots, share, slot);
      CappedBounds(visits, share);
    }
    CappedBounds(visits, 1);
    assert LetIn(slots, 1, slot) == |visits|;
    if |visits| <= 1 {
      forall share: nat ensures |visits| * share <= share {
      }
    }
  }

  /** The same over n slots in a row. */
  function CappedWithin(slots: seq<nat>, share: nat, from: nat, n: nat): nat {
    if n == 0 then 0 else CappedWithin(slots, share, from, n - 1) + Capped(Arrivals(slots, from + n - 1), share)
  }

  function VisitsWithin(slots: seq<nat>, from: nat, n: nat): nat {
    if n == 0 then 0 else VisitsWithin(slots, from, n - 1) + Visits(slots, from + n - 1)
  }

  lemma {:induction false} WithinIsCapped(admitted: seq<nat>, slots: seq<nat>, share: nat, from: nat, n: nat)
    requires forall s: nat :: InSlot(admitted, s) == LetIn(slots, share, s)
    ensures Within(admitted, from, from + n) == CappedWithin(slots, share, from, n)
  {
    if n == 0 {
      NoneWithin(admitted, from);
    } else {
      WithinIsCapped(admitted, slots, share, from, n - 1);
      var last := from + n - 1;
      WithinSplits(admitted, from, last, last + 1);
      assert InSlot(admitted, last) == LetIn(slots, share, last);
      LetInIsCapped(slots, share, last);
    }
  }

  lemma {:induction false} CappedWithinBounds(slots: seq<nat>, share: nat, from: nat, n: nat)
    ensures CappedWithin(slots, share, from, n) <= VisitsWithin(slots, from, n) * share
    ensures CappedWithin(slots, 1, from, n) == VisitsWithin(slots, from, n)
  {
    if n > 0 {
      CappedWithinBounds(slots, share, from, n - 1);
      ArrivalsCount(slots, from + n - 1);
      CappedBounds(Arrivals(slots, from + n - 1), share);
      SumTimes(VisitsWithin(slots, from, n - 1), Visits(slots, from + n - 1), share);
    }
  }

  lemma SumTimes(a: nat, b: nat, d: nat)
    ensures (a + b) * d == a * d + b * d
  {
  }

  /** The limiter's fields are what the slots in their order make of them. */
  ghost predicate Tied(cfg: Config, w: World) {
    && (cfg.maxQPS > 0 ==> w.count == CountAfter(w.taken, PerWindow(cfg.maxQPS)))
    && (w.taken == [] ==> w.count == 0)
    && (w.taken != [] ==> w.window == w.taken[|w.taken| - 1])
    && (forall s :: InSlot(w.admitted, s) == LetIn(w.taken, PerWindow(cfg.maxQPS), s))
    && (forall c :: c in w.calls && (w.calls[c].Counted? || w.calls[c].HasSlot?) ==> cfg.maxQPS > 0)
  }

  lemma TakeKeepsTied(cfg: Config, w: World, c: CallId)
    requires Tied(cfg, w) && Enabled(w, Take(c))
    ensures Tied(cfg, Step(cfg, w, Take(c)))
  {
    hide LetIn, CountAfter, Within, PerWindow;
    var w', slot, share := Step(cfg, w, Take(c)), w.calls[c].slot, PerWindow(cfg.maxQPS);
    CountNext(w.taken, slot, share);
    forall s: nat ensures InSlot(w'.admitted, s) == LetIn(w'.taken, share, s) {
      WithinNext(w.admitted, slot, s, s + 1);
      LetInNext(w.taken, slot, share, s);
      assert InSlot(w.admitted, s) == LetIn(w.taken, share, s);
    }
  }

  lemma {:induction false} TiedAlong(cfg: Config, ws: seq<World>, es: seq<Event>, i: nat)
    requires IsRun(cfg, ws, es) && i < |ws|
    ensures Tied(cfg, ws[i])
  {
    if i > 0 {
      TiedAlong(cfg, ws, es, i - 1);
      if es[i - 1].Take? {
        TakeKeepsTied(cfg, ws[i - 1], es[i - 1].c);
      }
    }
  }

  /** In any run a slot admits exactly, of every visit of the window to it, the calls that came up to the share; and ten
      slots in a row the sum of that. So the slot keeps to its share exactly when that sum does. */
  lemma WindowIsExact(cfg: Config, ws: seq<World>, es: seq<Event>, i: nat, slot: nat)
    requires IsRun(cfg, ws, es) && i < |ws|
    ensures InSlot(ws[i].admitted, slot) == Capped(Arrivals(ws[i].taken, slot), PerWindow(cfg.maxQPS))
    ensures Within(ws[i].admitted, slot, slot + 10) == CappedWithin(ws[i].taken, PerWindow(cfg.maxQPS), slot, 10)
  {
    TiedAlong(cfg, ws, es, i);
    LetInIsCapped(ws[i].taken, PerWindow(cfg.maxQPS), slot);
    WithinIsCapped(ws[i].admitted, ws[i].taken, PerWindow(cfg.maxQPS), slot, 10);
  }

  /** Calls came to the mutex in the order they read the clock. */
  ghost predicate InOrder(slots: seq<nat>) { forall i, j :: 0 <= i < j < |slots| ==> slots[i] <= slots[j] }

  lemma {:induction false} OneVisit(slots: seq<nat>, slot: nat)
    requires InOrder(slots)
    ensures Visits(slots, slot) <= 1
    ensures (slots == [] || slots[|slots| - 1] < slot) ==> Visits(slots, slot) == 0
  {
    if slots != [] {
      OneVisit(slots[..|slots| - 1], slot);
    }
  }

  lemma {:induction false} OneVisitEach(slots: seq<nat>, from: nat, n: nat)
    requires InOrder(slots)
    ensures VisitsWithin(slots, from, n) <= n
  {
    if n > 0 {
      OneVisitEach(slots, from, n - 1);
      OneVisit(slots, from + n - 1);
    }
  }

  /** When the calls come to the mutex in the order they read the clock, a slot admits at most its share, and any ten
      slots in a row at most MaxQPS, or ten. */
  lemma WindowsBound(cfg: Config, ws: seq<World>, es: seq<Event>, i: nat, slot: nat)
    requires IsRun(cfg, ws, es) && i < |ws| && InOrder(ws[i].taken)
    ensures InSlot(ws[i].admitted, slot) <= PerWindow(cfg.maxQPS)
    ensures Within(ws[i].admitted, slot, slot + 10) <= TenSlots(cfg.maxQPS)
  {
    var share, slots := PerWindow(cfg.maxQPS), ws[i].taken;
    WindowIsExact(cfg, ws, es, i, slot);
    OneVisit(slots, slot);
    MulMono(Visits(slots, slot), 1, share);
    ArrivalsCount(slots, slot);
    CappedBounds(Arrivals(slots, slot), share);
    OneVisitEach(slots, slot, 10);
    CappedWithinBounds(slots, share, slot, 10);
    MulMono(VisitsWithin(slots, slot, 10), 10, share);
  }

  function TenSlots(maxQPS: nat): nat { if maxQPS > 10 then maxQPS else 10 }

  // ------------------------------------------------------------------
  // Exactly when, whatever MaxQPS is
  // ------------------------------------------------------------------

  /** In every run in which calls come to the mutex with these slots in this order, whatever MaxQPS is. */
  ghost predicate KeepsShare(slots: seq<nat>, slot: nat) {
    forall maxQPS: nat, ws: seq<World>, es: seq<Event> ::
      Comes(maxQPS, ws, es, slots) ==> InSlot(ws[|es|].admitted, slot) <= PerWindow(maxQPS)
  }

  ghost predicate KeepsTen(slots: seq<nat>, slot: nat) {
    forall maxQPS: nat, ws: seq<World>, es: seq<Event> ::
      Comes(maxQPS, ws, es, slots) ==> Within(ws[|es|].admitted, slot, slot + 10) <= TenSlots(maxQPS)
  }

  ghost predicate Comes(maxQPS: nat, ws: seq<World>, es: seq<Event>, slots: seq<nat>) {
    maxQPS > 0 && |ws| == |es| + 1 && IsRun(Config(0, maxQPS), ws, es) && ws[|es|].taken == slots
  }

  /** A slot keeps to its share exactly when the window comes to it once at most. */
  lemma KeepsShareIff(slots: seq<nat>, slot: nat)
    ensures KeepsShare(slots, slot) <==> Visits(slots, slot) <= 1
  {
    if Visits(slots, slot) <= 1 {
      AnyShareIff(slots, slot);
      forall maxQPS: nat, ws: seq<World>, es: seq<Event> | Comes(maxQPS, ws, es, slots)
        ensures InSlot(ws[|es|].admitted, slot) <= PerWindow(maxQPS)
      {
        WindowIsExact(Config(0, maxQPS), ws, es, |es|, slot);
        LetInIsCapped(slots, PerWindow(maxQPS), slot);
      }
    } else {
      var ws, es := RunFor(10, slots);
      WindowIsExact(Config(0, 10), ws, es, |es|, slot);
      ArrivalsCount(slots, slot);
      CappedBounds(Arrivals(slots, slot), 1);
      assert Comes(10, ws, es, slots) && InSlot(ws[|es|].admitted, slot) > PerWindow(10);
    }
  }

  /** Ten slots in a row keep to MaxQPS, or ten, exactly when the window comes to them ten times at most. */
  lemma KeepsTenIff(slots: seq<nat>, slot: nat)
    ensures KeepsTen(slots, slot) <==> VisitsWithin(slots, slot, 10) <= 10
  {
    if VisitsWithin(slots, slot, 10) <= 10 {
      forall maxQPS: nat, ws: seq<World>, es: seq<Event> | Comes(maxQPS, ws, es, slots)
        ensures Within(ws[|es|].admitted, slot, slot + 10) <= TenSlots(maxQPS)
      {
        WindowIsExact(Config(0, maxQPS), ws, es, |es|, slot);
        CappedWithinBounds(slots, PerWindow(maxQPS), slot, 10);
        MulMono(VisitsWithin(slots, slot, 10), 10, PerWindow(maxQPS));
      }
    } else {
      var ws, es := RunFor(10, slots);
      WindowIsExact(Config(0, 10), ws, es, |es|, slot);
      CappedWithinBounds(slots, 1, slot, 10);
      assert Comes(10, ws, es, slots) && Within(ws[|es|].admitted, slot, slot + 10) > TenSlots(10);
    }
  }

  /** The calls whose slot is below v, and of those of slot v the first k, read the clock; none came to the mutex. */
  ghost predicate Ready(slots: seq<nat>, w: World, v: nat, k: nat) {
    && w.now <= v && w.taken == []
    && (forall j :: 0 <= j < |slots| ==>
          if slots[j] < v || (slots[j] == v && j < k) then j in w.calls && w.calls[j] == HasSlot(slots[j])
          else j !in w.calls)
  }

  lemma ReadOne(cfg: Config, slots: seq<nat>, ws: seq<World>, es: seq<Event>, v: nat, k: nat)
    returns (ws': seq<World>, es': seq<Event>)
    requires cfg.cap == 0 && cfg.maxQPS > 0 && |ws| == |es| + 1 && IsRun(cfg, ws, es)
    requires k < |slots| && Ready(slots, ws[|es|], v, k)
    ensures |ws'| == |es'| + 1 && IsRun(cfg, ws', es') && Ready(slots, ws'[|es'|], v, k + 1)
  {
    if slots[k] == v {
      ws', es' := Arrive(cfg, ws, es, k, v);
    } else {
      ws', es' := ws, es;
    }
  }

  lemma {:induction false} ReadSlot(cfg: Config, slots: seq<nat>, ws: seq<World>, es: seq<Event>, v: nat, k: nat)
    returns (ws': seq<World>, es': seq<Event>)
    requires cfg.cap == 0 && cfg.maxQPS > 0 && |ws| == |es| + 1 && IsRun(cfg, ws, es)
    requires k <= |slots| && Ready(slots, ws[|es|], v, k)
    ensures |ws'| == |es'| + 1 && IsRun(cfg, ws', es') && Ready(slots, ws'[|es'|], v + 1, 0)
    decreases |slots| - k
  {
    if k == |slots| {
      ws', es' := ws, es;
    } else {
      ws', es' := ReadOne(cfg, slots, ws, es, v, k);
      hide Ready, IsRun;
      ws', es' := ReadSlot(cfg, slots, ws', es', v, k + 1);
    }
  }

  lemma {:induction false} ReadAll(cfg: Config, slots: seq<nat>, v: nat) returns (ws: seq<World>, es: seq<Event>)
    requires cfg.cap == 0 && cfg.maxQPS > 0
    ensures |ws| == |es| + 1 && IsRun(cfg, ws, es) && Ready(slots, ws[|es|], v, 0)
  {
    if v == 0 {
      ws, es := [INIT], [];
    } else {
      ws, es := ReadAll(cfg, slots, v - 1);
      hide Ready, IsRun;
      ws, es := ReadSlot(cfg, slots, ws, es, v - 1, 0);
    }
  }

  /** The first k came to the mutex, in order; the others have their slots. */
  ghost predicate Going(slots: seq<nat>, w: World, k: nat) {
    && k <= |slots| && w.taken == slots[..k]
    && (forall j :: k <= j < |slots| ==> j in w.calls && w.calls[j] == HasSlot(slots[j]))
  }

  lemma {:induction false} TakeAll(cfg: Config, slots: seq<nat>, ws: seq<World>, es: seq<Event>, k: nat)
    returns (ws': seq<World>, es': seq<Event>)
    requires |ws| == |es| + 1 && IsRun(cfg, ws, es) && Going(slots, ws[|es|], k)
    ensures |ws'| == |es'| + 1 && IsRun(cfg, ws', es') && ws'[|es'|].taken == slots
    decreases |slots| - k
  {
    if k == |slots| {
      ws', es' := ws, es;
    } else {
      ws', es' := Extend(cfg, ws, es, Take(k));
      assert slots[..k + 1] == slots[..k] + [slots[k]];
      assert Going(slots, ws'[|es'|], k + 1);
      hide Going, IsRun, Step;
      ws', es' := TakeAll(cfg, slots, ws', es', k + 1);
    }
  }

  lemma {:induction false} Above(slots: seq<nat>) returns (v: nat)
    ensures forall j :: 0 <= j < |slots| ==> slots[j] < v
  {
    v := 0;
    if slots != [] {
      var u := Above(slots[..|slots| - 1]);
      var x := slots[|slots| - 1];
      v := if x < u then u else x + 1;
      assert forall j :: 0 <= j < |slots| - 1 ==> slots[j] == slots[..|slots| - 1][j];
    }
  }

  /** Every order of slots is the order of some run, with a clock that never goes back. */
  lemma RunFor(maxQPS: nat, slots: seq<nat>) returns (ws: seq<World>, es: seq<Event>)
    requires maxQPS > 0
    ensures Comes(maxQPS, ws, es, slots)
  {
    var v := Above(slots);
    var cfg := Config(0, maxQPS);
    ws, es := ReadAll(cfg, slots, v);
    assert Going(slots, ws[|es|], 0);
    hide Going, Ready, IsRun;
    ws, es := TakeAll(cfg, slots, ws, es, 0);
    assert IsRun(cfg, ws, es);
  }

  // ------------------------------------------------------------------
  // Out of order
  // ------------------------------------------------------------------

  /** The clock is read before the mutex is taken, so even with a clock that never goes back a late caller can reset the
      window: with a share of one, two calls are let in under slot 6. */
  lemma LateCallerResetsTheWindow() returns (ws: seq<World>, es: seq<Event>)
    ensures IsRun(Config(0, 10), ws, es) && PerWindow(10) == 1
    ensures Within(ws[|es|].admitted, 6, 7) == 2
  {
    var cfg := Config(0, 10);
    hide Step, Enabled, IsRun, Within;
    assert IsRun(cfg, [INIT], []) by {
      OnlyInit(cfg);
    }
    ws, es := Arrive(cfg, [INIT], [], 0, 5);
    ws, es := Arrive(cfg, ws, es, 1, 6);
    ws, es := LetThrough(cfg, ws, es, 1);
    ws, es := LetThrough(cfg, ws, es, 0);
    ws, es := Arrive(cfg, ws, es, 2, 6);
    ws, es := LetThrough(cfg, ws, es, 2);
    assert ws[|es|].admitted == (([] + [6]) + [5]) + [6];
    WithinNext([], 6, 6, 7);
    WithinNext([] + [6], 5, 6, 7);
    WithinNext(([] + [6]) + [5], 6, 6, 7);
    NoneAtAll();
  }

  lemma OnlyInit(cfg: Config)
    ensures IsRun(cfg, [INIT], [])
  {
  }

  lemma NoneAtAll()
    ensures Within([], 6, 7) == 0
  {
  }

  lemma Extend(cfg: Config, ws: seq<World>, es: seq<Event>, e: Event) returns (ws': seq<World>, es': seq<Event>)
    requires IsRun(cfg, ws, es) && Enabled(ws[|es|], e)
    ensures |ws'| == |es'| + 1 && IsRun(cfg, ws', es') && ws'[|es'|] == Step(cfg, ws[|es|], e)
  {
    hide Step, Enabled;
    ws', es' := ws + [Step(cfg, ws[|es|], e)], es + [e];
  }

  /** A new call reads the clock at a slot. */
  lemma Arrive(cfg: Config, ws: seq<World>, es: seq<Event>, c: CallId, slot: nat)
    returns (ws': seq<World>, es': seq<Event>)
    requires cfg.cap == 0 && cfg.maxQPS > 0 && IsRun(cfg, ws, es) && c !in ws[|es|].calls && slot >= ws[|es|].now
    ensures |ws'| == |es'| + 1 && IsRun(cfg, ws', es')
    ensures ws'[|es'|] == ws[|es|].(now := slot, calls := ws[|es|].calls[c := HasSlot(slot)])
  {
    hide IsRun;
    ws', es' := Extend(cfg, ws, es, Tick(slot));
    ws', es' := Extend(cfg, ws', es', Add(c));
    ws', es' := Extend(cfg, ws', es', ReadClock(c));
  }

  /** It comes to the mutex when the window is elsewhere. */
  lemma LetThrough(cfg: Config, ws: seq<World>, es: seq<Event>, c: CallId)
    returns (ws': seq<World>, es': seq<Event>)
    requires cfg == Config(0, 10) && IsRun(cfg, ws, es) && c in ws[|es|].calls && ws[|es|].calls[c].HasSlot?
    requires ws[|es|].calls[c].slot != ws[|es|].window
    ensures IsRun(cfg, ws', es')
    ensures var w, slot := ws[|es|], ws[|es|].calls[c].slot;
            ws'[|es'|] ==
            World(w.now, w.inFlight, slot, 1, w.calls[c := Running], w.taken + [slot], w.admitted + [slot])
  {
    hide IsRun;
    ws', es' := Extend(cfg, ws, es, Take(c));
  }

  // ------------------------------------------------------------------
  // One call between the others
  // ------------------------------------------------------------------

  function Rules(cfg: Config): Protocol<World, Event> {
    Protocol((w: World, e: Event) => Enabled(w, e),
             (w: World, e: Event) => if Enabled(w, e) then Step(cfg, w, e) else w)
  }

  predicate Mine(c: CallId, e: Event) { !e.Tick? && e.c == c }

  ghost predicate Foreign(c: CallId, w: World, cfg: Config, es: seq<Event>) {
    ByOthers(Rules(cfg), e => Mine(c, e), w, es)
  }

  lemma {:induction false} ForeignKeeps(c: CallId, w: World, cfg: Config, es: seq<Event>)
    requires Foreign(c, w, cfg, es)
    ensures CanRun(Rules(cfg), w, es)
    ensures c in w.calls <==> c in Exec(Rules(cfg), w, es).calls
    ensures c in w.calls ==> Exec(Rules(cfg), w, es).calls[c] == w.calls[c]
    decreases |es|
  {
    if es != [] {
      assert es[0] in es;
      ForeignKeeps(c, Step(cfg, w, es[0]), cfg, es[1..]);
    }
  }
}

/** The limiter's fields: each of its atomic operations, and one call through all of them with the others in between. */
module Limiter {
  import opened Runs
  import opened Limits

  /** What the other calls and the clock do, by pause and by what they find. */
  type Others = (nat, World) -> seq<Event>

  ghost predicate Apart(c: CallId, cfg: Config, others: Others) {
    forall k: nat, w: World :: Foreign(c, w, cfg, others(k, w))
  }

  class Instance {
    const cfg: Config
    var inFlight: int
    var window: nat
    var count: nat
    var now: nat                        // the clock, in slots
    var calls: map<CallId, Phase>       // where every call stands
    var taken: seq<nat>
    var admitted: seq<nat>

    function At(): World reads this { World(now, inFlight, window, count, calls, taken, admitted) }

    constructor (maxInFlight: int, maxQPS: nat)
      ensures cfg == Config(MaxInFlight(maxInFlight), maxQPS) && At() == INIT
    {
      cfg := Config(MaxInFlight(maxInFlight), maxQPS);
      now, inFlight, window, count, calls, taken, admitted := 0, 0, 0, 0, map[], [], [];
    }

    /** inFlight.Add(1), and what the sum says. */
    method Enter(c: CallId) returns (ok: bool)
      requires c !in calls
      modifies this
      ensures At() == Step(cfg, old(At()), Add(c))
      ensures ok <==> cfg.cap == 0 || old(inFlight) < cfg.cap
    {
      ok := true;
      if cfg.cap > 0 {
        inFlight := inFlight + 1;
        ok := inFlight <= cfg.cap;
      }
      calls := calls[c := if !ok then Refusing else if cfg.maxQPS > 0 then Counted else Running];
    }

    /** inFlight.Add(-1). */
    method Leave(c: CallId)
      requires Enabled(At(), Sub(c))
      modifies this
      ensures At() == Step(cfg, old(At()), Sub(c))
    {
      if cfg.cap > 0 {
        inFlight := inFlight - 1;
      }
      calls := calls[c := Done(calls[c].Leaving? && calls[c].served)];
    }

    method Clock(c: CallId) returns (slot: nat)
      requires Enabled(At(), ReadClock(c))
      modifies this
      ensures At() == Step(cfg, old(At()), ReadClock(c)) && slot == now
    {
      slot := now;
      calls := calls[c := HasSlot(slot)];
    }

    /** Under the mutex: a new slot starts a new count; the call is let in while the count is below the share. */
    method Take(c: CallId, slot: nat) returns (ok: bool)
      requires c in calls && calls[c] == HasSlot(slot)
      modifies this
      ensures At() == Step(cfg, old(At()), Event.Take(c))
      ensures ok <==> c in calls && calls[c].Running?
    {
      taken := taken + [slot];
      if slot != window {
        window, count := slot, 0;
      }
      if count >= PerWindow(cfg.maxQPS) {
        calls := calls[c := Leaving(false)];
        return false;
      }
      count := count + 1;
      calls, admitted := calls[c := Running], admitted + [slot];
      ok := true;
    }

    method Return(c: CallId)
      requires Enabled(At(), End(c))
      modifies this
      ensures At() == Step(cfg, old(At()), End(c))
    {
      calls := calls[c := Leaving(true)];
    }

    method Pause(c: CallId, k: nat, others: Others, ghost es: seq<Event>, ghost w0: World)
      returns (ghost es': seq<Event>)
      requires Apart(c, cfg, others) && CanRun(Rules(cfg), w0, es) && Exec(Rules(cfg), w0, es) == At()
      modifies this
      ensures CanRun(Rules(cfg), w0, es') && Exec(Rules(cfg), w0, es') == At()
      ensures c in calls <==> c in old(calls)
      ensures c in calls ==> calls[c] == old(calls)[c]
    {
      var w := At();
      var more := others(k, w);
      assert Foreign(c, w, cfg, more);
      ForeignKeeps(c, w, cfg, more);
      ExecAppend(Rules(cfg), w0, es, more);
      es' := es + more;
      var w' := Exec(Rules(cfg), w, more);
      now, inFlight, window, count, calls, taken, admitted :=
        w'.now, w'.inFlight, w'.window, w'.count, w'.calls, w'.taken, w'.admitted;
    }

    /** One call through the middleware. Its steps, and those of the others between them, are a run of the protocol, so
        what is proved of every run holds of it: between the add and its undoing others find the refused call
        counted. */
    method Serve(c: CallId, others: Others) returns (served: bool, ghost es: seq<Event>)
      requires c !in calls && Apart(c, cfg, others)
      modifies this
      ensures CanRun(Rules(cfg), old(At()), es) && At() == Exec(Rules(cfg), old(At()), es)
      ensures c in calls && calls[c] == Done(served)
    {
      hide CanRun, Exec, Apart, Step;
      ghost var w0, p := At(), Rules(cfg);
      RunNothing(p, w0);
      es := [];
      es := Pause(c, 0, others, es, w0);
      RunStep(cfg, w0, es, Add(c));
      EnterMoves(cfg, At(), c);
      var ok := Enter(c);
      es := es + [Add(c)];
      if ok && cfg.maxQPS > 0 {
        es := Pause(c, 1, others, es, w0);
        RunStep(cfg, w0, es, ReadClock(c));
        ClockMoves(cfg, At(), c);
        var slot := Clock(c);
        es := es + [ReadClock(c)];
        es := Pause(c, 2, others, es, w0);
        RunStep(cfg, w0, es, Event.Take(c));
        TakeMoves(cfg, At(), c);
        ok := Take(c, slot);
        es := es + [Event.Take(c)];
      }
      served := ok;
      if served {
        es := Pause(c, 3, others, es, w0);
        RunStep(cfg, w0, es, End(c));
        EndMoves(cfg, At(), c);
        Return(c);
        es := es + [End(c)];
      }
      es := Pause(c, 4, others, es, w0);
      RunStep(cfg, w0, es, Sub(c));
      SubMoves(cfg, At(), c);
      Leave(c);
      es := es + [Sub(c)];
    }
  }

  lemma RunStep(cfg: Config, w0: World, es: seq<Event>, e: Event)
    requires CanRun(Rules(cfg), w0, es) && Enabled(Exec(Rules(cfg), w0, es), e)
    ensures CanRun(Rules(cfg), w0, es + [e]) && Exec(Rules(cfg), w0, es + [e]) == Step(cfg, Exec(Rules(cfg), w0, es), e)
  {
    RunNext(Rules(cfg), w0, es, e);
  }

  lemma EnterMoves(cfg: Config, w: World, c: CallId)
    requires c !in w.calls
    ensures Step(cfg, w, Add(c)).calls ==
              w.calls[c := if cfg.cap > 0 && w.inFlight + 1 > cfg.cap then Refusing
                           else if cfg.maxQPS > 0 then Counted else Running]
  {
  }

  lemma ClockMoves(cfg: Config, w: World, c: CallId)
    requires Enabled(w, ReadClock(c))
    ensures Step(cfg, w, ReadClock(c)) == w.(calls := w.calls[c := HasSlot(w.now)])
  {
  }

  lemma TakeMoves(cfg: Config, w: World, c: CallId)
    requires Enabled(w, Event.Take(c))
    ensures c in Step(cfg, w, Event.Take(c)).calls
    ensures Step(cfg, w, Event.Take(c)).calls[c] in {Running, Leaving(false)}
  {
  }

  lemma EndMoves(cfg: Config, w: World, c: CallId)
    requires Enabled(w, End(c))
    ensures Step(cfg, w, End(c)).calls == w.calls[c := Leaving(true)]
  {
  }

  lemma SubMoves(cfg: Config, w: World, c: CallId)
    requires Enabled(w, Sub(c))
    ensures Step(cfg, w, Sub(c)).calls == w.calls[c := Done(w.calls[c].Leaving? && w.calls[c].served)]
  {
  }
}
