/** The distributed lock (redisx.WithLock): any number of callers under one name, each with its body, its keeper and
    its release, against Redis with expiry, failures and people who delete the key. */
module Locks {
  import opened Options
  import opened Fates
  import opened Runs
  import opened TokenKeys
  import opened Numbers

  /** Less than a second reads as ten. */
  function Ttl(asked: int): (ttl: nat)
    ensures ttl >= 1_000
  {
    if asked < 1_000 then 10_000 else asked
  }

  datatype Result = Nil | Failed | ErrLocked | ErrLockLost | CtxErr

  /** fn still runs, came back, or panicked; after a panic nobody tells the keeper to stop. */
  datatype Body = InFn | Returned(ok: bool) | Panicked

  /** Holding: the keeper is at work. since: when the key was set, kept: the last of the keeper's ticks that reached
      Redis, ticks: how many there were, saw: the keeper found the lock lost. */
  datatype Phase =
    | Trying
    | Holding(body: Body, since: int, ticks: nat, kept: nat, saw: bool)
    | Releasing(fnOk: bool)
    | Done(result: Result)

  /** lapsed: whose key expired or was removed before their body was over. */
  datatype World = World(now: int, key: Key, callers: map<Token, Phase>, lapsed: set<Token>)

  datatype Event =
    | Begin(c: Token)
    | Try(c: Token, fate: Fate, again: bool)  // SetNX; again: a busy lock is waited for
    | GiveUp(c: Token)                        // the caller's context ends while it waits
    | Tick(c: Token, fate: Fate)              // the keeper extends
    | FnEnds(c: Token, ok: bool)
    | Panic(c: Token)                         // fn panics: the panic goes through WithLock
    | KeeperEnds(c: Token)
    | Release(c: Token, fate: Fate)
    | Pass(d: nat)
    | Remove                                  // Redis lost the key, somebody deleted it

  predicate Enabled(w: World, e: Event) {
    match e
    case Begin(c) => c !in w.callers
    case Try(c, _, _) => c in w.callers && w.callers[c].Trying?
    case GiveUp(c) => c in w.callers && w.callers[c].Trying?
    case Tick(c, _) => c in w.callers && w.callers[c].Holding? && !w.callers[c].saw
    case FnEnds(c, _) => c in w.callers && w.callers[c].Holding? && w.callers[c].body.InFn?
    case Panic(c) => c in w.callers && w.callers[c].Holding? && w.callers[c].body.InFn?
    case KeeperEnds(c) => c in w.callers && w.callers[c].Holding? && w.callers[c].body.Returned?
    case Release(c, _) => c in w.callers && w.callers[c].Releasing?
    case Pass(_) => true
    case Remove => true
  }

  /** Lost when the keeper's extension is refused; a failed extension is tried again at the next tick. */
  function AfterTick(p: Phase, ok: bool, fate: Fate): Phase
    requires p.Holding?
  {
    if fate.Acked? && !ok then p.(ticks := p.ticks + 1, saw := true)
    else if !fate.Lost? && ok then p.(ticks := p.ticks + 1, kept := p.ticks + 1)
    else p.(ticks := p.ticks + 1)
  }

  function AfterTry(ok: bool, fate: Fate, again: bool, now: int): Phase {
    if !fate.Acked? then Done(Failed)
    else if ok then Holding(InFn, now, 0, 0, false)
    else if again then Trying
    else Done(ErrLocked)
  }

  function Put(w: World, c: Token, p: Phase): map<Token, Phase> { w.callers[c := p] }

  /** The key's present owner loses it when its time is up or somebody removes it. */
  function LapsedAfter(w: World, key: Key, now: int): set<Token> {
    w.lapsed + if Holder(w.key, w.now).Some? && Holder(key, now).None? then {w.key.value.token} else {}
  }

  function Step(w: World, ttl: nat, e: Event): World
    requires Enabled(w, e)
  {
    match e
    case Begin(c) => w.(callers := Put(w, c, Trying))
    case Try(c, fate, again) =>
      var op := SetNX(c, ttl);
      var to := AfterTry(Succeeds(w.key, w.now, op), fate, again, w.now);
      World(w.now, AfterFate(w.key, w.now, op, fate), Put(w, c, to), w.lapsed)
    case GiveUp(c) => w.(callers := Put(w, c, Done(CtxErr)))
    case Tick(c, fate) =>
      var op := Extend(c, ttl);
      var to := AfterTick(w.callers[c], Succeeds(w.key, w.now, op), fate);
      World(w.now, AfterFate(w.key, w.now, op, fate), Put(w, c, to), w.lapsed)
    case FnEnds(c, ok) => w.(callers := Put(w, c, w.callers[c].(body := Returned(ok))))
    case Panic(c) => w.(callers := Put(w, c, w.callers[c].(body := Panicked)))
    case KeeperEnds(c) =>
      var p := w.callers[c];
      w.(callers := Put(w, c, if p.saw then Done(ErrLockLost) else Releasing(p.body.ok)))
    case Release(c, fate) =>
      var to := Done(if w.callers[c].fnOk then Nil else Failed);
      World(w.now, AfterFate(w.key, w.now, Op.Release(c), fate), Put(w, c, to), w.lapsed)
    case Pass(d) => World(w.now + d, w.key, w.callers, LapsedAfter(w, w.key, w.now + d))
    case Remove => World(w.now, None, w.callers, LapsedAfter(w, None, w.now))
  }

  function Rules(ttl: nat): Protocol<World, Event> {
    Protocol((w: World, e: Event) => Enabled(w, e),
             (w: World, e: Event) => if Enabled(w, e) then Step(w, ttl, e) else w)
  }

  const INIT: World := World(0, None, map[], {})

  ghost predicate IsRun(ttl: nat, ws: seq<World>, es: seq<Event>) {
    && ttl >= 1_000 && |ws| == |es| + 1
    && ws[0] == INIT
    && forall i :: 0 <= i < |es| ==> Enabled(ws[i], es[i]) && ws[i + 1] == Step(ws[i], ttl, es[i])
  }

  // ------------------------------------------------------------------
  // Two bodies at once
  // ------------------------------------------------------------------

  predicate Inside(callers: map<Token, Phase>, c: Token) {
    c in callers && (callers[c].Holding? || callers[c].Releasing?)
  }

  /** Whoever is inside holds the key, unless the key lapsed under it. */
  ghost predicate Held(w: World) {
    forall c :: Inside(w.callers, c) && c !in w.lapsed ==> Holder(w.key, w.now) == Some(c)
  }

  lemma HeldStep(w: World, ttl: nat, e: Event)
    requires ttl >= 1_000 && Enabled(w, e) && Held(w)
    ensures Held(Step(w, ttl, e))
  {
    hide Succeeds, AfterFate;
    var w' := Step(w, ttl, e);
    forall c | Inside(w'.callers, c) && c !in w'.lapsed ensures Holder(w'.key, w'.now) == Some(c) {
      match e
      case Try(d, fate, _) =>
        TakesIff(w.key, w.now, d, ttl, fate);
        if c != d { LosesByCommandIff(w.key, w.now, SetNX(d, ttl), fate, c); }
      case Tick(d, fate) => LosesByCommandIff(w.key, w.now, Extend(d, ttl), fate, c);
      case Release(d, fate) => LosesByCommandIff(w.key, w.now, Op.Release(d), fate, c);
      case _ =>
    }
  }

  lemma {:induction false} HeldAlong(ttl: nat, ws: seq<World>, es: seq<Event>, i: nat)
    requires IsRun(ttl, ws, es) && i < |ws|
    ensures Held(ws[i])
  {
    if i > 0 {
      HeldAlong(ttl, ws, es, i - 1);
      HeldStep(ws[i - 1], ttl, es[i - 1]);
    }
  }

  /** Two bodies under one name overlap only if the key of one of them expired or was removed; whoever still has the
      key is the only one that can be without that excuse. */
  lemma OverlapMeansLapse(ttl: nat, ws: seq<World>, es: seq<Event>, i: nat, c: Token, d: Token)
    requires IsRun(ttl, ws, es) && i < |ws| && c != d && Inside(ws[i].callers, c) && Inside(ws[i].callers, d)
    ensures c in ws[i].lapsed || d in ws[i].lapsed
    ensures Holder(ws[i].key, ws[i].now) != Some(c) ==> c in ws[i].lapsed
  {
    HeldAlong(ttl, ws, es, i);
  }

  /** A holder loses the key exactly when its time is up, when somebody removes it, or by its own release: by no command
      of anybody else. */
  lemma LosesKeyIff(w: World, ttl: nat, e: Event, t: Token)
    requires ttl >= 1_000 && Enabled(w, e) && Holder(w.key, w.now) == Some(t)
    ensures var w' := Step(w, ttl, e);
            Holder(w'.key, w'.now) != Some(t) <==>
              || e.Remove?
              || (e.Pass? && w.key.value.expiry <= w.now + e.d)
              || (e.Release? && e.c == t && !e.fate.Lost?)
  {
    hide Succeeds, AfterFate;
    match e
    case Try(d, fate, _) => LosesByCommandIff(w.key, w.now, SetNX(d, ttl), fate, t);
    case Tick(d, fate) => LosesByCommandIff(w.key, w.now, Extend(d, ttl), fate, t);
    case Release(d, fate) => LosesByCommandIff(w.key, w.now, Op.Release(d), fate, t);
    case _ =>
  }

  /** While somebody is inside with the key, everybody else's try is refused. */
  lemma SecondCallerIsRefused(ttl: nat, ws: seq<World>, es: seq<Event>, i: nat, c: Token)
    requires IsRun(ttl, ws, es) && i < |es| && es[i].Try? && es[i].fate.Acked?
    requires Inside(ws[i].callers, c) && c !in ws[i].lapsed
    ensures !Inside(ws[i + 1].callers, es[i].c)
    ensures ws[i + 1].callers[es[i].c] == if es[i].again then Trying else Done(ErrLocked)
  {
    HeldAlong(ttl, ws, es, i);
  }

  // ------------------------------------------------------------------
  // The result
  // ------------------------------------------------------------------

  lemma SawStep(w: World, ttl: nat, e: Event, c: Token)
    requires Enabled(w, e) && c in w.callers
    ensures c in Step(w, ttl, e).callers
    ensures w.callers[c].Holding? && w.callers[c].saw ==>
              var p := Step(w, ttl, e).callers[c]; (p.Holding? && p.saw) || p == Done(ErrLockLost)
    ensures w.callers[c].Done? ==> Step(w, ttl, e).callers[c] == w.callers[c]
  {
  }

  /** Once the keeper saw the loss, WithLock ends with ErrLockLost and nothing else, whatever fn returned. */
  lemma {:induction false} LossIsReported(ttl: nat, ws: seq<World>, es: seq<Event>, i: nat, j: nat, c: Token)
    requires IsRun(ttl, ws, es) && i <= j < |ws|
    requires c in ws[i].callers && ws[i].callers[c].Holding? && ws[i].callers[c].saw
    ensures c in ws[j].callers
    ensures (ws[j].callers[c].Holding? && ws[j].callers[c].saw) || ws[j].callers[c] == Done(ErrLockLost)
  {
    if i < j {
      LossIsReported(ttl, ws, es, i, j - 1, c);
      hide Step;
      SawStep(ws[j - 1], ttl, es[j - 1], c);
    }
  }

  // ------------------------------------------------------------------
  // A keeper that ticks in time
  // ------------------------------------------------------------------

  /** The ticker never fires early: tick k comes at k thirds of the ttl after the key was set, or later. */
  ghost predicate NotEarly(w: World, ttl: nat, e: Event)
    requires Enabled(w, e)
  {
    e.Tick? ==> w.now >= w.callers[e.c].since + (w.callers[e.c].ticks + 1) * (ttl / 3)
  }

  /** No tick is a third of the ttl late. */
  ghost predicate OnTime(ttl: nat, now: int, p: Phase) { p.Holding? ==> now < p.since + (p.ticks + 2) * (ttl / 3) }

  /** Of two ticks in a row one reached Redis. */
  ghost predicate NoTwoFailures(p: Phase) { p.Holding? ==> p.ticks <= p.kept + 1 }

  ghost predicate Punctual(ttl: nat, w: World) {
    forall c :: c in w.callers && !w.callers[c].Done? ==>
      OnTime(ttl, w.now, w.callers[c]) && NoTwoFailures(w.callers[c])
  }

  ghost predicate PunctualRun(ttl: nat, ws: seq<World>, es: seq<Event>) {
    && IsRun(ttl, ws, es)
    && (forall i :: 0 <= i < |ws| ==> Punctual(ttl, ws[i]))
    && (forall i :: 0 <= i < |es| ==> NotEarly(ws[i], ttl, es[i]) && es[i] != Remove)
  }

  /** The key lives on for a ttl from the last tick that reached Redis. */
  ghost predicate Living(ttl: nat, w: World) {
    forall c :: c in w.callers && w.callers[c].Holding? ==>
      && w.key.Some? && w.key.value.token == c
      && w.key.value.expiry >= w.callers[c].since + w.callers[c].kept * (ttl / 3) + ttl
      && !w.callers[c].saw
  }

  lemma Thirds(ttl: nat, third: nat, kept: nat, ticks: nat)
    requires ticks <= kept + 1 && 3 * third <= ttl
    ensures (ticks + 2) * third <= kept * third + ttl
  {
    MulMono(ticks + 2, kept + 3, third);
  }

  lemma LivingIsLive(ttl: nat, w: World, c: Token)
    requires Living(ttl, w) && Punctual(ttl, w) && c in w.callers && w.callers[c].Holding?
    ensures Holder(w.key, w.now) == Some(c)
  {
    assert OnTime(ttl, w.now, w.callers[c]) && NoTwoFailures(w.callers[c]);
    Thirds(ttl, ttl / 3, w.callers[c].kept, w.callers[c].ticks);
  }

  ghost predicate ExpiryFits(ttl: nat, w: World) { w.key.Some? ==> w.key.value.expiry <= w.now + ttl }

  lemma ExpiryStep(w: World, ttl: nat, e: Event)
    requires Enabled(w, e) && ExpiryFits(ttl, w)
    ensures ExpiryFits(ttl, Step(w, ttl, e))
  {
    hide Succeeds, AfterFate;
    match e
    case Try(d, fate, _) => EntryAfter(w.key, w.now, SetNX(d, ttl), fate);
    case Tick(d, fate) => EntryAfter(w.key, w.now, Extend(d, ttl), fate);
    case Release(d, fate) => EntryAfter(w.key, w.now, Op.Release(d), fate);
    case _ =>
  }

  lemma {:induction false} ExpiryAlong(ttl: nat, ws: seq<World>, es: seq<Event>, i: nat)
    requires IsRun(ttl, ws, es) && i < |ws|
    ensures ExpiryFits(ttl, ws[i])
  {
    if i > 0 {
      ExpiryAlong(ttl, ws, es, i - 1);
      hide Step;
      ExpiryStep(ws[i - 1], ttl, es[i - 1]);
    }
  }

  lemma LivingStep(w: World, ttl: nat, e: Event)
    requires ttl >= 1_000 && Enabled(w, e) && Living(ttl, w) && Punctual(ttl, w) && NotEarly(w, ttl, e) && e != Remove
    requires ExpiryFits(ttl, w)
    ensures Living(ttl, Step(w, ttl, e))
  {
    hide Succeeds, AfterFate;
    var w' := Step(w, ttl, e);
    forall c | c in w'.callers && w'.callers[c].Holding?
      ensures w'.key.Some? && w'.key.value.token == c
      ensures w'.key.value.expiry >= w'.callers[c].since + w'.callers[c].kept * (ttl / 3) + ttl && !w'.callers[c].saw
    {
      if c in w.callers && w.callers[c].Holding? {
        LivingIsLive(ttl, w, c);
        LivingOp(w, ttl, e, c);
      } else {
        TakesIff(w.key, w.now, c, ttl, Acked);
      }
    }
  }

  /** A holder's key through any command: its own tick renews it, nobody else's touches it. */
  lemma LivingOp(w: World, ttl: nat, e: Event, c: Token)
    requires ttl >= 1_000 && Enabled(w, e) && Living(ttl, w) && NotEarly(w, ttl, e) && e != Remove
    requires ExpiryFits(ttl, w) && Holder(w.key, w.now) == Some(c) && c in w.callers && w.callers[c].Holding?
    ensures var w' := Step(w, ttl, e);
            c in w'.callers && w'.callers[c].Holding? ==>
              && w'.key.Some? && w'.key.value.token == c && !w'.callers[c].saw
              && w'.key.value.expiry >= w'.callers[c].since + w'.callers[c].kept * (ttl / 3) + ttl
  {
    hide Succeeds, AfterFate;
    match e
    case Try(d, fate, _) => OthersAreUntouched(w.key, w.now, SetNX(d, ttl), fate, c);
    case Release(d, fate) => OthersAreUntouched(w.key, w.now, Op.Release(d), fate, c);
    case Tick(d, fate) =>
      ScriptSucceedsIff(w.key, w.now, Extend(d, ttl));
      if d == c {
        OwnIsKept(w.key, w.now, Extend(d, ttl), fate);
      } else {
        OthersAreUntouched(w.key, w.now, Extend(d, ttl), fate, c);
      }
    case _ =>
  }

  lemma {:induction false} LivingAlong(ttl: nat, ws: seq<World>, es: seq<Event>, i: nat)
    requires PunctualRun(ttl, ws, es) && i < |ws|
    ensures Living(ttl, ws[i])
  {
    if i > 0 {
      LivingAlong(ttl, ws, es, i - 1);
      ExpiryAlong(ttl, ws, es, i - 1);
      hide Living, Step, NotEarly, ExpiryFits;
      LivingStep(ws[i - 1], ttl, es[i - 1]);
    }
  }

  /** With ticks in time and no two failures in a row, nobody's key expires while its body runs, no keeper ever sees a
      loss, and there is one body at a time. */
  lemma KeyNeverExpires(ttl: nat, ws: seq<World>, es: seq<Event>, i: nat, c: Token)
    requires PunctualRun(ttl, ws, es) && i < |ws| && c in ws[i].callers && ws[i].callers[c].Holding?
    ensures Holder(ws[i].key, ws[i].now) == Some(c) && !ws[i].callers[c].saw
    ensures forall d :: d in ws[i].callers && ws[i].callers[d].Holding? ==> d == c
  {
    LivingAlong(ttl, ws, es, i);
    LivingIsLive(ttl, ws[i], c);
  }

  /** Without the keeper's ticks the key expires under a body that runs on, and a second body begins beside it. */
  lemma LateKeeper(ttl: nat) returns (ws: seq<World>, es: seq<Event>)
    requires ttl >= 1_000
    ensures IsRun(ttl, ws, es)
    ensures var w := ws[|es|]; Inside(w.callers, 0) && Inside(w.callers, 1) && w.lapsed == {0}
  {
    es := [Begin(0), Try(0, Acked, false), Pass(ttl), Begin(1), Try(1, Acked, false)];
    var w1 := Step(INIT, ttl, es[0]);
    var w2 := Step(w1, ttl, es[1]);
    var w3 := Step(w2, ttl, es[2]);
    var w4 := Step(w3, ttl, es[3]);
    ws := [INIT, w1, w2, w3, w4, Step(w4, ttl, es[4])];
  }

  // ------------------------------------------------------------------
  // How long the key outlives the body
  // ------------------------------------------------------------------

  /** fn panicked, and the keeper goes on: WithLock has closed neither channel. */
  predicate Orphaned(w: World, c: Token) { c in w.callers && w.callers[c].Holding? && w.callers[c].body.Panicked? }

  /** fn and keeper are over, or fn panicked. */
  predicate Over(w: World, c: Token) {
    c in w.callers && (w.callers[c].Releasing? || w.callers[c].Done? || Orphaned(w, c))
  }

  lemma OverStep(w: World, ttl: nat, e: Event, c: Token)
    requires Enabled(w, e) && Over(w, c)
    ensures Over(Step(w, ttl, e), c) && (Orphaned(Step(w, ttl, e), c) <==> Orphaned(w, c))
    ensures !Orphaned(w, c) ==>
              var w' := Step(w, ttl, e);
              w'.key.Some? && w'.key.value.token == c ==> w.key.Some? && w.key.value.token == c && w'.key == w.key
    ensures w.now <= Step(w, ttl, e).now
  {
    hide Succeeds, AfterFate;
    match e
    case Try(d, fate, _) => EntryAfter(w.key, w.now, SetNX(d, ttl), fate);
    case Tick(d, fate) => EntryAfter(w.key, w.now, Extend(d, ttl), fate);
    case Release(d, fate) => EntryAfter(w.key, w.now, Op.Release(d), fate);
    case _ =>
  }

  /** What is left of the key of a caller that is over is what was there then. */
  lemma {:induction false} OverAlong(ttl: nat, ws: seq<World>, es: seq<Event>, i: nat, j: nat, c: Token)
    requires IsRun(ttl, ws, es) && i <= j < |ws| && Over(ws[i], c)
    ensures Over(ws[j], c) && (Orphaned(ws[j], c) <==> Orphaned(ws[i], c)) && ws[i].now <= ws[j].now
    ensures !Orphaned(ws[i], c) && ws[j].key.Some? && ws[j].key.value.token == c ==> ws[j].key == ws[i].key
  {
    if i < j {
      OverAlong(ttl, ws, es, i, j - 1, c);
      hide Step, Over, Orphaned;
      OverStep(ws[j - 1], ttl, es[j - 1], c);
    }
  }

  /** In any run, once fn came back and the keeper stopped, the key is the caller's for a ttl at the most, however its
      release goes. */
  lemma KeyFollowsBody(ttl: nat, ws: seq<World>, es: seq<Event>, i: nat, j: nat, c: Token)
    requires IsRun(ttl, ws, es) && i <= j < |ws| && Over(ws[i], c) && !Orphaned(ws[i], c)
    requires ws[j].now >= ws[i].now + ttl
    ensures Holder(ws[j].key, ws[j].now) != Some(c)
  {
    OverAlong(ttl, ws, es, i, j, c);
    ExpiryAlong(ttl, ws, es, i);
  }

  /** With ticks in time, a ttl or more after the end of the body the key is still held if and only if fn panicked. */
  lemma KeyOutlivesBodyIff(ttl: nat, ws: seq<World>, es: seq<Event>, i: nat, j: nat, c: Token)
    requires PunctualRun(ttl, ws, es) && i <= j < |ws| && Over(ws[i], c) && ws[j].now >= ws[i].now + ttl
    ensures Holder(ws[j].key, ws[j].now) == Some(c) <==> Orphaned(ws[i], c)
  {
    if Orphaned(ws[i], c) {
      OverAlong(ttl, ws, es, i, j, c);
      KeyNeverExpires(ttl, ws, es, j, c);
    } else {
      KeyFollowsBody(ttl, ws, es, i, j, c);
    }
  }

  /** A punctual run after whose last event c is an orphan, with so many ticks behind it. */
  ghost predicate OrphanRun(ttl: nat, ws: seq<World>, es: seq<Event>, n: nat) {
    && |ws| == |es| + 1 && PunctualRun(ttl, ws, es)
    && |ws| >= 4 && ws[3] == OrphanWorld(ttl, 0, 0, 0) && ws[|es|] == OrphanWorld(ttl, n, n * (ttl / 3), n)
  }

  /** Caller 0, its key set at 0 and last renewed at its n-th tick. */
  function OrphanWorld(ttl: nat, n: nat, now: int, ticks: nat): World {
    World(now, Some(Entry(0, n * (ttl / 3) + ttl)), map[0 := Holding(Panicked, 0, ticks, ticks, false)], {})
  }

  lemma ExtendRun(ttl: nat, ws: seq<World>, es: seq<Event>, e: Event, w': World)
    returns (ws': seq<World>, es': seq<Event>)
    requires |ws| == |es| + 1 && PunctualRun(ttl, ws, es)
    requires Enabled(ws[|es|], e) && NotEarly(ws[|es|], ttl, e) && e != Remove
    requires Step(ws[|es|], ttl, e) == w' && Punctual(ttl, w')
    ensures |ws'| == |es'| + 1 && PunctualRun(ttl, ws', es') && ws'[|es'|] == w' && ws' == ws + [w']
  {
    hide Step, Enabled, NotEarly, Punctual;
    ws', es' := ws + [w'], es + [e];
  }

  lemma {:induction false} OrphanRuns(ttl: nat, n: nat) returns (ws: seq<World>, es: seq<Event>)
    requires ttl >= 1_000
    ensures OrphanRun(ttl, ws, es, n)
  {
    if n == 0 {
      ws, es := [INIT], [];
      var w1 := INIT.(callers := map[0 := Trying]);
      var w2 := World(0, Some(Entry(0, ttl)), map[0 := Holding(InFn, 0, 0, 0, false)], {});
      ws, es := ExtendRun(ttl, ws, es, Begin(0), w1);
      ws, es := ExtendRun(ttl, ws, es, Try(0, Acked, false), w2);
      ws, es := ExtendRun(ttl, ws, es, Panic(0), OrphanWorld(ttl, 0, 0, 0));
    } else {
      ws, es := OrphanRuns(ttl, n - 1);
      ws, es := OneMoreTick(ttl, ws, es, n - 1);
    }
  }

  lemma OneMoreTick(ttl: nat, ws: seq<World>, es: seq<Event>, n: nat) returns (ws': seq<World>, es': seq<Event>)
    requires ttl >= 1_000 && OrphanRun(ttl, ws, es, n)
    ensures OrphanRun(ttl, ws', es', n + 1)
  {
    hide PunctualRun, Step, Punctual, NotEarly, Enabled, OrphanWorld;
    var third := ttl / 3;
    var w1, w2 := OrphanWorld(ttl, n, (n + 1) * third, n), OrphanWorld(ttl, n + 1, (n + 1) * third, n + 1);
    PassOrphan(ttl, n);
    TickOrphan(ttl, n);
    ws', es' := ExtendRun(ttl, ws, es, Pass(third), w1);
    ws', es' := ExtendRun(ttl, ws', es', Tick(0, Acked), w2);
  }

  lemma PassOrphan(ttl: nat, n: nat)
    requires ttl >= 1_000
    ensures var third := ttl / 3;
            var w, w1, e := OrphanWorld(ttl, n, n * third, n), OrphanWorld(ttl, n, (n + 1) * third, n), Pass(third);
            Enabled(w, e) && NotEarly(w, ttl, e) && Step(w, ttl, e) == w1 && Punctual(ttl, w1)
  {
    Multiples(n, ttl / 3);
  }

  lemma TickOrphan(ttl: nat, n: nat)
    requires ttl >= 1_000
    ensures var at := (n + 1) * (ttl / 3);
            var w1, w2, e := OrphanWorld(ttl, n, at, n), OrphanWorld(ttl, n + 1, at, n + 1), Tick(0, Acked);
            Enabled(w1, e) && NotEarly(w1, ttl, e) && Step(w1, ttl, e) == w2 && Punctual(ttl, w2)
  {
    var third := ttl / 3;
    Multiples(n, third);
    var w1, w2 := OrphanWorld(ttl, n, (n + 1) * third, n), OrphanWorld(ttl, n + 1, (n + 1) * third, n + 1);
    assert w1.callers[0 := w2.callers[0]] == w2.callers;
  }

  lemma Multiples(n: nat, d: nat)
    ensures (n + 1) * d == n * d + d && (n + 2) * d == n * d + 2 * d && (n + 3) * d == n * d + 3 * d
  {
  }

  /** So for any length of time there is a run in which a body that panicked at the start still has the lock. */
  lemma OrphanedForGood(ttl: nat, t: nat) returns (ws: seq<World>, es: seq<Event>)
    requires ttl >= 1_000
    ensures PunctualRun(ttl, ws, es) && |ws| == |es| + 1 >= 4
    ensures ws[3].now == 0 && Orphaned(ws[3], 0) && ws[|es|].now >= t && Holder(ws[|es|].key, ws[|es|].now) == Some(0)
  {
    ws, es := OrphanRuns(ttl, t);
    MulMono(1, ttl / 3, t);
    assert t * (ttl / 3) == (ttl / 3) * t;
  }

  // ------------------------------------------------------------------
  // One caller between the others
  // ------------------------------------------------------------------

  /** What the others and the caller's own keeper do in a pause. */
  ghost predicate Foreign(c: Token, w: World, ttl: nat, es: seq<Event>) { ByOthers(Rules(ttl), e => Mine(c, e), w, es) }

  predicate Mine(c: Token, e: Event) { !e.Pass? && !e.Remove? && !e.Tick? && e.c == c }

  /** The keeper may tick and see the loss; nothing else of the caller changes. */
  predicate SameButTicks(p: Phase, q: Phase) {
    if p.Holding? then q.Holding? && q.body == p.body && (p.saw ==> q.saw) else q == p
  }

  lemma ForeignStep(c: Token, w: World, ttl: nat, e: Event)
    requires Enabled(w, e) && !Mine(c, e)
    ensures c in w.callers <==> c in Step(w, ttl, e).callers
    ensures c in w.callers ==> SameButTicks(w.callers[c], Step(w, ttl, e).callers[c])
  {
  }

  lemma {:induction false} ForeignKeeps(c: Token, w: World, ttl: nat, es: seq<Event>)
    requires Foreign(c, w, ttl, es)
    ensures CanRun(Rules(ttl), w, es)
    ensures c in w.callers <==> c in Exec(Rules(ttl), w, es).callers
    ensures c in w.callers ==> SameButTicks(w.callers[c], Exec(Rules(ttl), w, es).callers[c])
    decreases |es|
  {
    if es != [] {
      assert es[0] in es;
      ForeignStep(c, w, ttl, es[0]);
      hide Step, Enabled;
      ForeignKeeps(c, Step(w, ttl, es[0]), ttl, es[1..]);
    }
  }
}
