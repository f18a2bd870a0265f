/** The idempotency middleware (kitexx.Idempotency): one key, any number of concurrent calls.

    A call is cut at its commands on the store: SetNX, Get, Del and Set are atomic, and between
    them anything may happen. A command may fail without effect or after taking effect, a call
    may die anywhere. A command takes effect at most once. */
module Idempotency {
  import opened Options
  import opened Fates
  import opened Runs

  type CallId = nat
  type Data = string

  /** What the key holds. */
  datatype Slot = Absent | Pending | Kept(data: Data)

  /** 1002, 5002, the kept result, or what the call's own handler came back with. */
  datatype Answer = InProgress | Unavailable | Replay(data: Data) | OwnResult(data: Data) | OwnError | Died

  datatype Phase =
    | NotClaimed              // SetNX found the key: about to Get
    | Running                 // claimed: in the handler
    | Failed                  // the handler returned an error or a business error: about to Del
    | Succeeded(data: Data)   // about to keep the result
    | Answered(answer: Answer)

  datatype World = World(key: Slot, calls: map<CallId, Phase>, won: Option<Data>, starts: nat)

  const INIT: World := World(Absent, map[], None, 0)

  datatype Event =
    | SetNX(c: CallId, fate: Fate)
    | Get(c: CallId, fate: Fate, fits: bool)      // fits: the kept bytes decode into the response
    | Return(c: CallId, result: Option<Data>)     // None: an error, returned or kept in the RPCInfo
    | Del(c: CallId, fate: Fate)
    | Keep(c: CallId, encodes: bool, fate: Fate)  // encodes: the response marshals
    | Die(c: CallId)
    | Expire                                      // the lifetime of the key is over

  predicate Enabled(w: World, e: Event) {
    match e
    case SetNX(c, _) => c !in w.calls
    case Get(c, _, _) => c in w.calls && w.calls[c].NotClaimed?
    case Return(c, _) => c in w.calls && w.calls[c].Running?
    case Del(c, _) => c in w.calls && w.calls[c].Failed?
    case Keep(c, _, _) => c in w.calls && w.calls[c].Succeeded?
    case Die(c) => c in w.calls && !w.calls[c].Answered?
    case Expire => true
  }

  function Moved(w: World, c: CallId, p: Phase): World { w.(calls := w.calls[c := p]) }

  function ReadAnswer(key: Slot, fate: Fate, fits: bool): Answer {
    if !fate.Acked? then Unavailable
    else match key
      case Absent => InProgress
      case Pending => InProgress
      case Kept(d) => if fits then Replay(d) else Unavailable
  }

  function Step(w: World, e: Event): World
    requires Enabled(w, e)
  {
    match e
    case SetNX(c, fate) =>
      var key := if !fate.Lost? && w.key.Absent? then Pending else w.key;
      if !fate.Acked? then Moved(w, c, Answered(Unavailable)).(key := key)
      else if w.key.Absent? then Moved(w, c, Running).(key := key, starts := w.starts + 1)
      else Moved(w, c, NotClaimed)
    case Get(c, fate, fits) => Moved(w, c, Answered(ReadAnswer(w.key, fate, fits)))
    case Return(c, result) =>
      if result.Some? then Moved(w, c, Succeeded(result.value)).(won := result) else Moved(w, c, Failed)
    case Del(c, fate) => Moved(w, c, Answered(OwnError)).(key := if fate.Lost? then w.key else Absent)
    case Keep(c, encodes, fate) =>
      var d := w.calls[c].data;
      Moved(w, c, Answered(OwnResult(d))).(key := if encodes && !fate.Lost? then Kept(d) else w.key)
    case Die(c) => Moved(w, c, Answered(Died))
    case Expire => w.(key := Absent)
  }

  function Rules(): Protocol<World, Event> {
    Protocol((w: World, e: Event) => Enabled(w, e), (w: World, e: Event) => if Enabled(w, e) then Step(w, e) else w)
  }

  ghost predicate IsRun(ws: seq<World>, es: seq<Event>) {
    && |ws| == |es| + 1
    && ws[0] == INIT
    && forall i :: 0 <= i < |es| ==> Enabled(ws[i], es[i]) && ws[i + 1] == Step(ws[i], es[i])
  }

  /** The run stays within one life of the key. */
  ghost predicate OneLife(es: seq<Event>) { forall i :: 0 <= i < |es| ==> !es[i].Expire? }

  // ------------------------------------------------------------------
  // The invariant
  // ------------------------------------------------------------------

  /** The call claimed the key and has not yet written what became of it. */
  predicate Owner(w: World, c: CallId) {
    c in w.calls && (w.calls[c].Running? || w.calls[c].Failed? || w.calls[c].Succeeded?)
  }

  ghost predicate Inv(w: World) {
    && (forall c, d :: Owner(w, c) && Owner(w, d) ==> c == d)
    && (forall c :: Owner(w, c) ==> w.key.Pending?)
    && (w.won.None? ==> !w.key.Kept? && forall c :: c in w.calls ==> !w.calls[c].Succeeded?)
    && (w.won.Some? ==>
          && (w.key.Pending? || w.key == Kept(w.won.value))
          && (forall c :: Owner(w, c) ==> w.calls[c] == Succeeded(w.won.value)))
    && (forall c :: c in w.calls && w.calls[c].Answered? ==> AnswerFits(w, w.calls[c].answer))
  }

  /** An answer taken from the store or from a success is the result of the run that succeeded. */
  predicate AnswerFits(w: World, a: Answer) {
    (a.Replay? || a.OwnResult?) ==> w.won == Some(a.data)
  }

  lemma StepKeepsInv(w: World, e: Event)
    requires Inv(w) && Enabled(w, e) && !e.Expire?
    ensures Inv(Step(w, e))
  {
    var w' := Step(w, e);
    if e.SetNX? {
      assert forall c :: Owner(w', c) ==> Owner(w, c) || (c == e.c && w.key.Absent?);
    } else {
      assert forall c :: Owner(w', c) ==> Owner(w, c);
      assert !e.Die? && !e.Get? ==> Owner(w, e.c);
      assert forall c :: Owner(w', c) && c != e.c ==> !Owner(w, e.c);
    }
  }

  /** The key's life may end safely exactly while nobody is between claim and outcome and nothing succeeded. */
  lemma ExpiryIsSafeIff(w: World)
    requires Inv(w)
    ensures Inv(Step(w, Expire)) <==> w.won.None? && forall c :: !Owner(w, c)
  {
    var w' := Step(w, Expire);
    assert forall c :: Owner(w, c) <==> Owner(w', c);
  }

  lemma {:induction false} InvAlong(ws: seq<World>, es: seq<Event>, i: nat)
    requires IsRun(ws, es) && OneLife(es) && i < |ws|
    ensures Inv(ws[i])
  {
    if i > 0 {
      InvAlong(ws, es, i - 1);
      StepKeepsInv(ws[i - 1], es[i - 1]);
    }
  }

  // ------------------------------------------------------------------
  // What a caller is promised within one life of the key
  // ------------------------------------------------------------------

  /** The handler never runs twice at once. */
  lemma OneAtATime(ws: seq<World>, es: seq<Event>, i: nat, c: CallId, d: CallId)
    requires IsRun(ws, es) && OneLife(es) && i < |ws|
    requires c in ws[i].calls && ws[i].calls[c].Running? && d in ws[i].calls && ws[i].calls[d].Running?
    ensures c == d
  {
    InvAlong(ws, es, i);
    assert Owner(ws[i], c) && Owner(ws[i], d);
  }

  lemma WonStep(w: World, e: Event)
    requires Inv(w) && Enabled(w, e) && !e.Expire? && w.won.Some?
    ensures Step(w, e).won == w.won && Step(w, e).starts == w.starts
  {
    if e.Return? {
      assert Owner(w, e.c);
    }
  }

  /** After a run that succeeded the handler never starts again, and its result is the only one. */
  lemma {:induction false} NeverAgain(ws: seq<World>, es: seq<Event>, i: nat, j: nat)
    requires IsRun(ws, es) && OneLife(es) && i <= j < |ws| && ws[i].won.Some?
    ensures ws[j].won == ws[i].won && ws[j].starts == ws[i].starts
  {
    if i < j {
      NeverAgain(ws, es, i, j - 1);
      InvAlong(ws, es, j - 1);
      WonStep(ws[j - 1], es[j - 1]);
    }
  }

  /** Every answer given after a success is that run's kept result, 1002 or 5002; the run itself answers with its
      result. */
  lemma AnswersAfterSuccess(ws: seq<World>, es: seq<Event>, i: nat, j: nat, c: CallId)
    requires IsRun(ws, es) && OneLife(es) && i < j < |ws| && ws[i].won.Some?
    requires c in ws[j].calls && ws[j].calls[c].Answered? && !(c in ws[i].calls && ws[i].calls[c].Answered?)
    ensures var a := ws[j].calls[c].answer;
            || a.InProgress? || a.Unavailable? || a.Died?
            || a == Replay(ws[i].won.value) || a == OwnResult(ws[i].won.value)
    ensures ws[j].calls[c].answer.OwnResult? ==> c in ws[i].calls && ws[i].calls[c].Succeeded?
  {
    NeverAgain(ws, es, i, j);
    InvAlong(ws, es, j);
    OpenSinceSuccess(ws, es, i, j, c);
  }

  /** It kept its result, or answered with it. */
  predicate OwnSuccess(p: Phase) { p.Succeeded? || (p.Answered? && p.answer.OwnResult?) }

  /** A call that is open after the success, or begins later, is never one that fails in its own handler. */
  lemma {:induction false} OpenSinceSuccess(ws: seq<World>, es: seq<Event>, i: nat, j: nat, c: CallId)
    requires IsRun(ws, es) && OneLife(es) && i <= j < |ws| && ws[i].won.Some?
    requires !(c in ws[i].calls && ws[i].calls[c].Answered?)
    ensures c in ws[j].calls ==>
              !ws[j].calls[c].Failed? && !ws[j].calls[c].Running? && ws[j].calls[c] != Answered(OwnError)
    ensures c in ws[j].calls && OwnSuccess(ws[j].calls[c]) ==> c in ws[i].calls && ws[i].calls[c].Succeeded?
  {
    InvAlong(ws, es, j);
    NeverAgain(ws, es, i, j);
    assert c in ws[j].calls && (ws[j].calls[c].Failed? || ws[j].calls[c].Running?) ==> Owner(ws[j], c);
    if i < j {
      OpenSinceSuccess(ws, es, i, j - 1, c);
      InvAlong(ws, es, j - 1);
      NeverAgain(ws, es, i, j - 1);
      OpenStep(ws[j - 1], es[j - 1], c);
    }
  }

  lemma OpenStep(w: World, e: Event, c: CallId)
    requires Inv(w) && Enabled(w, e) && !e.Expire? && w.won.Some?
    ensures c in Step(w, e).calls && (c !in w.calls || Step(w, e).calls[c] != w.calls[c]) ==>
              var p, p' := if c in w.calls then w.calls[c] else NotClaimed, Step(w, e).calls[c];
              && p' != Answered(OwnError) && !p'.Succeeded?
              && (p'.Answered? && p'.answer.OwnResult? ==> p.Succeeded?)
  {
    assert Owner(w, c) ==> w.calls[c].Succeeded?;
  }

  /** The event claims the key. */
  predicate Claims(w: World, e: Event) { e.SetNX? && !e.fate.Lost? && w.key.Absent? }

  /** The event drops it, for a failure. */
  predicate Drops(e: Event) { e.Del? && !e.fate.Lost? }

  /** Of the claims before the i-th event every one was dropped since. */
  ghost predicate AllDropped(ws: seq<World>, es: seq<Event>, i: nat) {
    forall j :: 0 <= j < i <= |es| && i <= |ws| && Claims(ws[j], es[j]) ==> DroppedSince(es, j, i)
  }

  ghost predicate DroppedSince(es: seq<Event>, j: nat, i: nat) { exists k :: j < k < i <= |es| && Drops(es[k]) }

  lemma DroppedNext(ws: seq<World>, es: seq<Event>, i: nat)
    requires i < |es| && i + 1 < |ws|
    ensures AllDropped(ws, es, i + 1) <==> !Claims(ws[i], es[i]) && (Drops(es[i]) || AllDropped(ws, es, i))
  {
    forall j | 0 <= j < i ensures DroppedSince(es, j, i + 1) <==> DroppedSince(es, j, i) || Drops(es[i]) {
      if DroppedSince(es, j, i) {
        var k :| j < k < i && Drops(es[k]);
        assert j < k < i + 1;
      }
      if Drops(es[i]) {
        assert j < i < i + 1;
      }
    }
    if Claims(ws[i], es[i]) {
      assert !DroppedSince(es, i, i + 1);
    } else if AllDropped(ws, es, i + 1) && !Drops(es[i]) {
      forall j | 0 <= j < i && Claims(ws[j], es[j]) ensures DroppedSince(es, j, i) {
        assert DroppedSince(es, j, i + 1);
      }
    }
  }

  lemma {:induction false} AbsentIff(ws: seq<World>, es: seq<Event>, i: nat)
    requires IsRun(ws, es) && OneLife(es) && i <= |es|
    ensures ws[i].key.Absent? <==> AllDropped(ws, es, i)
  {
    if i > 0 {
      AbsentIff(ws, es, i - 1);
      InvAlong(ws, es, i - 1);
      hide AllDropped;
      DroppedNext(ws, es, i - 1);
      var w, e := ws[i - 1], es[i - 1];
      assert !e.Expire?;
      assert e.Keep? || e.Del? ==> Owner(w, e.c);
    }
  }

  /** Within one life of the key a call runs the handler exactly when every claim before it was dropped after a failure:
      never while one is running, never after one succeeded, crashed or could not be dropped, and again after every
      failure whose drop took effect. */
  lemma RunsIffClaimsWereDropped(ws: seq<World>, es: seq<Event>, i: nat)
    requires IsRun(ws, es) && OneLife(es) && i < |es| && es[i].SetNX? && es[i].fate.Acked?
    ensures ws[i + 1].calls[es[i].c].Running? <==> AllDropped(ws, es, i)
    ensures ws[i + 1].starts == ws[i].starts + if AllDropped(ws, es, i) then 1 else 0
  {
    AbsentIff(ws, es, i);
    hide AllDropped;
  }

  /** A pending key without an owner is stuck for the rest of its life: a result that could not be kept, a Del
      that was lost, a call that died. From then on nobody runs, and every call is answered 1002 or 5002. */
  ghost predicate Stuck(w: World) { w.key.Pending? && forall c :: !Owner(w, c) }

  lemma StuckStep(w: World, e: Event)
    requires Stuck(w) && Enabled(w, e) && !e.Expire?
    ensures Stuck(Step(w, e)) && Step(w, e).starts == w.starts
    ensures var w' := Step(w, e);
            forall c :: c in w'.calls && w'.calls[c].Answered? && !(c in w.calls && w.calls[c].Answered?) ==>
              w'.calls[c].answer in {InProgress, Unavailable, Died}
  {
    var w' := Step(w, e);
    assert !Owner(w, e.c);
    forall c ensures !Owner(w', c) {
      assert !Owner(w, c);
    }
  }

  lemma {:induction false} StuckForGood(ws: seq<World>, es: seq<Event>, i: nat, j: nat)
    requires IsRun(ws, es) && OneLife(es) && i <= j < |ws| && Stuck(ws[i])
    ensures Stuck(ws[j]) && ws[j].starts == ws[i].starts
  {
    if i < j {
      StuckForGood(ws, es, i, j - 1);
      StuckStep(ws[j - 1], es[j - 1]);
    }
  }

  /** When the result cannot be kept the key stays pending, so a retry does not run again within its life. */
  lemma UnkeptResultIsStuck(w: World, c: CallId, encodes: bool, fate: Fate)
    requires Inv(w) && Enabled(w, Keep(c, encodes, fate))
    ensures !encodes || fate.Lost? ==> Stuck(Step(w, Keep(c, encodes, fate)))
    ensures encodes && !fate.Lost? ==> Step(w, Keep(c, encodes, fate)).key == Kept(w.won.value)
  {
    assert Owner(w, c);
    var w' := Step(w, Keep(c, encodes, fate));
    forall d ensures !Owner(w', d) {
      assert Owner(w', d) ==> Owner(w, d);
    }
  }

  /** Beyond one life: the key expires under a handler that is still running, and a second run begins beside it. */
  lemma TwoAtOnceAfterExpiry() returns (ws: seq<World>, es: seq<Event>)
    ensures IsRun(ws, es) && !OneLife(es)
    ensures var w := ws[|es|];
            0 in w.calls && 1 in w.calls && w.calls[0].Running? && w.calls[1].Running?
  {
    es := [SetNX(0, Acked), Expire, SetNX(1, Acked)];
    var w1 := Step(INIT, es[0]);
    var w2 := Step(w1, es[1]);
    ws := [INIT, w1, w2, Step(w2, es[2])];
    assert es[1].Expire?;
  }

  // ------------------------------------------------------------------
  // The middleware between other calls
  // ------------------------------------------------------------------

  /** What the other calls do in a pause of call c. */
  ghost predicate Foreign(c: CallId, w: World, es: seq<Event>) { ByOthers(Rules(), e => Mine(c, e), w, es) }

  predicate Mine(c: CallId, e: Event) { !e.Expire? && e.c == c }

  lemma {:induction false} ForeignKeeps(c: CallId, w: World, es: seq<Event>)
    requires Foreign(c, w, es)
    ensures CanRun(Rules(), w, es)
    ensures c in w.calls <==> c in Exec(Rules(), w, es).calls
    ensures c in w.calls ==> Exec(Rules(), w, es).calls[c] == w.calls[c]
    decreases |es|
  {
    if es != [] {
      assert es[0] in es;
      ForeignKeeps(c, Step(w, es[0]), es[1..]);
    }
  }
}
