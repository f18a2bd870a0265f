/** Consumption with dedupe (kafkax): one event id of one topic and service, and everyone who processes it: the
    consumers Kafka delivers it to, and the dead-letter tool replaying it. The commands on Redis, the handler's
    calls, crashes and the key's expiry interleave freely. */
module Consumption {
  import opened Fates
  import opened Runs

  type ProcId = nat

  datatype Ending = Duplicate | Handled | Failed | Crashed

  /** claimed: this run set the dedupe key, so it is the one to forget it. */
  datatype Phase =
    | Handling(claimed: bool, calls: nat)
    | GivingUp(claimed: bool, calls: nat)     // about to forget the key
    | Done(ending: Ending)

  /** nils counts the handler calls that returned nil, expiries the lives of the key that ran out, and through the
      runs let past because Redis did not answer. */
  datatype World = World(key: bool, procs: map<ProcId, Phase>, nils: nat, expiries: nat, through: nat)

  const INIT: World := World(false, map[], 0, 0, 0)

  datatype Event =
    | Seen(p: ProcId, fate: Fate)
    | Call(p: ProcId, ok: bool, down: bool)   // down: the context is cancelled when the call comes back
    | Forget(p: ProcId, fate: Fate)
    | Crash(p: ProcId)
    | Expire

  /** What the source sets MaxRetries to when it is not positive. */
  function Retries(max: int): (r: nat)
    ensures r > 0
  {
    if max > 0 then max else 3
  }

  predicate Enabled(w: World, e: Event) {
    match e
    case Seen(p, _) => p !in w.procs
    case Call(p, _, _) => p in w.procs && w.procs[p].Handling?
    case Forget(p, _) => p in w.procs && w.procs[p].GivingUp?
    case Crash(p) => p in w.procs && !w.procs[p].Done?
    case Expire => true
  }

  function Step(w: World, retries: nat, e: Event): World
    requires Enabled(w, e)
  {
    match e
    case Seen(p, fate) =>
      if !fate.Acked? then
        World(w.key || fate.DoneUnacked?, w.procs[p := Handling(false, 0)], w.nils, w.expiries, w.through + 1)
      else if w.key then w.(procs := w.procs[p := Done(Duplicate)])
      else w.(key := true, procs := w.procs[p := Handling(true, 0)])
    case Call(p, ok, down) =>
      var was := w.procs[p];
      if ok then w.(procs := w.procs[p := Done(Handled)], nils := w.nils + 1)
      else if down || was.calls + 1 >= retries then w.(procs := w.procs[p := GivingUp(was.claimed, was.calls + 1)])
      else w.(procs := w.procs[p := Handling(was.claimed, was.calls + 1)])
    case Forget(p, fate) =>
      w.(key := w.key && !(w.procs[p].claimed && !fate.Lost?), procs := w.procs[p := Done(Failed)])
    case Crash(p) => w.(procs := w.procs[p := Done(Crashed)])
    case Expire => w.(key := false, expiries := w.expiries + 1)
  }

  function Rules(retries: nat): Protocol<World, Event> {
    Protocol((w: World, e: Event) => Enabled(w, e),
             (w: World, e: Event) => if Enabled(w, e) then Step(w, retries, e) else w)
  }

  ghost predicate IsRun(retries: nat, ws: seq<World>, es: seq<Event>) {
    && |ws| == |es| + 1
    && ws[0] == INIT
    && forall i :: 0 <= i < |es| ==> Enabled(ws[i], es[i]) && ws[i + 1] == Step(ws[i], retries, es[i])
  }

  function InFlight(procs: map<ProcId, Phase>): set<ProcId> { set p | p in procs && !procs[p].Done? }

  // ------------------------------------------------------------------
  // How often an event can be handled
  // ------------------------------------------------------------------

  /** Every claim needs the key gone, and the key goes only by expiry or by a claimer that did not handle the event. */
  ghost predicate Inv(w: World) {
    |InFlight(w.procs)| + w.nils + (if w.key then 0 else 1) <= 1 + w.expiries + w.through
  }

  lemma InFlightStep(w: World, retries: nat, e: Event)
    requires Enabled(w, e)
    ensures var before, after := InFlight(w.procs), InFlight(Step(w, retries, e).procs);
            match e
            case Seen(p, fate) => after == before + (if fate.Acked? && w.key then {} else {p}) && p !in before
            case Call(p, ok, _) => after == before - (if ok then {p} else {}) && p in before
            case Forget(p, _) => after == before - {p} && p in before
            case Crash(p) => after == before - {p} && p in before
            case Expire => after == before
  {
  }

  lemma StepKeeps(w: World, retries: nat, e: Event)
    requires Inv(w) && Enabled(w, e)
    ensures Inv(Step(w, retries, e))
  {
    InFlightStep(w, retries, e);
  }

  lemma {:induction false} InvAlong(retries: nat, ws: seq<World>, es: seq<Event>, i: nat)
    requires IsRun(retries, ws, es) && i < |ws|
    ensures Inv(ws[i])
  {
    if i > 0 {
      InvAlong(retries, ws, es, i - 1);
      StepKeeps(ws[i - 1], retries, es[i - 1]);
    }
  }

  ghost predicate NoExpiry(es: seq<Event>) { forall i :: 0 <= i < |es| ==> !es[i].Expire? }

  ghost predicate RedisAnswers(es: seq<Event>) { forall i :: 0 <= i < |es| ==> es[i].Seen? ==> es[i].fate.Acked? }

  lemma {:induction false} NoneLetThrough(retries: nat, ws: seq<World>, es: seq<Event>, i: nat)
    requires IsRun(retries, ws, es) && i < |ws|
    ensures NoExpiry(es) ==> ws[i].expiries == 0
    ensures RedisAnswers(es) ==> ws[i].through == 0
  {
    if i > 0 {
      NoneLetThrough(retries, ws, es, i - 1);
    }
  }

  /** The handler returns nil at most once more than the key expired or Redis let a run through, whatever else
      happens; every run in progress takes one of those chances. */
  lemma NilsAreBounded(retries: nat, ws: seq<World>, es: seq<Event>, i: nat)
    requires IsRun(retries, ws, es) && i < |ws|
    ensures ws[i].nils + |InFlight(ws[i].procs)| <= 1 + ws[i].expiries + ws[i].through
  {
    InvAlong(retries, ws, es, i);
  }

  /** With Redis answering and the handling shorter than the key's life: nil at most once, never two at a time, and
      none again after it. */
  lemma AtMostOnce(retries: nat, ws: seq<World>, es: seq<Event>, i: nat)
    requires IsRun(retries, ws, es) && i < |ws| && NoExpiry(es) && RedisAnswers(es)
    ensures ws[i].nils <= 1
    ensures forall p, q :: p in InFlight(ws[i].procs) && q in InFlight(ws[i].procs) ==> p == q && ws[i].nils == 0
  {
    NilsAreBounded(retries, ws, es, i);
    NoneLetThrough(retries, ws, es, i);
    forall p, q | p in InFlight(ws[i].procs) && q in InFlight(ws[i].procs) ensures p == q && ws[i].nils == 0 {
      PairFits(InFlight(ws[i].procs), p, q);
    }
  }

  lemma PairFits(s: set<ProcId>, p: ProcId, q: ProcId)
    requires p in s && q in s
    ensures |s| >= 1 && (p != q ==> |s| >= 2)
  {
    assert s == {p} + (s - {p});
    assert p != q ==> q in s - {p};
  }

  /** The bound is reached: one expiry under a slow handler, and the event is handled twice. */
  lemma ExpiryHandlesTwice(retries: nat) returns (ws: seq<World>, es: seq<Event>)
    ensures IsRun(retries, ws, es) && ws[|es|].nils == 2 && ws[|es|].expiries == 1 && ws[|es|].through == 0
  {
    es := [Seen(0, Acked), Expire, Seen(1, Acked), Call(0, true, false), Call(1, true, false)];
    var w1 := Step(INIT, retries, es[0]);
    var w2 := Step(w1, retries, es[1]);
    var w3 := Step(w2, retries, es[2]);
    var w4 := Step(w3, retries, es[3]);
    ws := [INIT, w1, w2, w3, w4, Step(w4, retries, es[4])];
  }

  // ------------------------------------------------------------------
  // No event is skipped that nobody handles
  // ------------------------------------------------------------------

  /** Nothing that leaves a key behind without its claimer: no crash, no command lost. */
  predicate Clean(e: Event) {
    match e
    case Seen(_, fate) => fate.Acked?
    case Forget(_, fate) => !fate.Lost?
    case Crash(_) => false
    case _ => true
  }

  predicate Claims(ph: Phase) { !ph.Done? && ph.claimed }

  /** Somebody is at it, or it was handled. */
  ghost predicate Answered(w: World) { w.nils >= 1 || exists p :: p in w.procs && Claims(w.procs[p]) }

  ghost predicate AnsweredOrLeft(w: World) {
    Answered(w) || exists p :: p in w.procs && w.procs[p] == Done(Failed)
  }

  ghost predicate Skip(w: World) {
    && (w.key ==> Answered(w))
    && (forall p :: p in w.procs && !w.procs[p].Done? ==> w.procs[p].claimed)
    && (forall p :: p in w.procs ==> w.procs[p] != Done(Crashed))
    && ((exists p :: p in w.procs && w.procs[p] == Done(Duplicate)) ==> AnsweredOrLeft(w))
  }

  lemma AnsweredStays(w: World, retries: nat, e: Event)
    requires Enabled(w, e) && Clean(e)
    ensures Answered(w) && !e.Forget? ==> Answered(Step(w, retries, e))
    ensures AnsweredOrLeft(w) ==> AnsweredOrLeft(Step(w, retries, e))
  {
    var w' := Step(w, retries, e);
    if p :| p in w.procs && Claims(w.procs[p]) {
      assert p in w'.procs && (Claims(w'.procs[p]) || w'.nils >= 1 || (e.Forget? && w'.procs[p] == Done(Failed)));
    }
    if q :| q in w.procs && w.procs[q] == Done(Failed) {
      assert w'.procs[q] == Done(Failed);
    }
  }

  lemma SkipStep(w: World, retries: nat, e: Event)
    requires Skip(w) && Enabled(w, e) && Clean(e)
    ensures Skip(Step(w, retries, e))
  {
    AnsweredStays(w, retries, e);
    var w' := Step(w, retries, e);
    if e.Seen? && !w.key {
      assert Claims(w'.procs[e.p]);
    }
    if q :| q in w'.procs && w'.procs[q] == Done(Duplicate) {
      assert (q in w.procs && w.procs[q] == Done(Duplicate)) || (e.Seen? && w.key);
    }
  }

  lemma {:induction false} SkipAlong(retries: nat, ws: seq<World>, es: seq<Event>, i: nat)
    requires IsRun(retries, ws, es) && i < |ws| && forall k :: 0 <= k < |es| ==> Clean(es[k])
    ensures Skip(ws[i])
  {
    if i > 0 {
      SkipAlong(retries, ws, es, i - 1);
      SkipStep(ws[i - 1], retries, es[i - 1]);
    }
  }

  /** In a clean run, an event somebody skipped as a duplicate was handled, is being handled by the one who claimed
      it, or is left with one whose handler failed (who parks it or has it redelivered). */
  lemma SkippedIsAnswered(retries: nat, ws: seq<World>, es: seq<Event>, i: nat, p: ProcId)
    requires IsRun(retries, ws, es) && i < |ws| && forall k :: 0 <= k < |es| ==> Clean(es[k])
    requires p in ws[i].procs && ws[i].procs[p] == Done(Duplicate)
    ensures AnsweredOrLeft(ws[i])
  {
    SkipAlong(retries, ws, es, i);
  }

  /** This run can neither handle the event nor free the key: it is over, or it gave up without a claim of its own. */
  predicate Hopeless(ph: Phase) { ph.Done? || (ph.GivingUp? && !ph.claimed) }

  /** The key is there and nobody is left who could handle the event or forget the key. */
  ghost predicate Stranded(w: World) { w.key && forall p :: p in w.procs ==> Hopeless(w.procs[p]) }

  /** The key does not expire, and Redis answers whoever asks for it. */
  predicate Quiet(e: Event) { !e.Expire? && (e.Seen? ==> e.fate.Acked?) }

  lemma StrandedStep(w: World, retries: nat, e: Event)
    requires Stranded(w) && Enabled(w, e) && Quiet(e)
    ensures Stranded(Step(w, retries, e)) && Step(w, retries, e).nils == w.nils
    ensures e.Seen? ==> Step(w, retries, e).procs[e.p] == Done(Duplicate)
  {
  }

  /** Every later delivery and replay is skipped, until the key expires. */
  lemma {:induction false} StrandedForGood(retries: nat, ws: seq<World>, es: seq<Event>, i: nat, j: nat)
    requires IsRun(retries, ws, es) && i <= j < |ws| && Stranded(ws[i])
    requires forall k :: i <= k < j ==> Quiet(es[k])
    ensures Stranded(ws[j]) && ws[j].nils == ws[i].nils
    ensures i < j && es[j - 1].Seen? ==> es[j - 1].p in ws[j].procs && ws[j].procs[es[j - 1].p] == Done(Duplicate)
  {
    if i < j {
      StrandedForGood(retries, ws, es, i, j - 1);
      StrandedStep(ws[j - 1], retries, es[j - 1]);
    }
  }

  ghost predicate AllQuiet(es: seq<Event>) { forall e :: e in es ==> Quiet(e) }

  /** In no quiet continuation does the handler return nil once more. */
  ghost predicate NeverHandled(w: World, retries: nat) {
    forall es :: AllQuiet(es) && CanRun(Rules(retries), w, es) ==> Exec(Rules(retries), w, es).nils == w.nils
  }

  lemma {:induction false} StrandedExec(w: World, retries: nat, es: seq<Event>)
    requires Stranded(w) && AllQuiet(es) && CanRun(Rules(retries), w, es)
    ensures Exec(Rules(retries), w, es).nils == w.nils
    decreases |es|
  {
    if es != [] {
      assert es[0] in es;
      StrandedStep(w, retries, es[0]);
      hide Stranded;
      assert AllQuiet(es[1..]);
      StrandedExec(Step(w, retries, es[0]), retries, es[1..]);
    }
  }

  /** A processor that has not been at the event. */
  lemma FreshProc(procs: map<ProcId, Phase>) returns (q: ProcId)
    ensures q !in procs
  {
    q := Above(procs.Keys);
  }

  lemma {:induction false} Above(s: set<ProcId>) returns (q: ProcId)
    ensures forall p :: p in s ==> p < q
  {
    if s == {} {
      q := 0;
    } else {
      var x :| x in s;
      var r := Above(s - {x});
      q := if x < r then r else x + 1;
      assert forall p :: p in s ==> p == x || p in s - {x};
    }
  }

  /** Somebody who still can, does. */
  lemma StillPossible(w: World, retries: nat) returns (es: seq<Event>)
    requires !Stranded(w)
    ensures AllQuiet(es) && CanRun(Rules(retries), w, es) && Exec(Rules(retries), w, es).nils == w.nils + 1
  {
    if p :| p in w.procs && w.procs[p].Handling? {
      es := [Call(p, true, false)];
      RunOne(Rules(retries), w, es[0]);
    } else if !w.key {
      es := ClaimAndHandle(w, retries);
    } else {
      var p :| p in w.procs && !Hopeless(w.procs[p]);
      var forget := Forget(p, Acked);
      var more := ClaimAndHandle(Step(w, retries, forget), retries);
      RunOne(Rules(retries), w, forget);
      ExecAppend(Rules(retries), w, [forget], more);
      es := [forget] + more;
    }
  }

  /** With the key free a new delivery claims the event and handles it. */
  lemma ClaimAndHandle(w: World, retries: nat) returns (es: seq<Event>)
    requires !w.key
    ensures AllQuiet(es) && CanRun(Rules(retries), w, es) && Exec(Rules(retries), w, es).nils == w.nils + 1
  {
    var q := FreshProc(w.procs);
    var seen, call := Seen(q, Acked), Call(q, true, false);
    var w1 := Step(w, retries, seen);
    RunOne(Rules(retries), w, seen);
    RunOne(Rules(retries), w1, call);
    ExecAppend(Rules(retries), w, [seen], [call]);
    es := [seen] + [call];
  }

  /** An event can still be handled, by a delivery or a replay to come, exactly while it is not stranded. */
  lemma StrandedIff(w: World, retries: nat)
    ensures Stranded(w) <==> NeverHandled(w, retries)
  {
    if Stranded(w) {
      forall es | AllQuiet(es) && CanRun(Rules(retries), w, es) ensures Exec(Rules(retries), w, es).nils == w.nils {
        StrandedExec(w, retries, es);
      }
    } else {
      var es := StillPossible(w, retries);
      assert Exec(Rules(retries), w, es).nils != w.nils;
    }
  }

  /** Every other run of the event is over, or without hope. */
  ghost predicate LastHope(w: World, p: ProcId) { forall q :: q in w.procs && q != p ==> Hopeless(w.procs[q]) }

  /** How an event gets there, with the key in place: the last run that could do something crashes, is the claimer and
      its Del is lost, or gives up without having claimed (its SetNX was not acknowledged, so it will not forget the key
      that SetNX or another one set). It is handled in the one other case, when that run returns nil. */
  lemma StrandsIff(w: World, retries: nat, e: Event)
    requires !Stranded(w) && Enabled(w, e)
    ensures Stranded(Step(w, retries, e)) <==>
              && w.key && !e.Expire? && !e.Seen? && LastHope(w, e.p)
              && match e
                 case Crash(p) => true
                 case Forget(p, fate) => fate.Lost? || !w.procs[p].claimed
                 case Call(p, ok, down) => ok || (!w.procs[p].claimed && (down || w.procs[p].calls + 1 >= retries))
                 case _ => false
    ensures Step(w, retries, e).nils != w.nils <==> e.Call? && e.ok
  {
    var w' := Step(w, retries, e);
    if e.Seen? && (!e.fate.Acked? || !w.key) {
      assert !Hopeless(w'.procs[e.p]);
    } else if e.Expire? || e.Seen? {
      if p :| p in w.procs && !Hopeless(w.procs[p]) {
        assert p in w'.procs && !Hopeless(w'.procs[p]);
      }
    } else {
      assert forall q :: q != e.p ==> (q in w'.procs <==> q in w.procs) && (q in w.procs ==> w'.procs[q] == w.procs[q]);
      assert e.p in w'.procs;
    }
  }

  lemma CrashLosesTheEvent(retries: nat) returns (ws: seq<World>, es: seq<Event>)
    ensures IsRun(retries, ws, es) && Stranded(ws[|es|]) && ws[|es|].nils == 0
    ensures 1 in ws[|es|].procs && ws[|es|].procs[1] == Done(Duplicate)
  {
    es := [Seen(0, Acked), Crash(0), Seen(1, Acked)];
    var w1 := Step(INIT, retries, es[0]);
    var w2 := Step(w1, retries, es[1]);
    ws := [INIT, w1, w2, Step(w2, retries, es[2])];
  }

  /** At most retries calls of the handler for one record. */
  ghost predicate CallsFit(w: World, retries: nat) {
    forall p :: p in w.procs ==>
      (w.procs[p].Handling? ==> w.procs[p].calls < retries) && (w.procs[p].GivingUp? ==> w.procs[p].calls <= retries)
  }

  lemma {:induction false} CallsAreBounded(retries: nat, ws: seq<World>, es: seq<Event>, i: nat)
    requires IsRun(retries, ws, es) && i < |ws| && retries > 0
    ensures CallsFit(ws[i], retries)
  {
    if i > 0 {
      CallsAreBounded(retries, ws, es, i - 1);
    }
  }

  // ------------------------------------------------------------------
  // One processor between the others
  // ------------------------------------------------------------------

  /** What a call of the handler does to its run, and to nobody else's. */
  lemma CallMoves(w: World, retries: nat, p: ProcId, ok: bool, down: bool)
    requires p in w.procs && w.procs[p].Handling?
    ensures var w' := Step(w, retries, Call(p, ok, down));
            && p in w'.procs && w'.procs == w.procs[p := w'.procs[p]]
            && (if ok then w'.procs[p] == Done(Handled)
                else if down || w.procs[p].calls + 1 >= retries then w'.procs[p].GivingUp?
                else w'.procs[p] == Handling(w.procs[p].claimed, w.procs[p].calls + 1))
  {
  }

  /** The same for the claim and for its end. */
  lemma SeenMoves(w: World, retries: nat, p: ProcId, fate: Fate)
    requires p !in w.procs
    ensures var w' := Step(w, retries, Seen(p, fate));
            w'.procs == w.procs[p := if fate.Acked? && w.key then Done(Duplicate) else Handling(fate.Acked?, 0)]
  {
  }

  lemma ForgetMoves(w: World, retries: nat, p: ProcId, fate: Fate)
    requires p in w.procs && w.procs[p].GivingUp?
    ensures Step(w, retries, Forget(p, fate)).procs == w.procs[p := Done(Failed)]
  {
  }

  /** What the others do in a pause: nothing in the name of a processor of lo..hi. */
  ghost predicate Foreign(lo: ProcId, hi: ProcId, w: World, retries: nat, es: seq<Event>) {
    ByOthers(Rules(retries), e => Mine(lo, hi, e), w, es)
  }

  predicate Mine(lo: ProcId, hi: ProcId, e: Event) { !e.Expire? && lo <= e.p < hi }

  lemma {:induction false} ForeignKeeps(lo: ProcId, hi: ProcId, w: World, retries: nat, es: seq<Event>, p: ProcId)
    requires Foreign(lo, hi, w, retries, es) && lo <= p < hi
    ensures CanRun(Rules(retries), w, es)
    ensures p in w.procs <==> p in Exec(Rules(retries), w, es).procs
    ensures p in w.procs ==> Exec(Rules(retries), w, es).procs[p] == w.procs[p]
    decreases |es|
  {
    if es != [] {
      assert es[0] in es;
      ForeignKeeps(lo, hi, Step(w, retries, es[0]), retries, es[1..], p);
    }
  }
}
