/** The request_id of the request being handled (kitexx): ids derived from it, and the outgoing calls one request may
    make with them, any number of them at once. */
module RequestIds {
  import opened Options
  import opened Runs

  // ------------------------------------------------------------------
  // Derived ids
  // ------------------------------------------------------------------

  predicate HasPrefix(s: string, prefix: string) { |prefix| <= |s| && s[..|prefix|] == prefix }

  /** What the check lets out within the request `scope`: its id, or one that extends it with a colon. */
  predicate Derived(id: string, scope: string) { id == scope || HasPrefix(id, scope + ":") }

  /** "" outside a request. */
  function SubRequestID(scope: Option<string>, part: string): string {
    if scope.None? || scope.value == "" then "" else scope.value + ":" + part
  }

  lemma DerivedIff(id: string, scope: string)
    ensures Derived(id, scope) <==> id == scope || exists part :: id == scope + ":" + part
  {
    if HasPrefix(id, scope + ":") {
      assert id == scope + ":" + id[|scope| + 1..];
    }
    forall part ensures HasPrefix(scope + ":" + part, scope + ":") {
      assert (scope + ":" + part)[..|scope| + 1] == scope + ":";
    }
  }

  lemma DerivedIsTransitive(a: string, b: string, c: string)
    requires Derived(a, b) && Derived(b, c)
    ensures Derived(a, c)
  {
    if a != b && b != c {
      assert a == b + ":" + a[|b| + 1..];
      assert b == c + ":" + b[|c| + 1..];
      assert a[..|c| + 1] == c + ":";
    }
  }

  /** What SubRequestID makes passes the check, and different parts of one request give different ids. */
  lemma SubIdsPass(scope: string, part: string, other: string)
    requires scope != ""
    ensures Derived(SubRequestID(Some(scope), part), scope) && SubRequestID(Some(scope), part) != scope
    ensures SubRequestID(Some(scope), part) == SubRequestID(Some(scope), other) ==> part == other
  {
    var a, b := scope + ":" + part, scope + ":" + other;
    assert a[..|scope| + 1] == scope + ":";
    assert a[|scope| + 1..] == part && b[|scope| + 1..] == other;
  }

  /** A chain of requests, each handled under an id the one before sent. */
  ghost predicate IsChain(scopes: seq<string>) {
    forall i :: 0 < i < |scopes| ==> Nested(scopes, i)
  }

  predicate Nested(scopes: seq<string>, i: nat)
    requires 0 < i < |scopes|
  {
    Derived(scopes[i], scopes[i - 1])
  }

  /** However deep the calls go, every id sent is the first request's or derived from it: a retry of that request
      repeats them all. */
  lemma {:induction false} DerivedThroughout(scopes: seq<string>, i: nat, id: string)
    requires IsChain(scopes) && i < |scopes| && Derived(id, scopes[i])
    ensures Derived(id, scopes[0])
  {
    if i > 0 {
      assert Nested(scopes, i);
      DerivedIsTransitive(id, scopes[i], scopes[i - 1]);
      DerivedThroughout(scopes, i - 1, id);
    }
  }

  // ------------------------------------------------------------------
  // One request's calls
  // ------------------------------------------------------------------

  type CallId = nat

  /** service.method, without a space. */
  predicate IsTarget(t: string) { ' ' !in t }

  function Key(target: string, id: string): string { target + " " + id }

  lemma FirstSpace(t: string, i: string)
    requires IsTarget(t)
    ensures Key(t, i)[|t|] == ' '
    ensures forall m :: 0 <= m < |t| ==> Key(t, i)[m] != ' '
  {
    forall m | 0 <= m < |t| ensures Key(t, i)[m] != ' ' {
      assert Key(t, i)[m] == t[m] && t[m] in t;
    }
  }

  lemma KeyIsInjective(t: string, i: string, t': string, i': string)
    requires IsTarget(t) && IsTarget(t')
    ensures Key(t, i) == Key(t', i') <==> t == t' && i == i'
  {
    if Key(t, i) == Key(t', i') {
      var k := Key(t, i);
      FirstSpace(t, i);
      FirstSpace(t', i');
      assert |t| == |t'|;
      assert t == k[..|t|] && t' == k[..|t'|];
      assert i == k[|t| + 1..] && i' == k[|t'| + 1..];
    }
  }

  datatype Target = Target(name: string, id: string)

  /** Refused before it is sent; sent and under way; came back with an error or a business code, not yet taken off the
      list; over: with success, with a failure, or with a panic that left it on the list. */
  datatype Phase =
    | Refused
    | Sent(t: Target)
    | Failing(t: Target)
    | Over(t: Target, how: Ending)

  datatype Ending = Succeeded | Failed | Panicked

  /** sends: every call that left, in order. */
  datatype World = World(made: set<string>, calls: map<CallId, Phase>, sends: seq<Target>)

  const INIT: World := World({}, map[], [])

  datatype Event =
    | Check(c: CallId, t: Target)
    | Return(c: CallId, ok: bool)
    | Panic(c: CallId)
    | Forget(c: CallId)

  predicate Enabled(w: World, e: Event) {
    match e
    case Check(c, t) => c !in w.calls && IsTarget(t.name)
    case Return(c, _) => c in w.calls && w.calls[c].Sent?
    case Panic(c) => c in w.calls && w.calls[c].Sent?
    case Forget(c) => c in w.calls && w.calls[c].Failing?
  }

  function KeyOf(t: Target): string { Key(t.name, t.id) }

  function Step(w: World, scope: string, e: Event): World
    requires Enabled(w, e)
  {
    match e
    case Check(c, t) =>
      if t.id == "" || !Derived(t.id, scope) then w.(calls := w.calls[c := Refused])
      else if KeyOf(t) in w.made then w.(calls := w.calls[c := Refused])
      else World(w.made + {KeyOf(t)}, w.calls[c := Sent(t)], w.sends + [t])
    case Return(c, ok) =>
      var t := w.calls[c].t;
      w.(calls := w.calls[c := if ok then Over(t, Succeeded) else Failing(t)])
    case Panic(c) => w.(calls := w.calls[c := Over(w.calls[c].t, Panicked)])
    case Forget(c) =>
      var t := w.calls[c].t;
      World(w.made - {KeyOf(t)}, w.calls[c := Over(t, Failed)], w.sends)
  }

  function Rules(scope: string): Protocol<World, Event> {
    Protocol((w: World, e: Event) => Enabled(w, e),
             (w: World, e: Event) => if Enabled(w, e) then Step(w, scope, e) else w)
  }

  ghost predicate IsRun(scope: string, ws: seq<World>, es: seq<Event>) {
    && scope != "" && |ws| == |es| + 1
    && ws[0] == INIT
    && forall i :: 0 <= i < |es| ==> Enabled(ws[i], es[i]) && ws[i + 1] == Step(ws[i], scope, es[i])
  }

  /** The call keeps its pair taken. */
  predicate Holding(p: Phase) { !p.Refused? && (p.Over? ==> !p.how.Failed?) }

  predicate Holds(p: Phase, t: Target) { Holding(p) && p.t == t }

  /** Who holds a pair is on the list, one call for each, and nothing else is on it. */
  ghost predicate Listed(made: set<string>, calls: map<CallId, Phase>) {
    forall c :: c in calls && Holding(calls[c]) ==> IsTarget(calls[c].t.name) && KeyOf(calls[c].t) in made
  }

  ghost predicate Single(calls: map<CallId, Phase>) {
    forall c, d :: c in calls && d in calls && Holding(calls[c]) && Holding(calls[d]) ==>
      calls[c].t == calls[d].t ==> c == d
  }

  ghost predicate Kept(calls: map<CallId, Phase>, k: string) {
    exists c :: c in calls && Holding(calls[c]) && KeyOf(calls[c].t) == k
  }

  ghost predicate Backed(made: set<string>, calls: map<CallId, Phase>) { forall k :: k in made ==> Kept(calls, k) }

  ghost predicate SendsOk(scope: string, sends: seq<Target>) {
    forall i :: 0 <= i < |sends| ==> sends[i].id != "" && Derived(sends[i].id, scope)
  }

  ghost predicate Inv(scope: string, w: World) {
    Listed(w.made, w.calls) && Single(w.calls) && Backed(w.made, w.calls) && SendsOk(scope, w.sends)
  }

  lemma KeptBeside(calls: map<CallId, Phase>, c: CallId, p: Phase, k: string)
    requires Kept(calls, k)
    requires c in calls && Holding(calls[c]) && KeyOf(calls[c].t) == k ==> Holding(p) && p.t == calls[c].t
    ensures Kept(calls[c := p], k)
  {
    var d :| d in calls && Holding(calls[d]) && KeyOf(calls[d].t) == k;
    assert d in calls[c := p] && Holding(calls[c := p][d]);
  }

  /** A call that keeps what it held, or held nothing and holds nothing. */
  lemma CallMoves(made: set<string>, calls: map<CallId, Phase>, c: CallId, p: Phase)
    requires Listed(made, calls) && Single(calls) && Backed(made, calls)
    requires if c in calls && Holding(calls[c]) then Holding(p) && p.t == calls[c].t else !Holding(p)
    ensures Listed(made, calls[c := p]) && Single(calls[c := p]) && Backed(made, calls[c := p])
  {
    hide KeyOf;
    forall k | k in made ensures Kept(calls[c := p], k) {
      KeptBeside(calls, c, p, k);
    }
  }

  lemma CallSent(made: set<string>, calls: map<CallId, Phase>, c: CallId, t: Target)
    requires Listed(made, calls) && Single(calls) && Backed(made, calls)
    requires c !in calls && IsTarget(t.name) && KeyOf(t) !in made
    ensures var after := calls[c := Sent(t)];
            Listed(made + {KeyOf(t)}, after) && Single(after) && Backed(made + {KeyOf(t)}, after)
  {
    hide KeyOf;
    var after := calls[c := Sent(t)];
    forall k | k in made + {KeyOf(t)} ensures Kept(after, k) {
      if k == KeyOf(t) {
        assert Holding(after[c]);
      } else {
        KeptBeside(calls, c, Sent(t), k);
      }
    }
  }

  lemma CallForgotten(made: set<string>, calls: map<CallId, Phase>, c: CallId, t: Target)
    requires Listed(made, calls) && Single(calls) && Backed(made, calls)
    requires c in calls && calls[c] == Failing(t)
    ensures var after := calls[c := Over(t, Failed)];
            Listed(made - {KeyOf(t)}, after) && Single(after) && Backed(made - {KeyOf(t)}, after)
  {
    var after := calls[c := Over(t, Failed)];
    forall d | d in after && Holding(after[d])
      ensures IsTarget(after[d].t.name) && KeyOf(after[d].t) in made - {KeyOf(t)}
    {
      assert d != c && after[d] == calls[d];
      KeyIsInjective(after[d].t.name, after[d].t.id, t.name, t.id);
    }
    hide KeyOf;
    forall k | k in made - {KeyOf(t)} ensures Kept(after, k) {
      KeptBeside(calls, c, Over(t, Failed), k);
    }
  }

  lemma StepKeeps(w: World, scope: string, e: Event)
    requires Inv(scope, w) && Enabled(w, e)
    ensures Inv(scope, Step(w, scope, e))
  {
    hide Listed, Single, Backed;
    match e
    case Check(c, t) =>
      if t.id != "" && Derived(t.id, scope) && KeyOf(t) !in w.made {
        CallSent(w.made, w.calls, c, t);
      } else {
        CallMoves(w.made, w.calls, c, Refused);
      }
    case Return(c, ok) =>
      var t := w.calls[c].t;
      CallMoves(w.made, w.calls, c, if ok then Over(t, Succeeded) else Failing(t));
    case Panic(c) => CallMoves(w.made, w.calls, c, Over(w.calls[c].t, Panicked));
    case Forget(c) => CallForgotten(w.made, w.calls, c, w.calls[c].t);
  }

  lemma {:induction false} InvAlong(scope: string, ws: seq<World>, es: seq<Event>, i: nat)
    requires IsRun(scope, ws, es) && i < |ws|
    ensures Inv(scope, ws[i])
  {
    if i > 0 {
      InvAlong(scope, ws, es, i - 1);
      StepKeeps(ws[i - 1], scope, es[i - 1]);
    }
  }

  /** Of one method with one id a single call is under way at a time, and every id sent is the request's or derived from
      it. */
  lemma OneInFlight(scope: string, ws: seq<World>, es: seq<Event>, i: nat, c: CallId, d: CallId, t: Target)
    requires IsRun(scope, ws, es) && i < |ws| && c in ws[i].calls && d in ws[i].calls
    requires ws[i].calls[c] == Sent(t) && ws[i].calls[d] == Sent(t)
    ensures c == d && t.id != "" && Derived(t.id, scope)
  {
    InvAlong(scope, ws, es, i);
    SentIsRecorded(scope, ws, es, i, c);
  }

  lemma {:induction false} SentIsRecorded(scope: string, ws: seq<World>, es: seq<Event>, i: nat, c: CallId)
    requires IsRun(scope, ws, es) && i < |ws| && c in ws[i].calls && !ws[i].calls[c].Refused?
    ensures ws[i].calls[c].t in ws[i].sends
  {
    if i > 0 && c in ws[i - 1].calls && !ws[i - 1].calls[c].Refused? {
      SentIsRecorded(scope, ws, es, i - 1, c);
    }
  }

  /** A call is let out exactly when its id is derived and no other call holds its pair: one under way, one that
      succeeded, or one that failed and is not off the list yet. */
  lemma SentIff(scope: string, ws: seq<World>, es: seq<Event>, i: nat)
    requires IsRun(scope, ws, es) && i < |es| && es[i].Check?
    ensures var w, t := ws[i], es[i].t;
            ws[i + 1].calls[es[i].c].Sent? <==>
              t.id != "" && Derived(t.id, scope) && forall d :: d in w.calls ==> !Holds(w.calls[d], t)
  {
    InvAlong(scope, ws, es, i);
    var w, t := ws[i], es[i].t;
    if KeyOf(t) in w.made {
      assert Kept(w.calls, KeyOf(t));
      var d :| d in w.calls && Holding(w.calls[d]) && KeyOf(w.calls[d].t) == KeyOf(t);
      KeyIsInjective(w.calls[d].t.name, w.calls[d].t.id, t.name, t.id);
      assert Holds(w.calls[d], t);
    }
  }

  lemma HeldStays(w: World, scope: string, e: Event, c: CallId, t: Target)
    requires Enabled(w, e) && c in w.calls && w.calls[c] == Over(t, Succeeded)
    ensures c in Step(w, scope, e).calls && Step(w, scope, e).calls[c] == Over(t, Succeeded)
  {
  }

  lemma {:induction false} StaysOver(scope: string, ws: seq<World>, es: seq<Event>, i: nat, j: nat, c: CallId,
                                     t: Target)
    requires IsRun(scope, ws, es) && i <= j < |ws| && c in ws[i].calls && ws[i].calls[c] == Over(t, Succeeded)
    ensures c in ws[j].calls && ws[j].calls[c] == Over(t, Succeeded)
  {
    if i < j {
      StaysOver(scope, ws, es, i, j - 1, c, t);
      HeldStays(ws[j - 1], scope, es[j - 1], c, t);
    }
  }

  /** After one that succeeded no other call of that method goes out with that id in this request. */
  lemma NoneAfterSuccess(scope: string, ws: seq<World>, es: seq<Event>, i: nat, j: nat, c: CallId, t: Target)
    requires IsRun(scope, ws, es) && i <= j < |es| && c in ws[i].calls && ws[i].calls[c] == Over(t, Succeeded)
    requires es[j].Check? && es[j].t == t
    ensures ws[j + 1].calls[es[j].c].Refused? && ws[j + 1].sends == ws[j].sends
  {
    StaysOver(scope, ws, es, i, j, c, t);
    InvAlong(scope, ws, es, j);
    assert Holds(ws[j].calls[c], t);
  }

  /** A failed call, once off the list, leaves its pair to the next. */
  lemma FailureFrees(scope: string, ws: seq<World>, es: seq<Event>, i: nat, d: CallId)
    requires IsRun(scope, ws, es) && i < |es| && es[i].Forget? && d !in ws[i].calls
    ensures var t := ws[i].calls[es[i].c].t;
            && Enabled(ws[i + 1], Check(d, t)) && Step(ws[i + 1], scope, Check(d, t)).calls[d] == Sent(t)
  {
    InvAlong(scope, ws, es, i);
    var t := ws[i].calls[es[i].c].t;
    assert Holds(ws[i].calls[es[i].c], t);
    SentIsRecorded(scope, ws, es, i, es[i].c);
  }

  // ------------------------------------------------------------------
  // One call between the others
  // ------------------------------------------------------------------

  ghost predicate Foreign(c: CallId, w: World, scope: string, es: seq<Event>) {
    ByOthers(Rules(scope), (e: Event) => e.c == c, w, es)
  }

  lemma ForeignStep(c: CallId, w: World, scope: string, e: Event)
    requires Enabled(w, e) && e.c != c
    ensures c in w.calls <==> c in Step(w, scope, e).calls
    ensures c in w.calls ==> Step(w, scope, e).calls[c] == w.calls[c]
  {
  }

  lemma {:induction false} ForeignKeeps(c: CallId, w: World, scope: string, es: seq<Event>)
    requires Foreign(c, w, scope, es)
    ensures CanRun(Rules(scope), w, es)
    ensures c in w.calls <==> c in Exec(Rules(scope), w, es).calls
    ensures c in w.calls ==> Exec(Rules(scope), w, es).calls[c] == w.calls[c]
    decreases |es|
  {
    if es != [] {
      assert es[0] in es;
      ForeignStep(c, w, scope, es[0]);
      hide Step, Enabled;
      ForeignKeeps(c, Step(w, scope, es[0]), scope, es[1..]);
    }
  }
}

/** The client middleware's own body, with the request's other calls taking their steps while this one is out. */
module RequestScope {
  import opened Options
  import opened Runs
  import opened RequestIds

  type Others = (nat, World) -> seq<Event>

  ghost predicate Apart(c: CallId, scope: string, others: Others) {
    forall k: nat, w: World :: Foreign(c, w, scope, others(k, w))
  }

  /** How the call itself ends: an error or a business code is not ok. */
  datatype Outcome = Success | Failure | Panic

  function EndOf(o: Outcome): Ending {
    match o
    case Success => Succeeded
    case Failure => Failed
    case Panic => Panicked
  }

  datatype Result = NotSent | Passed(outcome: Outcome)

  class Scope {
    const id: string     // of the request being handled
    var w: World

    constructor (id: string)
      requires id != ""
      ensures this.id == id && w == INIT
    {
      this.id, this.w := id, INIT;
    }

    method Pause(c: CallId, k: nat, others: Others, ghost es: seq<Event>, ghost w0: World)
      returns (ghost es': seq<Event>)
      requires Apart(c, id, others)
      requires CanRun(Rules(id), w0, es) && Exec(Rules(id), w0, es) == w
      modifies this
      ensures CanRun(Rules(id), w0, es') && Exec(Rules(id), w0, es') == w
      ensures c in w.calls <==> c in old(w).calls
      ensures c in w.calls ==> w.calls[c] == old(w).calls[c]
    {
      var more := others(k, w);
      assert Foreign(c, w, id, more);
      ForeignKeeps(c, w, id, more);
      ExecAppend(Rules(id), w0, es, more);
      es' := es + more;
      w := Exec(Rules(id), w, more);
    }

    method Command(e: Event, ghost es: seq<Event>, ghost w0: World) returns (ghost es': seq<Event>)
      requires CanRun(Rules(id), w0, es) && Exec(Rules(id), w0, es) == w && Enabled(w, e)
      modifies this
      ensures w == Step(old(w), id, e)
      ensures CanRun(Rules(id), w0, es') && Exec(Rules(id), w0, es') == w
    {
      hide CanRun, Exec, Step, Enabled;
      RunNext(Rules(id), w0, es, e);
      es' := es + [e];
      w := Step(w, id, e);
    }

    /** One outgoing call. It leaves exactly when its id is derived from the request's and the pair is not on the list;
        a failure takes the pair off again, a panic does not. */
    method Call(c: CallId, t: Target, outcome: Outcome, others: Others) returns (result: Result, ghost es: seq<Event>)
      requires c !in w.calls && IsTarget(t.name) && Apart(c, id, others)
      modifies this
      ensures CanRun(Rules(id), old(w), es) && w == Exec(Rules(id), old(w), es) && c in w.calls
      ensures result.NotSent? <==> t.id == "" || !Derived(t.id, id) || KeyOf(t) in old(w).made
      ensures match result
              case NotSent => w.calls[c] == Refused
              case Passed(o) => o == outcome && w.calls[c] == Over(t, EndOf(o))
    {
      hide CanRun, Exec, Apart, Derived, Key;
      ghost var w0 := w;
      RunNothing(Rules(id), w0);
      es := Command(Check(c, t), [], w0);
      if w.calls[c].Refused? {
        return NotSent, es;
      }
      es := Pause(c, 0, others, es, w0);
      match outcome {
        case Panic =>
          es := Command(Event.Panic(c), es, w0);
        case Success =>
          es := Command(Return(c, true), es, w0);
        case Failure =>
          es := Command(Return(c, false), es, w0);
          es := Pause(c, 1, others, es, w0);
          es := Command(Forget(c), es, w0);
      }
      result := Passed(outcome);
    }
  }
}
