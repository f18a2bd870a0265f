/** One watched configuration (nacosx): its subscribers, what each of them was handed, and the contents put into
    effect one after the other. */
module Watches {
  import opened Options

  type SubId = nat

  /** The sum of a content; contents are compared by it alone. */
  type Hash = string -> int

  /** seen: the content a subscription started with, then every delivery. history: the contents since listening
      began. */
  datatype State = State(listening: bool, sum: Option<int>, content: string, subs: seq<SubId>,
                         seen: map<SubId, seq<string>>, history: seq<string>)

  const INIT: State := State(false, None, "", [], map[], [])

  function Delivered(seen: map<SubId, seq<string>>, subs: seq<SubId>, content: string): map<SubId, seq<string>> {
    map m | m in seen :: if m in subs then seen[m] + [content] else seen[m]
  }

  function Apply(s: State, hash: Hash, content: string): State {
    if s.sum == Some(hash(content)) then s
    else
      State(s.listening, Some(hash(content)), content, s.subs,
            Delivered(s.seen, s.subs, content), s.history + [content])
  }

  /** A subscription, once the content was fetched; `listens` says whether the first one got its listener. */
  function Follow(s: State, hash: Hash, sub: SubId, content: string, listens: bool): State {
    if s.listening then
      var t := Apply(s, hash, content);
      t.(subs := t.subs + [sub], seen := t.seen[sub := [content]])
    else if !listens then s.(content := content, sum := Some(hash(content)))
    else State(true, Some(hash(content)), content, s.subs + [sub], s.seen[sub := [content]], [content])
  }

  function Without(subs: seq<SubId>, sub: SubId): seq<SubId> {
    if subs == [] then []
    else if subs[0] == sub then subs[1..]
    else [subs[0]] + Without(subs[1..], sub)
  }

  /** The server's answer counts for more than what was pushed; a file has no server. */
  function News(offline: bool, pushed: string, now: Option<string>): string {
    if !offline && now.Some? then now.value else pushed
  }

  datatype Event =
    | Joins(sub: SubId, fetched: Option<string>, listens: bool)
    | Leaves(sub: SubId)
    | Push(offline: bool, pushed: string, now: Option<string>)

  predicate Enabled(s: State, e: Event) { e.Joins? ==> e.sub !in s.seen }

  function Step(s: State, hash: Hash, e: Event): State {
    match e
    case Joins(sub, fetched, listens) => if fetched.None? then s else Follow(s, hash, sub, fetched.value, listens)
    case Leaves(sub) => s.(subs := Without(s.subs, sub))
    case Push(offline, pushed, now) => Apply(s, hash, News(offline, pushed, now))
  }

  ghost predicate IsRun(hash: Hash, ss: seq<State>, es: seq<Event>) {
    && |ss| == |es| + 1
    && ss[0] == INIT
    && forall i :: 0 <= i < |es| ==> Enabled(ss[i], es[i]) && ss[i + 1] == Step(ss[i], hash, es[i])
  }

  ghost predicate Injective(hash: Hash) { forall a: string, b: string :: hash(a) == hash(b) ==> a == b }

  lemma DeliveredNext(seen: map<SubId, seq<string>>, subs: seq<SubId>, k: nat, content: string)
    requires k < |subs| && Distinct(subs) && forall m :: m in subs ==> m in seen
    ensures var before := Delivered(seen, subs[..k], content);
            && subs[k] in before
            && Delivered(seen, subs[..k + 1], content) == before[subs[k] := before[subs[k]] + [content]]
  {
    assert subs[..k + 1] == subs[..k] + [subs[k]];
    assert subs[k] !in subs[..k];
  }

  lemma DeliveredNone(seen: map<SubId, seq<string>>, subs: seq<SubId>, content: string)
    ensures Delivered(seen, subs[..0], content) == seen
  {
  }

  /** i is where the subscriber stands, or the end. */
  lemma {:induction false} WithoutAt(subs: seq<SubId>, sub: SubId, i: nat)
    requires i <= |subs| && (forall k :: 0 <= k < i ==> subs[k] != sub) && (i < |subs| ==> subs[i] == sub)
    ensures Without(subs, sub) == if i < |subs| then subs[..i] + subs[i + 1..] else subs
  {
    if i > 0 {
      WithoutAt(subs[1..], sub, i - 1);
      if i < |subs| {
        assert subs[..i] == [subs[0]] + subs[1..][..i - 1] && subs[i + 1..] == subs[1..][i..];
      }
    }
  }

  // ------------------------------------------------------------------
  // What every subscriber is handed
  // ------------------------------------------------------------------

  ghost predicate NoRepeat(cs: seq<string>) { forall i :: 0 < i < |cs| ==> Before(cs, i) != cs[i] }

  function Before(cs: seq<string>, i: nat): string
    requires 0 < i < |cs|
  {
    cs[i - 1]
  }

  /** The contents since some moment, up to now. */
  predicate SinceJoined(seen: seq<string>, history: seq<string>) {
    0 < |seen| <= |history| && seen == history[|history| - |seen|..]
  }

  ghost predicate Distinct(subs: seq<SubId>) { forall i, j :: 0 <= i < j < |subs| ==> subs[i] != subs[j] }

  ghost predicate Current(s: State, hash: Hash) {
    s.listening ==>
      && s.history != [] && s.history[|s.history| - 1] == s.content
      && s.sum == Some(hash(s.content)) && NoRepeat(s.history)
  }

  ghost predicate Inv(s: State, hash: Hash) {
    && Current(s, hash)
    && (!s.listening ==> s.subs == [])
    && Distinct(s.subs)
    && Following(s.subs, s.seen, s.history)
    && NoneRepeats(s.seen)
  }

  ghost predicate Following(subs: seq<SubId>, seen: map<SubId, seq<string>>, history: seq<string>) {
    forall m :: m in subs ==> m in seen && SinceJoined(seen[m], history)
  }

  ghost predicate NoneRepeats(seen: map<SubId, seq<string>>) { forall m :: m in seen ==> NoRepeat(seen[m]) }

  lemma NoRepeatAppends(cs: seq<string>, c: string)
    requires NoRepeat(cs) && (cs != [] ==> cs[|cs| - 1] != c)
    ensures NoRepeat(cs + [c])
  {
    var out := cs + [c];
    forall i | 0 < i < |out| ensures Before(out, i) != out[i] {
      if i < |cs| {
        assert Before(cs, i) != cs[i];
      }
    }
  }

  lemma SinceAppends(seen: seq<string>, history: seq<string>, c: string)
    requires SinceJoined(seen, history)
    ensures SinceJoined(seen + [c], history + [c])
  {
  }

  /** A new subscriber, once the content it starts with is in effect. */
  lemma JoinKeeps(s: State, hash: Hash, sub: SubId)
    requires Inv(s, hash) && s.listening && sub !in s.seen
    ensures Inv(s.(subs := s.subs + [sub], seen := s.seen[sub := [s.content]]), hash)
  {
    hide Following, NoneRepeats, Distinct, NoRepeat, SinceJoined;
    FollowingAppends(s.subs, s.seen, s.history, sub);
    NoneRepeatsAppends(s.seen, sub, s.content);
    assert sub !in s.subs by {
      FollowersAreSeen(s.subs, s.seen, s.history);
    }
    DistinctAppends(s.subs, sub);
  }

  lemma FollowersAreSeen(subs: seq<SubId>, seen: map<SubId, seq<string>>, history: seq<string>)
    requires Following(subs, seen, history)
    ensures forall m :: m in subs ==> m in seen
  {
  }

  lemma FollowingAppends(subs: seq<SubId>, seen: map<SubId, seq<string>>, history: seq<string>, sub: SubId)
    requires Following(subs, seen, history) && sub !in seen && history != []
    ensures Following(subs + [sub], seen[sub := [history[|history| - 1]]], history)
  {
    var now := [history[|history| - 1]];
    assert SinceJoined(now, history);
    hide SinceJoined;
    forall m | m in subs + [sub] ensures m in seen[sub := now] && SinceJoined(seen[sub := now][m], history) {
      assert m in subs || m == sub;
    }
  }

  lemma NoneRepeatsAppends(seen: map<SubId, seq<string>>, sub: SubId, c: string)
    requires NoneRepeats(seen)
    ensures NoneRepeats(seen[sub := [c]])
  {
    OneIsNoRepeat(c);
    hide NoRepeat;
  }

  lemma DistinctAppends(subs: seq<SubId>, sub: SubId)
    requires Distinct(subs) && sub !in subs
    ensures Distinct(subs + [sub])
  {
  }

  lemma OneIsNoRepeat(c: string)
    ensures NoRepeat([c])
  {
  }

  lemma FirstKeeps(s: State, hash: Hash, content: string)
    requires Inv(s, hash) && !s.listening
    ensures Inv(State(true, Some(hash(content)), content, [], s.seen, [content]), hash)
  {
    assert NoRepeat([content]);
  }

  lemma {:induction false} WithoutKeeps(subs: seq<SubId>, sub: SubId)
    requires Distinct(subs)
    ensures Distinct(Without(subs, sub))
    ensures forall m :: m in Without(subs, sub) <==> m in subs && m != sub
  {
    if subs != [] {
      if subs[0] == sub {
        assert forall m :: m in subs[1..] <==> m in subs && m != sub;
      } else {
        WithoutKeeps(subs[1..], sub);
        var rest := Without(subs[1..], sub);
        forall j | 0 <= j < |rest| ensures rest[j] != subs[0] {
          assert rest[j] in rest;
        }
      }
    }
  }

  lemma ApplyKeeps(s: State, hash: Hash, content: string)
    requires Inv(s, hash) && Injective(hash)
    ensures Inv(Apply(s, hash, content), hash)
    ensures s.listening ==> Apply(s, hash, content).content == content
  {
    var t := Apply(s, hash, content);
    if t != s {
      if s.listening {
        NoRepeatAppends(s.history, content);
      }
      forall m | m in s.subs ensures SinceJoined(t.seen[m], t.history) {
        SinceAppends(s.seen[m], s.history, content);
      }
      forall m | m in t.seen ensures NoRepeat(t.seen[m]) {
        if m in s.subs {
          assert SinceJoined(s.seen[m], s.history);
          NoRepeatAppends(s.seen[m], content);
        }
      }
    }
  }

  lemma FollowKeeps(s: State, hash: Hash, sub: SubId, content: string, listens: bool)
    requires Inv(s, hash) && Injective(hash) && sub !in s.seen
    ensures Inv(Follow(s, hash, sub, content, listens), hash)
  {
    if s.listening {
      ApplyKeeps(s, hash, content);
      var t := Apply(s, hash, content);
      assert t.content == content && t.listening && t.seen.Keys == s.seen.Keys;
      hide Inv, Apply;
      JoinKeeps(t, hash, sub);
    } else if listens {
      FirstKeeps(s, hash, content);
      var t := State(true, Some(hash(content)), content, [], s.seen, [content]);
      assert s.subs == [];
      hide Inv;
      JoinKeeps(t, hash, sub);
    }
  }

  lemma StepKeeps(s: State, hash: Hash, e: Event)
    requires Inv(s, hash) && Injective(hash) && Enabled(s, e)
    ensures Inv(Step(s, hash, e), hash)
  {
    match e
    case Joins(sub, fetched, listens) =>
      if fetched.Some? {
        FollowKeeps(s, hash, sub, fetched.value, listens);
      }
    case Leaves(sub) => WithoutKeeps(s.subs, sub);
    case Push(offline, pushed, now) => ApplyKeeps(s, hash, News(offline, pushed, now));
  }

  lemma {:induction false} InvAlong(hash: Hash, ss: seq<State>, es: seq<Event>, i: nat)
    requires IsRun(hash, ss, es) && Injective(hash) && i < |ss|
    ensures Inv(ss[i], hash)
  {
    if i > 0 {
      InvAlong(hash, ss, es, i - 1);
      StepKeeps(ss[i - 1], hash, es[i - 1]);
    }
  }

  /** A subscriber is never handed the same content twice in a row, and the last one it was handed is the content in
      effect. */
  lemma EndsAtCurrent(hash: Hash, ss: seq<State>, es: seq<Event>, i: nat, m: SubId)
    requires IsRun(hash, ss, es) && Injective(hash) && i < |ss|
    ensures m in ss[i].seen ==> NoRepeat(ss[i].seen[m])
    ensures m in ss[i].subs ==>
              m in ss[i].seen && ss[i].seen[m] != [] && ss[i].seen[m][|ss[i].seen[m]| - 1] == ss[i].content
  {
    InvAlong(hash, ss, es, i);
  }

  /** Of two subscribers one was handed all that the other was, and only what came before it joined besides. */
  lemma OneHistory(hash: Hash, ss: seq<State>, es: seq<Event>, i: nat, m: SubId, n: SubId)
    requires IsRun(hash, ss, es) && Injective(hash) && i < |ss| && m in ss[i].subs && n in ss[i].subs
    ensures m in ss[i].seen && n in ss[i].seen
    ensures var a, b := ss[i].seen[m], ss[i].seen[n]; |a| <= |b| ==> a == b[|b| - |a|..]
  {
    InvAlong(hash, ss, es, i);
  }

  /** Between two states m was handed exactly what was put into effect. */
  predicate Handed(s: State, t: State, m: SubId) {
    && m in s.seen && m in t.seen && |s.history| <= |t.history|
    && t.history[..|s.history|] == s.history
    && t.seen[m] == s.seen[m] + t.history[|s.history|..]
  }

  lemma HandedStep(s: State, hash: Hash, e: Event, m: SubId)
    requires Inv(s, hash) && Enabled(s, e) && m in s.subs && m in Step(s, hash, e).subs
    ensures Handed(s, Step(s, hash, e), m)
  {
  }

  lemma HandedChains(r: State, s: State, t: State, m: SubId)
    requires Handed(r, s, m) && Handed(s, t, m)
    ensures Handed(r, t, m)
  {
    assert t.history == s.history + t.history[|s.history|..];
    assert t.history[|r.history|..] == s.history[|r.history|..] + t.history[|s.history|..];
  }

  lemma HandedNothing(s: State, hash: Hash, m: SubId)
    requires Inv(s, hash) && m in s.subs
    ensures Handed(s, s, m)
  {
  }

  /** While it follows, a subscriber is handed every content put into effect, each once, in order: none is lost
      between its start and the first delivery, none comes twice. */
  lemma {:induction false} NothingIsMissed(hash: Hash, ss: seq<State>, es: seq<Event>, i: nat, j: nat, m: SubId)
    requires IsRun(hash, ss, es) && Injective(hash) && i <= j < |ss|
    requires forall k :: i <= k <= j ==> m in ss[k].subs
    ensures Handed(ss[i], ss[j], m)
  {
    hide Handed, Inv, Step, Enabled, Injective;
    if i == j {
      InvAlong(hash, ss, es, i);
      HandedNothing(ss[i], hash, m);
    } else {
      NothingIsMissed(hash, ss, es, i, j - 1, m);
      InvAlong(hash, ss, es, j - 1);
      assert ss[j - 1 + 1] == Step(ss[j - 1], hash, es[j - 1]) && m in ss[j].subs && m in ss[j - 1].subs;
      HandedStep(ss[j - 1], hash, es[j - 1], m);
      HandedChains(ss[i], ss[j - 1], ss[j], m);
    }
  }

  /** A subscription starts with the content of its moment. */
  lemma StartsWithNow(s: State, hash: Hash, sub: SubId, content: string)
    requires Inv(s, hash) && Injective(hash) && sub !in s.seen
    ensures var t := Step(s, hash, Joins(sub, Some(content), true));
            sub in t.subs && sub in t.seen && t.seen[sub] == [content] && t.content == content
  {
  }

  /** A change is noticed exactly when its sum differs: a collision would go unheard. */
  lemma NoticedIff(s: State, hash: Hash, content: string)
    requires Inv(s, hash) && s.listening
    ensures Apply(s, hash, content) != s <==> hash(content) != hash(s.content)
  {
    if hash(content) != hash(s.content) {
      assert Apply(s, hash, content).sum != s.sum;
    }
  }
}

/** The watch itself: its fields under the mutex, the fetch inside it, the loop that delivers. */
module Watcher {
  import opened Options
  import opened Watches

  class Watch {
    const offline: bool
    const hash: Hash
    var listening: bool
    var sum: Option<int>
    var content: string
    var subs: seq<SubId>
    var seen: map<SubId, seq<string>>     // what each subscriber was handed, panics and all
    ghost var history: seq<string>

    ghost function Now(): State reads this { State(listening, sum, content, subs, seen, history) }

    constructor (offline: bool, hash: Hash)
      ensures Now() == INIT && this.offline == offline && this.hash == hash
    {
      this.offline, this.hash := offline, hash;
      listening, sum, content, subs, seen, history := false, None, "", [], map[], [];
    }

    /** Tells every subscriber, one after the other, when the content is not what they saw last. */
    method Tell(news: string)
      requires forall m :: m in subs ==> m in seen
      requires Distinct(subs)
      modifies this
      ensures Now() == Apply(old(Now()), hash, news)
    {
      hide Distinct, Delivered;
      var s := hash(news);
      if sum == Some(s) {
        return;
      }
      content, sum, history := news, Some(s), history + [news];
      ghost var was := seen;
      DeliveredNone(was, subs, news);
      for k := 0 to |subs|
        invariant listening == old(listening) && subs == old(subs) && content == news
        invariant sum == Some(s) && history == old(history) + [news]
        invariant seen == Delivered(was, subs[..k], news)
        modifies this`seen
      {
        var m := subs[k];
        DeliveredNext(was, subs, k, news);
        seen := seen[m := seen[m] + [news]];
      }
      assert subs[..|subs|] == subs;
    }

    /** Adds a subscriber and returns the content its subscription starts with; None when the fetch or the listener
        failed. */
    method Follow(sub: SubId, fetched: Option<string>, listens: bool) returns (start: Option<string>)
      requires Inv(Now(), hash) && sub !in seen
      modifies this
      ensures Now() == Step(old(Now()), hash, Joins(sub, fetched, listens))
      ensures start == if fetched.Some? && (old(listening) || listens) then fetched else None
      ensures start.Some? <==> sub in subs
    {
      assert sub !in subs;
      if fetched.None? {
        return None;
      }
      if listening {
        Tell(fetched.value);
      } else {
        content, sum := fetched.value, Some(hash(fetched.value));
        if !listens {
          return None;
        }
        listening, history := true, [content];
      }
      subs := subs + [sub];
      seen := seen[sub := [fetched.value]];
      start := fetched;
    }

    /** Takes a subscriber out. */
    method Unfollow(sub: SubId)
      modifies this`subs
      ensures Now() == Step(old(Now()), hash, Leaves(sub))
    {
      hide Without;
      var i := 0;
      while i < |subs| && subs[i] != sub
        invariant i <= |subs| && forall k :: 0 <= k < i ==> subs[k] != sub
      {
        i := i + 1;
      }
      WithoutAt(subs, sub, i);
      if i < |subs| {
        subs := subs[..i] + subs[i + 1..];
      }
    }

    /** What the listener does with a push: ask the server, unless there is none or it does not answer. */
    method Changed(pushed: string, now: Option<string>)
      requires Inv(Now(), hash)
      modifies this
      ensures Now() == Step(old(Now()), hash, Push(offline, pushed, now))
    {
      var news := pushed;
      if !offline && now.Some? {
        news := now.value;
      }
      Tell(news);
    }
  }
}

/** A typed configuration that follows a watch: the version in effect, the hooks, the records of what changed. */
module Values {
  import opened Options
  import opened ConfigDiff

  type HookId = nat

  datatype Call<T> = Call(hook: HookId, was: T, now: T)

  /** What a content is to a program: its version when it decodes and is valid, and its flattened document. */
  datatype Reader<!T> = Reader(blank: string -> bool, decode: string -> Option<T>, flatten: string -> Doc)

  /** accepted: the contents put into effect, in order. since: how many there were when a hook was registered. */
  datatype State<T> = State(cur: Option<T>, doc: Doc, hooks: seq<HookId>, calls: seq<Call<T>>,
                            records: seq<seq<Change>>, accepted: seq<string>, since: map<HookId, nat>)

  predicate Good<T>(r: Reader<T>, content: string) { !r.blank(content) && r.decode(content).Some? }

  /** One call of every hook, in the order they were registered. */
  function Calls<T>(hooks: seq<HookId>, was: T, now: T): seq<Call<T>> {
    seq(|hooks|, i requires 0 <= i < |hooks| => Call(hooks[i], was, now))
  }

  ghost predicate Loaded<T(!new)>(r: Reader<T>, content: string, s: State<T>) {
    Good(r, content) && s == State(r.decode(content), r.flatten(content), [], [], [], [content], map[])
  }

  /** A change: rejected when it is blank, does not decode or is not valid; `diff` is the record of it. */
  ghost predicate Changes<T(!new)>(r: Reader<T>, s: State<T>, content: string, s': State<T>) {
    if !Good(r, content) || s.cur.None? then s' == s
    else
      && s'.cur == r.decode(content) && s'.doc == r.flatten(content) && s'.hooks == s.hooks && s'.since == s.since
      && s'.accepted == s.accepted + [content]
      && s'.calls == s.calls + Calls(s.hooks, s.cur.value, r.decode(content).value)
      && (exists diff :: s'.records == s.records + [diff] && IsDiff(s.doc, r.flatten(content), diff))
  }

  function Hooked<T>(s: State<T>, h: HookId): State<T> {
    s.(hooks := s.hooks + [h], since := s.since[h := |s.accepted|])
  }

  datatype Event = Content(content: string) | OnChange(h: HookId)

  ghost predicate IsRun<T(!new)>(r: Reader<T>, first: string, ss: seq<State<T>>, es: seq<Event>) {
    && |ss| == |es| + 1
    && Loaded(r, first, ss[0])
    && forall i :: 0 <= i < |es| ==> Steps(r, ss[i], es[i], ss[i + 1])
  }

  ghost predicate Steps<T(!new)>(r: Reader<T>, s: State<T>, e: Event, s': State<T>) {
    match e
    case Content(c) => Changes(r, s, c, s')
    case OnChange(h) => h !in s.since && s' == Hooked(s, h)
  }

  // ------------------------------------------------------------------
  // The version in effect
  // ------------------------------------------------------------------

  /** The last of the contents that decoded and validated. */
  function LastGood<T>(r: Reader<T>, first: string, es: seq<Event>): string {
    if es == [] then first
    else if es[|es| - 1].Content? && Good(r, es[|es| - 1].content) then es[|es| - 1].content
    else LastGood(r, first, es[..|es| - 1])
  }

  /** In effect is always the last good content: its version and its document. */
  lemma {:induction false} InEffect<T(!new)>(r: Reader<T>, first: string, ss: seq<State<T>>, es: seq<Event>)
    requires IsRun(r, first, ss, es)
    ensures var s, good := ss[|es|], LastGood(r, first, es);
            Good(r, good) && s.cur == r.decode(good) && s.doc == r.flatten(good)
            && s.accepted != [] && s.accepted[|s.accepted| - 1] == good
  {
    if es != [] {
      var n := |es| - 1;
      InEffect(r, first, ss[..n + 1], es[..n]);
      assert Steps(r, ss[n], es[n], ss[n + 1]);
    }
  }

  // ------------------------------------------------------------------
  // What the hooks see
  // ------------------------------------------------------------------

  function CallsOf<T>(calls: seq<Call<T>>, h: HookId): seq<Call<T>> {
    if calls == [] then []
    else CallsOf(calls[..|calls| - 1], h) + if calls[|calls| - 1].hook == h then [calls[|calls| - 1]] else []
  }

  lemma {:induction false} CallsOfConcat<T>(a: seq<Call<T>>, b: seq<Call<T>>, h: HookId)
    ensures CallsOf(a + b, h) == CallsOf(a, h) + CallsOf(b, h)
  {
    if b == [] {
      assert a + b == a;
    } else {
      CallsOfConcat(a, b[..|b| - 1], h);
      assert (a + b)[..|a + b| - 1] == a + b[..|b| - 1];
    }
  }

  ghost predicate Distinct(hooks: seq<HookId>) { forall i, j :: 0 <= i < j < |hooks| ==> hooks[i] != hooks[j] }

  lemma CallsOfNext<T>(calls: seq<Call<T>>, c: Call<T>, h: HookId)
    ensures CallsOf(calls + [c], h) == CallsOf(calls, h) + if c.hook == h then [c] else []
  {
    assert (calls + [c])[..|calls|] == calls;
  }

  lemma CallsNext<T>(hooks: seq<HookId>, last: HookId, was: T, now: T)
    ensures Calls(hooks + [last], was, now) == Calls(hooks, was, now) + [Call(last, was, now)]
  {
  }

  lemma {:induction false} OneCall<T>(hooks: seq<HookId>, was: T, now: T, h: HookId)
    requires Distinct(hooks)
    ensures CallsOf(Calls(hooks, was, now), h) == if h in hooks then [Call(h, was, now)] else []
  {
    if hooks == [] {
      assert Calls(hooks, was, now) == [];
    } else {
      hide Calls, CallsOf;
      var before, last := hooks[..|hooks| - 1], hooks[|hooks| - 1];
      assert hooks == before + [last];
      OneCall(before, was, now, h);
      CallsNext(before, last, was, now);
      CallsOfNext(Calls(before, was, now), Call(last, was, now), h);
    }
  }

  ghost predicate AllGood<T(!new)>(r: Reader<T>, accepted: seq<string>) {
    forall i :: 0 <= i < |accepted| ==> Good(r, accepted[i])
  }

  /** The versions of some contents, each next to the one before. */
  ghost function Chain<T(!new)>(r: Reader<T>, h: HookId, accepted: seq<string>, from: nat): seq<Call<T>>
    requires 0 < from <= |accepted| && AllGood(r, accepted)
    decreases |accepted| - from
  {
    if from == |accepted| then []
    else
      [Call(h, r.decode(accepted[from - 1]).value, r.decode(accepted[from]).value)] + Chain(r, h, accepted, from + 1)
  }

  lemma {:induction false} ChainGrows<T(!new)>(r: Reader<T>, h: HookId, accepted: seq<string>, c: string, from: nat)
    requires 0 < from <= |accepted| && AllGood(r, accepted) && Good(r, c)
    ensures Chain(r, h, accepted + [c], from) ==
              Chain(r, h, accepted, from) + [Call(h, r.decode(accepted[|accepted| - 1]).value, r.decode(c).value)]
    decreases |accepted| - from
  {
    var more := accepted + [c];
    if from == |accepted| {
      assert Chain(r, h, more, from + 1) == [];
    } else {
      ChainGrows(r, h, accepted, c, from + 1);
    }
  }

  ghost predicate HooksOk<T(!new)>(s: State<T>) {
    && Distinct(s.hooks)
    && (forall h :: h in s.hooks <==> h in s.since)
    && (forall h :: h in s.since ==> 0 < s.since[h] <= |s.accepted|)
  }

  ghost predicate ChainsOk<T(!new)>(r: Reader<T>, s: State<T>) {
    && s.accepted != [] && AllGood(r, s.accepted)
    && s.cur == r.decode(s.accepted[|s.accepted| - 1])
    && HooksOk(s)
    && (forall h :: h in s.since ==> CallsOf(s.calls, h) == Chain(r, h, s.accepted, s.since[h]))
    && (forall h :: h !in s.since ==> CallsOf(s.calls, h) == [])
  }

  lemma ChainsContent<T(!new)>(r: Reader<T>, s: State<T>, content: string, s': State<T>)
    requires ChainsOk(r, s) && Changes(r, s, content, s')
    ensures ChainsOk(r, s')
  {
    hide CallsOf, Chain, Calls;
    if s' != s {
      forall h
        ensures h in s.since ==> CallsOf(s'.calls, h) == Chain(r, h, s'.accepted, s.since[h])
        ensures h !in s.since ==> CallsOf(s'.calls, h) == []
      {
        ChainOfHook(r, s, content, s', h);
      }
    }
  }

  lemma ChainOfHook<T(!new)>(r: Reader<T>, s: State<T>, content: string, s': State<T>, h: HookId)
    requires ChainsOk(r, s) && Changes(r, s, content, s') && s' != s && AllGood(r, s'.accepted)
    ensures h in s.since ==> h in s'.since && 0 < s.since[h] <= |s'.accepted|
    ensures h in s.since ==> CallsOf(s'.calls, h) == Chain(r, h, s'.accepted, s.since[h])
    ensures h !in s.since ==> CallsOf(s'.calls, h) == []
  {
    hide CallsOf, Chain, Calls;
    CallsOfConcat(s.calls, Calls(s.hooks, s.cur.value, r.decode(content).value), h);
    OneCall(s.hooks, s.cur.value, r.decode(content).value, h);
    if h in s.since {
      ChainGrows(r, h, s.accepted, content, s.since[h]);
    }
  }

  lemma ChainsHooked<T(!new)>(r: Reader<T>, s: State<T>, h: HookId)
    requires ChainsOk(r, s) && h !in s.since
    ensures ChainsOk(r, Hooked(s, h))
  {
    var s' := Hooked(s, h);
    assert h !in s.hooks;
    assert Chain(r, h, s.accepted, |s.accepted|) == [];
  }

  lemma {:induction false} ChainsAlong<T(!new)>(r: Reader<T>, first: string, ss: seq<State<T>>, es: seq<Event>, i: nat)
    requires IsRun(r, first, ss, es) && i < |ss|
    ensures ChainsOk(r, ss[i])
  {
    if i == 0 {
      assert CallsOf(ss[0].calls, 0) == [];
    } else {
      ChainsAlong(r, first, ss, es, i - 1);
      assert Steps(r, ss[i - 1], es[i - 1], ss[i]);
      hide ChainsOk;
      match es[i - 1]
      case Content(c) => ChainsContent(r, ss[i - 1], c, ss[i]);
      case OnChange(h) => ChainsHooked(r, ss[i - 1], h);
    }
  }

  /** A hook sees every version since it was registered, each call's old value the new value of the call before; the
      first old value is the version of its registration, the last new one the version in effect. */
  lemma HooksSeeTheChain<T(!new)>(r: Reader<T>, first: string, ss: seq<State<T>>, es: seq<Event>, i: nat, h: HookId)
    requires IsRun(r, first, ss, es) && i < |ss| && h in ss[i].since
    ensures 0 < ss[i].since[h] <= |ss[i].accepted| && AllGood(r, ss[i].accepted)
    ensures CallsOf(ss[i].calls, h) == Chain(r, h, ss[i].accepted, ss[i].since[h])
    ensures var calls := CallsOf(ss[i].calls, h);
            calls != [] ==> Some(calls[|calls| - 1].now) == ss[i].cur
  {
    ChainsAlong(r, first, ss, es, i);
    ChainEnds(r, h, ss[i].accepted, ss[i].since[h]);
  }

  lemma {:induction false} ChainEnds<T(!new)>(r: Reader<T>, h: HookId, accepted: seq<string>, from: nat)
    requires 0 < from <= |accepted| && AllGood(r, accepted)
    ensures var calls := Chain(r, h, accepted, from);
            && |calls| == |accepted| - from
            && (calls != [] ==> calls[|calls| - 1].now == r.decode(accepted[|accepted| - 1]).value)
            && (calls != [] ==> calls[0].was == r.decode(accepted[from - 1]).value)
            && (forall k :: 0 <= k < |calls| - 1 ==> calls[k].now == calls[k + 1].was)
    decreases |accepted| - from
  {
    if from < |accepted| {
      ChainEnds(r, h, accepted, from + 1);
      var calls, rest := Chain(r, h, accepted, from), Chain(r, h, accepted, from + 1);
      forall k | 0 <= k < |calls| - 1 ensures calls[k].now == calls[k + 1].was {
        if k > 0 {
          assert calls[k] == rest[k - 1] && calls[k + 1] == rest[k];
        }
      }
    }
  }

  // ------------------------------------------------------------------
  // What the records say
  // ------------------------------------------------------------------

  function ApplyAll(d: Doc, records: seq<seq<Change>>): Doc
    decreases |records|
  {
    if records == [] then d else Apply(ApplyAll(d, records[..|records| - 1]), records[|records| - 1])
  }

  /** The records, replayed on the first document, give the document in effect. */
  lemma {:induction false} RecordsReplay<T(!new)>(r: Reader<T>, first: string, ss: seq<State<T>>, es: seq<Event>,
                                                  i: nat)
    requires IsRun(r, first, ss, es) && i < |ss|
    ensures ApplyAll(r.flatten(first), ss[i].records) == ss[i].doc
  {
    if i > 0 {
      RecordsReplay(r, first, ss, es, i - 1);
      var s, s' := ss[i - 1], ss[i];
      assert Steps(r, s, es[i - 1], s');
      if s'.records != s.records {
        var diff :| s'.records == s.records + [diff] && IsDiff(s.doc, s'.doc, diff);
        DiffApplies(s.doc, s'.doc, diff);
        assert s'.records[..|s'.records| - 1] == s.records;
      }
    }
  }

  // ------------------------------------------------------------------
  // The value itself
  // ------------------------------------------------------------------

  class Value<T(!new)> {
    const reader: Reader<T>
    var cur: Option<T>
    var doc: Doc
    var hooks: seq<HookId>
    var calls: seq<Call<T>>               // the hooks' calls, panics and all
    var records: seq<seq<Change>>         // the records, before masking
    ghost var accepted: seq<string>
    ghost var since: map<HookId, nat>

    ghost function Now(): State<T> reads this { State(cur, doc, hooks, calls, records, accepted, since) }

    constructor (reader: Reader<T>)
      ensures this.reader == reader && Now() == State(None, map[], [], [], [], [], map[])
    {
      this.reader := reader;
      cur, doc, hooks, calls, records, accepted, since := None, map[], [], [], [], [], map[];
    }

    /** The first version, or an error when there is none to put into effect. */
    method Load(content: string) returns (ok: bool)
      requires Now() == State(None, map[], [], [], [], [], map[])
      modifies this
      ensures ok <==> Good(reader, content)
      ensures if ok then Loaded(reader, content, Now()) else Now() == old(Now())
    {
      if reader.blank(content) {
        return false;
      }
      var v := reader.decode(content);
      if v.None? {
        return false;
      }
      cur, doc, accepted := v, reader.flatten(content), [content];
      ok := true;
    }

    method OnChange(h: HookId)
      requires h !in since
      modifies this
      ensures Now() == Hooked(old(Now()), h)
    {
      hooks, since := hooks + [h], since[h := |accepted|];
    }

    /** A delivery from the watch. */
    method Changed(content: string)
      requires cur.Some?
      modifies this
      ensures Changes(reader, old(Now()), content, Now())
    {
      if reader.blank(content) {
        return;
      }
      var v := reader.decode(content);
      if v.None? {
        return;
      }
      var flat := reader.flatten(content);
      var diff := Diff(doc, flat);
      var was := cur.value;
      cur, doc, records, accepted := v, flat, records + [diff], accepted + [content];
      ghost var before := calls;
      ghost var all := Calls(hooks, was, v.value);
      for k := 0 to |hooks|
        invariant calls == before + all[..k]
        invariant cur == v && doc == flat && hooks == old(hooks) && records == old(records) + [diff]
        invariant accepted == old(accepted) + [content] && since == old(since)
        modifies this`calls
      {
        calls := calls + [Call(hooks[k], was, v.value)];
        assert all[..k + 1] == all[..k] + [all[k]];
      }
      assert all[..|hooks|] == all;
    }
  }
}
