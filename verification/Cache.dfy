/** The read-through cache (redisx.Cache), one id: the database's committed versions, the entry in Redis, any number of
    Gets in any number of processes, each process with one flight for the id. A remembered "not found" is a version like
    any other. */
module Cache {
  import opened Options
  import opened Fates
  import opened Runs

  type GetId = nat
  type Proc = nat
  type Version = nat

  /** What a Get has come to. Alone: Redis did not answer, so it runs the loader for itself and keeps nothing.
      Loading: leading its process's flight, the loader running. Loaded: the loader read the database, or failed.
      Published: the flight's result is there to be waited for. */
  datatype Phase =
    | Looking(proc: Proc)
    | Alone(proc: Proc)
    | Missed(proc: Proc)
    | Waiting(leader: GetId)
    | Loading(proc: Proc)
    | Loaded(proc: Proc, got: Option<Version>)
    | Published(proc: Proc, got: Option<Version>)
    | Storing(got: Option<Version>)
    | Answered(got: Option<Version>)
    | Panicked

  datatype World = World(db: Version, entry: Option<Version>, flights: map<Proc, GetId>, gets: map<GetId, Phase>)

  const INIT: World := World(0, None, map[], map[])

  /** An entry that decodes if there is one, one that does not (it is loaded again and overwritten), or an error. */
  datatype Reply = Readable | Unreadable | NoReply

  datatype Event =
    | Commit                              // a write of the thing cached
    | Del(fate: Fate)
    | Expire
    | Begin(g: GetId, proc: Proc)
    | Lookup(g: GetId, reply: Reply)      // the GET in Redis
    | Join(g: GetId)                      // LoadOrStore
    | Read(g: GetId, ok: bool)            // the loader reads the database, or fails
    | Panic(g: GetId)                     // the loader panics
    | Publish(g: GetId)                   // wg.Done
    | Depart(g: GetId)                    // flight.Delete
    | Store(g: GetId, fate: Fate)         // the SET in Redis, if there is something to keep
    | Resume(g: GetId)                    // wg.Wait returns

  predicate In(w: World, g: GetId) { g in w.gets }

  /** The leader's result is there. */
  predicate Landed(w: World, l: GetId) {
    l in w.gets && (w.gets[l].Published? || w.gets[l].Storing? || w.gets[l].Answered?)
  }

  predicate Enabled(w: World, e: Event) {
    match e
    case Begin(g, _) => g !in w.gets
    case Lookup(g, _) => In(w, g) && w.gets[g].Looking?
    case Join(g) => In(w, g) && w.gets[g].Missed?
    case Read(g, _) => In(w, g) && (w.gets[g].Loading? || w.gets[g].Alone?)
    case Panic(g) => In(w, g) && (w.gets[g].Loading? || w.gets[g].Alone?)
    case Publish(g) => In(w, g) && w.gets[g].Loaded?
    case Depart(g) => In(w, g) && w.gets[g].Published?
    case Store(g, _) => In(w, g) && w.gets[g].Storing?
    case Resume(g) => In(w, g) && w.gets[g].Waiting? && Landed(w, w.gets[g].leader)
    case _ => true
  }

  function Put(w: World, g: GetId, p: Phase): map<GetId, Phase> { w.gets[g := p] }

  function Step(w: World, e: Event): World
    requires Enabled(w, e)
  {
    match e
    case Commit => w.(db := w.db + 1)
    case Del(fate) => if fate.Lost? then w else w.(entry := None)
    case Expire => w.(entry := None)
    case Begin(g, proc) => w.(gets := Put(w, g, Looking(proc)))
    case Lookup(g, reply) =>
      var proc := w.gets[g].proc;
      w.(gets := Put(w, g, if reply.NoReply? then Alone(proc)
                           else if reply.Readable? && w.entry.Some? then Answered(w.entry)
                           else Missed(proc)))
    case Join(g) =>
      var proc := w.gets[g].proc;
      if proc in w.flights then w.(gets := Put(w, g, Waiting(w.flights[proc])))
      else w.(gets := Put(w, g, Loading(proc)), flights := w.flights[proc := g])
    case Read(g, ok) =>
      var got := if ok then Some(w.db) else None;
      w.(gets := Put(w, g, if w.gets[g].Alone? then Answered(got) else Loaded(w.gets[g].proc, got)))
    case Panic(g) => w.(gets := Put(w, g, Panicked))
    case Publish(g) => w.(gets := Put(w, g, Published(w.gets[g].proc, w.gets[g].got)))
    case Depart(g) => w.(gets := Put(w, g, Storing(w.gets[g].got)), flights := w.flights - {w.gets[g].proc})
    case Store(g, fate) =>
      var got := w.gets[g].got;
      w.(gets := Put(w, g, Answered(got)), entry := if fate.Lost? || got.None? then w.entry else got)
    case Resume(g) => w.(gets := Put(w, g, Answered(w.gets[w.gets[g].leader].got)))
  }

  function Rules(): Protocol<World, Event> {
    Protocol((w: World, e: Event) => Enabled(w, e),
             (w: World, e: Event) => if Enabled(w, e) then Step(w, e) else w)
  }

  ghost predicate IsRun(ws: seq<World>, es: seq<Event>) {
    && |ws| == |es| + 1
    && ws[0] == INIT
    && forall i :: 0 <= i < |es| ==> Enabled(ws[i], es[i]) && ws[i + 1] == Step(ws[i], es[i])
  }

  // ------------------------------------------------------------------
  // One loader at a time
  // ------------------------------------------------------------------

  predicate Leads(p: Phase) { p.Loading? || p.Loaded? || p.Published? }

  ghost predicate LeadersFly(w: World) {
    forall g :: g in w.gets && Leads(w.gets[g]) ==> w.gets[g].proc in w.flights && w.flights[w.gets[g].proc] == g
  }

  ghost predicate FlightsAreLed(w: World) {
    forall proc :: proc in w.flights ==> w.flights[proc] in w.gets && LeadsFor(w.gets[w.flights[proc]], proc)
  }

  ghost predicate WaitersFollow(w: World) {
    forall g :: g in w.gets && w.gets[g].Waiting? ==>
      w.gets[g].leader in w.gets && Led(w.gets[w.gets[g].leader])
  }

  ghost predicate FlightsOk(w: World) { LeadersFly(w) && FlightsAreLed(w) && WaitersFollow(w) }

  predicate LeadsFor(p: Phase, proc: Proc) { p.Panicked? || (Leads(p) && p.proc == proc) }

  /** It leads a flight, or did. */
  predicate Led(p: Phase) { Leads(p) || p.Panicked? || p.Storing? || p.Answered? }

  lemma LeadersStep(w: World, e: Event)
    requires LeadersFly(w) && FlightsAreLed(w) && Enabled(w, e)
    ensures LeadersFly(Step(w, e))
  {
  }

  lemma FlownStep(w: World, e: Event)
    requires LeadersFly(w) && FlightsAreLed(w) && Enabled(w, e)
    ensures FlightsAreLed(Step(w, e))
  {
    var w' := Step(w, e);
    forall proc | proc in w'.flights
      ensures w'.flights[proc] in w'.gets && LeadsFor(w'.gets[w'.flights[proc]], proc)
    {
      if proc in w.flights {
        assert w.flights[proc] in w.gets && LeadsFor(w.gets[w.flights[proc]], proc);
      }
    }
  }

  lemma WaitersStep(w: World, e: Event)
    requires FlightsAreLed(w) && WaitersFollow(w) && Enabled(w, e)
    ensures WaitersFollow(Step(w, e))
  {
    var w' := Step(w, e);
    forall g | g in w'.gets && w'.gets[g].Waiting?
      ensures w'.gets[g].leader in w'.gets && Led(w'.gets[w'.gets[g].leader])
    {
      if g in w.gets && w.gets[g].Waiting? {
        assert w'.gets[g] == w.gets[g] && Led(w.gets[w.gets[g].leader]);
      }
    }
  }

  lemma FlightsStep(w: World, e: Event)
    requires FlightsOk(w) && Enabled(w, e)
    ensures FlightsOk(Step(w, e))
  {
    hide LeadersFly, FlightsAreLed, WaitersFollow, Step;
    LeadersStep(w, e);
    FlownStep(w, e);
    WaitersStep(w, e);
  }

  lemma {:induction false} FlightsAlong(ws: seq<World>, es: seq<Event>, i: nat)
    requires IsRun(ws, es) && i < |ws|
    ensures FlightsOk(ws[i])
  {
    if i > 0 {
      FlightsAlong(ws, es, i - 1);
      FlightsStep(ws[i - 1], es[i - 1]);
    }
  }

  /** In one process one load at a time, whatever the number of Gets. */
  lemma OneLoader(ws: seq<World>, es: seq<Event>, i: nat, g: GetId, h: GetId)
    requires IsRun(ws, es) && i < |ws| && g in ws[i].gets && h in ws[i].gets
    requires Leads(ws[i].gets[g]) && Leads(ws[i].gets[h]) && ws[i].gets[g].proc == ws[i].gets[h].proc
    ensures g == h
  {
    FlightsAlong(ws, es, i);
  }

  // ------------------------------------------------------------------
  // Stale entries
  // ------------------------------------------------------------------

  predicate Holds(p: Phase) { p.Loaded? || p.Published? || p.Storing? }

  /** Its load read the database at the r-th event. */
  predicate ReadAt(ws: seq<World>, es: seq<Event>, g: GetId, got: Option<Version>, r: nat) {
    r < |es| && r < |ws| && es[r] == Read(g, got.Some?) && (got.Some? ==> got.value == ws[r].db)
  }

  ghost predicate WasRead(ws: seq<World>, es: seq<Event>, g: GetId, got: Option<Version>, i: nat) {
    exists r :: 0 <= r < i && ReadAt(ws, es, g, got, r)
  }

  lemma {:induction false} HeldWasRead(ws: seq<World>, es: seq<Event>, i: nat, g: GetId)
    requires IsRun(ws, es) && i < |ws| && g in ws[i].gets && Holds(ws[i].gets[g])
    ensures WasRead(ws, es, g, ws[i].gets[g].got, i)
  {
    if i > 0 {
      var w, e := ws[i - 1], es[i - 1];
      if e.Read? && e.g == g {
        assert ReadAt(ws, es, g, ws[i].gets[g].got, i - 1);
      } else {
        assert g in w.gets && Holds(w.gets[g]) && w.gets[g].got == ws[i].gets[g].got;
        HeldWasRead(ws, es, i - 1, g);
        var r :| 0 <= r < i - 1 && ReadAt(ws, es, g, ws[i].gets[g].got, r);
        assert 0 <= r < i;
      }
    }
  }

  predicate PastRead(p: Phase) { !p.Looking? && !p.Alone? && !p.Missed? && !p.Waiting? && !p.Loading? }

  /** A load reads once. */
  lemma {:induction false} ReadOnce(ws: seq<World>, es: seq<Event>, r: nat, i: nat, g: GetId)
    requires IsRun(ws, es) && r < i < |ws| && es[r].Read? && es[r].g == g
    ensures g in ws[i].gets && PastRead(ws[i].gets[g])
  {
    if r + 1 < i {
      ReadOnce(ws, es, r, i - 1, g);
    }
  }

  lemma SameRead(ws: seq<World>, es: seq<Event>, q: nat, r: nat, g: GetId)
    requires IsRun(ws, es) && q < |es| && r < |es| && es[q].Read? && es[r].Read? && es[q].g == g == es[r].g
    ensures q == r
  {
    if q < r {
      ReadOnce(ws, es, q, r, g);
    } else if r < q {
      ReadOnce(ws, es, r, q, g);
    }
  }

  lemma {:induction false} VersionsGrow(ws: seq<World>, es: seq<Event>, i: nat, j: nat)
    requires IsRun(ws, es) && i <= j < |ws|
    ensures ws[i].db <= ws[j].db
    ensures (forall k :: i <= k < j ==> !es[k].Commit?) ==> ws[i].db == ws[j].db
    ensures (exists k :: i <= k < j && es[k].Commit?) ==> ws[i].db < ws[j].db
  {
    if i < j {
      VersionsGrow(ws, es, i, j - 1);
      if k :| i <= k < j && es[k].Commit? {
        assert k < j - 1 || k == j - 1;
      }
    }
  }

  /** The event writes the entry. */
  predicate Writes(w: World, e: Event) {
    || e.Expire? || (e.Del? && !e.fate.Lost?)
    || (e.Store? && !e.fate.Lost? && e.g in w.gets && w.gets[e.g].Storing? && w.gets[e.g].got.Some?)
  }

  /** A load that read before the a-th event stores at the k-th. */
  ghost predicate StoresOld(ws: seq<World>, es: seq<Event>, a: nat, k: nat) {
    k < |es| && k < |ws| && es[k].Store? && Writes(ws[k], es[k]) && ReadBefore(es, es[k].g, a)
  }

  ghost predicate ReadBefore(es: seq<Event>, g: GetId, a: nat) {
    exists r :: 0 <= r < a && r < |es| && es[r] == Read(g, true)
  }

  /** The last write of the entry before the i-th event, and what it wrote. */
  lemma {:induction false} EntryIsLastWrite(ws: seq<World>, es: seq<Event>, k: nat, i: nat)
    requires IsRun(ws, es) && k < i < |ws| && Writes(ws[k], es[k]) && forall m :: k < m < i ==> !Writes(ws[m], es[m])
    ensures ws[i].entry == if es[k].Store? then ws[k].gets[es[k].g].got else None
  {
    if k + 1 < i {
      EntryIsLastWrite(ws, es, k, i - 1);
      assert !Writes(ws[i - 1], es[i - 1]);
    }
  }

  lemma {:induction false} LastWrite(ws: seq<World>, es: seq<Event>, b: nat, i: nat) returns (k: nat)
    requires IsRun(ws, es) && b < i < |ws| && Writes(ws[b], es[b])
    ensures b <= k < i && Writes(ws[k], es[k]) && forall m :: k < m < i ==> !Writes(ws[m], es[m])
  {
    if b + 1 == i || Writes(ws[i - 1], es[i - 1]) {
      k := i - 1;
    } else {
      k := LastWrite(ws, es, b, i - 1);
    }
  }

  /** A stored version is old exactly when its load read before the commit. */
  lemma StoredOldIff(ws: seq<World>, es: seq<Event>, a: nat, k: nat, i: nat)
    requires IsRun(ws, es) && a < k < i < |ws| && es[a].Commit? && (forall m :: a < m < i ==> !es[m].Commit?)
    requires es[k].Store? && Writes(ws[k], es[k])
    ensures ws[k].gets[es[k].g].got.value != ws[i].db <==> ReadBefore(es, es[k].g, a)
  {
    var g, got := es[k].g, ws[k].gets[es[k].g].got;
    HeldWasRead(ws, es, k, g);
    var r :| 0 <= r < k && ReadAt(ws, es, g, got, r);
    VersionsGrow(ws, es, a, i);
    assert ws[a].db < ws[i].db;
    if r < a {
      VersionsGrow(ws, es, r, a);
      assert ReadBefore(es, g, a);
    } else {
      VersionsGrow(ws, es, r, i);
      assert r != a;
      if ReadBefore(es, g, a) {
        var q :| 0 <= q < a && es[q] == Read(g, true);
        SameRead(ws, es, q, r, g);
      }
    }
  }

  /** After a commit and the Del that follows it, the entry is stale if and only if a load that read before the commit
      stored its value after the Del, and nothing has written the entry since. */
  lemma StaleRefillIff(ws: seq<World>, es: seq<Event>, a: nat, b: nat, i: nat)
    requires IsRun(ws, es) && a < b < i < |ws| && es[a].Commit? && (forall m :: a < m < i ==> !es[m].Commit?)
    requires es[b].Del? && !es[b].fate.Lost?
    ensures ws[i].entry.Some? && ws[i].entry.value != ws[i].db <==>
              exists k :: b < k < i && StoresOld(ws, es, a, k) && forall m :: k < m < i ==> !Writes(ws[m], es[m])
  {
    var k := LastWrite(ws, es, b, i);
    EntryIsLastWrite(ws, es, k, i);
    if es[k].Store? {
      StoredOldIff(ws, es, a, k, i);
      assert ReadBefore(es, es[k].g, a) ==> StoresOld(ws, es, a, k);
    }
    forall q | b < q < i && StoresOld(ws, es, a, q) && forall m :: q < m < i ==> !Writes(ws[m], es[m]) ensures q == k {
      OneLastWrite(ws, es, k, q, i);
    }
  }

  lemma OneLastWrite(ws: seq<World>, es: seq<Event>, k: nat, q: nat, i: nat)
    requires |ws| == |es| + 1 && k < i <= |es| && q < i && Writes(ws[k], es[k]) && Writes(ws[q], es[q])
    requires forall m :: k < m < i ==> !Writes(ws[m], es[m])
    requires forall m :: q < m < i ==> !Writes(ws[m], es[m])
    ensures q == k
  {
  }

  // ------------------------------------------------------------------
  // Old answers
  // ------------------------------------------------------------------

  predicate HasResult(p: Phase) { Holds(p) || p.Answered? }

  /** What a waiter's leader has for a result is what its load read. */
  ghost predicate LeaderRead(ws: seq<World>, es: seq<Event>, i: nat, g: GetId)
    requires i < |ws|
  {
    g in ws[i].gets && ws[i].gets[g].Waiting? ==>
      var l := ws[i].gets[g].leader;
      l in ws[i].gets && (HasResult(ws[i].gets[l]) ==> WasRead(ws, es, l, ws[i].gets[l].got, i))
  }

  lemma WasReadLater(ws: seq<World>, es: seq<Event>, g: GetId, got: Option<Version>, i: nat)
    requires WasRead(ws, es, g, got, i)
    ensures WasRead(ws, es, g, got, i + 1)
  {
    var r :| 0 <= r < i && ReadAt(ws, es, g, got, r);
    assert 0 <= r < i + 1;
  }

  /** The leader of a flight keeps its result through publishing, departing and storing. */
  lemma ResultStays(w: World, e: Event, l: GetId)
    requires Enabled(w, e) && l in w.gets && Led(w.gets[l])
    ensures l in Step(w, e).gets && Led(Step(w, e).gets[l])
    ensures HasResult(Step(w, e).gets[l]) ==>
              (HasResult(w.gets[l]) && w.gets[l].got == Step(w, e).gets[l].got)
              || (w.gets[l].Loading? && e.Read? && e.g == l
                  && Step(w, e).gets[l].got == if e.ok then Some(w.db) else None)
  {
  }

  lemma {:induction false} LeaderReadAlong(ws: seq<World>, es: seq<Event>, i: nat, g: GetId)
    requires IsRun(ws, es) && i < |ws|
    ensures LeaderRead(ws, es, i, g)
  {
    if i > 0 && g in ws[i].gets && ws[i].gets[g].Waiting? {
      var w, e := ws[i - 1], es[i - 1];
      assert Enabled(w, e) && ws[i] == Step(w, e);
      FlightsAlong(ws, es, i - 1);
      LeaderReadAlong(ws, es, i - 1, g);
      if g in w.gets && w.gets[g].Waiting? {
        LeaderReadNext(ws, es, i, g);
      } else {
        var l := ws[i].gets[g].leader;
        assert e == Join(g) && l in w.gets && w.gets[l] == ws[i].gets[l];
        if HasResult(w.gets[l]) {
          HeldWasRead(ws, es, i, l);
        }
      }
    }
  }

  lemma LeaderReadNext(ws: seq<World>, es: seq<Event>, i: nat, g: GetId)
    requires IsRun(ws, es) && 0 < i < |ws| && FlightsOk(ws[i - 1]) && LeaderRead(ws, es, i - 1, g)
    requires g in ws[i].gets && ws[i].gets[g].Waiting? && g in ws[i - 1].gets && ws[i - 1].gets[g].Waiting?
    ensures LeaderRead(ws, es, i, g)
  {
    var w, e, l := ws[i - 1], es[i - 1], ws[i - 1].gets[g].leader;
    assert Enabled(w, e) && ws[i] == Step(w, e) && ws[i].gets[g] == w.gets[g];
    ResultStays(w, e, l);
    if HasResult(ws[i].gets[l]) {
      if HasResult(w.gets[l]) {
        WasReadLater(ws, es, l, w.gets[l].got, i - 1);
      } else {
        assert ReadAt(ws, es, l, ws[i].gets[l].got, i - 1);
      }
    }
  }

  /** A version read at r is old at i, one commit at a and none since, exactly when it was read before that commit. */
  lemma OldIff(ws: seq<World>, es: seq<Event>, a: nat, r: nat, i: nat)
    requires IsRun(ws, es) && a < i < |ws| && r < i && r != a
    requires es[a].Commit? && (forall m :: a < m < i ==> !es[m].Commit?)
    ensures ws[r].db != ws[i].db <==> r < a
  {
    VersionsGrow(ws, es, a, i);
    if r < a {
      VersionsGrow(ws, es, r, a);
    } else {
      VersionsGrow(ws, es, r, i);
    }
  }

  lemma NotBegunNotRead(ws: seq<World>, es: seq<Event>, b: nat, r: nat, g: GetId)
    requires IsRun(ws, es) && b < |es| && r < |es| && es[b].Begin? && es[b].g == g && es[r].Read? && es[r].g == g
    ensures b < r
  {
    assert Enabled(ws[b], es[b]) && Enabled(ws[r], es[r]);
    if r < b {
      ReadOnce(ws, es, r, b, g);
    }
  }

  /** The Get gets version v at the k-th event, having begun at the b-th, after the commit at the a-th; no commit
      since. */
  ghost predicate Answers(ws: seq<World>, es: seq<Event>, a: nat, b: nat, k: nat, g: GetId, v: Version) {
    && IsRun(ws, es) && a < b < k < |es| && es[a].Commit? && (forall m :: a < m <= k ==> !es[m].Commit?)
    && es[b].Begin? && es[b].g == g
    && g in ws[k].gets && !ws[k].gets[g].Answered?
    && g in ws[k + 1].gets && ws[k + 1].gets[g] == Answered(Some(v))
  }

  predicate Stale(w: World) { w.entry.Some? && w.entry.value != w.db }

  /** Of such an answer, by the event that gives it: a stale entry, or a flight whose load read before the commit. */
  lemma OldAnswerIff(ws: seq<World>, es: seq<Event>, a: nat, b: nat, k: nat, g: GetId, v: Version)
    requires Answers(ws, es, a, b, k, g, v)
    ensures v != ws[k + 1].db <==>
              || (es[k].Lookup? && Stale(ws[k]))
              || (es[k].Resume? && ReadBefore(es, ws[k].gets[g].leader, a))
  {
    var w, e := ws[k], es[k];
    assert Enabled(w, e) && ws[k + 1] == Step(w, e) && ws[k + 1].db == w.db;
    assert e.g == g && (e.Lookup? || e.Resume? || e.Read? || e.Store?);
    if e.Resume? {
      OldResumeIff(ws, es, a, b, k, g, v);
    } else if e.Store? {
      HeldWasRead(ws, es, k, g);
      var r :| 0 <= r < k && ReadAt(ws, es, g, Some(v), r);
      NotBegunNotRead(ws, es, b, r, g);
      OldIff(ws, es, a, r, k);
    }
  }

  lemma OldResumeIff(ws: seq<World>, es: seq<Event>, a: nat, b: nat, k: nat, g: GetId, v: Version)
    requires Answers(ws, es, a, b, k, g, v) && es[k] == Resume(g)
    ensures v != ws[k].db <==> ReadBefore(es, ws[k].gets[g].leader, a)
  {
    var w := ws[k];
    assert Enabled(w, es[k]) && ws[k + 1] == Step(w, es[k]);
    var l := w.gets[g].leader;
    LeaderReadAlong(ws, es, k, g);
    var r :| 0 <= r < k && ReadAt(ws, es, l, Some(v), r);
    OldIff(ws, es, a, r, k);
    if r < a {
      assert ReadBefore(es, l, a);
    }
    if ReadBefore(es, l, a) {
      var q :| 0 <= q < a && q < |es| && es[q] == Read(l, true);
      SameRead(ws, es, q, r, l);
    }
  }

  /** Of a Get that begins after the Del that follows the commit: its answer is old if and only if it finds what a load
      from before the commit stored after the Del, or joins the flight of such a load. */
  lemma OldAnswerAfterDelIff(ws: seq<World>, es: seq<Event>, a: nat, d: nat, b: nat, k: nat, g: GetId, v: Version)
    requires Answers(ws, es, a, b, k, g, v) && a < d < b && es[d].Del? && !es[d].fate.Lost?
    ensures v != ws[k + 1].db <==>
              || (es[k].Lookup?
                  && exists q :: d < q < k && StoresOld(ws, es, a, q)
                                 && forall m :: q < m < k ==> !Writes(ws[m], es[m]))
              || (es[k].Resume? && ReadBefore(es, ws[k].gets[g].leader, a))
  {
    OldAnswerIff(ws, es, a, b, k, g, v);
    StaleRefillIff(ws, es, a, d, k);
    hide StoresOld, Writes, ReadBefore;
  }

  lemma Extend(ws: seq<World>, es: seq<Event>, e: Event, w: World) returns (ws': seq<World>, es': seq<Event>)
    requires |ws| == |es| + 1 && IsRun(ws, es) && Enabled(ws[|es|], e) && Step(ws[|es|], e) == w
    ensures |ws'| == |es'| + 1 && IsRun(ws', es') && ws'[|es'|] == w && es' == es + [e] && ws' == ws + [w]
  {
    hide Step, Enabled;
    ws', es' := ws + [w], es + [e];
  }

  /** A load reads version 0, and stays away while a write commits version 1 and deletes the entry. */
  lemma SlowLoad() returns (ws: seq<World>, es: seq<Event>)
    ensures |ws| == |es| + 1 == 7 && IsRun(ws, es) && es[4] == Commit && es[5] == Del(Acked)
    ensures ws[6] == World(1, None, map[0 := 0], map[0 := Loaded(0, Some(0))])
  {
    ws, es := [INIT], [];
    ws, es := Extend(ws, es, Begin(0, 0), INIT.(gets := map[0 := Looking(0)]));
    ws, es := Extend(ws, es, Lookup(0, Readable), INIT.(gets := map[0 := Missed(0)]));
    ws, es := Extend(ws, es, Join(0), World(0, None, map[0 := 0], map[0 := Loading(0)]));
    ws, es := Extend(ws, es, Read(0, true), World(0, None, map[0 := 0], map[0 := Loaded(0, Some(0))]));
    ws, es := Extend(ws, es, Commit, World(1, None, map[0 := 0], map[0 := Loaded(0, Some(0))]));
    ws, es := Extend(ws, es, Del(Acked), World(1, None, map[0 := 0], map[0 := Loaded(0, Some(0))]));
  }

  /** Then it stores what it read: the entry is stale until it expires. */
  lemma StaleRefill() returns (ws: seq<World>, es: seq<Event>)
    ensures |ws| == |es| + 1 == 10 && IsRun(ws, es) && es[4] == Commit && es[5] == Del(Acked)
    ensures ws[9].entry == Some(0) && ws[9].db == 1
  {
    ws, es := SlowLoad();
    ws, es := Extend(ws, es, Publish(0), World(1, None, map[0 := 0], map[0 := Published(0, Some(0))]));
    assert map[0 := 0] - {0} == map[];
    ws, es := Extend(ws, es, Depart(0), World(1, None, map[], map[0 := Storing(Some(0))]));
    ws, es := Extend(ws, es, Store(0, Acked), World(1, Some(0), map[], map[0 := Answered(Some(0))]));
  }

  /** A Get that begins after the Del can join such a load and answer with the value before the commit. */
  lemma OldAnswer() returns (ws: seq<World>, es: seq<Event>)
    ensures |ws| == |es| + 1 == 12 && IsRun(ws, es) && es[4] == Commit && es[5] == Del(Acked) && es[6] == Begin(1, 0)
    ensures 1 in ws[11].gets && ws[11].gets[1] == Answered(Some(0)) && ws[11].db == 1
  {
    ws, es := LateJoin();
    var p := Published(0, Some(0));
    ws, es := Extend(ws, es, Publish(0), World(1, None, map[0 := 0], map[0 := p, 1 := Waiting(0)]));
    ws, es := Extend(ws, es, Resume(1), World(1, None, map[0 := 0], map[0 := p, 1 := Answered(Some(0))]));
  }

  lemma LateJoin() returns (ws: seq<World>, es: seq<Event>)
    ensures |ws| == |es| + 1 == 10 && IsRun(ws, es) && es[4] == Commit && es[5] == Del(Acked) && es[6] == Begin(1, 0)
    ensures ws[9] == World(1, None, map[0 := 0], map[0 := Loaded(0, Some(0)), 1 := Waiting(0)])
  {
    ws, es := SlowLoad();
    var l := Loaded(0, Some(0));
    ws, es := Extend(ws, es, Begin(1, 0), World(1, None, map[0 := 0], map[0 := l, 1 := Looking(0)]));
    ws, es := Extend(ws, es, Lookup(1, Readable), World(1, None, map[0 := 0], map[0 := l, 1 := Missed(0)]));
    ws, es := Extend(ws, es, Join(1), World(1, None, map[0 := 0], map[0 := l, 1 := Waiting(0)]));
  }

  // ------------------------------------------------------------------
  // Waiting
  // ------------------------------------------------------------------

  /** In no continuation does the Get get an answer. */
  ghost predicate Blocked(w: World, g: GetId) {
    forall es :: CanRun(Rules(), w, es) ==> g in Exec(Rules(), w, es).gets && Exec(Rules(), w, es).gets[g].Waiting?
  }

  lemma {:induction false} PanickedStays(w: World, g: GetId, es: seq<Event>)
    requires g in w.gets && w.gets[g].Waiting? && w.gets[g].leader in w.gets && w.gets[w.gets[g].leader].Panicked?
    requires CanRun(Rules(), w, es)
    ensures g in Exec(Rules(), w, es).gets && Exec(Rules(), w, es).gets[g].Waiting?
    decreases |es|
  {
    if es != [] {
      PanickedStays(Step(w, es[0]), g, es[1..]);
    }
  }

  /** The leader comes to a result, and the waiter to its answer. */
  lemma WaiterResumes(w: World, g: GetId) returns (es: seq<Event>)
    requires FlightsOk(w) && g in w.gets && w.gets[g].Waiting? && !w.gets[w.gets[g].leader].Panicked?
    ensures CanRun(Rules(), w, es) && g in Exec(Rules(), w, es).gets && !Exec(Rules(), w, es).gets[g].Waiting?
  {
    var l := w.gets[g].leader;
    es := [];
    var w1 := w;
    RunNothing(Rules(), w);
    if w1.gets[l].Loading? {
      RunNext(Rules(), w, es, Read(l, true));
      es, w1 := es + [Read(l, true)], Step(w1, Read(l, true));
    }
    if w1.gets[l].Loaded? {
      RunNext(Rules(), w, es, Publish(l));
      es, w1 := es + [Publish(l)], Step(w1, Publish(l));
    }
    assert Landed(w1, l);
    RunNext(Rules(), w, es, Resume(g));
    es := es + [Resume(g)];
  }

  /** A Get that waits is stuck for good if and only if the loader it waits for panicked: the flight is never taken
      down. */
  lemma BlockedIff(ws: seq<World>, es: seq<Event>, i: nat, g: GetId)
    requires IsRun(ws, es) && i < |ws| && g in ws[i].gets && ws[i].gets[g].Waiting?
    ensures ws[i].gets[g].leader in ws[i].gets
    ensures Blocked(ws[i], g) <==> ws[i].gets[ws[i].gets[g].leader].Panicked?
  {
    FlightsAlong(ws, es, i);
    var w := ws[i];
    if w.gets[w.gets[g].leader].Panicked? {
      forall more | CanRun(Rules(), w, more)
        ensures g in Exec(Rules(), w, more).gets && Exec(Rules(), w, more).gets[g].Waiting?
      {
        PanickedStays(w, g, more);
      }
    } else {
      var more := WaiterResumes(w, g);
    }
  }

  /** The flight of a leader that panicked. */
  predicate Dead(w: World, proc: Proc, l: GetId) {
    proc in w.flights && w.flights[proc] == l && l in w.gets && w.gets[l].Panicked?
  }

  lemma DeadStays(w: World, e: Event, proc: Proc, l: GetId)
    requires LeadersFly(w) && Enabled(w, e) && Dead(w, proc, l)
    ensures Dead(Step(w, e), proc, l)
  {
  }

  /** A Get of the process missed the entry and comes to its flight. */
  predicate Joins(w: World, e: Event, proc: Proc) { e.Join? && In(w, e.g) && w.gets[e.g] == Missed(proc) }

  lemma JoinsDead(w: World, e: Event, proc: Proc, l: GetId)
    requires Enabled(w, e) && Joins(w, e, proc) && Dead(w, proc, l)
    ensures var w' := Step(w, e);
            e.g in w'.gets && w'.gets[e.g] == Waiting(l) && l in w'.gets && w'.gets[l].Panicked?
  {
  }

  /** From a panic on, every Get of the process that misses the entry is stuck. */
  lemma {:induction false} PanicTakesTheFlight(ws: seq<World>, es: seq<Event>, i: nat, j: nat, proc: Proc)
    requires IsRun(ws, es) && i <= j < |ws| && proc in ws[i].flights && Dead(ws[i], proc, ws[i].flights[proc])
    ensures Dead(ws[j], proc, ws[i].flights[proc])
    ensures j < |es| && Joins(ws[j], es[j], proc) ==> Blocked(ws[j + 1], es[j].g)
  {
    hide Step, Enabled, Dead, Blocked, LeadersFly;
    var l := ws[i].flights[proc];
    if i < j {
      PanicTakesTheFlight(ws, es, i, j - 1, proc);
      FlightsAlong(ws, es, j - 1);
      DeadStays(ws[j - 1], es[j - 1], proc, l);
    }
    if j < |es| && Joins(ws[j], es[j], proc) {
      JoinsDead(ws[j], es[j], proc, l);
      BlockedIff(ws, es, j + 1, es[j].g);
    }
  }

  // ------------------------------------------------------------------
  // One Get between the others
  // ------------------------------------------------------------------

  predicate Mine(g: GetId, e: Event) { !e.Commit? && !e.Del? && !e.Expire? && e.g == g }

  ghost predicate Foreign(g: GetId, w: World, es: seq<Event>) { ByOthers(Rules(), e => Mine(g, e), w, es) }

  lemma {:induction false} ForeignKeeps(g: GetId, w: World, es: seq<Event>)
    requires Foreign(g, w, es)
    ensures CanRun(Rules(), w, es)
    ensures g in w.gets <==> g in Exec(Rules(), w, es).gets
    ensures g in w.gets ==> Exec(Rules(), w, es).gets[g] == w.gets[g]
    decreases |es|
  {
    if es != [] {
      assert es[0] in es;
      ForeignKeeps(g, Step(w, es[0]), es[1..]);
    }
  }
}

/** Get's own code, with the other Gets, the writers and Redis taking their steps in every pause. */
module ReadThrough {
  import opened Options
  import opened Fates
  import opened Runs
  import opened Cache

  type Others = (nat, World) -> seq<Event>

  ghost predicate Apart(g: GetId, others: Others) {
    forall k: nat, w: World :: Foreign(g, w, others(k, w))
  }

  datatype Loader = Finds | Fails | Panics

  /** A value or an error; or the wait for a result that is not there yet; or the loader's panic, passed on. */
  datatype Answer = Answer(got: Option<Version>) | StillWaiting | PanicPassedOn

  class CacheOf {
    const redis: bool
    var w: World

    constructor (redis: bool)
      ensures this.redis == redis && w == INIT
    {
      this.redis, w := redis, INIT;
    }

    method Pause(g: GetId, k: nat, others: Others, ghost es: seq<Event>, ghost w0: World)
      returns (ghost es': seq<Event>)
      requires Apart(g, others) && CanRun(Rules(), w0, es) && Exec(Rules(), w0, es) == w
      modifies this
      ensures CanRun(Rules(), w0, es') && Exec(Rules(), w0, es') == w
      ensures g in w.gets <==> g in old(w).gets
      ensures g in w.gets ==> w.gets[g] == old(w).gets[g]
    {
      var more := others(k, w);
      assert Foreign(g, w, more);
      ForeignKeeps(g, w, more);
      ExecAppend(Rules(), w0, es, more);
      es' := es + more;
      w := Exec(Rules(), w, more);
    }

    method Command(e: Event, g: GetId, ghost to: Phase, ghost es: seq<Event>, ghost w0: World)
      returns (ghost es': seq<Event>)
      requires CanRun(Rules(), w0, es) && Exec(Rules(), w0, es) == w && Takes(w, e, g, to)
      modifies this
      ensures w.gets == old(w).gets[g := to]
      ensures CanRun(Rules(), w0, es') && Exec(Rules(), w0, es') == w
    {
      hide CanRun, Exec, Step, Enabled;
      RunNext(Rules(), w0, es, e);
      es' := es + [e];
      w := Step(w, e);
    }

    /** The value from the cache, from the flight that is under way, or from the loader; what the loader found is
        kept. */
    method Get(g: GetId, proc: Proc, reply: Reply, load: Loader, store: Fate, others: Others)
      returns (answer: Answer, ghost es: seq<Event>)
      requires g !in w.gets && Apart(g, others)
      modifies this
      ensures CanRun(Rules(), old(w), es) && w == Exec(Rules(), old(w), es) && g in w.gets
      ensures match answer
              case Answer(got) => w.gets[g] == Answered(got)
              case StillWaiting => w.gets[g].Waiting?
              case PanicPassedOn => w.gets[g].Panicked? && load.Panics?
    {
      hide CanRun, Exec, Apart, Rules, Takes, Landed;
      ghost var w0 := w;
      RunNothing(Rules(), w0);
      BeginMoves(w, g, proc);
      es := Command(Begin(g, proc), g, Looking(proc), [], w0);
      es := Pause(g, 0, others, es, w0);
      var asked := if redis then reply else Unreadable;
      ghost var to := LookupMoves(w, g, asked);
      es := Command(Lookup(g, asked), g, to, es, w0);
      if w.gets[g].Answered? {
        return Answer(w.gets[g].got), es;
      }
      es := Pause(g, 1, others, es, w0);
      if w.gets[g].Missed? {
        to := JoinMoves(w, g);
        es := Command(Join(g), g, to, es, w0);
        es := Pause(g, 2, others, es, w0);
        if w.gets[g].Waiting? {
          if !Landed(w, w.gets[g].leader) {
            return StillWaiting, es;
          }
          to := ResumeMoves(w, g);
          es := Command(Resume(g), g, to, es, w0);
          return Answer(w.gets[g].got), es;
        }
      }
      if load.Panics? {
        PanicMoves(w, g);
        es := Command(Panic(g), g, Panicked, es, w0);
        return PanicPassedOn, es;
      }
      to := ReadMoves(w, g, load.Finds?);
      es := Command(Read(g, load.Finds?), g, to, es, w0);
      if w.gets[g].Answered? {
        return Answer(w.gets[g].got), es;
      }
      var got;
      got, es := Land(g, store, others, es, w0);
      answer := Answer(got);
    }

    /** The leader's result: published, the flight taken down, the value kept. */
    method Land(g: GetId, store: Fate, others: Others, ghost es: seq<Event>, ghost w0: World)
      returns (got: Option<Version>, ghost es': seq<Event>)
      requires Apart(g, others) && CanRun(Rules(), w0, es) && Exec(Rules(), w0, es) == w
      requires g in w.gets && w.gets[g].Loaded?
      modifies this
      ensures CanRun(Rules(), w0, es') && Exec(Rules(), w0, es') == w
      ensures g in w.gets && w.gets[g] == Answered(got)
    {
      hide CanRun, Exec, Apart, Rules, Takes;
      got := w.gets[g].got;
      var proc := w.gets[g].proc;
      es' := Pause(g, 3, others, es, w0);
      PublishMoves(w, g);
      es' := Command(Publish(g), g, Published(proc, got), es', w0);
      es' := Pause(g, 4, others, es', w0);
      DepartMoves(w, g);
      es' := Command(Depart(g), g, Storing(got), es', w0);
      es' := Pause(g, 5, others, es', w0);
      var fate := if redis then store else Lost;
      StoreMoves(w, g, fate);
      es' := Command(Store(g, fate), g, Answered(got), es', w0);
    }
  }

  // Where a Get's own steps lead it.

  predicate Takes(w: World, e: Event, g: GetId, to: Phase) { Enabled(w, e) && Step(w, e).gets == w.gets[g := to] }

  lemma BeginMoves(w: World, g: GetId, proc: Proc)
    requires g !in w.gets
    ensures Takes(w, Begin(g, proc), g, Looking(proc))
  {
  }

  lemma LookupMoves(w: World, g: GetId, reply: Reply) returns (to: Phase)
    requires g in w.gets && w.gets[g].Looking?
    ensures Takes(w, Lookup(g, reply), g, to) && (to.Answered? || to.Alone? || to.Missed?)
  {
    to := Step(w, Lookup(g, reply)).gets[g];
  }

  lemma JoinMoves(w: World, g: GetId) returns (to: Phase)
    requires g in w.gets && w.gets[g].Missed?
    ensures Takes(w, Join(g), g, to) && (to.Waiting? || to.Loading?)
  {
    to := Step(w, Join(g)).gets[g];
  }

  lemma ResumeMoves(w: World, g: GetId) returns (to: Phase)
    requires g in w.gets && w.gets[g].Waiting? && Landed(w, w.gets[g].leader)
    ensures Takes(w, Resume(g), g, to) && to.Answered?
  {
    to := Step(w, Resume(g)).gets[g];
  }

  lemma PanicMoves(w: World, g: GetId)
    requires g in w.gets && (w.gets[g].Loading? || w.gets[g].Alone?)
    ensures Takes(w, Panic(g), g, Panicked)
  {
  }

  lemma ReadMoves(w: World, g: GetId, ok: bool) returns (to: Phase)
    requires g in w.gets && (w.gets[g].Loading? || w.gets[g].Alone?)
    ensures Takes(w, Read(g, ok), g, to) && (if w.gets[g].Alone? then to.Answered? else to.Loaded?)
  {
    to := Step(w, Read(g, ok)).gets[g];
  }

  lemma PublishMoves(w: World, g: GetId)
    requires g in w.gets && w.gets[g].Loaded?
    ensures Takes(w, Publish(g), g, Published(w.gets[g].proc, w.gets[g].got))
  {
  }

  lemma DepartMoves(w: World, g: GetId)
    requires g in w.gets && w.gets[g].Published?
    ensures Takes(w, Depart(g), g, Storing(w.gets[g].got))
  {
  }

  lemma StoreMoves(w: World, g: GetId, fate: Fate)
    requires g in w.gets && w.gets[g].Storing?
    ensures Takes(w, Store(g, fate), g, Answered(w.gets[g].got))
  {
  }
}
