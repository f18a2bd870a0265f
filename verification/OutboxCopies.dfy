/** How often a committed event is on the bus. Besides the produce its row is marked sent for there is one copy for
    every produce the bus took and did not acknowledge, and one for every rollback of a relay after an acknowledged
    produce; there are no others. */
module OutboxCopies {
  import opened Options
  import opened Fates
  import opened Outbox

  function Copies(bus: seq<Sent>, v: EventId): nat {
    if bus == [] then 0 else Copies(bus[..|bus| - 1], v) + if bus[|bus| - 1].event == v then 1 else 0
  }

  lemma CopiesNext(bus: seq<Sent>, s: Sent, v: EventId)
    ensures Copies(bus + [s], v) == Copies(bus, v) + if s.event == v then 1 else 0
  {
    assert (bus + [s])[..|bus|] == bus;
  }

  // ------------------------------------------------------------------
  // What makes a copy
  // ------------------------------------------------------------------

  /** The row the relay is at. */
  predicate IsAt(x: Relay, id: RowId) { x.done < |x.ids| && x.ids[x.done] == id }

  /** The bus takes the row's event, and the relay does not hear of it. */
  predicate Unheard(w: World, e: Event, id: RowId) {
    e.Produce? && e.fate.DoneUnacked? && e.relay in w.relays && IsAt(w.relays[e.relay], id)
  }

  /** The relay holds an acknowledged produce of the row, written in its transaction or about to be. */
  predicate Delivered(x: Relay, id: RowId) {
    (x.tried == Some(true) && IsAt(x, id)) || (id in x.writes && x.writes[id].sentAt.Some?)
  }

  /** A relay is rolled back after an acknowledged produce of the row. */
  predicate Undone(w: World, e: Event, id: RowId) {
    e.RollbackRelay? && e.relay in w.relays && Delivered(w.relays[e.relay], id)
  }

  predicate Extra(w: World, e: Event, id: RowId) { Unheard(w, e, id) || Undone(w, e, id) }

  ghost function Extras(ws: seq<World>, es: seq<Event>, id: RowId, n: nat): nat
    requires n <= |es| && n <= |ws|
  {
    if n == 0 then 0 else Extras(ws, es, id, n - 1) + if Extra(ws[n - 1], es[n - 1], id) then 1 else 0
  }

  /** The row is marked sent, or was before it was cleaned up, or a relay is about to mark it. */
  ghost predicate Stands(w: World, id: RowId) {
    id in w.born && (id !in w.rows || w.rows[id].sentAt.Some? || Carried(w.relays, id))
  }

  ghost predicate Carried(relays: map<RelayId, Relay>, id: RowId) {
    exists r :: r in relays && Delivered(relays[r], id)
  }

  // ------------------------------------------------------------------
  // The shape of a relay's transaction
  // ------------------------------------------------------------------

  /** It has written none but the rows before the one it is at, and no row stands in it twice. */
  ghost predicate InTurn(x: Relay) {
    && x.done <= |x.ids|
    && (forall i, j :: 0 <= i < j < |x.ids| ==> x.ids[i] != x.ids[j])
    && (forall id :: id in x.writes ==> id in x.ids[..x.done])
  }

  ghost predicate AllInTurn(relays: map<RelayId, Relay>) { forall r :: r in relays ==> InTurn(relays[r]) }

  lemma RecordInTurn(x: Relay, row: Row, now: int)
    requires InTurn(x) && x.tried.Some? && x.done < |x.ids|
    ensures InTurn(AfterRecord(x, row, now))
  {
    hide Backoff;
    assert x.ids[..x.done + 1] == x.ids[..x.done] + [x.ids[x.done]];
  }

  lemma InTurnStep(w: World, e: Event)
    requires AllInTurn(w.relays) && Enabled(w, e)
    ensures AllInTurn(Step(w, e).relays)
  {
    hide InTurn, AfterRecord;
    match e
    case Take(r, service, ids) => TakeInTurn(w, r, service, ids);
    case Produce(r, fate) => ProduceInTurn(w.relays[r], fate.Acked?);
    case Record(r) => RecordInTurn(w.relays[r], Current(w, r), w.now);
    case _ =>
  }

  lemma TakeInTurn(w: World, r: RelayId, service: Service, ids: seq<RowId>)
    requires Enabled(w, Take(r, service, ids))
    ensures InTurn(Relay(service, ids, 0, None, map[]))
  {
  }

  lemma ProduceInTurn(x: Relay, ok: bool)
    requires InTurn(x)
    ensures InTurn(x.(tried := Some(ok)))
  {
  }

  lemma {:induction false} InTurnAlong(ws: seq<World>, es: seq<Event>, i: nat)
    requires IsRun(ws, es) && i < |ws|
    ensures AllInTurn(ws[i].relays)
  {
    if i > 0 {
      InTurnAlong(ws, es, i - 1);
      InTurnStep(ws[i - 1], es[i - 1]);
    }
  }

  // ------------------------------------------------------------------
  // One step
  // ------------------------------------------------------------------

  /** Event v is the row's and no other's. */
  predicate Belongs(w: World, id: RowId, v: EventId) {
    (id in w.born ==> w.born[id].event == v) && (v in w.idOf ==> w.idOf[v] == id)
  }

  /** From w to w' the copies grow by the extra ones and by what has come to stand. */
  ghost predicate Accounted(w: World, w': World, id: RowId, v: EventId, extra: bool) {
    Copies(w'.bus, v) + (if Stands(w, id) then 1 else 0) ==
    Copies(w.bus, v) + (if extra then 1 else 0) + if Stands(w', id) then 1 else 0
  }

  /** A row a relay holds is committed and unsent, and no other relay holds it: it stands exactly with that relay. */
  lemma HolderDecides(w: World, r: RelayId, id: RowId)
    requires Inv(w) && AllInTurn(w.relays) && r in w.relays && id in w.relays[r].ids
    ensures id in w.born && id in w.rows && w.rows[id].sentAt.None?
    ensures Stands(w, id) <==> Delivered(w.relays[r], id)
    ensures forall q :: q in w.relays && Delivered(w.relays[q], id) ==> q == r
  {
    HeldRow(w, r, id);
    forall q | q in w.relays && Delivered(w.relays[q], id) ensures q == r {
      DeliveredIsHeld(w.relays[q], id);
      OneHolder(w, r, q, id);
    }
    hide Inv, AllInTurn, Delivered;
    if Delivered(w.relays[r], id) {
      assert Carried(w.relays, id);
    }
  }

  lemma HeldRow(w: World, r: RelayId, id: RowId)
    requires Inv(w) && r in w.relays && id in w.relays[r].ids
    ensures id in w.born && id in w.rows && w.rows[id].sentAt.None?
  {
    assert RelayOk(w.relays[r], w.rows, w.acked);
  }

  lemma OneHolder(w: World, r: RelayId, q: RelayId, id: RowId)
    requires Inv(w) && r in w.relays && q in w.relays && id in w.relays[r].ids && id in w.relays[q].ids
    ensures r == q
  {
  }

  lemma DeliveredIsHeld(x: Relay, id: RowId)
    requires InTurn(x) && Delivered(x, id)
    ensures id in x.ids
  {
  }

  /** Rows no relay holds stand as their row says. */
  lemma NoHolder(w: World, id: RowId)
    requires AllInTurn(w.relays) && forall q :: q in w.relays ==> id !in w.relays[q].ids
    ensures Stands(w, id) <==> id in w.born && (id !in w.rows || w.rows[id].sentAt.Some?)
  {
    forall q | q in w.relays ensures !Delivered(w.relays[q], id) {
      assert InTurn(w.relays[q]);
    }
  }

  /** Steps that leave the bus and the relays alone. */
  lemma QuietStep(w: World, e: Event, id: RowId, v: EventId)
    requires Inv(w) && AllInTurn(w.relays) && Enabled(w, e)
    requires e.Tick? || e.Insert? || e.RollbackTx? || e.Cleanup?
    ensures Accounted(w, Step(w, e), id, v, Extra(w, e, id))
  {
    hide Inv, Delivered, Carried, Copies;
  }

  lemma CommitTxStep(w: World, e: Event, id: RowId, v: EventId)
    requires Inv(w) && AllInTurn(w.relays) && Enabled(w, e) && e.CommitTx?
    ensures Accounted(w, Step(w, e), id, v, Extra(w, e, id))
  {
    hide Delivered, Copies, AllInTurn;
    if id in w.inserted[e.tx] {
      NewRows(w, e.tx, id);
    }
    if Carried(w.relays, id) {
      CarriedIsBorn(w, id);
    }
    hide Inv;
  }

  lemma NewRows(w: World, tx: TxId, id: RowId)
    requires Inv(w) && tx in w.inserted && id in w.inserted[tx]
    ensures id !in w.born && id !in w.rows && w.inserted[tx][id].sentAt.None?
  {
    assert InsertedAt(w.inserted[tx][id], id, w.idOf, w.born);
  }

  lemma CarriedIsBorn(w: World, id: RowId)
    requires Inv(w) && AllInTurn(w.relays) && Carried(w.relays, id)
    ensures id in w.born
  {
    var r :| r in w.relays && Delivered(w.relays[r], id);
    DeliveredIsHeld(w.relays[r], id);
    HeldRow(w, r, id);
  }

  /** When every relay's hold on the row is as before, and the row too, it stands as before. */
  lemma SameStands(w: World, w': World, id: RowId)
    requires w'.rows == w.rows && w'.born == w.born && w'.relays.Keys == w.relays.Keys
    requires forall q :: q in w.relays ==> (Delivered(w'.relays[q], id) <==> Delivered(w.relays[q], id))
    ensures Stands(w', id) <==> Stands(w, id)
  {
    hide Delivered;
  }

  lemma TakeStep(w: World, e: Event, id: RowId, v: EventId)
    requires Enabled(w, e) && e.Take?
    ensures Accounted(w, Step(w, e), id, v, Extra(w, e, id))
  {
    hide Copies;
    var w' := Step(w, e);
    assert !Delivered(w'.relays[e.relay], id);
    hide Delivered;
    assert forall q :: q in w.relays ==> w'.relays[q] == w.relays[q];
  }

  /** The row the relay is at was not written yet. */
  lemma NotYet(x: Relay, id: RowId)
    requires InTurn(x) && IsAt(x, id)
    ensures id !in x.writes && id in x.ids
  {
  }

  /** No two rows have one event. */
  lemma OwnEvent(w: World, r: RelayId, id: RowId, v: EventId)
    requires Inv(w) && AtRow(w, r) && Belongs(w, id, v)
    ensures Current(w, r).event == v <==> IsAt(w.relays[r], id)
  {
    var other := w.relays[r].ids[w.relays[r].done];
    assert other in w.born && SameEvent(w.rows[other], w.born[other]);
    assert Named(w.idOf, other, w.born[other]);
  }

  lemma ProduceDelivers(x: Relay, ok: bool, id: RowId)
    requires InTurn(x) && x.tried.None?
    ensures Delivered(x.(tried := Some(ok)), id) <==> if IsAt(x, id) then ok else Delivered(x, id)
    ensures IsAt(x, id) ==> !Delivered(x, id)
  {
    if IsAt(x, id) {
      NotYet(x, id);
    }
  }

  lemma ProduceMoves(w: World, e: Event, id: RowId, v: EventId)
    requires Inv(w) && Enabled(w, e) && e.Produce? && Belongs(w, id, v)
    ensures e.relay in w.relays && w.relays[e.relay].tried.None?
    ensures var x, w' := w.relays[e.relay], Step(w, e);
            && w'.rows == w.rows && w'.born == w.born
            && w'.relays == w.relays[e.relay := x.(tried := Some(e.fate.Acked?))]
            && Copies(w'.bus, v) == Copies(w.bus, v) + (if IsAt(x, id) && !e.fate.Lost? then 1 else 0)
            && (Extra(w, e, id) <==> IsAt(x, id) && e.fate.DoneUnacked?)
            && (IsAt(x, id) ==> id in x.ids)
  {
    hide Inv, Belongs, Copies;
    OwnEvent(w, e.relay, id, v);
    CopiesNext(w.bus, Sent(w.relays[e.relay].service, Current(w, e.relay).event), v);
  }

  lemma TurnOf(w: World, r: RelayId)
    requires AllInTurn(w.relays) && r in w.relays
    ensures InTurn(w.relays[r])
  {
  }

  lemma ProduceStep(w: World, e: Event, id: RowId, v: EventId)
    requires Inv(w) && AllInTurn(w.relays) && Enabled(w, e) && e.Produce? && Belongs(w, id, v)
    ensures Accounted(w, Step(w, e), id, v, Extra(w, e, id))
  {
    hide Inv, AllInTurn, Enabled, Step, Delivered, Copies, Belongs, Stands, InTurn, IsAt, Extra;
    ProduceMoves(w, e, id, v);
    var r, x, w' := e.relay, w.relays[e.relay], Step(w, e);
    TurnOf(w, r);
    ProduceDelivers(x, e.fate.Acked?, id);
    StepKeeps(w, e);
    InTurnStep(w, e);
    if IsAt(x, id) {
      HolderDecides(w, r, id);
      HolderDecides(w', r, id);
    } else {
      SameStands(w, w', id);
    }
  }

  lemma RecordDelivers(x: Relay, row: Row, now: int, id: RowId)
    requires InTurn(x) && x.tried.Some? && x.done < |x.ids| && row.sentAt.None?
    ensures Delivered(AfterRecord(x, row, now), id) <==> Delivered(x, id)
  {
    hide Backoff;
    if IsAt(x, id) {
      NotYet(x, id);
    }
  }

  lemma RecordMoves(w: World, e: Event, id: RowId)
    requires Inv(w) && AllInTurn(w.relays) && Enabled(w, e) && e.Record?
    ensures e.relay in w.relays && !Extra(w, e, id)
    ensures var w' := Step(w, e);
            && w'.rows == w.rows && w'.born == w.born && w'.bus == w.bus && w'.relays.Keys == w.relays.Keys
            && forall q :: q in w.relays ==> (Delivered(w'.relays[q], id) <==> Delivered(w.relays[q], id))
  {
    hide Inv, Delivered, AfterRecord, InTurn;
    var r, x := e.relay, w.relays[e.relay];
    HeldRow(w, r, x.ids[x.done]);
    RecordDelivers(x, Current(w, r), w.now, id);
  }

  lemma RecordStep(w: World, e: Event, id: RowId, v: EventId)
    requires Inv(w) && AllInTurn(w.relays) && Enabled(w, e) && e.Record?
    ensures Accounted(w, Step(w, e), id, v, Extra(w, e, id))
  {
    hide Inv, AllInTurn, Enabled, Step, Delivered, Copies, Stands, Extra;
    RecordMoves(w, e, id);
    SameStands(w, Step(w, e), id);
  }

  /** A relay ends: its rows are held by nobody, and the others are as they were. */
  lemma Released(w: World, r: RelayId, id: RowId)
    requires Inv(w) && AllInTurn(w.relays) && r in w.relays
    ensures id in w.relays[r].ids ==> forall q :: q in w.relays - {r} ==> id !in (w.relays - {r})[q].ids
    ensures id !in w.relays[r].ids ==> id !in w.relays[r].writes && !Delivered(w.relays[r], id)
    ensures id !in w.relays[r].ids ==> (Carried(w.relays - {r}, id) <==> Carried(w.relays, id))
  {
    assert InTurn(w.relays[r]);
    if id in w.relays[r].ids {
      forall q | q in w.relays && id in w.relays[q].ids ensures q == r {
        OneHolder(w, r, q, id);
      }
    } else {
      assert !Delivered(w.relays[r], id);
      hide Delivered, Inv, AllInTurn;
      if Carried(w.relays, id) {
        var q :| q in w.relays && Delivered(w.relays[q], id);
        assert q in w.relays - {r} && (w.relays - {r})[q] == w.relays[q];
      }
    }
  }

  lemma NothingTried(w: World, r: RelayId, id: RowId)
    requires Inv(w) && r in w.relays && w.relays[r].done == |w.relays[r].ids|
    ensures Delivered(w.relays[r], id) <==> id in w.relays[r].writes && w.relays[r].writes[id].sentAt.Some?
  {
    assert RelayOk(w.relays[r], w.rows, w.acked);
  }

  lemma EndStep(w: World, e: Event, id: RowId, v: EventId)
    requires Inv(w) && AllInTurn(w.relays) && Enabled(w, e) && (e.CommitRelay? || e.RollbackRelay?)
    ensures Accounted(w, Step(w, e), id, v, Extra(w, e, id))
  {
    hide Inv, AllInTurn, Delivered, Copies, InTurn, Carried;
    var r, x, w' := e.relay, w.relays[e.relay], Step(w, e);
    Released(w, r, id);
    InTurnStep(w, e);
    if e.CommitRelay? {
      NothingTried(w, r, id);
    }
    if id in x.ids {
      HolderDecides(w, r, id);
      NoHolder(w', id);
    }
  }

  lemma CopiesStep(w: World, e: Event, id: RowId, v: EventId)
    requires Inv(w) && AllInTurn(w.relays) && Enabled(w, e) && Belongs(w, id, v)
    ensures Accounted(w, Step(w, e), id, v, Extra(w, e, id))
  {
    hide *;
    match e
    case CommitTx(_) => CommitTxStep(w, e, id, v);
    case Take(_, _, _) => TakeStep(w, e, id, v);
    case Produce(_, _) => ProduceStep(w, e, id, v);
    case Record(_) => RecordStep(w, e, id, v);
    case CommitRelay(_) => EndStep(w, e, id, v);
    case RollbackRelay(_) => EndStep(w, e, id, v);
    case _ => QuietStep(w, e, id, v);
  }

  // ------------------------------------------------------------------
  // Whole runs
  // ------------------------------------------------------------------

  /** Up to where the row is committed, its event is its own. */
  lemma BelongsAlong(ws: seq<World>, es: seq<Event>, k: nat, i: nat, id: RowId)
    requires IsRun(ws, es) && k <= i < |ws| && id in ws[i].born
    ensures Belongs(ws[k], id, ws[i].born[id].event)
  {
    var v := ws[i].born[id].event;
    InvAlong(ws, es, i);
    EventOf(ws[i], id);
    hide IsRun, Inv;
    if id in ws[k].born {
      NothingIsLost(ws, es, k, i, id);
    }
    if v in ws[k].idOf {
      IdOfKept(ws, es, k, i, v);
    }
  }

  lemma EventOf(w: World, id: RowId)
    requires Inv(w) && id in w.born
    ensures w.born[id].event in w.idOf && w.idOf[w.born[id].event] == id
  {
    assert Named(w.idOf, id, w.born[id]);
  }

  lemma ExtrasNext(ws: seq<World>, es: seq<Event>, id: RowId, n: nat)
    requires n < |es| && n < |ws|
    ensures Extras(ws, es, id, n + 1) == Extras(ws, es, id, n) + if Extra(ws[n], es[n], id) then 1 else 0
  {
    hide Extra;
  }

  lemma NoneYet(ws: seq<World>, es: seq<Event>, id: RowId, v: EventId)
    requires IsRun(ws, es)
    ensures |ws| == |es| + 1 && Copies(ws[0].bus, v) == Extras(ws, es, id, 0) && !Stands(ws[0], id)
  {
  }

  lemma {:induction false} CopiesAlong(ws: seq<World>, es: seq<Event>, k: nat, i: nat, id: RowId)
    requires IsRun(ws, es) && k <= i < |ws| && |ws| == |es| + 1 && id in ws[i].born
    ensures Copies(ws[k].bus, ws[i].born[id].event) == Extras(ws, es, id, k) + if Stands(ws[k], id) then 1 else 0
  {
    hide *;
    var v := ws[i].born[id].event;
    NoneYet(ws, es, id, v);
    if k > 0 {
      CopiesAlong(ws, es, k - 1, i, id);
      InvAlong(ws, es, k - 1);
      InTurnAlong(ws, es, k - 1);
      BelongsAlong(ws, es, k - 1, i, id);
      StepOf(ws, es, k - 1);
      CopiesStep(ws[k - 1], es[k - 1], id, v);
      AccountedSum(ws[k - 1], ws[k], id, v, Extra(ws[k - 1], es[k - 1], id));
      ExtrasNext(ws, es, id, k - 1);
    }
  }

  lemma AccountedSum(w: World, w': World, id: RowId, v: EventId, extra: bool)
    requires Accounted(w, w', id, v, extra)
    ensures Copies(w'.bus, v) + (if Stands(w, id) then 1 else 0) ==
            Copies(w.bus, v) + (if extra then 1 else 0) + if Stands(w', id) then 1 else 0
  {
  }

  /** In every run: a committed event is on the bus once for every produce the bus took unheard, once for every
      rollback after an acknowledged produce, and once more when its row stands as sent. */
  lemma CopiesAreExact(ws: seq<World>, es: seq<Event>, i: nat, id: RowId)
    requires IsRun(ws, es) && i < |ws| && id in ws[i].born
    ensures Copies(ws[i].bus, ws[i].born[id].event) == Extras(ws, es, id, i) + if Stands(ws[i], id) then 1 else 0
  {
    CopiesAlong(ws, es, i, i, id);
  }

  lemma {:induction false} NoExtrasIff(ws: seq<World>, es: seq<Event>, id: RowId, n: nat)
    requires n <= |es| && n <= |ws|
    ensures Extras(ws, es, id, n) == 0 <==> forall k :: 0 <= k < n ==> !Extra(ws[k], es[k], id)
  {
    hide Extra;
    if n > 0 {
      NoExtrasIff(ws, es, id, n - 1);
    }
  }

  /** So an event whose row is marked sent, or was cleaned up after that, is on the bus exactly once if and only if no
      produce of it was taken unheard and no relay was rolled back after an acknowledged one. */
  lemma OnceIff(ws: seq<World>, es: seq<Event>, i: nat, id: RowId)
    requires IsRun(ws, es) && i < |ws| && id in ws[i].born
    requires id in ws[i].rows ==> ws[i].rows[id].sentAt.Some?
    ensures Copies(ws[i].bus, ws[i].born[id].event) >= 1
    ensures Copies(ws[i].bus, ws[i].born[id].event) == 1 <==> forall k :: 0 <= k < i ==> !Extra(ws[k], es[k], id)
  {
    hide Copies, Extra, Extras;
    CopiesAreExact(ws, es, i, id);
    NoExtrasIff(ws, es, id, i);
  }
}
