/** The transactional outbox (kafkax): rows written by business transactions, relayed to the bus by any
    number of relays, each inside a transaction of its own that locks the rows it took.

    A produce and the statement that records it are separate events, so a relay can die, or be rolled
    back, after the bus took the event and before the row says so. */
module Outbox {
  import opened Options
  import opened Fates
  import opened Runs
  import opened Numbers

  type RowId = nat
  type EventId = nat
  type TxId = nat
  type RelayId = nat
  type Service = string

  datatype Row = Row(service: Service, event: EventId, sentAt: Option<int>, attempts: nat, nextAt: int)

  type Rows = map<RowId, Row>

  const SECOND: nat := 1000
  const LONGEST: nat := 300000

  /** The wait before the next try of a failed row: a second shifted left, capped at five minutes. */
  function Backoff(attempts: nat): nat {
    var d := SECOND * Pow2(Min(attempts, 10));
    if d > LONGEST then LONGEST else d
  }

  /** What the relay writes to a row it tried. */
  function Tried(r: Row, ok: bool, now: int): Row {
    if ok then r.(sentAt := Some(now), attempts := r.attempts + 1)
    else r.(attempts := r.attempts + 1, nextAt := now + Backoff(r.attempts + 1))
  }

  predicate Waiting(r: Row, service: Service, now: int) {
    r.service == service && r.sentAt.None? && r.nextAt <= now
  }

  /** One open relay transaction: the rows it locked, how many it has dealt with, what it wrote so far. */
  datatype Relay = Relay(service: Service, ids: seq<RowId>, done: nat, tried: Option<bool>, writes: Rows)

  /** An event on the bus, and the service whose relay put it there. */
  datatype Sent = Sent(sender: Service, event: EventId)

  datatype World = World(
    rows: Rows,                      // committed
    nextId: RowId, nextEvent: EventId,
    inserted: map<TxId, Rows>,       // rows of business transactions still open
    relays: map<RelayId, Relay>,
    bus: seq<Sent>,                  // everything the bus took
    acked: set<EventId>,             // what it acknowledged to a relay
    born: Rows,                      // history: the rows of committed transactions, as inserted
    idOf: map<EventId, RowId>,       // history: the row an event id was made for
    now: int)

  function Init(now: int): World { World(map[], 0, 0, map[], map[], [], {}, map[], map[], now) }

  datatype Event =
    | Tick(to: int)
    | Insert(tx: TxId, service: Service)            // PublishTx inside tx
    | CommitTx(tx: TxId)
    | RollbackTx(tx: TxId)
    | Take(relay: RelayId, service: Service, ids: seq<RowId>)
    | Produce(relay: RelayId, fate: Fate)           // DoneUnacked: a timeout after the bus took it
    | Record(relay: RelayId)                        // the update after the produce
    | CommitRelay(relay: RelayId)
    | RollbackRelay(relay: RelayId)                 // a failed statement, a shutdown, a crash
    | Cleanup(gone: set<RowId>, retention: nat)

  predicate Locked(w: World, id: RowId) { exists r :: r in w.relays && id in w.relays[r].ids }

  predicate AtRow(w: World, r: RelayId) {
    r in w.relays && w.relays[r].done < |w.relays[r].ids| && w.relays[r].ids[w.relays[r].done] in w.rows
  }

  predicate Enabled(w: World, e: Event) {
    match e
    case Tick(to) => w.now <= to
    case CommitTx(tx) => tx in w.inserted
    case RollbackTx(tx) => tx in w.inserted
    case Take(r, service, ids) =>
      && r !in w.relays
      && (forall i, j :: 0 <= i < j < |ids| ==> ids[i] < ids[j])
      && (forall id :: id in ids ==> id in w.rows && Waiting(w.rows[id], service, w.now) && !Locked(w, id))
    case Produce(r, _) => AtRow(w, r) && w.relays[r].tried.None?
    case Record(r) => AtRow(w, r) && w.relays[r].tried.Some?
    case CommitRelay(r) => r in w.relays && w.relays[r].done == |w.relays[r].ids|
    case RollbackRelay(r) => r in w.relays
    case Cleanup(gone, retention) =>
      forall id :: id in gone ==> id in w.rows && w.rows[id].sentAt.Some? && w.rows[id].sentAt.value < w.now - retention
    case _ => true
  }

  function Inserted(w: World, tx: TxId): Rows { if tx in w.inserted then w.inserted[tx] else map[] }

  /** The row the relay is at. */
  function Current(w: World, r: RelayId): Row
    requires AtRow(w, r)
  {
    w.rows[w.relays[r].ids[w.relays[r].done]]
  }

  /** The relay wrote the row it is at. */
  function AfterRecord(x: Relay, row: Row, now: int): Relay
    requires x.tried.Some? && x.done < |x.ids|
  {
    x.(done := x.done + 1, tried := None, writes := x.writes[x.ids[x.done] := Tried(row, x.tried.value, now)])
  }

  function Step(w: World, e: Event): World
    requires Enabled(w, e)
  {
    match e
    case Tick(to) => w.(now := to)
    case Insert(tx, service) =>
      w.(inserted := w.inserted[tx := Inserted(w, tx)[w.nextId := Row(service, w.nextEvent, None, 0, w.now)]],
         idOf := w.idOf[w.nextEvent := w.nextId],
         nextId := w.nextId + 1, nextEvent := w.nextEvent + 1)
    case CommitTx(tx) =>
      w.(rows := w.rows + w.inserted[tx], born := w.born + w.inserted[tx], inserted := w.inserted - {tx})
    case RollbackTx(tx) => w.(inserted := w.inserted - {tx})
    case Take(r, service, ids) => w.(relays := w.relays[r := Relay(service, ids, 0, None, map[])])
    case Produce(r, fate) =>
      var x, row := w.relays[r], Current(w, r);
      w.(bus := if fate.Lost? then w.bus else w.bus + [Sent(x.service, row.event)],
         acked := if fate.Acked? then w.acked + {row.event} else w.acked,
         relays := w.relays[r := x.(tried := Some(fate.Acked?))])
    case Record(r) => w.(relays := w.relays[r := AfterRecord(w.relays[r], Current(w, r), w.now)])
    case CommitRelay(r) => w.(rows := w.rows + w.relays[r].writes, relays := w.relays - {r})
    case RollbackRelay(r) => w.(relays := w.relays - {r})
    case Cleanup(gone, _) => w.(rows := w.rows - gone)
  }

  function Rules(): Protocol<World, Event> {
    Protocol((w: World, e: Event) => Enabled(w, e),
             (w: World, e: Event) => if Enabled(w, e) then Step(w, e) else w)
  }

  ghost predicate IsRun(ws: seq<World>, es: seq<Event>) {
    && |ws| == |es| + 1
    && ws[0] == Init(ws[0].now)
    && forall i :: 0 <= i < |es| ==> Enabled(ws[i], es[i]) && ws[i + 1] == Step(ws[i], es[i])
  }

  // ------------------------------------------------------------------
  // The invariant
  // ------------------------------------------------------------------

  /** A row carries the event id that was made for it. */
  predicate Named(idOf: map<EventId, RowId>, id: RowId, r: Row) { r.event in idOf && idOf[r.event] == id }

  ghost predicate IdsOk(idOf: map<EventId, RowId>, nextId: RowId, nextEvent: EventId) {
    forall e :: e in idOf ==> e < nextEvent && idOf[e] < nextId
  }

  /** A row of an open transaction: its own event, unsent, not committed. */
  predicate InsertedAt(r: Row, id: RowId, idOf: map<EventId, RowId>, born: Rows) {
    Named(idOf, id, r) && r.sentAt.None? && id !in born
  }

  ghost predicate InsertedOk(inserted: map<TxId, Rows>, idOf: map<EventId, RowId>, born: Rows) {
    && (forall tx, id :: tx in inserted && id in inserted[tx] ==> InsertedAt(inserted[tx][id], id, idOf, born))
    && (forall tx, ux, id :: tx in inserted && ux in inserted && id in inserted[tx] && id in inserted[ux] ==> tx == ux)
  }

  ghost predicate BornOk(born: Rows, idOf: map<EventId, RowId>) {
    forall id :: id in born ==> Named(idOf, id, born[id])
  }

  predicate SameEvent(r: Row, s: Row) { r.event == s.event && r.service == s.service }

  /** A committed row is one of a committed transaction, and marked sent only with an acknowledgement. */
  ghost predicate RowsOk(rows: Rows, born: Rows, acked: set<EventId>) {
    forall id :: id in rows ==>
      && id in born && SameEvent(rows[id], born[id])
      && (rows[id].sentAt.Some? ==> rows[id].event in acked)
  }

  ghost predicate RelayOk(x: Relay, rows: Rows, acked: set<EventId>) {
    && x.done <= |x.ids|
    && (x.tried.Some? ==> x.done < |x.ids|)
    && (forall id :: id in x.ids ==> id in rows && rows[id].sentAt.None? && rows[id].service == x.service)
    && (x.tried == Some(true) ==> rows[x.ids[x.done]].event in acked)
    && (forall id :: id in x.writes ==>
          && id in x.ids && SameEvent(x.writes[id], rows[id])
          && (x.writes[id].sentAt.Some? ==> x.writes[id].event in acked))
  }

  ghost predicate RelaysOk(relays: map<RelayId, Relay>, rows: Rows, acked: set<EventId>) {
    forall r :: r in relays ==> RelayOk(relays[r], rows, acked)
  }

  /** No row is locked twice. */
  ghost predicate LocksOk(relays: map<RelayId, Relay>) {
    forall r, q, id :: r in relays && q in relays && id in relays[r].ids && id in relays[q].ids ==> r == q
  }

  /** What is on the bus was put there by its own service, for a committed row. */
  ghost predicate BusOk(bus: seq<Sent>, idOf: map<EventId, RowId>, born: Rows) {
    forall s :: s in bus ==>
      && s.event in idOf && idOf[s.event] in born
      && born[idOf[s.event]].event == s.event && born[idOf[s.event]].service == s.sender
  }

  ghost predicate AckedOk(bus: seq<Sent>, acked: set<EventId>) {
    forall e :: e in acked ==> exists s :: s in bus && s.event == e
  }

  /** Nothing committed is lost: the row is there, or its event was acknowledged. */
  ghost predicate Lossless(born: Rows, rows: Rows, acked: set<EventId>) {
    forall id :: id in born ==> id in rows || born[id].event in acked
  }

  ghost predicate Inv(w: World) {
    && IdsOk(w.idOf, w.nextId, w.nextEvent) && InsertedOk(w.inserted, w.idOf, w.born) && BornOk(w.born, w.idOf)
    && RowsOk(w.rows, w.born, w.acked) && RelaysOk(w.relays, w.rows, w.acked) && LocksOk(w.relays)
    && BusOk(w.bus, w.idOf, w.born) && AckedOk(w.bus, w.acked) && Lossless(w.born, w.rows, w.acked)
  }

  lemma StepKeeps(w: World, e: Event)
    requires Inv(w) && Enabled(w, e)
    ensures Inv(Step(w, e))
  {
    match e
    case Insert(_, _) => InsertKeeps(w, e);
    case CommitTx(_) => CommitTxKeeps(w, e);
    case Take(_, _, _) => TakeKeeps(w, e);
    case Produce(_, _) => ProduceKeeps(w, e);
    case Record(_) => RecordKeeps(w, e);
    case CommitRelay(_) => CommitRelayKeeps(w, e);
    case Cleanup(_, _) => CleanupKeeps(w, e);
    case _ =>
  }

  lemma FreshNames(idOf: map<EventId, RowId>, nextId: RowId, nextEvent: EventId, id: RowId, r: Row)
    requires IdsOk(idOf, nextId, nextEvent) && Named(idOf, id, r)
    ensures id < nextId && Named(idOf[nextEvent := nextId], id, r)
  {
  }

  lemma InsertedGrows(m: map<TxId, Rows>, m': map<TxId, Rows>, idOf: map<EventId, RowId>, born: Rows,
                      nextId: RowId, nextEvent: EventId, tx: TxId, r: Row)
    requires IdsOk(idOf, nextId, nextEvent) && InsertedOk(m, idOf, born) && BornOk(born, idOf)
    requires r.event == nextEvent && r.sentAt.None?
    requires m' == m[tx := (if tx in m then m[tx] else map[])[nextId := r]]
    ensures InsertedOk(m', idOf[nextEvent := nextId], born)
  {
    forall ux, id | ux in m' && id in m'[ux]
      ensures InsertedAt(m'[ux][id], id, idOf[nextEvent := nextId], born)
      ensures if id == nextId then ux == tx else ux in m && id in m[ux]
    {
      if ux in m && id in m[ux] {
        assert InsertedAt(m[ux][id], id, idOf, born);
        FreshNames(idOf, nextId, nextEvent, id, m[ux][id]);
      }
    }
  }

  lemma InsertKeeps(w: World, e: Event)
    requires Inv(w) && Enabled(w, e) && e.Insert?
    ensures Inv(Step(w, e))
  {
    var w' := Step(w, e);
    InsertedGrows(w.inserted, w'.inserted, w.idOf, w.born, w.nextId, w.nextEvent, e.tx,
                  Row(e.service, w.nextEvent, None, 0, w.now));
    forall id | id in w.born ensures Named(w'.idOf, id, w.born[id]) {
      FreshNames(w.idOf, w.nextId, w.nextEvent, id, w.born[id]);
    }
  }

  /** The rows of a committed transaction are new to the table. */
  lemma CommitMovesRows(inserted: map<TxId, Rows>, tx: TxId, idOf: map<EventId, RowId>, born: Rows, rows: Rows,
                        acked: set<EventId>)
    requires tx in inserted && InsertedOk(inserted, idOf, born) && BornOk(born, idOf) && RowsOk(rows, born, acked)
    ensures InsertedOk(inserted - {tx}, idOf, born + inserted[tx]) && BornOk(born + inserted[tx], idOf)
    ensures RowsOk(rows + inserted[tx], born + inserted[tx], acked)
    ensures forall id :: id in inserted[tx] ==> id !in born && id !in rows
  {
  }

  lemma MoreRows(x: Relay, rows: Rows, added: Rows, acked: set<EventId>)
    requires RelayOk(x, rows, acked) && forall id :: id in added ==> id !in rows
    ensures RelayOk(x, rows + added, acked)
  {
    assert x.tried.Some? ==> x.ids[x.done] in x.ids;
  }

  lemma CommitTxKeeps(w: World, e: Event)
    requires Inv(w) && Enabled(w, e) && e.CommitTx?
    ensures Inv(Step(w, e))
  {
    CommitMovesRows(w.inserted, e.tx, w.idOf, w.born, w.rows, w.acked);
    forall r | r in w.relays ensures RelayOk(w.relays[r], w.rows + w.inserted[e.tx], w.acked) {
      MoreRows(w.relays[r], w.rows, w.inserted[e.tx], w.acked);
    }
    hide InsertedOk, RowsOk, RelayOk, IdsOk, LocksOk, AckedOk, BornOk;
  }

  lemma TakeKeeps(w: World, e: Event)
    requires Inv(w) && Enabled(w, e) && e.Take?
    ensures Inv(Step(w, e))
  {
    var w' := Step(w, e);
    forall q, id | q in w.relays && id in w.relays[q].ids ensures id !in e.ids {
      assert Locked(w, id);
    }
    forall r | r in w'.relays ensures RelayOk(w'.relays[r], w'.rows, w'.acked) {
      if r in w.relays {
        assert RelayOk(w.relays[r], w.rows, w.acked);
      }
    }
  }

  lemma MoreAcked(x: Relay, rows: Rows, acked: set<EventId>, more: set<EventId>)
    requires RelayOk(x, rows, acked) && acked <= more
    ensures RelayOk(x, rows, more)
  {
  }

  lemma ProduceKeeps(w: World, e: Event)
    requires Inv(w) && Enabled(w, e) && e.Produce?
    ensures Inv(Step(w, e))
  {
    var w', r := Step(w, e), e.relay;
    assert RelayOk(w.relays[r], w.rows, w.acked);
    forall q | q in w'.relays ensures RelayOk(w'.relays[q], w'.rows, w'.acked) {
      MoreAcked(w.relays[q], w.rows, w.acked, w'.acked);
    }
    var s := Sent(w.relays[r].service, Current(w, r).event);
    assert w.bus <= w'.bus && (!e.fate.Lost? ==> s in w'.bus);
    forall v | v in w'.acked ensures exists t :: t in w'.bus && t.event == v {
      if v in w.acked {
        var t :| t in w.bus && t.event == v;
        assert t in w'.bus;
      }
    }
  }

  lemma RecordedOk(x: Relay, rows: Rows, acked: set<EventId>, now: int)
    requires RelayOk(x, rows, acked) && x.tried.Some? && x.done < |x.ids| && x.ids[x.done] in rows
    ensures RelayOk(AfterRecord(x, rows[x.ids[x.done]], now), rows, acked)
  {
    assert x.ids[x.done] in x.ids;
    hide Backoff;
  }

  lemma RecordKeeps(w: World, e: Event)
    requires Inv(w) && Enabled(w, e) && e.Record?
    ensures Inv(Step(w, e))
  {
    hide IdsOk, InsertedOk, BornOk, RowsOk, RelayOk, BusOk, AckedOk, Lossless;
    var w', r := Step(w, e), e.relay;
    forall q | q in w'.relays ensures RelayOk(w'.relays[q], w'.rows, w'.acked) {
      if q == r {
        RecordedOk(w.relays[r], w.rows, w.acked, w.now);
      }
    }
  }

  lemma WrittenRows(x: Relay, rows: Rows, born: Rows, acked: set<EventId>)
    requires RelayOk(x, rows, acked) && RowsOk(rows, born, acked) && Lossless(born, rows, acked)
    ensures RowsOk(rows + x.writes, born, acked) && Lossless(born, rows + x.writes, acked)
  {
  }

  lemma LockedApart(relays: map<RelayId, Relay>, r: RelayId, q: RelayId, rows: Rows, acked: set<EventId>)
    requires LocksOk(relays) && r in relays && q in relays && q != r && RelayOk(relays[r], rows, acked)
    ensures forall id :: id in relays[q].ids ==> id !in relays[r].writes
  {
  }

  lemma CommitRelayKeeps(w: World, e: Event)
    requires Inv(w) && Enabled(w, e) && e.CommitRelay?
    ensures Inv(Step(w, e))
  {
    hide IdsOk, InsertedOk, BornOk, RowsOk, RelayOk, BusOk, AckedOk, Lossless;
    var w', r := Step(w, e), e.relay;
    WrittenRows(w.relays[r], w.rows, w.born, w.acked);
    forall q | q in w'.relays ensures RelayOk(w'.relays[q], w'.rows, w'.acked) {
      LockedApart(w.relays, r, q, w.rows, w.acked);
      OtherRows(w.relays[q], w.rows, w.relays[r].writes, w.acked);
    }
  }

  lemma OtherRows(x: Relay, rows: Rows, writes: Rows, acked: set<EventId>)
    requires RelayOk(x, rows, acked) && forall id :: id in x.ids ==> id !in writes
    ensures RelayOk(x, rows + writes, acked)
  {
    assert x.tried.Some? ==> x.ids[x.done] in x.ids;
  }

  /** Only rows marked sent go, and those no relay holds. */
  lemma CleanedRelay(x: Relay, rows: Rows, gone: set<RowId>, acked: set<EventId>)
    requires RelayOk(x, rows, acked) && forall id :: id in gone ==> id in rows && rows[id].sentAt.Some?
    ensures RelayOk(x, rows - gone, acked)
  {
    assert x.tried.Some? ==> x.ids[x.done] in x.ids;
  }

  lemma CleanedRows(rows: Rows, gone: set<RowId>, born: Rows, acked: set<EventId>)
    requires RowsOk(rows, born, acked) && Lossless(born, rows, acked)
    requires forall id :: id in gone ==> id in rows && rows[id].sentAt.Some?
    ensures RowsOk(rows - gone, born, acked) && Lossless(born, rows - gone, acked)
  {
  }

  lemma CleanupKeeps(w: World, e: Event)
    requires Inv(w) && Enabled(w, e) && e.Cleanup?
    ensures Inv(Step(w, e))
  {
    hide IdsOk, InsertedOk, BornOk, RowsOk, RelayOk, BusOk, AckedOk, Lossless;
    var w' := Step(w, e);
    CleanedRows(w.rows, e.gone, w.born, w.acked);
    forall q | q in w'.relays ensures RelayOk(w'.relays[q], w'.rows, w'.acked) {
      CleanedRelay(w.relays[q], w.rows, e.gone, w.acked);
    }
  }

  lemma {:induction false} InvAlong(ws: seq<World>, es: seq<Event>, i: nat)
    requires IsRun(ws, es) && i < |ws|
    ensures Inv(ws[i])
  {
    if i > 0 {
      InvAlong(ws, es, i - 1);
      StepKeeps(ws[i - 1], es[i - 1]);
    }
  }

  // ------------------------------------------------------------------
  // What the outbox promises
  // ------------------------------------------------------------------

  /** A row says sent only when the bus acknowledged its event, and then the event is on the bus. */
  lemma SentMeansAcked(ws: seq<World>, es: seq<Event>, i: nat, id: RowId)
    requires IsRun(ws, es) && i < |ws| && id in ws[i].rows && ws[i].rows[id].sentAt.Some?
    ensures ws[i].rows[id].event in ws[i].acked
    ensures exists s :: s in ws[i].bus && s.event == ws[i].rows[id].event
  {
    InvAlong(ws, es, i);
  }

  /** What is on the bus belongs to one committed row, and that row's own service put it there. */
  lemma OnlyCommitted(ws: seq<World>, es: seq<Event>, i: nat, s: Sent)
    requires IsRun(ws, es) && i < |ws| && s in ws[i].bus
    ensures exists id :: id in ws[i].born && ws[i].born[id].event == s.event && ws[i].born[id].service == s.sender
    ensures forall id, id' :: id in ws[i].born && id' in ws[i].born ==>
              ws[i].born[id].event == s.event && ws[i].born[id'].event == s.event ==> id == id'
  {
    InvAlong(ws, es, i);
    assert ws[i].idOf[s.event] in ws[i].born;
    forall id | id in ws[i].born && ws[i].born[id].event == s.event ensures id == ws[i].idOf[s.event] {
      assert Named(ws[i].idOf, id, ws[i].born[id]);
    }
  }

  /** The id was handed out, and its transaction is neither open nor committed. */
  predicate RolledBack(w: World, id: RowId) {
    id < w.nextId && id !in w.born && forall tx :: tx in w.inserted ==> id !in w.inserted[tx]
  }

  lemma RolledBackStep(w: World, e: Event, id: RowId)
    requires Enabled(w, e) && RolledBack(w, id)
    ensures RolledBack(Step(w, e), id)
  {
    if e.Insert? {
      assert e.tx in w.inserted ==> id !in w.inserted[e.tx];
    }
  }

  lemma {:induction false} RolledBackStays(ws: seq<World>, es: seq<Event>, i: nat, j: nat, id: RowId)
    requires IsRun(ws, es) && i <= j < |ws| && RolledBack(ws[i], id)
    ensures RolledBack(ws[j], id)
  {
    if i < j {
      RolledBackStays(ws, es, i, j - 1, id);
      RolledBackStep(ws[j - 1], es[j - 1], id);
    }
  }

  /** The events of a transaction that rolls back are never on the bus, then or later. */
  lemma RolledBackIsNeverSent(ws: seq<World>, es: seq<Event>, i: nat, j: nat, id: RowId, s: Sent)
    requires IsRun(ws, es) && i < j < |ws|
    requires es[i].RollbackTx? && id in ws[i].inserted[es[i].tx] && s in ws[j].bus
    ensures s.event != ws[i].inserted[es[i].tx][id].event
  {
    InvAlong(ws, es, i);
    var r := ws[i].inserted[es[i].tx][id];
    assert Named(ws[i].idOf, id, r);
    RolledBackStays(ws, es, i + 1, j, id);
    IdOfKept(ws, es, i, j, r.event);
    InvAlong(ws, es, j);
  }

  lemma IdOfStep(w: World, e: Event, v: EventId)
    requires Inv(w) && Enabled(w, e) && v in w.idOf
    ensures v in Step(w, e).idOf && Step(w, e).idOf[v] == w.idOf[v]
  {
  }

  lemma {:induction false} IdOfKept(ws: seq<World>, es: seq<Event>, i: nat, j: nat, v: EventId)
    requires IsRun(ws, es) && i <= j < |ws| && v in ws[i].idOf
    ensures v in ws[j].idOf && ws[j].idOf[v] == ws[i].idOf[v]
  {
    hide *;
    if i < j {
      IdOfKept(ws, es, i, j - 1, v);
      InvAlong(ws, es, j - 1);
      StepOf(ws, es, j - 1);
      IdOfStep(ws[j - 1], es[j - 1], v);
    }
  }

  lemma KeptStep(w: World, e: Event, id: RowId)
    requires Inv(w) && Enabled(w, e) && id in w.born
    ensures var w' := Step(w, e);
            && id in w'.born && w'.born[id] == w.born[id] && w.acked <= w'.acked
            && (id in w.rows && w.rows[id].sentAt.None? ==> id in w'.rows)
            && (id in w.rows && id in w'.rows && w'.rows[id] != w.rows[id] ==>
                e.CommitRelay? && w.rows[id].sentAt.None?)
  {
    if e.CommitRelay? {
      assert RelayOk(w.relays[e.relay], w.rows, w.acked);
    }
  }

  /** A committed event is never lost: its row stays until it is sent, and goes only after it was acknowledged. */
  lemma {:induction false} NothingIsLost(ws: seq<World>, es: seq<Event>, i: nat, j: nat, id: RowId)
    requires IsRun(ws, es) && i <= j < |ws| && id in ws[i].born
    ensures id in ws[j].born && ws[j].born[id] == ws[i].born[id]
    ensures id in ws[j].rows ==> SameEvent(ws[j].rows[id], ws[i].born[id])
    ensures id !in ws[j].rows ==> ws[i].born[id].event in ws[j].acked
  {
    hide *;
    InvAlong(ws, es, j);
    if i < j {
      NothingIsLost(ws, es, i, j - 1, id);
      InvAlong(ws, es, j - 1);
      StepOf(ws, es, j - 1);
      KeptStep(ws[j - 1], es[j - 1], id);
    }
    RowOrAcked(ws[j], id);
  }

  lemma StepOf(ws: seq<World>, es: seq<Event>, k: nat)
    requires IsRun(ws, es) && k + 1 < |ws|
    ensures |ws| == |es| + 1 && Enabled(ws[k], es[k]) && ws[k + 1] == Step(ws[k], es[k])
  {
  }

  lemma RowOrAcked(w: World, id: RowId)
    requires Inv(w) && id in w.born
    ensures id in w.rows ==> SameEvent(w.rows[id], w.born[id])
    ensures id !in w.rows ==> w.born[id].event in w.acked
  {
  }

  /** A relay's transaction that is rolled back leaves its rows as they were, to be taken again by any relay
      of their service, even when the bus already has them. */
  lemma RollbackLeavesTheRows(w: World, r: RelayId, id: RowId, q: RelayId)
    requires Inv(w) && r in w.relays && id in w.relays[r].ids && (q == r || q !in w.relays)
    ensures var w' := Step(w, RollbackRelay(r));
            && w'.rows == w.rows && !Locked(w', id)
            && (Enabled(w', Take(q, w.rows[id].service, [id])) <==> w.rows[id].nextAt <= w.now)
  {
    assert RelayOk(w.relays[r], w.rows, w.acked);
    assert id in [id];
  }

  /** While a relay holds a row no other relay can take it. */
  lemma OneRelayPerRow(ws: seq<World>, es: seq<Event>, i: nat, r: RelayId, q: RelayId, id: RowId)
    requires IsRun(ws, es) && i < |ws| && r in ws[i].relays && q in ws[i].relays
    requires id in ws[i].relays[r].ids && id in ws[i].relays[q].ids
    ensures r == q && id in ws[i].rows
    ensures ws[i].rows[id].sentAt.None? && ws[i].rows[id].service == ws[i].relays[r].service
  {
    InvAlong(ws, es, i);
    assert RelayOk(ws[i].relays[r], ws[i].rows, ws[i].acked);
  }

  /** The first wait is two seconds, since the relay counts the attempt before it asks; then it doubles to five
      minutes. */
  lemma WaitsAfterFailures(r: Row, now: int)
    requires r.sentAt.None?
    ensures Tried(r, false, now).sentAt.None? && Tried(r, false, now).attempts == r.attempts + 1
    ensures Tried(r, false, now).nextAt - now == Min(SECOND * Pow2(r.attempts + 1), LONGEST)
    ensures Tried(r, false, now).nextAt - now >= 2 * SECOND
    ensures r.attempts == 0 ==> Tried(r, false, now).nextAt - now == 2 * SECOND
  {
    var n := r.attempts + 1;
    Pow2Grows(1, n);
    assert Pow2(1) == 2;
    if n > 10 {
      Pow2Grows(10, n);
      assert Pow2(10) == 1024;
    }
  }
}
