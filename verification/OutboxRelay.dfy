/** One round of a relay (kafkax.relayOnce), with the rest of the service and the other relays at work in
    every pause. The round is a run of the outbox model; when it commits, exactly the rows whose produce was
    acknowledged are sent. */
module OutboxRelay {
  import opened Options
  import opened Fates
  import opened Runs
  import opened Outbox

  predicate OfRelay(e: Event, r: RelayId) {
    (e.Take? || e.Produce? || e.Record? || e.CommitRelay? || e.RollbackRelay?) && e.relay == r
  }

  /** What everybody else does in a pause of relay r. */
  ghost predicate Foreign(r: RelayId, w: World, es: seq<Event>) {
    ByOthers(Rules(), e => OfRelay(e, r), w, es)
  }

  type Others = (nat, World) -> seq<Event>

  ghost predicate Apart(r: RelayId, others: Others) {
    forall k: nat, w: World :: Inv(w) ==> Foreign(r, w, others(k, w))
  }

  ghost predicate SameRows(ids: seq<RowId>, w: World, w': World) {
    forall id :: id in ids ==> id in w.rows && id in w'.rows && w'.rows[id] == w.rows[id]
  }

  lemma ForeignStep(r: RelayId, w: World, e: Event)
    requires Inv(w) && Enabled(w, e) && !OfRelay(e, r)
    ensures r in w.relays <==> r in Step(w, e).relays
    ensures r in w.relays ==> Step(w, e).relays[r] == w.relays[r]
    ensures r in w.relays ==> SameRows(w.relays[r].ids, w, Step(w, e))
  {
    if r in w.relays {
      assert RelayOk(w.relays[r], w.rows, w.acked);
      if e.CommitRelay? {
        assert RelayOk(w.relays[e.relay], w.rows, w.acked);
      } else if e.CommitTx? {
        assert forall id :: id in w.inserted[e.tx] ==> id !in w.rows;
      }
    }
  }

  lemma {:induction false} ForeignKeeps(r: RelayId, w: World, es: seq<Event>)
    requires Inv(w) && Foreign(r, w, es)
    ensures CanRun(Rules(), w, es)
    ensures Inv(Exec(Rules(), w, es))
    ensures r in w.relays <==> r in Exec(Rules(), w, es).relays
    ensures r in w.relays ==> Exec(Rules(), w, es).relays[r] == w.relays[r]
    ensures r in w.relays ==> SameRows(w.relays[r].ids, w, Exec(Rules(), w, es))
    decreases |es|
  {
    if es != [] {
      assert es[0] in es;
      ForeignStep(r, w, es[0]);
      StepKeeps(w, es[0]);
      ForeignKeeps(r, Step(w, es[0]), es[1..]);
      if r in w.relays {
        assert RelayOk(w.relays[r], w.rows, w.acked);
      }
    }
  }

  /** x' is x after row i: written as sent exactly if the produce was acknowledged. */
  ghost predicate Stored(x: Relay, x': Relay, i: nat)
    requires i < |x.ids| && x.tried.Some?
  {
    && x'.ids == x.ids && x'.done == i + 1 && x'.tried.None?
    && x.ids[i] in x'.writes && (x'.writes[x.ids[i]].sentAt.Some? <==> x.tried.value)
    && (forall id :: id in x.writes && id != x.ids[i] ==> id in x'.writes && x'.writes[id] == x.writes[id])
  }

  /** The transaction has dealt with the first i rows, each written as its produce went. */
  ghost predicate Through(x: Relay, ids: seq<RowId>, fates: seq<Fate>, i: nat)
    requires i <= |ids| == |fates|
  {
    && x.ids == ids && x.done == i && x.tried.None?
    && (forall k :: 0 <= k < i ==> ids[k] in x.writes && (x.writes[ids[k]].sentAt.Some? <==> fates[k].Acked?))
  }

  lemma ThroughNext(x: Relay, x': Relay, ids: seq<RowId>, fates: seq<Fate>, i: nat)
    requires i < |ids| == |fates| && Through(x, ids, fates, i) && Stored(x.(tried := Some(fates[i].Acked?)), x', i)
    requires forall j, k :: 0 <= j < k < |ids| ==> ids[j] != ids[k]
    ensures Through(x', ids, fates, i + 1)
  {
  }

  lemma AtItsRow(w: World, r: RelayId)
    requires Inv(w) && r in w.relays && w.relays[r].done < |w.relays[r].ids|
    ensures AtRow(w, r)
    ensures w.relays[r].tried.Some? ==> Enabled(w, Record(r))
    ensures w.relays[r].tried.None? ==> forall fate :: Enabled(w, Produce(r, fate))
  {
    assert RelayOk(w.relays[r], w.rows, w.acked);
    assert w.relays[r].ids[w.relays[r].done] in w.relays[r].ids;
  }

  lemma ProduceMoves(w: World, r: RelayId, fate: Fate)
    requires Enabled(w, Produce(r, fate))
    ensures Step(w, Produce(r, fate)).relays == w.relays[r := w.relays[r].(tried := Some(fate.Acked?))]
  {
  }

  lemma StoredAfter(w: World, r: RelayId)
    requires Inv(w) && Enabled(w, Record(r))
    ensures r in Step(w, Record(r)).relays && Stored(w.relays[r], Step(w, Record(r)).relays[r], w.relays[r].done)
  {
    assert RelayOk(w.relays[r], w.rows, w.acked);
    assert w.relays[r].ids[w.relays[r].done] in w.relays[r].ids;
  }

  lemma EndMoves(w: World, r: RelayId, commits: bool)
    requires Inv(w) && r in w.relays && (commits ==> w.relays[r].done == |w.relays[r].ids|)
    ensures var x, w' := w.relays[r], Step(w, if commits then CommitRelay(r) else RollbackRelay(r));
            forall k :: 0 <= k < |x.ids| ==>
              && x.ids[k] in w'.rows
              && (commits && x.ids[k] in x.writes ==> w'.rows[x.ids[k]] == x.writes[x.ids[k]])
              && (!commits ==> w'.rows[x.ids[k]].sentAt.None?)
  {
    assert RelayOk(w.relays[r], w.rows, w.acked);
    assert forall k :: 0 <= k < |w.relays[r].ids| ==> w.relays[r].ids[k] in w.relays[r].ids;
  }

  lemma TakenDistinct(w: World, r: RelayId, service: Service, ids: seq<RowId>)
    requires Enabled(w, Take(r, service, ids))
    ensures forall j, k :: 0 <= j < k < |ids| ==> ids[j] != ids[k]
  {
  }

  class Relayer {
    const r: RelayId
    const service: Service
    var w: World

    constructor (r: RelayId, service: Service, now: int)
      ensures this.r == r && this.service == service && w == Init(now)
    {
      this.r, this.service, w := r, service, Init(now);
    }

    method Pause(k: nat, others: Others, ghost es: seq<Event>, ghost w0: World) returns (ghost es': seq<Event>)
      requires Inv(w) && Apart(r, others) && CanRun(Rules(), w0, es) && Exec(Rules(), w0, es) == w
      modifies this
      ensures Inv(w) && CanRun(Rules(), w0, es') && Exec(Rules(), w0, es') == w
      ensures r in w.relays <==> r in old(w).relays
      ensures r in w.relays ==> w.relays[r] == old(w).relays[r]
      ensures r in w.relays ==> SameRows(w.relays[r].ids, old(w), w)
    {
      hide Inv, CanRun, Exec, Foreign, SameRows, Rules;
      var more := others(k, w);
      assert Foreign(r, w, more);
      ForeignKeeps(r, w, more);
      ExecAppend(Rules(), w0, es, more);
      es' := es + more;
      w := Exec(Rules(), w, more);
    }

    method Do(e: Event, ghost es: seq<Event>, ghost w0: World) returns (ghost es': seq<Event>)
      requires Inv(w) && Enabled(w, e) && CanRun(Rules(), w0, es) && Exec(Rules(), w0, es) == w
      modifies this
      ensures w == Step(old(w), e) && Inv(w)
      ensures CanRun(Rules(), w0, es') && Exec(Rules(), w0, es') == w
    {
      hide Inv, CanRun, Exec, Step, Enabled;
      StepKeeps(w, e);
      RunNext(Rules(), w0, es, e);
      es' := es + [e];
      w := Step(w, e);
    }

    /** The locking select. */
    method Begin(ids: seq<RowId>, ghost es: seq<Event>, ghost w0: World) returns (ghost es': seq<Event>)
      requires Inv(w) && CanRun(Rules(), w0, es) && Exec(Rules(), w0, es) == w && Enabled(w, Take(r, service, ids))
      modifies this
      ensures Inv(w) && CanRun(Rules(), w0, es') && Exec(Rules(), w0, es') == w
      ensures r in w.relays && w.relays[r] == Relay(service, ids, 0, None, map[])
    {
      hide Inv, CanRun, Exec, Rules;
      es' := Do(Take(r, service, ids), es, w0);
    }

    /** The produce of the row the transaction is at. */
    method ProduceRow(i: nat, fate: Fate, others: Others, ghost es: seq<Event>, ghost w0: World)
      returns (ghost es': seq<Event>)
      requires Inv(w) && Apart(r, others) && CanRun(Rules(), w0, es) && Exec(Rules(), w0, es) == w
      requires r in w.relays && w.relays[r].done == i < |w.relays[r].ids| && w.relays[r].tried.None?
      modifies this
      ensures Inv(w) && CanRun(Rules(), w0, es') && Exec(Rules(), w0, es') == w
      ensures r in w.relays && w.relays[r] == old(w).relays[r].(tried := Some(fate.Acked?))
    {
      hide Inv, CanRun, Exec, Foreign, Apart, Rules, Step, Enabled, AtRow, SameRows;
      es' := Pause(i, others, es, w0);
      AtItsRow(w, r);
      ProduceMoves(w, r, fate);
      es' := Do(Produce(r, fate), es', w0);
    }

    /** The statement after the produce. */
    method StoreRow(i: nat, others: Others, ghost es: seq<Event>, ghost w0: World) returns (ghost es': seq<Event>)
      requires Inv(w) && Apart(r, others) && CanRun(Rules(), w0, es) && Exec(Rules(), w0, es) == w
      requires r in w.relays && w.relays[r].done == i < |w.relays[r].ids| && w.relays[r].tried.Some?
      modifies this
      ensures Inv(w) && CanRun(Rules(), w0, es') && Exec(Rules(), w0, es') == w && r in w.relays
      ensures Stored(old(w).relays[r], w.relays[r], i)
    {
      hide Inv, CanRun, Exec, Foreign, Apart, Rules, Step, Enabled, AtRow, SameRows, Stored;
      es' := Pause(i, others, es, w0);
      AtItsRow(w, r);
      StoredAfter(w, r);
      es' := Do(Record(r), es', w0);
    }

    /** The end of the transaction. */
    method End(commits: bool, ghost es: seq<Event>, ghost w0: World) returns (ghost es': seq<Event>)
      requires Inv(w) && CanRun(Rules(), w0, es) && Exec(Rules(), w0, es) == w
      requires r in w.relays && (commits ==> w.relays[r].done == |w.relays[r].ids|)
      modifies this
      ensures Inv(w) && CanRun(Rules(), w0, es') && Exec(Rules(), w0, es') == w && r !in w.relays
      ensures var x := old(w).relays[r];
              forall k :: 0 <= k < |x.ids| ==>
                && x.ids[k] in w.rows
                && (commits && x.ids[k] in x.writes ==> w.rows[x.ids[k]] == x.writes[x.ids[k]])
                && (!commits ==> w.rows[x.ids[k]].sentAt.None?)
    {
      hide Inv, CanRun, Exec, Rules;
      EndMoves(w, r, commits);
      es' := Do(if commits then CommitRelay(r) else RollbackRelay(r), es, w0);
    }

    /** One row of the batch: its produce, and the statement after it or the rollback when that fails. */
    method RelayRow(i: nat, fate: Fate, stores: bool, others: Others, ghost es: seq<Event>, ghost w0: World)
      returns (ghost es': seq<Event>)
      requires Inv(w) && Apart(r, others) && CanRun(Rules(), w0, es) && Exec(Rules(), w0, es) == w
      requires r in w.relays && w.relays[r].done == i < |w.relays[r].ids| && w.relays[r].tried.None?
      modifies this
      ensures Inv(w) && CanRun(Rules(), w0, es') && Exec(Rules(), w0, es') == w
      ensures stores ==> r in w.relays && Stored(old(w).relays[r].(tried := Some(fate.Acked?)), w.relays[r], i)
      ensures !stores ==> r !in w.relays && forall k :: 0 <= k < |old(w).relays[r].ids| ==>
                            old(w).relays[r].ids[k] in w.rows && w.rows[old(w).relays[r].ids[k]].sentAt.None?
    {
      hide Inv, CanRun, Exec, Foreign, Apart, Step, Enabled, Stored;
      es' := ProduceRow(i, fate, others, es, w0);
      if stores {
        es' := StoreRow(i, others, es', w0);
      } else {
        es' := Pause(i, others, es', w0);
        es' := End(false, es', w0);
      }
    }

    /** The loop over the batch: to its end, or to the rollback when a statement fails. */
    method RelayRows(ids: seq<RowId>, fates: seq<Fate>, stores: seq<bool>, others: Others,
                     ghost es: seq<Event>, ghost w0: World)
      returns (ok: bool, ghost es': seq<Event>)
      requires Inv(w) && Apart(r, others) && CanRun(Rules(), w0, es) && Exec(Rules(), w0, es) == w
      requires |fates| == |stores| == |ids| && forall j, k :: 0 <= j < k < |ids| ==> ids[j] != ids[k]
      requires r in w.relays && Through(w.relays[r], ids, fates, 0)
      modifies this
      ensures Inv(w) && CanRun(Rules(), w0, es') && Exec(Rules(), w0, es') == w
      ensures ok <==> forall k :: 0 <= k < |stores| ==> stores[k]
      ensures ok ==> r in w.relays && Through(w.relays[r], ids, fates, |ids|)
      ensures !ok ==> r !in w.relays && forall k :: 0 <= k < |ids| ==> ids[k] in w.rows && w.rows[ids[k]].sentAt.None?
    {
      hide Inv, CanRun, Exec, Foreign, Apart, Step, Enabled, Rules, Stored;
      es' := es;
      var i := 0;
      while i < |ids|
        invariant 0 <= i <= |ids| && Inv(w)
        invariant CanRun(Rules(), w0, es') && Exec(Rules(), w0, es') == w
        invariant r in w.relays && Through(w.relays[r], ids, fates, i)
        invariant forall k :: 0 <= k < i ==> stores[k]
      {
        ghost var x := w.relays[r];
        es' := RelayRow(i, fates[i], stores[i], others, es', w0);
        if !stores[i] {
          return false, es';
        }
        ThroughNext(x, w.relays[r], ids, fates, i);
        i := i + 1;
      }
      ok := true;
    }

    /** `ids` is what the locking select returned; fates[k] is how the produce of row k goes, stores[k] whether
        the statement after it succeeds, commits whether the transaction commits. */
    method RelayOnce(ids: seq<RowId>, fates: seq<Fate>, stores: seq<bool>, commits: bool, others: Others)
      returns (n: nat, ok: bool, ghost es: seq<Event>)
      requires Inv(w) && Apart(r, others) && Enabled(w, Take(r, service, ids))
      requires |fates| == |stores| == |ids|
      modifies this
      ensures n == |ids| && Inv(w) && r !in w.relays
      ensures CanRun(Rules(), old(w), es) && w == Exec(Rules(), old(w), es)
      ensures ok <==> commits && forall k :: 0 <= k < |stores| ==> stores[k]
      ensures forall k :: 0 <= k < |ids| ==>
                            ids[k] in w.rows && (w.rows[ids[k]].sentAt.Some? <==> ok && fates[k].Acked?)
    {
      hide Inv, CanRun, Exec, Foreign, Apart, Step, Enabled, Rules, Stored;
      TakenDistinct(w, r, service, ids);
      ghost var w0 := w;
      RunNothing(Rules(), w0);
      n := |ids|;
      es := Begin(ids, [], w0);
      ok, es := RelayRows(ids, fates, stores, others, es, w0);
      if ok {
        es := Pause(|ids|, others, es, w0);
        es := End(commits, es, w0);
        ok := commits;
      }
    }
  }
}
