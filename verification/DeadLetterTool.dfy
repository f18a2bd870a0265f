/** The replay command against one dlq topic. The fields stand for what the command can see and change: the log of
    the topic, the tool group's committed offsets, and what this service's handler has been through. */
module DeadLetterTool {
  import opened DeadLetters

  /** The records of this service among those given. */
  function Own(service: string, rs: seq<Rec>): set<Rec> { set r | r in rs && ParkedHere(service, r) }

  lemma OwnNext(service: string, rs: seq<Rec>, k: nat)
    requires k < |rs|
    ensures Own(service, rs[..k + 1]) == Own(service, rs[..k]) + if ParkedHere(service, rs[k]) then {rs[k]} else {}
  {
    assert rs[..k + 1] == rs[..k] + [rs[k]];
  }

  lemma NoneOwn(service: string, rs: seq<Rec>)
    ensures Own(service, rs[..0]) == {}
  {
  }

  lemma DoneIs(service: string, ok: Outcome, rs: seq<Rec>, k: nat)
    requires k <= |rs| && forall i :: 0 <= i < k ==> Passes(service, ok, rs[i])
    requires k < |rs| ==> !Passes(service, ok, rs[k])
    ensures Done(service, ok, rs) == k
  {
  }

  lemma {:induction false} InPartitionNext(recs: seq<Rec>, r: Rec, p: Partition)
    ensures InPartition(recs + [r], p) == InPartition(recs, p) + if r.partition == p then [r] else []
  {
    if recs != [] {
      InPartitionNext(recs[1..], r, p);
      assert (recs + [r])[1..] == recs[1..] + [r];
    } else {
      assert (recs + [r])[1..] == [];
    }
  }

  lemma NoneThere(recs: seq<Rec>, p: Partition)
    requires p !in Partitions(recs)
    ensures InPartition(recs, p) == []
  {
    assert forall r :: r in recs ==> r.partition in Partitions(recs);
  }

  ghost predicate Grouped(m: map<Partition, seq<Rec>>, recs: seq<Rec>) {
    m.Keys == Partitions(recs) && forall p :: p in m ==> m[p] == InPartition(recs, p)
  }

  lemma PartitionsNext(recs: seq<Rec>, r: Rec)
    ensures Partitions(recs + [r]) == Partitions(recs) + {r.partition}
  {
  }

  function WithRec(m: map<Partition, seq<Rec>>, r: Rec): map<Partition, seq<Rec>> {
    m[r.partition := (if r.partition in m then m[r.partition] else []) + [r]]
  }

  lemma GroupedAt(m: map<Partition, seq<Rec>>, recs: seq<Rec>, r: Rec, p: Partition)
    requires Grouped(m, recs)
    ensures p in WithRec(m, r) <==> p in Partitions(recs + [r])
    ensures p in WithRec(m, r) ==> WithRec(m, r)[p] == InPartition(recs + [r], p)
  {
    hide Partitions, InPartition;
    PartitionsNext(recs, r);
    InPartitionNext(recs, r, p);
    if p !in Partitions(recs) {
      NoneThere(recs, p);
    }
  }

  lemma GroupedNext(m: map<Partition, seq<Rec>>, recs: seq<Rec>, i: nat)
    requires i < |recs| && Grouped(m, recs[..i])
    ensures Grouped(WithRec(m, recs[i]), recs[..i + 1])
  {
    hide Partitions, InPartition, WithRec;
    var r, before := recs[i], recs[..i];
    assert recs[..i + 1] == before + [r];
    forall p
      ensures p in WithRec(m, r) <==> p in Partitions(before + [r])
      ensures p in WithRec(m, r) ==> WithRec(m, r)[p] == InPartition(before + [r], p)
    {
      GroupedAt(m, before, r, p);
    }
  }

  lemma GroupIsQueue(m: map<Partition, seq<Rec>>, recs: seq<Rec>, p: Partition)
    requires Grouped(m, recs) && p in m
    ensures ByOffset(m[p]) == Queue(recs, p)
  {
  }

  lemma GroupsAre(m: map<Partition, seq<Rec>>, recs: seq<Rec>)
    requires Grouped(m, recs)
    ensures m.Keys == Partitions(recs)
  {
  }

  /** What the replay has done once it is through with the partitions of `ps`. */
  function HandledIn(service: string, ok: Outcome, recs: seq<Rec>, ps: set<Partition>): set<Rec> {
    set r | r in recs && r.partition in ps &&
            r in Own(service, Queue(recs, r.partition)[..DoneIn(service, ok, recs, r.partition)])
  }

  function MarksIn(service: string, ok: Outcome, recs: seq<Rec>, ps: set<Partition>): map<Partition, nat> {
    map p | p in ps && DoneIn(service, ok, recs, p) > 0 ::
      Queue(recs, p)[DoneIn(service, ok, recs, p) - 1].offset + 1
  }

  lemma HandledInNext(service: string, ok: Outcome, recs: seq<Rec>, ps: set<Partition>, p: Partition)
    requires p !in ps
    ensures var more := Own(service, Queue(recs, p)[..DoneIn(service, ok, recs, p)]);
            HandledIn(service, ok, recs, ps + {p}) == HandledIn(service, ok, recs, ps) + more
  {
    hide DoneIn;
    var n := DoneIn(service, ok, recs, p);
    forall r | r in Own(service, Queue(recs, p)[..n]) ensures r in recs && r.partition == p {
      assert r in Queue(recs, p);
    }
  }

  lemma MarksInNext(service: string, ok: Outcome, recs: seq<Rec>, ps: set<Partition>, p: Partition)
    requires p !in ps
    ensures var n, marks := DoneIn(service, ok, recs, p), MarksIn(service, ok, recs, ps);
            MarksIn(service, ok, recs, ps + {p}) ==
            if n > 0 then marks[p := Queue(recs, p)[n - 1].offset + 1] else marks
  {
    hide Queue, Done;
  }

  lemma NothingYet(service: string, ok: Outcome, recs: seq<Rec>)
    ensures HandledIn(service, ok, recs, {}) == {} && MarksIn(service, ok, recs, {}) == map[]
  {
  }

  lemma AllHandled(service: string, ok: Outcome, recs: seq<Rec>)
    ensures HandledIn(service, ok, recs, Partitions(recs)) == HandledBy(service, ok, recs)
    ensures MarksIn(service, ok, recs, Partitions(recs)) == Marks(service, ok, recs)
  {
    hide DoneIn, Queue;
  }

  /** A partition's queue is passed to its end exactly when every record of this service in it passes. */
  predicate Clear(service: string, ok: Outcome, recs: seq<Rec>, p: Partition) {
    DoneIn(service, ok, recs, p) == |Queue(recs, p)|
  }

  lemma ClearIff(service: string, ok: Outcome, recs: seq<Rec>, p: Partition)
    ensures Clear(service, ok, recs, p) <==> forall r :: r in recs && r.partition == p ==> Passes(service, ok, r)
  {
    var q := Queue(recs, p);
    if Clear(service, ok, recs, p) {
      forall r | r in recs && r.partition == p ensures Passes(service, ok, r) {
        assert r in q;
      }
    } else {
      assert q[DoneIn(service, ok, recs, p)] in q;
    }
  }

  lemma ClearAll(service: string, ok: Outcome, recs: seq<Rec>)
    ensures (forall p :: p in Partitions(recs) ==> Clear(service, ok, recs, p)) <==>
            forall r :: r in recs ==> Passes(service, ok, r)
  {
    hide Clear;
    forall p
      ensures Clear(service, ok, recs, p) <==> forall r :: r in recs && r.partition == p ==> Passes(service, ok, r)
    {
      ClearIff(service, ok, recs, p);
    }
    assert forall r :: r in recs ==> r.partition in Partitions(recs);
  }

  /** Through with the partitions of `gone`: what was handled and marked there, and whether all of it passed. */
  ghost predicate Through(service: string, ok: Outcome, recs: seq<Rec>, gone: set<Partition>,
                          before: set<Rec>, handled: set<Rec>, done: map<Partition, nat>, failed: nat) {
    && handled == before + HandledIn(service, ok, recs, gone)
    && done == MarksIn(service, ok, recs, gone)
    && (failed == 0 <==> forall p :: p in gone ==> Clear(service, ok, recs, p))
  }

  lemma ClearNext(service: string, ok: Outcome, recs: seq<Rec>, gone: set<Partition>, failed: nat, p: Partition,
                  failed': nat)
    requires failed == 0 <==> forall x :: x in gone ==> Clear(service, ok, recs, x)
    requires failed' == if Clear(service, ok, recs, p) then failed else failed + 1
    ensures failed' == 0 <==> forall x :: x in gone + {p} ==> Clear(service, ok, recs, x)
  {
    hide Clear;
    if failed' == 0 {
      assert failed == 0;
    }
  }

  lemma ClearIs(service: string, ok: Outcome, recs: seq<Rec>, p: Partition)
    ensures DoneIn(service, ok, recs, p) == Done(service, ok, Queue(recs, p))
    ensures Clear(service, ok, recs, p) <==> Done(service, ok, Queue(recs, p)) == |Queue(recs, p)|
  {
  }

  lemma ThroughNext(service: string, ok: Outcome, recs: seq<Rec>, gone: set<Partition>, before: set<Rec>,
                    handled: set<Rec>, done: map<Partition, nat>, failed: nat, p: Partition,
                    handled': set<Rec>, done': map<Partition, nat>, failed': nat)
    requires Through(service, ok, recs, gone, before, handled, done, failed) && p !in gone
    requires var rs := Queue(recs, p);
             var n := Done(service, ok, rs);
             && handled' == handled + Own(service, rs[..n])
             && done' == (if n > 0 then done[p := rs[n - 1].offset + 1] else done)
             && failed' == if n < |rs| then failed + 1 else failed
    ensures Through(service, ok, recs, gone + {p}, before, handled', done', failed')
  {
    hide HandledIn, MarksIn, Own, DoneIn, Done, Queue, Clear;
    ClearIs(service, ok, recs, p);
    HandledInNext(service, ok, recs, gone, p);
    MarksInNext(service, ok, recs, gone, p);
    ClearNext(service, ok, recs, gone, failed, p, failed');
  }

  lemma ThroughNone(service: string, ok: Outcome, recs: seq<Rec>, before: set<Rec>)
    ensures Through(service, ok, recs, {}, before, before, map[], 0)
  {
    NothingYet(service, ok, recs);
  }

  lemma ThroughAll(service: string, ok: Outcome, recs: seq<Rec>, gone: set<Partition>, before: set<Rec>,
                   handled: set<Rec>, done: map<Partition, nat>, failed: nat)
    requires Through(service, ok, recs, gone, before, handled, done, failed) && gone == Partitions(recs)
    ensures handled == before + HandledBy(service, ok, recs) && done == Marks(service, ok, recs)
    ensures failed == 0 <==> forall r :: r in recs ==> Passes(service, ok, r)
  {
    hide HandledIn, MarksIn, HandledBy, Marks, Clear, Partitions, Passes;
    AllHandled(service, ok, recs);
    ClearAll(service, ok, recs);
  }

  /** The first record read with the offset. */
  predicate FoundAt(recs: seq<Rec>, offset: nat, k: nat) {
    k < |recs| && recs[k].offset == offset && forall i :: 0 <= i < k ==> recs[i].offset != offset
  }

  class Tool {
    const service: string
    var log: Log
    var committed: map<Partition, nat>
    var handled: set<Rec>

    ghost function At(): State reads this { State(log, committed, handled) }

    constructor (service: string, log: Log, committed: map<Partition, nat>)
      ensures this.service == service && At() == State(log, committed, {})
    {
      this.service, this.log, this.committed, this.handled := service, log, committed, {};
    }

    /** One partition of a full replay, by offset, up to the first record that still fails. */
    method ReplayPartition(p: Partition, rs: seq<Rec>, ok: Outcome, done: map<Partition, nat>)
      returns (done': map<Partition, nat>, failed: bool)
      modifies this`handled
      ensures var n := Done(service, ok, rs);
              && handled == old(handled) + Own(service, rs[..n])
              && done' == (if n > 0 then done[p := rs[n - 1].offset + 1] else done)
              && (failed <==> n < |rs|)
    {
      hide Own;
      done', failed := done, false;
      var k := 0;
      NoneOwn(service, rs);
      while k < |rs|
        invariant k <= |rs| && !failed
        invariant forall i :: 0 <= i < k ==> Passes(service, ok, rs[i])
        invariant handled == old(handled) + Own(service, rs[..k])
        invariant done' == if k > 0 then done[p := rs[k - 1].offset + 1] else done
      {
        OwnNext(service, rs, k);
        var r := rs[k];
        if ParkedHere(service, r) {
          if !ok(r) {
            failed := true;
            break;
          }
          handled := handled + {r};
        }
        done' := done'[p := r.offset + 1];
        k := k + 1;
      }
      DoneIs(service, ok, rs, k);
    }

    /** The offsets of a commit move together, or not at all when the call fails. */
    method Commit(done: map<Partition, nat>, commits: bool)
      modifies this`committed
      ensures committed == if commits then old(committed) + done else old(committed)
    {
      if commits {
        committed := committed + done;
      }
    }

    method Group(recs: seq<Rec>) returns (byPartition: map<Partition, seq<Rec>>)
      ensures Grouped(byPartition, recs)
    {
      byPartition := map[];
      for i := 0 to |recs|
        invariant Grouped(byPartition, recs[..i])
      {
        var r := recs[i];
        GroupedNext(byPartition, recs, i);
        var there := if r.partition in byPartition then byPartition[r.partition] else [];
        byPartition := byPartition[r.partition := there + [r]];
      }
      assert recs[..|recs|] == recs;
    }

    method ReplayPartitions(ghost recs: seq<Rec>, byPartition: map<Partition, seq<Rec>>, ok: Outcome)
      returns (done: map<Partition, nat>, failed: nat)
      requires Grouped(byPartition, recs)
      modifies this`handled
      ensures Through(service, ok, recs, Partitions(recs), old(handled), handled, done, failed)
    {
      hide *;
      GroupsAre(byPartition, recs);
      done, failed := map[], 0;
      var todo := byPartition.Keys;
      ghost var gone: set<Partition> := {};
      ThroughNone(service, ok, recs, handled);
      while todo != {}
        invariant gone + todo == byPartition.Keys && gone !! todo
        invariant Through(service, ok, recs, gone, old(handled), handled, done, failed)
        decreases |todo|
      {
        var p :| p in todo;
        GroupIsQueue(byPartition, recs, p);
        var f;
        ghost var handled0, done0, failed0 := handled, done, failed;
        done, f := ReplayPartition(p, ByOffset(byPartition[p]), ok, done);
        failed := failed + if f then 1 else 0;
        ThroughNext(service, ok, recs, gone, old(handled), handled0, done0, failed0, p, handled, done, failed);
        todo, gone := todo - {p}, gone + {p};
      }
      assert gone == Partitions(recs);
    }

    /** A full replay. It returns an error exactly when a record of this service still fails or the commit does. */
    method ReplayAll(recs: seq<Rec>, ok: Outcome, commits: bool) returns (err: bool)
      modifies this
      ensures At() == DeadLetters.ReplayAll(old(At()), service, ok, recs, commits)
      ensures err <==> !commits || exists r :: r in recs && !Passes(service, ok, r)
    {
      hide Grouped, Through, Marks, HandledBy, Passes;
      var byPartition := Group(recs);
      var done, failed := ReplayPartitions(recs, byPartition, ok);
      ThroughAll(service, ok, recs, Partitions(recs), old(handled), handled, done, failed);
      Commit(done, commits);
      err := !commits || failed > 0;
    }

    /** No earlier record of this service among those read of the partition. */
    method IsFirst(recs: seq<Rec>, rec: Rec) returns (first: bool)
      ensures first <==> FirstOwn(service, recs, rec)
    {
      first := true;
      var i := 0;
      while i < |recs| && first
        invariant i <= |recs|
        invariant first ==> FirstOwn(service, recs[..i], rec)
        invariant !first ==> !FirstOwn(service, recs, rec)
      {
        assert recs[..i + 1] == recs[..i] + [recs[i]];
        if recs[i].partition == rec.partition && recs[i].offset < rec.offset && ParkedHere(service, recs[i]) {
          first := false;
        }
        i := i + 1;
      }
      assert first ==> recs[..i] == recs;
    }

    /** A single replay of the record at an offset: the first read with that offset, whatever its partition. */
    method ReplayOne(recs: seq<Rec>, offset: nat, ok: Outcome, commits: bool) returns (err: bool)
      modifies this
      ensures (forall r :: r in recs ==> r.offset != offset) ==> err && At() == old(At())
      ensures (exists r :: r in recs && r.offset == offset) ==>
                exists k: nat ::
                  && FoundAt(recs, offset, k)
                  && At() == DeadLetters.ReplayOne(old(At()), service, ok, recs, recs[k], commits)
                  && (err <==> !ParkedHere(service, recs[k]) || !ok(recs[k]) ||
                               (FirstOwn(service, recs, recs[k]) && !commits))
    {
      hide FirstOwn;
      var k := 0;
      while k < |recs| && recs[k].offset != offset
        invariant k <= |recs| && forall i :: 0 <= i < k ==> recs[i].offset != offset
      {
        k := k + 1;
      }
      if k == |recs| { return true; }
      assert FoundAt(recs, offset, k);
      var rec := recs[k];
      hide FoundAt;
      if !ParkedHere(service, rec) || !ok(rec) { return true; }
      handled := handled + {rec};
      var first := IsFirst(recs, rec);
      if !first { return false; }
      Commit(map[rec.partition := rec.offset + 1], commits);
      err := !commits;
    }
  }
}
