/** The consumer's own code over the dedupe protocol: one record through the handler with its retries, parking,
    and a poll of records with its commit. An event that is not deduplicated (no Redis, no id) is one Redis lets
    through. */
module Consumer {
  import opened Options
  import opened Fates
  import opened Runs
  import opened Consumption

  type Id = string

  /** event: the envelope's id, None when the value is not an envelope. */
  datatype Record = Record(offset: nat, event: Option<Id>)

  /** What became of a record. */
  datatype Disposition = Settled | Parked | LostInPark | LeftForRedelivery

  /** What the other processors of an id do, by pause and by what they find. */
  type Others = (nat, World) -> seq<Event>

  ghost predicate Apart(lo: ProcId, hi: ProcId, retries: nat, others: Others) {
    forall k: nat, w: World :: Foreign(lo, hi, w, retries, others(k, w))
  }

  /** The parked ones among the records, in order. */
  function ParkedOf(rs: seq<Record>, ds: seq<Disposition>): seq<Record>
    requires |rs| == |ds|
  {
    if rs == [] then []
    else ParkedOf(rs[..|rs| - 1], ds[..|ds| - 1]) + if ds[|ds| - 1].Parked? then [rs[|rs| - 1]] else []
  }

  /** Where a processor stands with an event. */
  function Status(w: World, p: ProcId): Option<Phase> { if p in w.procs then Some(w.procs[p]) else None }

  /** What a record's disposition says of its run: settled when it was handled or a duplicate, parked (or lost on the
      way) after all retries failed or for a value that is no envelope, left when its run failed at a shutdown. */
  predicate Became(r: Record, d: Disposition, status: Option<Phase>, spent: nat, retries: nat) {
    && spent <= retries
    && match d
       case Settled => r.event.Some? && status == Some(Done(if spent == 0 then Duplicate else Handled))
       case LeftForRedelivery => r.event.Some? ==> status == Some(Done(Failed))
       case _ => if r.event.None? then spent == 0 else status == Some(Done(Failed)) && spent == retries
  }

  function Total(spent: seq<nat>): nat { if spent == [] then 0 else Total(spent[..|spent| - 1]) + spent[|spent| - 1] }

  lemma TotalNext(spent: seq<nat>, n: nat)
    ensures Total(spent + [n]) == Total(spent) + n
  {
    assert (spent + [n])[..|spent|] == spent;
  }

  lemma ParkedNext(rs: seq<Record>, ds: seq<Disposition>, k: nat, d: Disposition)
    requires k < |rs| && |ds| == k
    ensures ParkedOf(rs[..k + 1], ds + [d]) == ParkedOf(rs[..k], ds) + if d.Parked? then [rs[k]] else []
  {
    assert rs[..k + 1][..k] == rs[..k] && (ds + [d])[..k] == ds;
  }

  lemma NoneYet(rs: seq<Record>)
    ensures Total([]) == 0 && ParkedOf(rs[..0], []) == []
  {
  }

  class Client {
    const dedupe: bool
    const retries: nat
    const course: nat -> bool              // how the n-th call of the handler ends
    const redis: nat -> (Fate, Fate)       // how the commands of a run go
    const produces: nat -> bool            // whether a park at a given moment succeeds
    const stop: Option<nat>                // when Close cancels the context
    var tick: nat
    var calls: nat
    var worlds: map<Id, World>
    var dlq: seq<Record>

    constructor (dedupe: bool, max: int, course: nat -> bool, redis: nat -> (Fate, Fate), produces: nat -> bool,
                 stop: Option<nat>)
      ensures retries == Retries(max) && worlds == map[] && dlq == []
    {
      this.dedupe, this.retries, this.course := dedupe, Retries(max), course;
      this.redis, this.produces, this.stop := redis, produces, stop;
      tick, calls, worlds, dlq := 0, 0, map[], [];
    }

    predicate Cancelled() reads this`tick { stop.Some? && stop.value <= tick }

    function Of(id: Id): World reads this`worlds { if id in worlds then worlds[id] else INIT }

    /** Where processor p stands with the record's event. */
    function StatusOf(r: Record, p: ProcId): Option<Phase> reads this`worlds {
      if r.event.Some? then Status(Of(r.event.value), p) else None
    }

    /** ctx.Err() some time later. */
    method Down() returns (down: bool)
      modifies this`tick
      ensures tick == old(tick) + 1 && down == Cancelled()
    {
      tick := tick + 1;
      down := stop.Some? && stop.value <= tick;
    }

    method Pause(lo: ProcId, hi: ProcId, k: nat, others: Others, w: World, ghost w0: World, ghost es: seq<Event>)
      returns (w': World, ghost es': seq<Event>)
      requires Apart(lo, hi, retries, others)
      requires CanRun(Rules(retries), w0, es) && Exec(Rules(retries), w0, es) == w
      ensures CanRun(Rules(retries), w0, es') && Exec(Rules(retries), w0, es') == w'
      ensures forall p :: lo <= p < hi ==> Status(w', p) == Status(w, p)
    {
      var more := others(k, w);
      assert Foreign(lo, hi, w, retries, more);
      forall p | lo <= p < hi
        ensures Status(Exec(Rules(retries), w, more), p) == Status(w, p)
      {
        ForeignKeeps(lo, hi, w, retries, more, p);
      }
      ExecAppend(Rules(retries), w0, es, more);
      es' := es + more;
      w' := Exec(Rules(retries), w, more);
    }

    method Command(e: Event, w: World, ghost w0: World, ghost es: seq<Event>) returns (w': World, ghost es': seq<Event>)
      requires CanRun(Rules(retries), w0, es) && Exec(Rules(retries), w0, es) == w && Enabled(w, e)
      ensures w' == Step(w, retries, e)
      ensures CanRun(Rules(retries), w0, es') && Exec(Rules(retries), w0, es') == w'
    {
      RunNext(Rules(retries), w0, es, e);
      es' := es + [e];
      w' := Step(w, retries, e);
    }

    /** One call of the handler, the others before it. */
    method Attempt(p: ProcId, lo: ProcId, hi: ProcId, k: nat, others: Others, w: World,
                   ghost w0: World, ghost es: seq<Event>)
      returns (good: bool, down: bool, w': World, ghost es': seq<Event>)
      requires lo <= p < hi && Apart(lo, hi, retries, others)
      requires CanRun(Rules(retries), w0, es) && Exec(Rules(retries), w0, es) == w
      requires p in w.procs && w.procs[p].Handling?
      modifies this`tick, this`calls
      ensures tick >= old(tick) && calls == old(calls) + 1 && (course(old(calls)) <==> good) && (down ==> Cancelled())
      ensures CanRun(Rules(retries), w0, es') && Exec(Rules(retries), w0, es') == w'
      ensures p in w'.procs && forall q :: lo <= q < hi && q != p ==> Status(w', q) == Status(w, q)
      ensures if good then w'.procs[p] == Done(Handled)
              else if down || w.procs[p].calls + 1 >= retries then w'.procs[p].GivingUp?
              else w'.procs[p] == Handling(w.procs[p].claimed, w.procs[p].calls + 1)
    {
      hide CanRun, Exec, Apart, Step;
      w', es' := Pause(lo, hi, k, others, w, w0, es);
      assert Status(w', p) == Status(w, p);
      good := course(calls);
      calls := calls + 1;
      down := false;
      if !good {
        down := Down();
      }
      CallMoves(w', retries, p, good, down);
      w', es' := Command(Call(p, good, down), w', w0, es');
    }

    /** The attempts of a run that may go on, up to the first call that ends well, the last of the retries, or the
        shutdown. */
    method Attempts(p: ProcId, lo: ProcId, hi: ProcId, others: Others, w: World, ghost w0: World, ghost es: seq<Event>)
      returns (ok: bool, w': World, ghost es': seq<Event>)
      requires retries > 0 && lo <= p < hi && Apart(lo, hi, retries, others)
      requires CanRun(Rules(retries), w0, es) && Exec(Rules(retries), w0, es) == w
      requires p in w.procs && w.procs[p].Handling? && w.procs[p].calls == 0
      modifies this`tick, this`calls
      ensures tick >= old(tick) && old(calls) < calls <= old(calls) + retries
      ensures CanRun(Rules(retries), w0, es') && Exec(Rules(retries), w0, es') == w'
      ensures p in w'.procs && (if ok then w'.procs[p] == Done(Handled) else w'.procs[p].GivingUp?)
      ensures forall q :: lo <= q < hi && q != p ==> Status(w', q) == Status(w, q)
      ensures forall n :: old(calls) <= n < calls ==> (course(n) <==> ok && n == calls - 1)
      ensures !ok && !Cancelled() ==> calls == old(calls) + retries
    {
      hide CanRun, Exec, Apart, Step;
      w', es' := w, es;
      var attempt := 1;
      while attempt <= retries
        invariant 1 <= attempt <= retries + 1 && tick >= old(tick)
        invariant calls == old(calls) + attempt - 1
        invariant CanRun(Rules(retries), w0, es') && Exec(Rules(retries), w0, es') == w'
        invariant p in w'.procs
        invariant attempt <= retries ==> w'.procs[p].Handling? && w'.procs[p].calls == attempt - 1
        invariant attempt == retries + 1 ==> w'.procs[p].GivingUp?
        invariant forall q :: lo <= q < hi && q != p ==> Status(w', q) == Status(w, q)
        invariant forall n :: old(calls) <= n < calls ==> !course(n)
      {
        var good, down;
        good, down, w', es' := Attempt(p, lo, hi, attempt, others, w', w0, es');
        if good {
          return true, w', es';
        }
        if down {
          return false, w', es';
        }
        attempt := attempt + 1;
      }
      ok := false;
    }

    /** One record through the handler, as consumption and the dead-letter tool both run it. `es` is the run of the
        event's protocol it was part of. */
    method Process(p: ProcId, lo: ProcId, hi: ProcId, r: Record, others: Others)
      returns (ok: bool, ghost es: seq<Event>)
      requires retries > 0 && lo <= p < hi && Apart(lo, hi, retries, others)
      requires forall id :: p !in Of(id).procs
      modifies this`tick, this`calls, this`worlds
      ensures tick >= old(tick) && old(calls) <= calls <= old(calls) + retries
      ensures r.event.None? ==> !ok && calls == old(calls) && worlds == old(worlds)
      ensures r.event.Some? ==>
                var id := r.event.value;
                && CanRun(Rules(retries), old(Of(id)), es)
                && worlds == old(worlds)[id := Exec(Rules(retries), old(Of(id)), es)]
                && p in Of(id).procs
                && Of(id).procs[p] == Done(if !ok then Failed else if calls == old(calls) then Duplicate else Handled)
                && (forall q :: lo <= q < hi && q != p ==> Status(Of(id), q) == Status(old(Of(id)), q))
      ensures forall n :: old(calls) <= n < calls ==> (course(n) <==> ok && n == calls - 1)
      ensures !ok && r.event.Some? && !Cancelled() ==> calls == old(calls) + retries
    {
      hide CanRun, Exec, Apart, Rules, Step, Enabled;
      es := [];
      if r.event.None? {
        return false, es;
      }
      var id := r.event.value;
      var w := Of(id);
      ghost var w0 := w;
      RunNothing(Rules(retries), w0);
      w, es := Pause(lo, hi, 0, others, w, w0, es);
      var seen := if dedupe && id != "" then redis(tick).0 else Lost;
      var dup := seen.Acked? && w.key;
      assert Status(w, p) == None;
      SeenMoves(w, retries, p, seen);
      w, es := Command(Seen(p, seen), w, w0, es);
      if dup {
        worlds := worlds[id := w];
        return true, es;
      }
      ok, w, es := Attempts(p, lo, hi, others, w, w0, es);
      if !ok {
        w, es := GiveUp(p, lo, hi, others, w, w0, es);
      }
      worlds := worlds[id := w];
    }

    /** Forgets the key, if it is this run's, so that the event runs when it comes again. */
    method GiveUp(p: ProcId, lo: ProcId, hi: ProcId, others: Others, w: World, ghost w0: World, ghost es: seq<Event>)
      returns (w': World, ghost es': seq<Event>)
      requires lo <= p < hi && Apart(lo, hi, retries, others)
      requires CanRun(Rules(retries), w0, es) && Exec(Rules(retries), w0, es) == w
      requires p in w.procs && w.procs[p].GivingUp?
      ensures CanRun(Rules(retries), w0, es') && Exec(Rules(retries), w0, es') == w'
      ensures Status(w', p) == Some(Done(Failed))
      ensures forall q :: lo <= q < hi && q != p ==> Status(w', q) == Status(w, q)
    {
      hide CanRun, Exec, Apart, Step;
      w', es' := Pause(lo, hi, retries + 1, others, w, w0, es);
      assert Status(w', p) == Status(w, p);
      ForgetMoves(w', retries, p, redis(tick).1);
      w', es' := Command(Forget(p, redis(tick).1), w', w0, es');
    }

    /** What the consumer does with one record; `spent` counts its handler calls. */
    method Handle(p: ProcId, lo: ProcId, hi: ProcId, r: Record, others: Others)
      returns (d: Disposition, ghost spent: nat)
      requires retries > 0 && lo <= p < hi && Apart(lo, hi, retries, others)
      requires forall id :: p !in Of(id).procs
      modifies this`tick, this`calls, this`worlds, this`dlq
      ensures tick >= old(tick) && calls == old(calls) + spent
      ensures Became(r, d, StatusOf(r, p), spent, retries)
      ensures forall q, id :: lo <= q < hi && q != p ==> Status(Of(id), q) == Status(old(Of(id)), q)
      ensures forall n :: old(calls) <= n < calls ==> (course(n) <==> d.Settled? && n == calls - 1)
      ensures d.LeftForRedelivery? ==> Cancelled()
      ensures dlq == old(dlq) + if d.Parked? then [r] else []
      ensures d.LostInPark? ==> !produces(tick)
    {
      var nil, es := Process(p, lo, hi, r, others);
      spent := calls - old(calls);
      if nil {
        return Settled, spent;
      }
      var down := Down();
      if down {
        return LeftForRedelivery, spent;
      }
      if !produces(tick) {
        return LostInPark, spent;
      }
      dlq := dlq + [r];
      d := Parked;
    }

    lemma NoStatus(lo: ProcId, hi: ProcId)
      requires forall p, id :: lo <= p < hi ==> p !in Of(id).procs
      ensures forall p, id :: lo <= p < hi ==> Status(Of(id), p) == None
    {
    }

    lemma NotThere(p: ProcId)
      requires forall id :: Status(Of(id), p) == None
      ensures forall id :: p !in Of(id).procs
    {
      forall id ensures p !in Of(id).procs {
        assert Status(Of(id), p) == None;
      }
    }

    /** One poll: every record has a disposition that says what became of it, after at most `retries` calls of the
        handler, and the commit takes place only if none was left behind. Without a shutdown, and while parking
        succeeds, every record is settled or parked. */
    method Consume(lo: ProcId, rs: seq<Record>, others: Others, commits: bool)
      returns (ds: seq<Disposition>, committed: bool, ghost spent: seq<nat>)
      requires retries > 0 && Apart(lo, lo + |rs|, retries, others)
      requires forall p, id :: lo <= p < lo + |rs| ==> p !in Of(id).procs
      modifies this`tick, this`calls, this`worlds, this`dlq
      ensures |ds| == |spent| == |rs| && calls == old(calls) + Total(spent)
      ensures forall k :: 0 <= k < |rs| ==> Became(rs[k], ds[k], StatusOf(rs[k], lo + k), spent[k], retries)
      ensures dlq == old(dlq) + ParkedOf(rs, ds)
      ensures committed ==> forall k :: 0 <= k < |ds| ==> !ds[k].LeftForRedelivery?
      ensures stop.None? && (forall n :: produces(n)) ==> forall k :: 0 <= k < |ds| ==> ds[k].Settled? || ds[k].Parked?
    {
      hide Apart, Became, Total, ParkedOf, Status;
      ds, spent := [], [];
      NoneYet(rs);
      assert forall p, id :: lo <= p < lo + |rs| ==> Status(Of(id), p) == None by {
        NoStatus(lo, lo + |rs|);
      }
      for k := 0 to |rs|
        invariant |ds| == |spent| == k && tick >= old(tick) && calls == old(calls) + Total(spent)
        invariant forall p, id :: lo + k <= p < lo + |rs| ==> Status(Of(id), p) == None
        invariant forall i :: 0 <= i < k ==> Became(rs[i], ds[i], StatusOf(rs[i], lo + i), spent[i], retries)
        invariant dlq == old(dlq) + ParkedOf(rs[..k], ds)
        invariant (exists i :: 0 <= i < k && ds[i].LeftForRedelivery?) ==> Cancelled()
        invariant (forall n :: produces(n)) ==> forall i :: 0 <= i < k ==> !ds[i].LostInPark?
      {
        assert forall id :: lo + k !in Of(id).procs by {
          NotThere(lo + k);
        }
        var d, n := Handle(lo + k, lo, lo + |rs|, rs[k], others);
        TotalNext(spent, n);
        ParkedNext(rs, ds, k, d);
        ds, spent := ds + [d], spent + [n];
      }
      assert rs[..|rs|] == rs;
      var down := Down();
      committed := commits && !down;
    }
  }
}
