/** WithLock's own body: the wait for the lock, fn, the keeper's end and the release, with its keeper and the other
    callers taking their steps in every pause. */
module Locker {
  import opened Options
  import opened Fates
  import opened Runs
  import opened TokenKeys
  import opened Locks

  type Others = (nat, World) -> seq<Event>

  ghost predicate Apart(c: Token, ttl: nat, others: Others) {
    forall k: nat, w: World :: Foreign(c, w, ttl, others(k, w))
  }

  /** How a call goes: its commands, for how many tries the wait option lasts, when its context ends, how fn ends. */
  datatype Course = Course(tries: nat -> Fate, waits: nat, cancelled: nat -> bool, fn: Fn, release: Fate)

  datatype Fn = ReturnsNil | ReturnsErr | Panics

  class Lock {
    const ttl: nat
    var w: World

    constructor (asked: int, w: World)
      ensures ttl == Ttl(asked) && this.w == w
    {
      this.ttl, this.w := Ttl(asked), w;
    }

    method Pause(c: Token, k: nat, others: Others, ghost es: seq<Event>, ghost w0: World)
      returns (ghost es': seq<Event>)
      requires Apart(c, ttl, others)
      requires CanRun(Rules(ttl), w0, es) && Exec(Rules(ttl), w0, es) == w
      modifies this`w
      ensures CanRun(Rules(ttl), w0, es') && Exec(Rules(ttl), w0, es') == w
      ensures c in w.callers <==> c in old(w).callers
      ensures c in w.callers ==> SameButTicks(old(w).callers[c], w.callers[c])
    {
      var more := others(k, w);
      assert Foreign(c, w, ttl, more);
      hide Exec, CanRun;
      ForeignKeeps(c, w, ttl, more);
      ExecAppend(Rules(ttl), w0, es, more);
      es' := es + more;
      w := Exec(Rules(ttl), w, more);
    }

    method Command(e: Event, ghost es: seq<Event>, ghost w0: World) returns (ghost es': seq<Event>)
      requires CanRun(Rules(ttl), w0, es) && Exec(Rules(ttl), w0, es) == w && Enabled(w, e)
      modifies this`w
      ensures w == Step(old(w), ttl, e)
      ensures CanRun(Rules(ttl), w0, es') && Exec(Rules(ttl), w0, es') == w
    {
      hide Exec, CanRun, Step, Enabled;
      RunNext(Rules(ttl), w0, es, e);
      es' := es + [e];
      w := Step(w, ttl, e);
    }

    /** Tries for the lock until it is taken, or nobody wants to wait any longer. */
    method Acquire(c: Token, t: Course, others: Others, ghost es: seq<Event>, ghost w0: World)
      returns (ok: bool, result: Result, ghost es': seq<Event>)
      requires Apart(c, ttl, others)
      requires CanRun(Rules(ttl), w0, es) && Exec(Rules(ttl), w0, es) == w
      requires c in w.callers && w.callers[c].Trying?
      modifies this`w
      ensures CanRun(Rules(ttl), w0, es') && Exec(Rules(ttl), w0, es') == w
      ensures c in w.callers
      ensures if ok then w.callers[c].Holding? && w.callers[c].body.InFn? && !w.callers[c].saw
              else w.callers[c] == Done(result)
      ensures !ok ==> result in {Failed, ErrLocked, CtxErr}
    {
      hide Exec, CanRun, Apart;
      es' := es;
      var k := 0;
      while true
        invariant k <= t.waits
        invariant CanRun(Rules(ttl), w0, es') && Exec(Rules(ttl), w0, es') == w
        invariant c in w.callers && w.callers[c].Trying?
        decreases t.waits - k
      {
        es' := Pause(c, 2 * k, others, es', w0);
        var free := Holder(w.key, w.now).None?;
        es' := Command(Try(c, t.tries(k), k < t.waits), es', w0);
        if !t.tries(k).Acked? {
          return false, Failed, es';
        }
        if free {
          return true, Nil, es';
        }
        if k == t.waits {
          return false, ErrLocked, es';
        }
        es' := Pause(c, 2 * k + 1, others, es', w0);
        if t.cancelled(k) {
          es' := Command(GiveUp(c), es', w0);
          return false, CtxErr, es';
        }
        k := k + 1;
      }
    }

    /** One call. Its result is nil only when fn's was and the keeper saw no loss; once the keeper saw one it is
        ErrLockLost. A panic of fn goes through (None) and leaves the keeper at work. `ran` says whether fn was called,
        `saw` what the keeper had seen when it ended. */
    method WithLock(c: Token, redis: bool, name: string, t: Course, others: Others)
      returns (result: Option<Result>, ran: bool, saw: bool, ghost es: seq<Event>)
      requires c !in w.callers && Apart(c, ttl, others)
      modifies this`w
      ensures CanRun(Rules(ttl), old(w), es) && w == Exec(Rules(ttl), old(w), es)
      ensures !redis || name == "" ==> result == Some(Failed) && !ran && w == old(w)
      ensures redis && name != "" ==> c in w.callers && (result.Some? ==> w.callers[c] == Done(result.value))
      ensures !ran ==> result.Some? && result.value in {Failed, ErrLocked, CtxErr}
      ensures ran && !t.fn.Panics? ==>
                result == Some(if saw then ErrLockLost else if t.fn.ReturnsNil? then Nil else Failed)
      ensures ran && t.fn.Panics? ==> result == None && Orphaned(w, c)
    {
      hide Exec, CanRun, Apart, Step;
      ghost var w0 := w;
      RunNothing(Rules(ttl), w0);
      es, ran, saw := [], false, false;
      if !redis || name == "" {
        return Some(Failed), ran, saw, es;
      }
      BeginMoves(w, ttl, c);
      es := Command(Begin(c), es, w0);
      var ok, r;
      ok, r, es := Acquire(c, t, others, es, w0);
      if !ok {
        return Some(r), ran, saw, es;
      }
      ran := true;
      es := Pause(c, 2 * t.waits + 2, others, es, w0);
      if t.fn.Panics? {
        PanicMoves(w, ttl, c);
        es := Command(Panic(c), es, w0);
        return None, ran, saw, es;
      }
      r, saw, es := Finish(c, t, others, es, w0);
      result := Some(r);
    }

    /** After fn: the keeper is stopped, and unless it saw a loss the lock is released. */
    method Finish(c: Token, t: Course, others: Others, ghost es: seq<Event>, ghost w0: World)
      returns (result: Result, saw: bool, ghost es': seq<Event>)
      requires Apart(c, ttl, others) && !t.fn.Panics?
      requires CanRun(Rules(ttl), w0, es) && Exec(Rules(ttl), w0, es) == w
      requires c in w.callers && w.callers[c].Holding? && w.callers[c].body.InFn?
      modifies this`w
      ensures CanRun(Rules(ttl), w0, es') && Exec(Rules(ttl), w0, es') == w
      ensures c in w.callers && w.callers[c] == Done(result)
      ensures result == if saw then ErrLockLost else if t.fn.ReturnsNil? then Nil else Failed
    {
      hide Exec, CanRun, Apart, Step;
      var fine := t.fn.ReturnsNil?;
      FnMoves(w, ttl, c, fine);
      es' := Command(FnEnds(c, fine), es, w0);
      es' := Pause(c, 2 * t.waits + 3, others, es', w0);
      saw := w.callers[c].saw;
      KeeperMoves(w, ttl, c);
      es' := Command(KeeperEnds(c), es', w0);
      if saw {
        return ErrLockLost, saw, es';
      }
      es' := Pause(c, 2 * t.waits + 4, others, es', w0);
      ReleaseMoves(w, ttl, c, t.release);
      es' := Command(Event.Release(c, t.release), es', w0);
      result := if fine then Nil else Failed;
    }
  }

  lemma BeginMoves(w: World, ttl: nat, c: Token)
    requires c !in w.callers
    ensures Step(w, ttl, Begin(c)).callers == w.callers[c := Trying]
  {
  }

  lemma PanicMoves(w: World, ttl: nat, c: Token)
    requires Enabled(w, Panic(c))
    ensures Orphaned(Step(w, ttl, Panic(c)), c)
  {
  }

  lemma FnMoves(w: World, ttl: nat, c: Token, ok: bool)
    requires Enabled(w, FnEnds(c, ok))
    ensures Step(w, ttl, FnEnds(c, ok)).callers == w.callers[c := w.callers[c].(body := Returned(ok))]
  {
  }

  lemma KeeperMoves(w: World, ttl: nat, c: Token)
    requires Enabled(w, KeeperEnds(c))
    ensures Step(w, ttl, KeeperEnds(c)).callers ==
              w.callers[c := if w.callers[c].saw then Done(ErrLockLost) else Releasing(w.callers[c].body.ok)]
  {
  }

  lemma ReleaseMoves(w: World, ttl: nat, c: Token, fate: Fate)
    requires Enabled(w, Event.Release(c, fate))
    ensures Step(w, ttl, Event.Release(c, fate)).callers ==
              w.callers[c := Done(if w.callers[c].fnOk then Nil else Failed)]
  {
  }
}
