/** The middleware's own body, one command after another, with any number of other calls taking their
    steps in every pause. What it does is a run of the protocol. */
module IdempotencyMiddleware {
  import opened Options
  import opened Fates
  import opened Runs
  import opened Idempotency

  /** 1003 for a missing id, or an answer of the protocol. */
  datatype Reply = IdRequired | Reply(answer: Answer)

  /** How this call's commands and its handler go. */
  datatype Course =
    Course(claim: Fate, read: Fate, fits: bool, result: Option<Data>, encodes: bool, keep: Fate, drop: Fate)

  /** What the other calls do, by pause and by what they find. */
  type Others = (nat, World) -> seq<Event>

  ghost predicate Apart(c: CallId, others: Others) {
    forall k: nat, w: World :: Foreign(c, w, others(k, w))
  }

  class Middleware {
    var w: World   // the key and every call under way, in whichever replica

    constructor ()
      ensures w == INIT
    {
      w := INIT;
    }

    method Pause(c: CallId, k: nat, others: Others, ghost es: seq<Event>, ghost w0: World)
      returns (ghost es': seq<Event>)
      requires Apart(c, others)
      requires CanRun(Rules(), w0, es) && Exec(Rules(), w0, es) == w
      modifies this
      ensures CanRun(Rules(), w0, es') && Exec(Rules(), w0, es') == w
      ensures c in w.calls <==> c in old(w).calls
      ensures c in w.calls ==> w.calls[c] == old(w).calls[c]
    {
      var more := others(k, w);
      assert Foreign(c, w, more);
      ForeignKeeps(c, w, more);
      ExecAppend(Rules(), w0, es, more);
      es' := es + more;
      w := Exec(Rules(), w, more);
    }

    method Command(e: Event, ghost es: seq<Event>, ghost w0: World) returns (ghost es': seq<Event>)
      requires CanRun(Rules(), w0, es) && Exec(Rules(), w0, es) == w && Enabled(w, e)
      modifies this
      ensures w == Step(old(w), e)
      ensures CanRun(Rules(), w0, es') && Exec(Rules(), w0, es') == w
    {
      RunNext(Rules(), w0, es, e);
      es' := es + [e];
      w := Step(w, e);
    }

    /** One request. `es` is the run it was part of: its own commands in order, the others' between them. */
    method Serve(c: CallId, id: string, store: bool, t: Course, others: Others)
      returns (reply: Reply, ghost es: seq<Event>)
      requires c !in w.calls && Apart(c, others)
      modifies this
      ensures CanRun(Rules(), old(w), es) && w == Exec(Rules(), old(w), es)
      ensures id == "" ==> reply == IdRequired && w == old(w)
      ensures id != "" && !store ==> reply == Reply(Unavailable) && w == old(w)
      ensures id != "" && store ==> c in w.calls && reply.Reply? && w.calls[c] == Answered(reply.answer)
    {
      ghost var w0 := w;
      es := [];
      if id == "" {
        return IdRequired, es;
      }
      if !store {
        return Reply(Unavailable), es;
      }
      es := Pause(c, 0, others, es, w0);
      var free := w.key.Absent?;
      es := Command(SetNX(c, t.claim), es, w0);
      if !t.claim.Acked? {
        return Reply(Unavailable), es;
      }
      if !free {
        es := Pause(c, 1, others, es, w0);
        var answer := ReadAnswer(w.key, t.read, t.fits);
        es := Command(Get(c, t.read, t.fits), es, w0);
        return Reply(answer), es;
      }
      es := Pause(c, 2, others, es, w0);
      es := Command(Return(c, t.result), es, w0);
      es := Pause(c, 3, others, es, w0);
      if t.result.None? {
        es := Command(Del(c, t.drop), es, w0);
        return Reply(OwnError), es;
      }
      es := Command(Keep(c, t.encodes, t.keep), es, w0);
      return Reply(OwnResult(t.result.value)), es;
    }
  }
}
