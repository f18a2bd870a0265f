/** How a command goes whose reply may be lost: done and acknowledged, not done, or done without the reply. */
module Fates {
  datatype Fate = Acked | Lost | DoneUnacked
}

/** Finite runs of a protocol: which events may happen in a world, and where they lead. */
module Runs {
  datatype Protocol<!W, !E> = Protocol(enabled: (W, E) -> bool, step: (W, E) -> W)

  predicate CanRun<W, E>(p: Protocol<W, E>, w: W, es: seq<E>)
    decreases |es|
  {
    es == [] || (p.enabled(w, es[0]) && CanRun(p, p.step(w, es[0]), es[1..]))
  }

  function Exec<W, E>(p: Protocol<W, E>, w: W, es: seq<E>): W
    requires CanRun(p, w, es)
    decreases |es|
  {
    if es == [] then w else Exec(p, p.step(w, es[0]), es[1..])
  }

  lemma {:induction false} ExecAppend<W, E>(p: Protocol<W, E>, w: W, es: seq<E>, more: seq<E>)
    requires CanRun(p, w, es) && CanRun(p, Exec(p, w, es), more)
    ensures CanRun(p, w, es + more) && Exec(p, w, es + more) == Exec(p, Exec(p, w, es), more)
    decreases |es|
  {
    if es == [] {
      assert es + more == more;
    } else {
      ExecAppend(p, p.step(w, es[0]), es[1..], more);
      assert (es + more)[1..] == es[1..] + more;
    }
  }

  lemma RunNothing<W, E>(p: Protocol<W, E>, w: W)
    ensures CanRun(p, w, []) && Exec(p, w, []) == w
  {
  }

  lemma RunOne<W, E>(p: Protocol<W, E>, w: W, e: E)
    requires p.enabled(w, e)
    ensures CanRun(p, w, [e]) && Exec(p, w, [e]) == p.step(w, e)
  {
    var rest := [e][1..];
    assert rest == [];
    RunNothing(p, p.step(w, e));
  }

  /** A run by one more event. */
  lemma RunNext<W, E>(p: Protocol<W, E>, w: W, es: seq<E>, e: E)
    requires CanRun(p, w, es) && p.enabled(Exec(p, w, es), e)
    ensures CanRun(p, w, es + [e]) && Exec(p, w, es + [e]) == p.step(Exec(p, w, es), e)
  {
    RunOne(p, Exec(p, w, es), e);
    ExecAppend(p, w, es, [e]);
  }

  /** A run the others may take in a pause: none of its events is `mine`. */
  ghost predicate ByOthers<W, E(!new)>(p: Protocol<W, E>, mine: E -> bool, w: W, es: seq<E>) {
    CanRun(p, w, es) && forall e :: e in es ==> !mine(e)
  }
}
