/** The asynchronous audit sink (hertzx): callers under the read lock, Close under the write lock, one worker that
    drains the queue into batches and stores them. Every entry given to Sink is accounted for. */
module AuditSink {
  /** Entries are told apart. */
  type Entry = nat

  datatype Reason = Closed | QueueFull | StoreError | StoreDown

  const QUEUE_SIZE := 1000
  const BATCH_SIZE := 100
  const STORE_DOWN_AFTER := 3

  // ------------------------------------------------------------------
  // What a flush makes of a batch
  // ------------------------------------------------------------------

  /** What a flush stored, call by call, and what it dropped. */
  datatype Outcome = Outcome(stored: seq<seq<Entry>>, dropped: seq<(Entry, Reason)>)

  /** How the store answers the calls of one flush, in order. */
  type Store = nat -> bool

  function AllDown(batch: seq<Entry>): seq<(Entry, Reason)> {
    seq(|batch|, i requires 0 <= i < |batch| => (batch[i], StoreDown))
  }

  /** Entry by entry from the i-th on, after `failed` refusals in a row. */
  function OneByOne(batch: seq<Entry>, i: nat, failed: nat, store: Store): Outcome
    requires i <= |batch|
    decreases |batch| - i
  {
    if i == |batch| then Outcome([], [])
    else if failed >= STORE_DOWN_AFTER then Outcome([], AllDown(batch[i..]))
    else if store(2 + i) then
      var o := OneByOne(batch, i + 1, 0, store);
      Outcome([[batch[i]]] + o.stored, o.dropped)
    else
      var o := OneByOne(batch, i + 1, failed + 1, store);
      Outcome(o.stored, [(batch[i], StoreError)] + o.dropped)
  }

  /** The batch at once, again, then one by one; a batch of one is not tried a third time. */
  function Flushed(batch: seq<Entry>, store: Store): Outcome {
    if batch == [] then Outcome([], [])
    else if store(0) || store(1) then Outcome([batch], [])
    else if |batch| > 1 then OneByOne(batch, 0, 0, store)
    else Outcome([], [(batch[0], StoreError)])
  }

  function Count(es: seq<Entry>, e: Entry): nat {
    if es == [] then 0 else (if es[0] == e then 1 else 0) + Count(es[1..], e)
  }

  /** In how many places of how many successful store calls an entry is. */
  function Stored(stored: seq<seq<Entry>>, e: Entry): nat {
    if stored == [] then 0 else Count(stored[0], e) + Stored(stored[1..], e)
  }

  /** Under how many reasons an entry is counted as dropped. */
  function Lost(dropped: seq<(Entry, Reason)>, e: Entry): nat {
    if dropped == [] then 0 else (if dropped[0].0 == e then 1 else 0) + Lost(dropped[1..], e)
  }

  function Accounted(o: Outcome, e: Entry): nat { Stored(o.stored, e) + Lost(o.dropped, e) }

  lemma {:induction false} LostAllDown(batch: seq<Entry>, e: Entry)
    ensures Lost(AllDown(batch), e) == Count(batch, e)
  {
    if batch != [] {
      LostAllDown(batch[1..], e);
      assert AllDown(batch)[1..] == AllDown(batch[1..]);
    }
  }

  lemma {:induction false} OneByOneAccounts(batch: seq<Entry>, i: nat, failed: nat, store: Store, e: Entry)
    requires i <= |batch|
    ensures Accounted(OneByOne(batch, i, failed, store), e) == Count(batch[i..], e)
    decreases |batch| - i
  {
    if i == |batch| {
    } else if failed >= STORE_DOWN_AFTER {
      LostAllDown(batch[i..], e);
    } else {
      assert batch[i..][1..] == batch[i + 1..];
      if store(2 + i) {
        OneByOneAccounts(batch, i + 1, 0, store, e);
        var o := OneByOne(batch, i + 1, 0, store);
        assert ([[batch[i]]] + o.stored)[1..] == o.stored;
        CountOne(batch[i], e);
      } else {
        OneByOneAccounts(batch, i + 1, failed + 1, store, e);
        var o := OneByOne(batch, i + 1, failed + 1, store);
        assert ([(batch[i], StoreError)] + o.dropped)[1..] == o.dropped;
      }
    }
  }

  lemma CountOne(x: Entry, e: Entry)
    ensures Count([x], e) == if x == e then 1 else 0
  {
    assert [x][1..] == [];
  }

  /** Every entry of a batch is in exactly one store call that succeeded, or dropped for exactly one reason. */
  lemma FlushAccounts(batch: seq<Entry>, store: Store, e: Entry)
    ensures Accounted(Flushed(batch, store), e) == Count(batch, e)
  {
    if batch != [] {
      if store(0) || store(1) {
        assert Stored([batch], e) == Count(batch, e) + Stored([batch][1..], e);
      } else if |batch| > 1 {
        OneByOneAccounts(batch, 0, 0, store, e);
        assert batch[0..] == batch;
      } else {
        assert batch[1..] == [];
        assert [(batch[0], StoreError)][1..] == [];
      }
    }
  }

  /** The refusals in a row just before the i-th entry, counted no further than three. */
  function Refusals(i: nat, store: Store): nat {
    if i == 0 || store(2 + i - 1) then 0 else 1 + Refusals(i - 1, store)
  }

  /** No three entries in a row were refused before the i-th. */
  predicate StoreUpTo(i: nat, store: Store) { forall k :: 0 <= k < i ==> Refusals(k, store) < STORE_DOWN_AFTER }

  /** One refused entry does not take the others with it: an entry is dropped as store_down exactly when three in a
      row were refused before it; before that it is stored or refused on its own account. */
  lemma {:induction false} DownAfterThree(batch: seq<Entry>, i: nat, store: Store, k: nat)
    requires i <= k < |batch| && StoreUpTo(i, store)
    ensures var o := OneByOne(batch, i, Refusals(i, store), store);
            && (!StoreUpTo(k + 1, store) ==> (batch[k], StoreDown) in o.dropped)
            && (StoreUpTo(k + 1, store) && store(2 + k) ==> [batch[k]] in o.stored)
            && (StoreUpTo(k + 1, store) && !store(2 + k) ==> (batch[k], StoreError) in o.dropped)
    decreases |batch| - i
  {
    var o := OneByOne(batch, i, Refusals(i, store), store);
    if Refusals(i, store) >= STORE_DOWN_AFTER {
      assert !StoreUpTo(k + 1, store);
      assert AllDown(batch[i..])[k - i] == (batch[k], StoreDown);
    } else {
      assert StoreUpTo(i + 1, store);
      assert Refusals(i + 1, store) == if store(2 + i) then 0 else 1 + Refusals(i, store);
      if i < k {
        DownAfterThree(batch, i + 1, store, k);
      }
    }
  }

  // ------------------------------------------------------------------
  // The sink
  // ------------------------------------------------------------------

  /** A caller of Sink: waiting for the read lock, holding it, past its look at closed. */
  datatype Hand = Waiting | Reading | Open | Through

  /** Close: before the lock, holding it, closed set, queue closed, unlocked. */
  datatype Closer = Before | Locked | Marked | Shut | After

  datatype Worker = Receiving | Draining | Last | Ended

  datatype World = World(hands: map<Entry, Hand>, closer: Closer, closed: bool, chanClosed: bool,
                         queue: seq<Entry>, batch: seq<Entry>, worker: Worker, sent: bool,
                         given: set<Entry>, stored: seq<seq<Entry>>, dropped: seq<(Entry, Reason)>)

  const INIT: World := World(map[], Before, false, false, [], [], Receiving, false, {}, [], [])

  datatype Event =
    | Call(e: Entry)
    | RLock(e: Entry)
    | Look(e: Entry)         // reads closed
    | Put(e: Entry)          // the select: into the queue, or dropped
    | RUnlock(e: Entry)
    | Lock
    | Mark                   // closed = true
    | Shut                   // close(queue)
    | Unlock
    | Receive                // the worker takes an entry
    | Flush(store: Store)    // nothing waits any more, or the batch is full
    | Finish                 // the queue is closed and empty

  predicate ReadLocked(h: Hand) { h in {Reading, Open, Through} }

  predicate Enabled(w: World, ev: Event) {
    match ev
    case Call(e) => e !in w.given
    case RLock(e) => e in w.hands && w.hands[e].Waiting? && w.closer in {Before, After}
    case Look(e) => e in w.hands && w.hands[e].Reading?
    case Put(e) => e in w.hands && w.hands[e].Open?
    case RUnlock(e) => e in w.hands && w.hands[e].Through?
    case Lock => w.closer.Before? && forall e :: e in w.hands ==> !ReadLocked(w.hands[e])
    case Mark => w.closer.Locked?
    case Shut => w.closer.Marked?
    case Unlock => w.closer.Shut?
    case Receive => w.worker in {Receiving, Draining} && w.queue != [] && |w.batch| < BATCH_SIZE
    case Flush(_) =>
      || w.worker.Last?
      || (w.worker.Draining? && (|w.batch| == BATCH_SIZE || (w.queue == [] && !w.chanClosed)))
    case Finish => w.worker in {Receiving, Draining} && w.queue == [] && w.chanClosed && |w.batch| < BATCH_SIZE
  }

  /** A hand past the select no longer holds its entry. */
  function Carried(hands: map<Entry, Hand>): set<Entry> { set e | e in hands && !hands[e].Through? }

  function Step(w: World, ev: Event): World
    requires Enabled(w, ev)
  {
    match ev
    case Call(e) => w.(hands := w.hands[e := Waiting], given := w.given + {e})
    case RLock(e) => w.(hands := w.hands[e := Reading])
    case Look(e) =>
      if w.closed then w.(hands := w.hands[e := Through], dropped := w.dropped + [(e, Closed)])
      else w.(hands := w.hands[e := Open])
    case Put(e) =>
      var w' := w.(hands := w.hands[e := Through], sent := w.sent || w.chanClosed);
      if |w.queue| < QUEUE_SIZE then w'.(queue := w.queue + [e]) else w'.(dropped := w.dropped + [(e, QueueFull)])
    case RUnlock(e) => w.(hands := w.hands - {e})
    case Lock => w.(closer := Locked)
    case Mark => w.(closer := Marked, closed := true)
    case Shut => w.(closer := Closer.Shut, chanClosed := true)
    case Unlock => w.(closer := After)
    case Receive => w.(queue := w.queue[1..], batch := w.batch + [w.queue[0]], worker := Draining)
    case Flush(store) =>
      var o := Flushed(w.batch, store);
      w.(batch := [], stored := w.stored + o.stored, dropped := w.dropped + o.dropped,
         worker := if w.worker.Last? then Ended else Receiving)
    case Finish => w.(worker := Last)
  }

  ghost predicate IsRun(ws: seq<World>, es: seq<Event>) {
    && |ws| == |es| + 1
    && ws[0] == INIT
    && forall i :: 0 <= i < |es| ==> Enabled(ws[i], es[i]) && ws[i + 1] == Step(ws[i], es[i])
  }

  // ------------------------------------------------------------------
  // Locks and limits
  // ------------------------------------------------------------------

  ghost predicate LocksOk(w: World) {
    && (w.closer in {Locked, Marked, Closer.Shut} ==> forall e :: e in w.hands ==> !ReadLocked(w.hands[e]))
    && (w.closed <==> w.closer in {Marked, Closer.Shut, After})
    && (w.chanClosed <==> w.closer in {Closer.Shut, After})
    && (forall e :: e in w.hands && w.hands[e].Open? ==> !w.closed)
    && !w.sent
    && |w.queue| <= QUEUE_SIZE && |w.batch| <= BATCH_SIZE
    && (w.worker.Ended? ==> w.batch == [] && w.queue == [])
    && (w.worker in {Last, Ended} ==> w.chanClosed && w.queue == [])
  }

  lemma LocksStep(w: World, ev: Event)
    requires LocksOk(w) && Enabled(w, ev)
    ensures LocksOk(Step(w, ev))
  {
  }

  lemma {:induction false} LocksAlong(ws: seq<World>, es: seq<Event>, i: nat)
    requires IsRun(ws, es) && i < |ws|
    ensures LocksOk(ws[i])
  {
    if i > 0 {
      LocksAlong(ws, es, i - 1);
      LocksStep(ws[i - 1], es[i - 1]);
    }
  }

  /** No entry is ever sent on the closed queue; the queue and the batches keep their sizes. */
  lemma NeverSentOnClosed(ws: seq<World>, es: seq<Event>, i: nat)
    requires IsRun(ws, es) && i < |ws|
    ensures |ws[i].queue| <= QUEUE_SIZE && |ws[i].batch| <= BATCH_SIZE
    ensures i < |es| && es[i].Put? ==> !ws[i].chanClosed
  {
    LocksAlong(ws, es, i);
  }

  // ------------------------------------------------------------------
  // Accounting
  // ------------------------------------------------------------------

  /** In how many places an entry is: in its caller's hand, in the queue, in the batch, stored or dropped. */
  function Ledger(w: World, e: Entry): nat {
    (if e in Carried(w.hands) then 1 else 0) + Count(w.queue, e) + Count(w.batch, e)
    + Stored(w.stored, e) + Lost(w.dropped, e)
  }

  ghost predicate Balanced(w: World) {
    && (forall e :: Ledger(w, e) == if e in w.given then 1 else 0)
    && (forall e :: e in w.hands ==> e in w.given)
  }

  lemma {:induction false} CountConcat(a: seq<Entry>, b: seq<Entry>, e: Entry)
    ensures Count(a + b, e) == Count(a, e) + Count(b, e)
  {
    if a == [] {
      assert a + b == b;
    } else {
      CountConcat(a[1..], b, e);
      assert (a + b)[1..] == a[1..] + b;
    }
  }

  lemma {:induction false} StoredConcat(a: seq<seq<Entry>>, b: seq<seq<Entry>>, e: Entry)
    ensures Stored(a + b, e) == Stored(a, e) + Stored(b, e)
  {
    if a == [] {
      assert a + b == b;
    } else {
      StoredConcat(a[1..], b, e);
      assert (a + b)[1..] == a[1..] + b;
    }
  }

  lemma {:induction false} LostConcat(a: seq<(Entry, Reason)>, b: seq<(Entry, Reason)>, e: Entry)
    ensures Lost(a + b, e) == Lost(a, e) + Lost(b, e)
  {
    if a == [] {
      assert a + b == b;
    } else {
      LostConcat(a[1..], b, e);
      assert (a + b)[1..] == a[1..] + b;
    }
  }

  lemma LostOne(dropped: seq<(Entry, Reason)>, x: Entry, r: Reason, e: Entry)
    ensures Lost(dropped + [(x, r)], e) == Lost(dropped, e) + if x == e then 1 else 0
  {
    LostConcat(dropped, [(x, r)], e);
    assert [(x, r)][1..] == [];
  }

  lemma QueueOne(queue: seq<Entry>, x: Entry, e: Entry)
    ensures Count(queue + [x], e) == Count(queue, e) + if x == e then 1 else 0
  {
    CountConcat(queue, [x], e);
    CountOne(x, e);
  }

  /** A step moves entries from place to place and makes or loses none. */
  lemma LedgerStep(w: World, ev: Event, e: Entry)
    requires Enabled(w, ev) && (e in w.hands ==> e in w.given)
    ensures Ledger(Step(w, ev), e) == Ledger(w, e) + if ev == Call(e) && e !in w.given then 1 else 0
  {
    hide Count, Stored, Lost, Flushed;
    match ev
    case Look(x) => LostOne(w.dropped, x, Closed, e);
    case Put(x) =>
      LostOne(w.dropped, x, QueueFull, e);
      QueueOne(w.queue, x, e);
    case Receive =>
      FirstOf(w.queue, e);
      QueueOne(w.batch, w.queue[0], e);
    case Flush(store) =>
      var o := Flushed(w.batch, store);
      FlushAccounts(w.batch, store, e);
      StoredConcat(w.stored, o.stored, e);
      LostConcat(w.dropped, o.dropped, e);
      EmptyBatch(e);
    case _ =>
  }

  lemma FirstOf(queue: seq<Entry>, e: Entry)
    requires queue != []
    ensures Count(queue, e) == (if queue[0] == e then 1 else 0) + Count(queue[1..], e)
  {
  }

  lemma EmptyBatch(e: Entry)
    ensures Count([], e) == 0
  {
  }

  lemma StepBalances(w: World, ev: Event)
    requires Balanced(w) && Enabled(w, ev)
    ensures Balanced(Step(w, ev))
  {
    hide Ledger;
    var w' := Step(w, ev);
    forall e ensures Ledger(w', e) == if e in w'.given then 1 else 0 {
      LedgerStep(w, ev, e);
    }
  }

  lemma {:induction false} BalancedAlong(ws: seq<World>, es: seq<Event>, i: nat)
    requires IsRun(ws, es) && i < |ws|
    ensures Balanced(ws[i])
  {
    if i == 0 {
      assert Carried(map[]) == {};
    } else {
      BalancedAlong(ws, es, i - 1);
      StepBalances(ws[i - 1], es[i - 1]);
    }
  }

  /** Once the worker ended, every entry given to Sink, but for those whose caller is still on its way to be told that
      the sink is closed, is in exactly one store call that succeeded or counted under exactly one reason. */
  lemma EveryEntryOnce(ws: seq<World>, es: seq<Event>, i: nat, e: Entry)
    requires IsRun(ws, es) && i < |ws| && ws[i].worker.Ended? && e in ws[i].given && e !in Carried(ws[i].hands)
    ensures Stored(ws[i].stored, e) + Lost(ws[i].dropped, e) == 1
  {
    BalancedAlong(ws, es, i);
    LocksAlong(ws, es, i);
    assert Ledger(ws[i], e) == 1;
  }

  /** And the ones still on their way can only be dropped as closed. */
  lemma LateOnesAreClosed(ws: seq<World>, es: seq<Event>, i: nat, e: Entry)
    requires IsRun(ws, es) && i < |ws| && ws[i].worker.Ended? && e in ws[i].hands
    ensures !ws[i].hands[e].Open?
    ensures ws[i].hands[e].Reading? ==> Step(ws[i], Look(e)).dropped == ws[i].dropped + [(e, Closed)]
  {
    LocksAlong(ws, es, i);
  }
}

/** The sink's own code, between two steps of anybody else: Sink, the worker's rounds, its flush, and the end. */
module AuditWorker {
  import opened AuditSink

  class AsyncSink {
    var queue: seq<Entry>
    var batch: seq<Entry>
    var closed: bool
    var stored: seq<seq<Entry>>
    var dropped: seq<(Entry, Reason)>

    ghost predicate Valid() reads this { |queue| <= QUEUE_SIZE && |batch| <= BATCH_SIZE }

    constructor ()
      ensures Valid() && queue == [] && batch == [] && !closed && stored == [] && dropped == []
    {
      queue, batch, closed, stored, dropped := [], [], false, [], [];
    }

    /** In how many places an entry is once it left its caller's hand. */
    function Places(e: Entry): nat reads this {
      Count(queue, e) + Count(batch, e) + Stored(stored, e) + Lost(dropped, e)
    }

    /** Never blocks: queued, or dropped because the sink is closed or the queue full. */
    method Sink(e: Entry)
      requires Valid()
      modifies this`queue, this`dropped
      ensures Valid()
      ensures queue == if !closed && |old(queue)| < QUEUE_SIZE then old(queue) + [e] else old(queue)
      ensures dropped == if closed then old(dropped) + [(e, Closed)]
                         else if |old(queue)| == QUEUE_SIZE then old(dropped) + [(e, QueueFull)] else old(dropped)
      ensures forall x :: Places(x) == old(Places(x)) + if x == e then 1 else 0
    {
      forall x
        ensures Count(queue + [e], x) == Count(queue, x) + if x == e then 1 else 0
        ensures Lost(dropped + [(e, Closed)], x) == Lost(dropped, x) + if x == e then 1 else 0
        ensures Lost(dropped + [(e, QueueFull)], x) == Lost(dropped, x) + if x == e then 1 else 0
      {
        QueueOne(queue, e, x);
        LostOne(dropped, e, Closed, x);
        LostOne(dropped, e, QueueFull, x);
      }
      if closed {
        dropped := dropped + [(e, Closed)];
      } else if |queue| < QUEUE_SIZE {
        queue := queue + [e];
      } else {
        dropped := dropped + [(e, QueueFull)];
      }
    }

    /** One entry after another, giving up after three refusals in a row. */
    method FlushOneByOne(store: Store)
      modifies this`stored, this`dropped
      ensures var o := OneByOne(batch, 0, 0, store);
              stored == old(stored) + o.stored && dropped == old(dropped) + o.dropped
    {
      var failed, i := 0, 0;
      ghost var all := OneByOne(batch, 0, 0, store);
      while i < |batch|
        invariant i <= |batch|
        invariant var o := OneByOne(batch, i, failed, store);
                  stored + o.stored == old(stored) + all.stored && dropped + o.dropped == old(dropped) + all.dropped
      {
        if failed >= STORE_DOWN_AFTER {
          dropped := dropped + AllDown(batch[i..]);
          return;
        }
        if store(2 + i) {
          ghost var o := OneByOne(batch, i + 1, 0, store);
          assert stored + ([[batch[i]]] + o.stored) == (stored + [[batch[i]]]) + o.stored;
          stored, failed := stored + [[batch[i]]], 0;
        } else {
          ghost var o := OneByOne(batch, i + 1, failed + 1, store);
          assert dropped + ([(batch[i], StoreError)] + o.dropped) == (dropped + [(batch[i], StoreError)]) + o.dropped;
          dropped, failed := dropped + [(batch[i], StoreError)], failed + 1;
        }
        i := i + 1;
      }
    }

    method Flush(store: Store)
      requires Valid()
      modifies this`batch, this`stored, this`dropped
      ensures Valid() && batch == []
      ensures stored == old(stored) + Flushed(old(batch), store).stored
      ensures dropped == old(dropped) + Flushed(old(batch), store).dropped
      ensures forall e :: Places(e) == old(Places(e))
    {
      ghost var o := Flushed(batch, store);
      forall e
        ensures Stored(stored + o.stored, e) == Stored(stored, e) + Stored(o.stored, e)
        ensures Lost(dropped + o.dropped, e) == Lost(dropped, e) + Lost(o.dropped, e)
        ensures Accounted(o, e) == Count(batch, e)
      {
        FlushAccounts(batch, store, e);
        StoredConcat(stored, o.stored, e);
        LostConcat(dropped, o.dropped, e);
      }
      if |batch| == 0 {
        return;
      }
      var ok := store(0) || store(1);
      if ok {
        stored := stored + [batch];
      } else if |batch| > 1 {
        FlushOneByOne(store);
      } else {
        dropped := dropped + [(batch[0], StoreError)];
      }
      batch := [];
    }

    /** Takes what is waiting, up to a full batch, and stores it with what the worker already had in hand. */
    method Round(store: Store)
      requires Valid()
      modifies this
      ensures Valid() && batch == [] && closed == old(closed)
      ensures var free := BATCH_SIZE - |old(batch)|;
              var n := if |old(queue)| < free then |old(queue)| else free;
              && queue == old(queue)[n..]
              && stored == old(stored) + Flushed(old(batch) + old(queue)[..n], store).stored
              && dropped == old(dropped) + Flushed(old(batch) + old(queue)[..n], store).dropped
      ensures forall e :: Places(e) == old(Places(e))
    {
      var n := 0;
      while |batch| < BATCH_SIZE && queue != []
        invariant n <= |old(queue)| && |batch| == |old(batch)| + n <= BATCH_SIZE
        invariant batch == old(batch) + old(queue)[..n] && queue == old(queue)[n..]
        modifies this`batch, this`queue
      {
        assert old(queue)[..n + 1] == old(queue)[..n] + [old(queue)[n]];
        batch, queue := batch + [queue[0]], queue[1..];
        n := n + 1;
      }
      forall e ensures Count(old(queue), e) + Count(old(batch), e) == Count(batch, e) + Count(queue, e) {
        CountConcat(old(queue)[..n], old(queue)[n..], e);
        CountConcat(old(batch), old(queue)[..n], e);
        assert old(queue) == old(queue)[..n] + old(queue)[n..];
      }
      Flush(store);
    }

    /** Nothing is accepted any more. Close waits for the worker to end, whatever it has in hand, but no longer than its
        limit, here so many rounds: `stores` answers the k-th. When the worker ended in time, every entry is stored or
        dropped once; when it did not, every entry is where it was accounted for before and the worker goes on. */
    method Close(stores: nat -> Store, limit: nat) returns (ended: bool)
      requires Valid()
      modifies this
      ensures Valid() && closed && (ended ==> queue == [] && batch == [])
      ensures forall e :: Places(e) == old(Places(e))
      ensures ended ==> forall e :: Stored(stored, e) + Lost(dropped, e) == old(Places(e))
      ensures |old(queue)| + |old(batch)| <= limit * BATCH_SIZE ==> ended
    {
      closed := true;
      var k := 0;
      while k < limit && (queue != [] || batch != [])
        invariant Valid() && closed && k <= limit
        invariant forall e :: Places(e) == old(Places(e))
        invariant |old(queue)| + |old(batch)| <= limit * BATCH_SIZE ==> |queue| + |batch| <= (limit - k) * BATCH_SIZE
        decreases limit - k
      {
        Round(stores(k));
        k := k + 1;
      }
      ended := queue == [] && batch == [];
      assert ended ==> forall e :: Places(e) == Stored(stored, e) + Lost(dropped, e);
    }
  }
}
