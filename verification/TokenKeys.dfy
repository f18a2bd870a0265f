/** One Redis key held under a random token, as the lock (redisx) and the instance lease (idx) use it: taken with
    SetNX, extended and released by scripts that first compare the token. */
module TokenKeys {
  import opened Options
  import opened Fates

  type Token = nat

  datatype Entry = Entry(token: Token, expiry: int)

  type Key = Option<Entry>

  /** An expired entry is as good as gone. */
  function Holder(k: Key, now: int): Option<Token> {
    if k.Some? && now < k.value.expiry then Some(k.value.token) else None
  }

  datatype Op =
    | SetNX(t: Token, ttl: nat)
    | Extend(t: Token, ttl: nat)
    | Release(t: Token)

  /** What the command answers: OK, or that the script found its own token. */
  function Succeeds(k: Key, now: int, op: Op): bool {
    if op.SetNX? then Holder(k, now).None? else Holder(k, now) == Some(op.t)
  }

  function After(k: Key, now: int, op: Op): Key {
    if !Succeeds(k, now, op) then k
    else match op
      case SetNX(t, ttl) => Some(Entry(t, now + ttl))
      case Extend(t, ttl) => Some(Entry(t, now + ttl))
      case Release(_) => None
  }

  function AfterFate(k: Key, now: int, op: Op, fate: Fate): Key { if fate.Lost? then k else After(k, now, op) }

  /** No command of one token alters a key that another token holds, and none takes it over. */
  lemma OthersAreUntouched(k: Key, now: int, op: Op, fate: Fate, u: Token)
    requires Holder(k, now) == Some(u) && op.t != u
    ensures AfterFate(k, now, op, fate) == k && !Succeeds(k, now, op)
  {
  }

  /** A command never shortens the life its own token holds, except a release. */
  lemma OwnIsKept(k: Key, now: int, op: Op, fate: Fate)
    requires Holder(k, now) == Some(op.t) && !op.Release? && k.value.expiry <= now + op.ttl
    ensures Holder(AfterFate(k, now, op, fate), now) == Some(op.t)
    ensures AfterFate(k, now, op, fate).value.expiry >= k.value.expiry
    ensures op.Extend? && !fate.Lost? ==> AfterFate(k, now, op, fate).value.expiry == now + op.ttl
  {
  }

  /** What a command leaves of the key: the entry as it was, nothing, its own token's entry renewed, or a new entry of
      its token in place of one that was gone. */
  lemma EntryAfter(k: Key, now: int, op: Op, fate: Fate)
    ensures var k' := AfterFate(k, now, op, fate);
            || k' == k
            || (k' == None && op.Release?)
            || (k' == Some(Entry(op.t, now + op.ttl)) && op.Extend? && k.Some? && k.value.token == op.t)
            || (k' == Some(Entry(op.t, now + op.ttl)) && op.SetNX? && Holder(k, now).None? && !fate.Lost?
                && Succeeds(k, now, op))
  {
  }

  /** SetNX succeeds exactly on a key without a holder, and then the key is its token's for a ttl. */
  lemma TakesIff(k: Key, now: int, t: Token, ttl: nat, fate: Fate)
    ensures Succeeds(k, now, SetNX(t, ttl)) <==> Holder(k, now).None?
    ensures Holder(k, now).None? && !fate.Lost? ==> AfterFate(k, now, SetNX(t, ttl), fate) == Some(Entry(t, now + ttl))
  {
  }

  /** The scripts succeed exactly on their own token's key. */
  lemma ScriptSucceedsIff(k: Key, now: int, op: Op)
    requires !op.SetNX?
    ensures Succeeds(k, now, op) <==> Holder(k, now) == Some(op.t)
  {
  }

  /** A holder loses the key by a command exactly when it is its own release, and that is not lost. */
  lemma LosesByCommandIff(k: Key, now: int, op: Op, fate: Fate, t: Token)
    requires Holder(k, now) == Some(t) && (op.Release? || op.ttl > 0)
    ensures Holder(AfterFate(k, now, op, fate), now) != Some(t) <==> op == Release(t) && !fate.Lost?
  {
  }
}
