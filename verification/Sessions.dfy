/** Login sessions and refresh tokens (authx) over the Redis keys they live in.

    Each issuer method is one atomic step on the store. Random ids are fresh,
    tokens cannot be forged and a token is named by its hash. A key with a
    lifetime is an entry with the time it is gone from. */
module Sessions {
  import opened Options

  type Sid = nat
  type Hash = nat
  type Jti = nat

  datatype Principal = Principal(realm: string, uid: int)
  datatype Entry<T> = Entry(value: T, until: int)
  datatype Record = Record(p: Principal, sid: Sid)

  /** An access token: what its signature vouches for. */
  datatype Access = Access(p: Principal, sid: Sid, jti: Jti, exp: int)

  datatype Settings = Settings(accessTTL: nat, refreshTTL: nat, single: bool)
  type Config = s: Settings | s.accessTTL > 0 && s.refreshTTL > 0 witness Settings(900, 2592000, true)

  const REPLACED := "replaced"
  const LOGOUT := "logout"
  const REFRESH_REPLAYED := "refresh_replayed"

  /** The seven key families. */
  datatype Store = Store(
    session: map<Principal, Entry<Sid>>,       // auth:sess
    members: map<Principal, Entry<set<Sid>>>,  // auth:sessions
    alive: map<Sid, int>,                      // auth:sid, the time it is gone from
    refresh: map<Hash, Entry<Record>>,         // auth:rt
    used: map<Hash, Entry<Record>>,            // auth:rtused
    ended: map<Sid, Entry<string>>,            // auth:ended
    blacklist: map<Jti, int>)                  // auth:bl

  /** What has happened so far; no method reads it. */
  datatype History = History(
    owner: map<Sid, Principal>,   // every session ever started
    tokens: map<Hash, Record>,    // every refresh token ever issued
    accesses: set<Access>,        // every access token ever issued
    exchanged: set<Hash>,         // refresh tokens exchanged successfully
    first: map<Sid, string>)      // the first reason recorded for a session's end

  datatype World = World(s: Store, now: int, h: History)

  function Init(now: int): World {
    World(Store(map[], map[], map[], map[], map[], map[], map[]), now, History(map[], map[], {}, {}, map[]))
  }

  // ------------------------------------------------------------------
  // Reads
  // ------------------------------------------------------------------

  predicate Live<K, V>(m: map<K, Entry<V>>, k: K, now: int) { k in m && now < m[k].until }

  predicate Alive(w: World, sid: Sid) { sid in w.s.alive && w.now < w.s.alive[sid] }

  function MembersOf(w: World, p: Principal): set<Sid> {
    if Live(w.s.members, p, w.now) then w.s.members[p].value else {}
  }

  /** The recorded reason, "" when there is none (any more). */
  function Reason(w: World, sid: Sid): string {
    if Live(w.s.ended, sid, w.now) then w.s.ended[sid].value else ""
  }

  // ------------------------------------------------------------------
  // Writes
  // ------------------------------------------------------------------

  type Endings = map<Sid, Entry<string>>

  /** Records the reason for each of sids that has no live record. */
  function EndRecords(m: Endings, now: int, until: int, sids: set<Sid>, reason: string): Endings {
    if reason == "" then m
    else m + map x | x in sids && !Live(m, x, now) :: Entry(reason, until)
  }

  function FirstReasons(m: map<Sid, string>, sids: set<Sid>, reason: string): map<Sid, string> {
    if reason == "" then m else (map x | x in sids :: reason) + m
  }

  /** endSession on each of sids: dead, and the reason recorded unless one already is. */
  function EndSessions(c: Config, w: World, sids: set<Sid>, reason: string): World {
    w.(s := w.s.(alive := w.s.alive - sids,
                 ended := EndRecords(w.s.ended, w.now, w.now + c.refreshTTL, sids, reason)),
       h := w.h.(first := FirstReasons(w.h.first, sids, reason)))
  }

  /** The sets without sid in the one of p. */
  function Unlisted(m: map<Principal, Entry<set<Sid>>>, now: int, p: Principal, sid: Sid):
    map<Principal, Entry<set<Sid>>>
  {
    if Live(m, p, now) then m[p := Entry(m[p].value - {sid}, m[p].until)] else m
  }

  /** The session keys, the one of p dropped if it names sid. */
  function Unnamed(m: map<Principal, Entry<Sid>>, now: int, p: Principal, sid: Sid): map<Principal, Entry<Sid>> {
    if Live(m, p, now) && m[p].value == sid then m - {p} else m
  }

  function Issue(c: Config, w: World, r: Record, hash: Hash, jti: Jti): World {
    w.(s := w.s.(refresh := w.s.refresh[hash := Entry(r, w.now + c.refreshTTL)]),
       h := w.h.(tokens := w.h.tokens[hash := r],
                 accesses := w.h.accesses + {Access(r.p, r.sid, jti, w.now + c.accessTTL)}))
  }

  function Replace(c: Config, w: World, p: Principal): World {
    if c.single && Live(w.s.session, p, w.now) then
      var w' := EndSessions(c, w, {w.s.session[p].value}, REPLACED);
      w'.(s := w'.s.(members := Unlisted(w.s.members, w.now, p, w.s.session[p].value)))
    else w
  }

  function Begin(c: Config, w: World, p: Principal, sid: Sid): World {
    w.(s := w.s.(session := w.s.session[p := Entry(sid, w.now + c.refreshTTL)],
                 members := w.s.members[p := Entry(MembersOf(w, p) + {sid}, w.now + c.refreshTTL)],
                 alive := w.s.alive[sid := w.now + c.refreshTTL]),
       h := w.h.(owner := w.h.owner[sid := p]))
  }

  function Login(c: Config, w: World, p: Principal, sid: Sid, hash: Hash, jti: Jti): World {
    Issue(c, Begin(c, Replace(c, w, p), p, sid), Record(p, sid), hash, jti)
  }

  function RevokeAll(c: Config, w: World, p: Principal, reason: string): World {
    var w' := EndSessions(c, w, MembersOf(w, p), reason);
    w'.(s := w'.s.(session := w'.s.session - {p}, members := w'.s.members - {p}))
  }

  datatype Answer = Granted(sid: Sid) | Invalid | Replayed | Revoked(reason: string)

  function RefreshAnswer(w: World, hash: Hash): Answer {
    if !Live(w.s.refresh, hash, w.now) then
      if Live(w.s.used, hash, w.now) then Replayed else Invalid
    else if !Alive(w, w.s.refresh[hash].value.sid) then Revoked(Reason(w, w.s.refresh[hash].value.sid))
    else Granted(w.s.refresh[hash].value.sid)
  }

  function Drop(w: World, hash: Hash): World { w.(s := w.s.(refresh := w.s.refresh - {hash})) }

  /** Retires the token: no longer live, kept as used, with its record. */
  function Retire(c: Config, w: World, hash: Hash): World
    requires hash in w.s.refresh
  {
    w.(s := w.s.(refresh := w.s.refresh - {hash},
                 used := w.s.used[hash := Entry(w.s.refresh[hash].value, w.now + c.refreshTTL)]),
       h := w.h.(exchanged := w.h.exchanged + {hash}))
  }

  function Refresh(c: Config, w: World, hash: Hash, hash': Hash, jti: Jti): World {
    match RefreshAnswer(w, hash)
    case Replayed => RevokeAll(c, w, w.s.used[hash].value.p, REFRESH_REPLAYED)
    case Invalid => w
    case Revoked(_) => Drop(w, hash)
    case Granted(_) => Issue(c, Retire(c, w, hash), w.s.refresh[hash].value, hash', jti)
  }

  function EndOwn(c: Config, w: World, hash: Hash): World
    requires hash in w.s.refresh
  {
    var r := w.s.refresh[hash].value;
    var w' := EndSessions(c, w, {r.sid}, LOGOUT);
    w'.(s := w'.s.(session := Unnamed(w.s.session, w.now, r.p, r.sid),
                   members := Unlisted(w.s.members, w.now, r.p, r.sid),
                   refresh := w.s.refresh - {hash}))
  }

  function Logout(c: Config, w: World, hash: Hash, access: Option<Access>): World {
    var w1 := if Live(w.s.refresh, hash, w.now) then EndOwn(c, w, hash) else w;
    if access.Some? && w.now < access.value.exp
    then w1.(s := w1.s.(blacklist := w1.s.blacklist[access.value.jti := access.value.exp]))
    else w1
  }

  /** A gateway of `realm` checks a genuine token. */
  function VerifyAnswer(w: World, realm: string, a: Access): Answer {
    if w.now >= a.exp || a.p.realm != realm || a.p.uid <= 0 then Invalid
    else if a.jti in w.s.blacklist && w.now < w.s.blacklist[a.jti] then Revoked(LOGOUT)
    else if !Alive(w, a.sid) then Revoked(Reason(w, a.sid))
    else Granted(a.sid)
  }

  // ------------------------------------------------------------------
  // Runs
  // ------------------------------------------------------------------

  datatype Event =
    | Tick(to: int)
    | DoLogin(p: Principal, sid: Sid, hash: Hash, jti: Jti)
    | DoRefresh(hash: Hash, hash': Hash, jti: Jti)
    | DoLogout(hash: Hash, access: Option<Access>)
    | DoRevokeAll(p: Principal, reason: string)

  /** Random ids are fresh, and nobody holds an access token that was not issued. */
  predicate Enabled(w: World, e: Event) {
    match e
    case Tick(to) => w.now <= to
    case DoLogin(_, sid, hash, jti) => sid !in w.h.owner && hash !in w.h.tokens && FreshJti(w, jti)
    case DoRefresh(_, hash', jti) => hash' !in w.h.tokens && FreshJti(w, jti)
    case DoLogout(_, access) => access.Some? ==> access.value in w.h.accesses
    case DoRevokeAll(_, _) => true
  }

  predicate FreshJti(w: World, jti: Jti) {
    jti !in w.s.blacklist && forall a :: a in w.h.accesses ==> a.jti != jti
  }

  function Step(c: Config, w: World, e: Event): World {
    match e
    case Tick(to) => w.(now := to)
    case DoLogin(p, sid, hash, jti) => Login(c, w, p, sid, hash, jti)
    case DoRefresh(hash, hash', jti) => Refresh(c, w, hash, hash', jti)
    case DoLogout(hash, access) => Logout(c, w, hash, access)
    case DoRevokeAll(p, reason) => RevokeAll(c, w, p, reason)
  }

  ghost predicate IsRun(c: Config, ws: seq<World>, es: seq<Event>) {
    && |ws| == |es| + 1
    && ws[0] == Init(ws[0].now)
    && forall i :: 0 <= i < |es| ==> Enabled(ws[i], es[i]) && ws[i + 1] == Step(c, ws[i], es[i])
  }

  // ------------------------------------------------------------------
  // The invariant
  // ------------------------------------------------------------------

  ghost predicate OwnedBy(w: World, r: Record) { r.sid in w.h.owner && w.h.owner[r.sid] == r.p }

  /** Everything stored speaks of sessions that were started, each with its principal. */
  ghost predicate Owned(w: World) {
    && w.s.alive.Keys <= w.h.owner.Keys
    && w.h.first.Keys <= w.h.owner.Keys
    && (forall p :: p in w.s.session ==> OwnedBy(w, Record(p, w.s.session[p].value)))
    && (forall p, x :: p in w.s.members && x in w.s.members[p].value ==> OwnedBy(w, Record(p, x)))
    && (forall t :: t in w.h.tokens ==> OwnedBy(w, w.h.tokens[t]))
    && (forall a :: a in w.h.accesses ==> OwnedBy(w, Record(a.p, a.sid)))
  }

  /** The live and the used tokens are issued ones, never both, and only exchanged ones are used. */
  ghost predicate TokensApart(w: World) {
    && (forall t :: t in w.s.refresh ==>
          t in w.h.tokens && w.s.refresh[t].value == w.h.tokens[t] && t !in w.h.exchanged)
    && (forall t :: t in w.s.used ==>
          t in w.h.tokens && w.s.used[t].value == w.h.tokens[t] && t in w.h.exchanged)
    && w.h.exchanged <= w.h.tokens.Keys
  }

  /** An alive session is in its principal's set, which outlives it. */
  ghost predicate ListedAs(w: World, x: Sid, p: Principal)
    requires x in w.s.alive
  {
    p in w.s.members && x in w.s.members[p].value && w.s.alive[x] <= w.s.members[p].until
  }

  ghost predicate Listed(c: Config, w: World) {
    && (forall x :: Alive(w, x) && x in w.h.owner ==> ListedAs(w, x, w.h.owner[x]))
    && (forall x :: x in w.s.alive ==> w.s.alive[x] <= w.now + c.refreshTTL)
  }

  /** With single_session, an alive session is the one its principal's session key names. */
  ghost predicate NamedAs(w: World, x: Sid, p: Principal)
    requires x in w.s.alive
  {
    p in w.s.session && w.s.session[p].value == x && w.s.alive[x] <= w.s.session[p].until
  }

  ghost predicate Named(w: World) {
    forall x :: Alive(w, x) && x in w.h.owner ==> NamedAs(w, x, w.h.owner[x])
  }

  /** A recorded end: the session is dead and out of its principal's keys, the record is the first reason, and
      it outlives every token of the session. */
  ghost predicate Recorded(c: Config, w: World, x: Sid)
    requires x in w.h.first && x in w.h.owner
  {
    && x !in w.s.alive
    && x in w.s.ended && w.s.ended[x].value == w.h.first[x]
    && x !in MembersOf(w, w.h.owner[x])
    && !(Live(w.s.session, w.h.owner[x], w.now) && w.s.session[w.h.owner[x]].value == x)
    && (forall t :: t in w.s.refresh && w.s.refresh[t].value.sid == x ==> w.s.refresh[t].until <= w.s.ended[x].until)
    && (forall a :: a in w.h.accesses && a.sid == x && c.accessTTL <= c.refreshTTL ==> a.exp <= w.s.ended[x].until)
  }

  ghost predicate Reasons(c: Config, w: World) {
    && w.s.ended.Keys <= w.h.first.Keys
    && (forall x :: x in w.h.first && x in w.h.owner ==> Recorded(c, w, x))
    && (forall t :: t in w.s.refresh ==> w.s.refresh[t].until <= w.now + c.refreshTTL)
    && (forall a :: a in w.h.accesses ==> a.exp <= w.now + c.accessTTL)
  }

  ghost predicate Inv(c: Config, w: World) {
    Owned(w) && TokensApart(w) && Listed(c, w) && (c.single ==> Named(w)) && Reasons(c, w)
  }

  /** w' is w with keys of the session, members and refresh families dropped or emptied, nothing added. */
  ghost predicate Shrunk(w: World, w': World) {
    && w' == w.(s := w.s.(session := w'.s.session, members := w'.s.members, refresh := w'.s.refresh))
    && (forall p :: p in w'.s.session ==> p in w.s.session && w'.s.session[p] == w.s.session[p])
    && (forall p :: p in w'.s.members ==>
          && p in w.s.members && w'.s.members[p].until == w.s.members[p].until
          && w'.s.members[p].value <= w.s.members[p].value)
    && (forall t :: t in w'.s.refresh ==> t in w.s.refresh && w'.s.refresh[t] == w.s.refresh[t])
  }

  /** x is in none of its principal's live keys. */
  ghost predicate Unlinked(w: World, x: Sid, p: Principal) {
    && x !in MembersOf(w, p)
    && !(Live(w.s.session, p, w.now) && w.s.session[p].value == x)
  }

  /** Ending sessions and dropping them from the keys that name them keeps the invariant, whoever does it. */
  lemma ClosingKeeps(c: Config, w: World, sids: set<Sid>, reason: string, w': World)
    requires Inv(c, w) && Shrunk(EndSessions(c, w, sids, reason), w')
    requires sids <= w.h.owner.Keys
    requires forall x :: x in sids ==> Unlinked(w', x, w.h.owner[x])
    requires forall x :: x in sids && x in w.h.first ==> Live(w.s.ended, x, w.now)
    requires forall x :: Alive(w, x) && x in w.h.owner && x !in sids ==>
               ListedAs(w', x, w.h.owner[x]) && (c.single ==> NamedAs(w', x, w.h.owner[x]))
    ensures Inv(c, w')
  {
    hide Owned, TokensApart, Listed, Named, Reasons, Shrunk, EndSessions, Unlinked, ListedAs, NamedAs, Alive;
    ClosingOwned(c, w, sids, reason, w');
    ClosingLinks(c, w, sids, reason, w');
    ClosingReasons(c, w, sids, reason, w');
  }

  lemma ClosingOwned(c: Config, w: World, sids: set<Sid>, reason: string, w': World)
    requires Owned(w) && TokensApart(w) && Shrunk(EndSessions(c, w, sids, reason), w') && sids <= w.h.owner.Keys
    ensures Owned(w') && TokensApart(w')
  {
  }

  lemma ClosingLinks(c: Config, w: World, sids: set<Sid>, reason: string, w': World)
    requires Listed(c, w) && Shrunk(EndSessions(c, w, sids, reason), w')
    requires forall x :: Alive(w, x) && x in w.h.owner && x !in sids ==>
               ListedAs(w', x, w.h.owner[x]) && (c.single ==> NamedAs(w', x, w.h.owner[x]))
    ensures Listed(c, w') && (c.single ==> Named(w'))
  {
    hide ListedAs, NamedAs;
    assert w'.h.owner == w.h.owner && w'.now == w.now && w'.s.alive == w.s.alive - sids;
  }

  lemma ClosingReasons(c: Config, w: World, sids: set<Sid>, reason: string, w': World)
    requires Owned(w) && Reasons(c, w) && Shrunk(EndSessions(c, w, sids, reason), w')
    requires sids <= w.h.owner.Keys
    requires forall x :: x in sids ==> Unlinked(w', x, w.h.owner[x])
    requires forall x :: x in sids && x in w.h.first ==> Live(w.s.ended, x, w.now)
    ensures Reasons(c, w')
  {
    assert w'.h.owner == w.h.owner;
    forall x | x in w'.h.first ensures Recorded(c, w', x) {
      if x in w.h.first {
        assert Recorded(c, w, x);
      }
    }
  }

  lemma RevokeKeeps(c: Config, w: World, p: Principal, reason: string)
    requires Inv(c, w)
    ensures Inv(c, RevokeAll(c, w, p, reason))
  {
    var sids, w' := MembersOf(w, p), RevokeAll(c, w, p, reason);
    RevokeShape(c, w, p, reason);
    forall x | x in sids ensures x in w.h.owner && w.h.owner[x] == p && x !in w.h.first {
      assert OwnedBy(w, Record(p, x));
      assert x in w.h.first ==> Recorded(c, w, x);
    }
    hide RevokeAll, MembersOf, Owned, TokensApart, Reasons, Shrunk, EndSessions, Unlinked, ListedAs, NamedAs;
    forall x | Alive(w, x) && x in w.h.owner && x !in sids
      ensures ListedAs(w', x, w.h.owner[x]) && (c.single ==> NamedAs(w', x, w.h.owner[x]))
    {
      assert ListedAs(w, x, w.h.owner[x]) && (c.single ==> NamedAs(w, x, w.h.owner[x]));
      RevokeLinks(c, w, p, reason, x, w.h.owner[x]);
    }
    ClosingKeeps(c, w, sids, reason, w');
  }

  lemma RevokeShape(c: Config, w: World, p: Principal, reason: string)
    ensures Shrunk(EndSessions(c, w, MembersOf(w, p), reason), RevokeAll(c, w, p, reason))
    ensures forall x :: x in MembersOf(w, p) ==> Unlinked(RevokeAll(c, w, p, reason), x, p)
  {
  }

  /** What p's keys no longer hold, p's set did: an alive session outside it is another's. */
  lemma RevokeLinks(c: Config, w: World, p: Principal, reason: string, x: Sid, q: Principal)
    requires Alive(w, x) && x !in MembersOf(w, p)
    ensures var w' := RevokeAll(c, w, p, reason);
            && x in w'.s.alive
            && (ListedAs(w, x, q) ==> ListedAs(w', x, q) && (NamedAs(w, x, q) ==> NamedAs(w', x, q)))
  {
  }

  lemma EndOwnShape(c: Config, w: World, hash: Hash)
    requires hash in w.s.refresh
    ensures Shrunk(EndSessions(c, w, {w.s.refresh[hash].value.sid}, LOGOUT), EndOwn(c, w, hash))
  {
  }

  lemma EndOwnLinks(c: Config, w: World, hash: Hash, x: Sid, p: Principal)
    requires hash in w.s.refresh
    ensures var r, w' := w.s.refresh[hash].value, EndOwn(c, w, hash);
            && Unlinked(w', r.sid, r.p)
            && (x in w.s.alive && x != r.sid && ListedAs(w, x, p) ==> ListedAs(w', x, p))
            && (x in w.s.alive && x != r.sid && NamedAs(w, x, p) ==> NamedAs(w', x, p))
  {
  }

  lemma EndOwnOthers(c: Config, w: World, hash: Hash)
    requires hash in w.s.refresh && Listed(c, w) && (c.single ==> Named(w))
    ensures var sid, w' := w.s.refresh[hash].value.sid, EndOwn(c, w, hash);
            forall x :: Alive(w, x) && x in w.h.owner && x !in {sid} ==>
              ListedAs(w', x, w.h.owner[x]) && (c.single ==> NamedAs(w', x, w.h.owner[x]))
  {
    var sid, w' := w.s.refresh[hash].value.sid, EndOwn(c, w, hash);
    forall x | Alive(w, x) && x in w.h.owner && x !in {sid}
      ensures ListedAs(w', x, w.h.owner[x]) && (c.single ==> NamedAs(w', x, w.h.owner[x]))
    {
      assert ListedAs(w, x, w.h.owner[x]) && (c.single ==> NamedAs(w, x, w.h.owner[x]));
      EndOwnLinks(c, w, hash, x, w.h.owner[x]);
    }
  }

  lemma TokenOutlived(c: Config, w: World, hash: Hash)
    requires Owned(w) && TokensApart(w) && Reasons(c, w) && Live(w.s.refresh, hash, w.now)
    ensures OwnedBy(w, w.s.refresh[hash].value)
    ensures w.s.refresh[hash].value.sid in w.h.first ==> Live(w.s.ended, w.s.refresh[hash].value.sid, w.now)
  {
    assert OwnedBy(w, w.h.tokens[hash]);
    var sid := w.s.refresh[hash].value.sid;
    assert sid in w.h.first ==> Recorded(c, w, sid);
  }

  lemma EndOwnKeeps(c: Config, w: World, hash: Hash)
    requires Inv(c, w) && Live(w.s.refresh, hash, w.now)
    ensures Inv(c, EndOwn(c, w, hash))
  {
    hide EndOwn, Owned, TokensApart, Listed, Named, Reasons, Shrunk, EndSessions, Unlinked, ListedAs, NamedAs, Alive;
    var r := w.s.refresh[hash].value;
    EndOwnShape(c, w, hash);
    EndOwnLinks(c, w, hash, r.sid, r.p);
    EndOwnOthers(c, w, hash);
    TokenOutlived(c, w, hash);
    ClosingKeeps(c, w, {r.sid}, LOGOUT, EndOwn(c, w, hash));
  }

  lemma BlacklistKeeps(c: Config, w: World, w': World)
    requires Inv(c, w) && w' == w.(s := w.s.(blacklist := w'.s.blacklist))
    ensures Inv(c, w')
  {
    assert forall x :: x in w'.h.first ==> Recorded(c, w, x) && Recorded(c, w', x);
  }

  lemma LogoutKeeps(c: Config, w: World, hash: Hash, access: Option<Access>)
    requires Inv(c, w)
    ensures Inv(c, Logout(c, w, hash, access))
  {
    var w1 := if Live(w.s.refresh, hash, w.now) then EndOwn(c, w, hash) else w;
    if Live(w.s.refresh, hash, w.now) {
      EndOwnKeeps(c, w, hash);
    }
    BlacklistKeeps(c, w1, Logout(c, w, hash, access));
  }

  lemma IssueReasons(c: Config, w: World, r: Record, hash: Hash, jti: Jti)
    requires Owned(w) && Reasons(c, w) && OwnedBy(w, r) && Alive(w, r.sid)
    ensures Reasons(c, Issue(c, w, r, hash, jti))
  {
    var w' := Issue(c, w, r, hash, jti);
    forall x | x in w'.h.first ensures Recorded(c, w', x) {
      assert Recorded(c, w, x);
    }
  }

  lemma IssueOwned(c: Config, w: World, r: Record, hash: Hash, jti: Jti)
    requires Owned(w) && TokensApart(w) && OwnedBy(w, r) && hash !in w.h.tokens
    ensures Owned(Issue(c, w, r, hash, jti)) && TokensApart(Issue(c, w, r, hash, jti))
  {
  }

  lemma IssueLinks(c: Config, w: World, r: Record, hash: Hash, jti: Jti)
    requires Listed(c, w) && (c.single ==> Named(w))
    ensures var w' := Issue(c, w, r, hash, jti); Listed(c, w') && (c.single ==> Named(w'))
  {
    var w' := Issue(c, w, r, hash, jti);
    assert forall x :: Alive(w', x) ==> Alive(w, x);
    assert forall x, p :: x in w.s.alive && ListedAs(w, x, p) ==> ListedAs(w', x, p);
    assert forall x, p :: x in w.s.alive && NamedAs(w, x, p) ==> NamedAs(w', x, p);
  }

  lemma IssueKeeps(c: Config, w: World, r: Record, hash: Hash, jti: Jti)
    requires Inv(c, w) && OwnedBy(w, r) && Alive(w, r.sid) && hash !in w.h.tokens
    ensures Inv(c, Issue(c, w, r, hash, jti))
  {
    hide Owned, TokensApart, Listed, Named, Reasons, Issue, OwnedBy, Alive;
    IssueOwned(c, w, r, hash, jti);
    IssueLinks(c, w, r, hash, jti);
    IssueReasons(c, w, r, hash, jti);
  }

  lemma RetireKeeps(c: Config, w: World, hash: Hash)
    requires Inv(c, w) && hash in w.s.refresh
    ensures Inv(c, Retire(c, w, hash)) && Inv(c, Drop(w, hash))
  {
    hide Owned, TokensApart, Listed, Named, Reasons, Retire, Drop;
    RetireOwned(c, w, hash);
    RetireLinks(c, w, hash);
    RetireReasons(c, w, hash);
  }

  lemma RetireOwned(c: Config, w: World, hash: Hash)
    requires Owned(w) && TokensApart(w) && hash in w.s.refresh
    ensures Owned(Retire(c, w, hash)) && Owned(Drop(w, hash))
    ensures TokensApart(Retire(c, w, hash)) && TokensApart(Drop(w, hash))
  {
    hide Owned;
    OwnedAlike(w, Retire(c, w, hash));
    OwnedAlike(w, Drop(w, hash));
  }

  lemma OwnedAlike(w: World, w': World)
    requires Owned(w)
    requires w'.s.alive == w.s.alive && w'.s.session == w.s.session && w'.s.members == w.s.members
    requires w'.h.owner == w.h.owner && w'.h.first == w.h.first
    requires w'.h.tokens == w.h.tokens && w'.h.accesses == w.h.accesses
    ensures Owned(w')
  {
    assert forall r :: OwnedBy(w, r) <==> OwnedBy(w', r);
    hide OwnedBy;
  }

  lemma RetireLinks(c: Config, w: World, hash: Hash)
    requires hash in w.s.refresh
    ensures Listed(c, w) ==> Listed(c, Retire(c, w, hash)) && Listed(c, Drop(w, hash))
    ensures Named(w) ==> Named(Retire(c, w, hash)) && Named(Drop(w, hash))
  {
    forall w' | w' in {Retire(c, w, hash), Drop(w, hash)}
      ensures (Listed(c, w) ==> Listed(c, w')) && (Named(w) ==> Named(w'))
    {
      assert forall x :: Alive(w', x) ==> Alive(w, x);
    }
  }

  lemma RetireReasons(c: Config, w: World, hash: Hash)
    requires Owned(w) && Reasons(c, w) && hash in w.s.refresh
    ensures Reasons(c, Retire(c, w, hash)) && Reasons(c, Drop(w, hash))
  {
    forall w' | w' in {Retire(c, w, hash), Drop(w, hash)} ensures Reasons(c, w') {
      forall x | x in w'.h.first ensures Recorded(c, w', x) {
        assert Recorded(c, w, x);
      }
    }
  }

  lemma RefreshKeeps(c: Config, w: World, hash: Hash, hash': Hash, jti: Jti)
    requires Inv(c, w) && hash' !in w.h.tokens
    ensures Inv(c, Refresh(c, w, hash, hash', jti))
  {
    var a := RefreshAnswer(w, hash);
    if a.Replayed? {
      hide Inv, RevokeAll;
      RevokeKeeps(c, w, w.s.used[hash].value.p, REFRESH_REPLAYED);
    } else if !a.Invalid? {
      hide Owned, TokensApart, Listed, Named, Reasons, Drop;
      RetireKeeps(c, w, hash);
      if a.Granted? {
        TokenOutlived(c, w, hash);
        hide Inv, Issue;
        IssueKeeps(c, Retire(c, w, hash), w.s.refresh[hash].value, hash', jti);
      }
    }
  }

  /** Login up to its own session: the session it replaces is ended, and its key is about to be overwritten. */
  function Vacate(c: Config, w: World, p: Principal): World {
    var w' := Replace(c, w, p);
    w'.(s := w'.s.(session := w'.s.session - {p}))
  }

  function Replaced(w: World, p: Principal): set<Sid> {
    if Live(w.s.session, p, w.now) then {w.s.session[p].value} else {}
  }

  function ReplacedReason(w: World, p: Principal): string {
    if Live(w.s.session, p, w.now) then REPLACED else ""
  }

  lemma VacateShape(c: Config, w: World, p: Principal)
    requires c.single
    ensures Shrunk(EndSessions(c, w, Replaced(w, p), ReplacedReason(w, p)), Vacate(c, w, p))
  {
    if !Live(w.s.session, p, w.now) {
      assert w.s.alive - {} == w.s.alive;
    }
  }

  lemma VacateLinks(c: Config, w: World, p: Principal, x: Sid, q: Principal)
    requires c.single
    ensures var w' := Vacate(c, w, p);
            && (x in Replaced(w, p) ==> Unlinked(w', x, p))
            && (x in w.s.alive && x !in Replaced(w, p) && ListedAs(w, x, q) ==> ListedAs(w', x, q))
            && (x in w.s.alive && x !in Replaced(w, p) && q != p && NamedAs(w, x, q) ==> NamedAs(w', x, q))
  {
  }

  lemma VacateKeeps(c: Config, w: World, p: Principal)
    requires Inv(c, w) && c.single
    ensures Inv(c, Vacate(c, w, p))
    ensures forall x :: Alive(Vacate(c, w, p), x) && x in w.h.owner ==> w.h.owner[x] != p
  {
    var w', sids := Vacate(c, w, p), Replaced(w, p);
    VacateShape(c, w, p);
    forall x | Alive(w, x) && x in w.h.owner && x !in sids
      ensures w.h.owner[x] != p && ListedAs(w', x, w.h.owner[x]) && NamedAs(w', x, w.h.owner[x])
    {
      assert ListedAs(w, x, w.h.owner[x]) && NamedAs(w, x, w.h.owner[x]);
      VacateLinks(c, w, p, x, w.h.owner[x]);
    }
    forall x | x in sids ensures x in w.h.owner && w.h.owner[x] == p && x !in w.h.first && Unlinked(w', x, p) {
      assert OwnedBy(w, Record(p, x));
      assert x in w.h.first ==> Recorded(c, w, x);
      VacateLinks(c, w, p, x, p);
    }
    ClosingKeeps(c, w, sids, ReplacedReason(w, p), w');
  }

  lemma BeginKeeps(c: Config, w: World, p: Principal, sid: Sid)
    requires Inv(c, w) && sid !in w.h.owner
    requires c.single ==> forall x :: Alive(w, x) && x in w.h.owner ==> w.h.owner[x] != p
    ensures Inv(c, Begin(c, w, p, sid))
  {
    var w' := Begin(c, w, p, sid);
    BeginOwned(c, w, p, sid);
    BeginLinks(c, w, p, sid);
    BeginReasons(c, w, p, sid);
  }

  lemma BeginOwned(c: Config, w: World, p: Principal, sid: Sid)
    requires Owned(w) && TokensApart(w) && sid !in w.h.owner
    ensures Owned(Begin(c, w, p, sid)) && TokensApart(Begin(c, w, p, sid))
  {
  }

  lemma BeginLinks(c: Config, w: World, p: Principal, sid: Sid)
    requires Owned(w) && Listed(c, w) && (c.single ==> Named(w)) && sid !in w.h.owner
    requires c.single ==> forall x :: Alive(w, x) && x in w.h.owner ==> w.h.owner[x] != p
    ensures Listed(c, Begin(c, w, p, sid)) && (c.single ==> Named(Begin(c, w, p, sid)))
  {
    var w' := Begin(c, w, p, sid);
    forall x | Alive(w', x) && x in w'.h.owner
      ensures ListedAs(w', x, w'.h.owner[x]) && (c.single ==> NamedAs(w', x, w'.h.owner[x]))
    {
      if x != sid {
        assert Alive(w, x) && ListedAs(w, x, w.h.owner[x]);
        assert c.single ==> NamedAs(w, x, w.h.owner[x]);
      }
    }
  }

  lemma BeginRecorded(c: Config, w: World, p: Principal, sid: Sid, x: Sid)
    requires x in w.h.first && x in w.h.owner && Recorded(c, w, x) && sid !in w.h.owner
    ensures Recorded(c, Begin(c, w, p, sid), x)
  {
  }

  lemma BeginReasons(c: Config, w: World, p: Principal, sid: Sid)
    requires Owned(w) && Reasons(c, w) && sid !in w.h.owner
    ensures Reasons(c, Begin(c, w, p, sid))
  {
    hide Recorded;
    var w' := Begin(c, w, p, sid);
    forall x | x in w'.h.first ensures Recorded(c, w', x) {
      BeginRecorded(c, w, p, sid, x);
    }
  }

  /** Login may as well begin from the vacated store: it overwrites the session key anyway. */
  lemma LoginFromVacated(c: Config, w: World, p: Principal, sid: Sid)
    ensures c.single ==> Begin(c, Replace(c, w, p), p, sid) == Begin(c, Vacate(c, w, p), p, sid)
    ensures !c.single ==> Replace(c, w, p) == w
  {
    var w1, w2 := Replace(c, w, p), Vacate(c, w, p);
    assert Begin(c, w1, p, sid).s.session == Begin(c, w2, p, sid).s.session;
  }

  lemma LoginKeeps(c: Config, w: World, p: Principal, sid: Sid, hash: Hash, jti: Jti)
    requires Inv(c, w) && sid !in w.h.owner && hash !in w.h.tokens
    ensures Inv(c, Login(c, w, p, sid, hash, jti))
  {
    LoginFromVacated(c, w, p, sid);
    if c.single {
      VacateKeeps(c, w, p);
      BeginKeeps(c, Vacate(c, w, p), p, sid);
    } else {
      BeginKeeps(c, w, p, sid);
    }
    IssueKeeps(c, Begin(c, Replace(c, w, p), p, sid), Record(p, sid), hash, jti);
  }

  lemma StepKeeps(c: Config, w: World, e: Event)
    requires Inv(c, w) && Enabled(w, e)
    ensures Inv(c, Step(c, w, e))
  {
    match e
    case Tick(to) => TickKeeps(c, w, to);
    case DoLogin(p, sid, hash, jti) => LoginKeeps(c, w, p, sid, hash, jti);
    case DoRefresh(hash, hash', jti) => RefreshKeeps(c, w, hash, hash', jti);
    case DoLogout(hash, access) => LogoutKeeps(c, w, hash, access);
    case DoRevokeAll(p, reason) => RevokeKeeps(c, w, p, reason);
  }

  lemma TickKeeps(c: Config, w: World, to: int)
    requires Inv(c, w) && w.now <= to
    ensures Inv(c, w.(now := to))
  {
    forall x | x in w.h.first ensures Recorded(c, w.(now := to), x) {
      assert Recorded(c, w, x);
    }
    forall x | Alive(w.(now := to), x) && x in w.h.owner
      ensures ListedAs(w, x, w.h.owner[x]) && (c.single ==> NamedAs(w, x, w.h.owner[x]))
    {
      assert Alive(w, x);
    }
  }

  lemma {:induction false} InvAlong(c: Config, ws: seq<World>, es: seq<Event>, i: nat)
    requires IsRun(c, ws, es) && i < |ws|
    ensures Inv(c, ws[i])
  {
    if i > 0 {
      InvAlong(c, ws, es, i - 1);
      StepKeeps(c, ws[i - 1], es[i - 1]);
    }
  }

  // ------------------------------------------------------------------
  // One session, and the end of one
  // ------------------------------------------------------------------

  /** With single_session, every reachable store has at most one alive session per principal, and it is the
      one the principal's live session key names. */
  lemma SingleSession(c: Config, ws: seq<World>, es: seq<Event>, i: nat, x: Sid, y: Sid)
    requires IsRun(c, ws, es) && i < |ws| && c.single
    requires Alive(ws[i], x) && x in ws[i].h.owner
    requires Alive(ws[i], y) && y in ws[i].h.owner && ws[i].h.owner[x] == ws[i].h.owner[y]
    ensures x == y
    ensures Live(ws[i].s.session, ws[i].h.owner[x], ws[i].now) && ws[i].s.session[ws[i].h.owner[x]].value == x
  {
    InvAlong(c, ws, es, i);
    assert NamedAs(ws[i], x, ws[i].h.owner[x]) && NamedAs(ws[i], y, ws[i].h.owner[y]);
  }

  /** With it on or off, an alive session is in its principal's live set, so RevokeAll finds it. */
  lemma AliveIsListed(c: Config, ws: seq<World>, es: seq<Event>, i: nat, x: Sid)
    requires IsRun(c, ws, es) && i < |ws| && Alive(ws[i], x)
    ensures x in ws[i].h.owner && x in MembersOf(ws[i], ws[i].h.owner[x])
  {
    InvAlong(c, ws, es, i);
    assert ListedAs(ws[i], x, ws[i].h.owner[x]);
  }

  predicate Dead(w: World, x: Sid) { x in w.h.owner && !Alive(w, x) }

  /** The history only grows: what was issued, exchanged or recorded first stays as it was. */
  ghost predicate Grown(h: History, h': History) {
    && (forall x :: x in h.owner ==> x in h'.owner && h'.owner[x] == h.owner[x])
    && (forall t :: t in h.tokens ==> t in h'.tokens && h'.tokens[t] == h.tokens[t])
    && h.accesses <= h'.accesses && h.exchanged <= h'.exchanged
    && (forall x :: x in h.first ==> x in h'.first && h'.first[x] == h.first[x])
  }

  lemma ReplaceFrame(c: Config, w: World, p: Principal)
    ensures var w' := Replace(c, w, p);
            && Grown(w.h, w'.h) && w'.now == w.now && w'.h.owner == w.h.owner && w'.h.tokens == w.h.tokens
            && w'.s.alive == w.s.alive - if c.single then Replaced(w, p) else {}
  {
    assert w.s.alive - {} == w.s.alive;
  }

  lemma LoginFrame(c: Config, w: World, p: Principal, sid: Sid, hash: Hash, jti: Jti)
    requires sid !in w.h.owner && hash !in w.h.tokens
    ensures var w' := Login(c, w, p, sid, hash, jti);
            && Grown(w.h, w'.h) && w'.now == w.now
            && w'.s.alive == (w.s.alive - if c.single then Replaced(w, p) else {})[sid := w.now + c.refreshTTL]
            && w'.h.owner == w.h.owner[sid := p]
  {
    ReplaceFrame(c, w, p);
  }

  lemma RevokeFrame(c: Config, w: World, p: Principal, reason: string)
    ensures var w' := RevokeAll(c, w, p, reason);
            Grown(w.h, w'.h) && w'.now == w.now && w'.s.alive == w.s.alive - MembersOf(w, p) && w'.h.owner == w.h.owner
  {
  }

  lemma LogoutFrame(c: Config, w: World, hash: Hash, access: Option<Access>)
    ensures var w' := Logout(c, w, hash, access);
            && Grown(w.h, w'.h) && w'.now == w.now && w'.h.owner == w.h.owner
            && w'.s.alive == w.s.alive - if Live(w.s.refresh, hash, w.now) then {w.s.refresh[hash].value.sid} else {}
  {
    if Live(w.s.refresh, hash, w.now) {
      EndOwnFrame(c, w, hash);
    } else {
      assert w.s.alive - {} == w.s.alive;
    }
  }

  lemma EndOwnFrame(c: Config, w: World, hash: Hash)
    requires hash in w.s.refresh
    ensures var w' := EndOwn(c, w, hash);
            && Grown(w.h, w'.h) && w'.now == w.now && w'.h.owner == w.h.owner
            && w'.s.alive == w.s.alive - {w.s.refresh[hash].value.sid}
  {
  }

  lemma RefreshFrame(c: Config, w: World, hash: Hash, hash': Hash, jti: Jti)
    requires hash' !in w.h.tokens
    ensures var w' := Refresh(c, w, hash, hash', jti);
            && Grown(w.h, w'.h) && w'.now == w.now && w'.h.owner == w.h.owner
            && w'.s.alive ==
               w.s.alive - if RefreshAnswer(w, hash).Replayed? then MembersOf(w, w.s.used[hash].value.p) else {}
  {
    assert w.s.alive - {} == w.s.alive;
    if RefreshAnswer(w, hash).Replayed? {
      RevokeFrame(c, w, w.s.used[hash].value.p, REFRESH_REPLAYED);
    }
  }

  /** Nothing revives a session, and nothing rewrites the history; in particular the first reason recorded for
      the end of a session stands. */
  lemma StepGrows(c: Config, w: World, e: Event)
    requires Enabled(w, e)
    ensures Grown(w.h, Step(c, w, e).h) && w.now <= Step(c, w, e).now
    ensures forall x :: Dead(w, x) ==> Dead(Step(c, w, e), x)
  {
    match e
    case Tick(to) =>
    case DoLogin(p, sid, hash, jti) => LoginFrame(c, w, p, sid, hash, jti);
    case DoRefresh(hash, hash', jti) => RefreshFrame(c, w, hash, hash', jti);
    case DoLogout(hash, access) => LogoutFrame(c, w, hash, access);
    case DoRevokeAll(p, reason) => RevokeFrame(c, w, p, reason);
  }

  /** RevokeAll leaves no session of its principal alive, and every other principal's as it was. */
  lemma RevokeAllEnds(c: Config, w: World, p: Principal, reason: string, x: Sid)
    requires Inv(c, w) && x in w.h.owner
    ensures var w' := RevokeAll(c, w, p, reason);
            if w.h.owner[x] == p then Dead(w', x)
            else (x in w.s.alive <==> x in w'.s.alive) && (x in w.s.alive ==> w'.s.alive[x] == w.s.alive[x])
  {
    RevokeFrame(c, w, p, reason);
    if w.h.owner[x] == p {
      assert Alive(w, x) ==> ListedAs(w, x, p);
    } else {
      assert x in MembersOf(w, p) ==> OwnedBy(w, Record(p, x));
    }
  }

  lemma {:induction false} HistoryGrows(c: Config, ws: seq<World>, es: seq<Event>, i: nat, j: nat)
    requires IsRun(c, ws, es) && i <= j < |ws|
    ensures Grown(ws[i].h, ws[j].h)
    ensures forall x :: Dead(ws[i], x) ==> Dead(ws[j], x)
  {
    hide IsRun, Step, Enabled, Dead;
    if i < j {
      HistoryGrows(c, ws, es, i, j - 1);
      Lengths(c, ws, es);
      StepOf(c, ws, es, j - 1);
      StepGrows(c, ws[j - 1], es[j - 1]);
    }
  }

  /** A token of a dead session buys nothing. */
  lemma DeadIsRefused(c: Config, w: World, x: Sid, hash: Hash, realm: string, a: Access)
    requires Inv(c, w) && Dead(w, x)
    ensures hash in w.h.tokens && w.h.tokens[hash].sid == x ==> !RefreshAnswer(w, hash).Granted?
    ensures a.sid == x ==> !VerifyAnswer(w, realm, a).Granted?
  {
  }

  lemma IssuedToOwners(c: Config, w: World, hash: Hash, a: Access)
    requires Inv(c, w)
    ensures hash in w.h.tokens ==> OwnedBy(w, w.h.tokens[hash])
    ensures a in w.h.accesses ==> OwnedBy(w, Record(a.p, a.sid))
  {
  }

  /** RevokeAll ends the sessions of its principal for the rest of the run. */
  lemma RevokedStaysDead(c: Config, ws: seq<World>, es: seq<Event>, i: nat, j: nat, x: Sid)
    requires IsRun(c, ws, es) && i < j < |ws| && es[i].DoRevokeAll? && OwnedBy(ws[i], Record(es[i].p, x))
    ensures Dead(ws[j], x)
  {
    assert ws[i + 1] == RevokeAll(c, ws[i], es[i].p, es[i].reason);
    InvAlong(c, ws, es, i);
    hide IsRun, Inv, RevokeAll, Dead, Grown;
    RevokeAllEnds(c, ws[i], es[i].p, es[i].reason, x);
    HistoryGrows(c, ws, es, i + 1, j);
  }

  /** After RevokeAll, for the rest of the run, every refresh and every access token issued to the principal
      before it is refused, by Refresh and by every gateway. */
  lemma RevokedForever(c: Config, ws: seq<World>, es: seq<Event>, i: nat, j: nat, hash: Hash, realm: string, a: Access)
    requires IsRun(c, ws, es) && i < j < |ws| && es[i].DoRevokeAll?
    ensures hash in ws[i].h.tokens && ws[i].h.tokens[hash].p == es[i].p ==> !RefreshAnswer(ws[j], hash).Granted?
    ensures a in ws[i].h.accesses && a.p == es[i].p ==> !VerifyAnswer(ws[j], realm, a).Granted?
  {
    assert |ws| == |es| + 1;
    hide IsRun, Inv, RefreshAnswer, VerifyAnswer, Dead;
    InvAlong(c, ws, es, i);
    InvAlong(c, ws, es, j);
    HistoryGrows(c, ws, es, i, j);
    IssuedToOwners(c, ws[i], hash, a);
    if hash in ws[i].h.tokens && ws[i].h.tokens[hash].p == es[i].p {
      var x := ws[i].h.tokens[hash].sid;
      RevokedStaysDead(c, ws, es, i, j, x);
      DeadIsRefused(c, ws[j], x, hash, realm, a);
    }
    if a in ws[i].h.accesses && a.p == es[i].p {
      RevokedStaysDead(c, ws, es, i, j, a.sid);
      DeadIsRefused(c, ws[j], a.sid, hash, realm, a);
    }
  }

  // ------------------------------------------------------------------
  // Refresh tokens
  // ------------------------------------------------------------------

  /** A refresh token is exchanged at most once in the life of the store. */
  lemma ExchangedOnce(c: Config, ws: seq<World>, es: seq<Event>, i: nat, j: nat, hash: Hash)
    requires IsRun(c, ws, es) && i < j < |es|
    requires es[i].DoRefresh? && es[i].hash == hash && RefreshAnswer(ws[i], hash).Granted?
    requires es[j].DoRefresh? && es[j].hash == hash
    ensures !RefreshAnswer(ws[j], hash).Granted?
  {
    InvAlong(c, ws, es, j);
    HistoryGrows(c, ws, es, i + 1, j);
    assert hash in ws[i + 1].h.exchanged;
  }

  /** No hash is ever both live and used, and what is live was never exchanged. */
  lemma NeverLiveAndUsed(c: Config, ws: seq<World>, es: seq<Event>, i: nat, hash: Hash)
    requires IsRun(c, ws, es) && i < |ws|
    ensures !(hash in ws[i].s.refresh && hash in ws[i].s.used)
    ensures hash in ws[i].s.refresh ==> hash !in ws[i].h.exchanged
  {
    InvAlong(c, ws, es, i);
  }

  /** A token is live, used or neither, never both; the exchange retires it, hands out one that works and keeps the
      session. */
  lemma ExchangeRotates(c: Config, w: World, hash: Hash, hash': Hash, jti: Jti)
    requires Inv(c, w) && hash' !in w.h.tokens && RefreshAnswer(w, hash).Granted?
    ensures var w' := Refresh(c, w, hash, hash', jti);
            && RefreshAnswer(w, hash).sid == w.h.tokens[hash].sid
            && RefreshAnswer(w', hash').Granted? && RefreshAnswer(w', hash').sid == w.h.tokens[hash].sid
            && RefreshAnswer(w', hash).Replayed?
            && w'.h.tokens[hash'] == w.h.tokens[hash]
            && w'.s.alive == w.s.alive && w'.s.session == w.s.session && w'.s.members == w.s.members
  {
  }

  /** A retired token presented again while its record lives ends every session of its principal, and says so. */
  lemma ReplayEndsAll(c: Config, w: World, hash: Hash, hash': Hash, jti: Jti, x: Sid)
    requires Inv(c, w) && hash in w.h.exchanged && Live(w.s.used, hash, w.now)
    requires x in w.h.owner && w.h.owner[x] == w.h.tokens[hash].p
    ensures RefreshAnswer(w, hash) == Replayed
    ensures Dead(Refresh(c, w, hash, hash', jti), x)
    ensures Alive(w, x) ==> Reason(Refresh(c, w, hash, hash', jti), x) == REFRESH_REPLAYED
  {
    ReplayRevokes(c, w, hash, hash', jti);
    hide Refresh, RevokeAll, Inv;
    RevokeAllEnds(c, w, w.h.tokens[hash].p, REFRESH_REPLAYED, x);
    if Alive(w, x) {
      RevokeRecords(c, w, w.h.tokens[hash].p, REFRESH_REPLAYED, x);
    }
  }

  lemma ReplayRevokes(c: Config, w: World, hash: Hash, hash': Hash, jti: Jti)
    requires TokensApart(w) && hash in w.h.exchanged && Live(w.s.used, hash, w.now)
    ensures hash in w.h.tokens && RefreshAnswer(w, hash) == Replayed
    ensures Refresh(c, w, hash, hash', jti) == RevokeAll(c, w, w.h.tokens[hash].p, REFRESH_REPLAYED)
  {
    hide RevokeAll;
  }

  lemma RevokeRecords(c: Config, w: World, p: Principal, reason: string, x: Sid)
    requires Inv(c, w) && x in w.h.owner && w.h.owner[x] == p && Alive(w, x) && reason != ""
    ensures Reason(RevokeAll(c, w, p, reason), x) == reason
  {
    assert ListedAs(w, x, p);
    AliveIsUnrecorded(c, w, x);
  }

  lemma AliveIsUnrecorded(c: Config, w: World, x: Sid)
    requires Inv(c, w) && Alive(w, x) && x in w.h.owner
    ensures x !in w.h.first && x !in w.s.ended
  {
  }

  // ------------------------------------------------------------------
  // Reasons
  // ------------------------------------------------------------------

  /** Refresh reports exactly the first reason recorded for the session, and "" exactly when none was. Verify
      reports the same when an access token does not outlive a refresh token, except that a blacklisted token
      is reported as logged out. */
  lemma ReportedReason(c: Config, w: World, hash: Hash, realm: string, a: Access)
    requires Inv(c, w)
    ensures RefreshAnswer(w, hash).Revoked? && hash in w.h.tokens ==>
              var x := w.h.tokens[hash].sid;
              RefreshAnswer(w, hash).reason == if x in w.h.first then w.h.first[x] else ""
    ensures a in w.h.accesses && VerifyAnswer(w, realm, a).Revoked? && c.accessTTL <= c.refreshTTL ==>
              VerifyAnswer(w, realm, a).reason ==
                if a.jti in w.s.blacklist && w.now < w.s.blacklist[a.jti] then LOGOUT
                else if a.sid in w.h.first then w.h.first[a.sid] else ""
  {
    if RefreshAnswer(w, hash).Revoked? && w.s.refresh[hash].value.sid in w.h.first {
      assert OwnedBy(w, w.h.tokens[hash]);
      assert Recorded(c, w, w.s.refresh[hash].value.sid);
    }
    if a in w.h.accesses && a.sid in w.h.first {
      assert OwnedBy(w, Record(a.p, a.sid));
      assert Recorded(c, w, a.sid);
    }
  }

  lemma Lengths(c: Config, ws: seq<World>, es: seq<Event>)
    requires IsRun(c, ws, es)
    ensures |ws| == |es| + 1
  {
  }

  lemma StepOf(c: Config, ws: seq<World>, es: seq<Event>, k: nat)
    requires IsRun(c, ws, es) && k < |es|
    ensures ws[k + 1] == Step(c, ws[k], es[k]) && Enabled(ws[k], es[k])
  {
  }

  /** From w to w' the record of x's end stands, or was made with the first reason and one refresh lifetime. */
  ghost predicate RecordKept(c: Config, w: World, w': World, x: Sid) {
    && (x in w.h.first && x in w.s.ended ==> x in w'.s.ended && w'.s.ended[x] == w.s.ended[x])
    && (x !in w.h.first && x in w'.h.first ==>
        x in w'.s.ended && w'.s.ended[x] == Entry(w'.h.first[x], w.now + c.refreshTTL))
  }

  /** The record of an end is written once: the step that made it gave it one refresh lifetime, and no later step
      changes it. */
  lemma RecordStands(c: Config, w: World, e: Event, x: Sid)
    requires Inv(c, w) && Enabled(w, e)
    ensures RecordKept(c, w, Step(c, w, e), x)
  {
    hide Inv, Login, Refresh, Logout, RevokeAll, RecordKept;
    match e
    case Tick(to) => TickRecord(c, w, to, x);
    case DoLogin(p, sid, hash, jti) => LoginRecord(c, w, p, sid, hash, jti, x);
    case DoRefresh(hash, hash', jti) => RefreshRecord(c, w, hash, hash', jti, x);
    case DoLogout(hash, access) => LogoutRecord(c, w, hash, access, x);
    case DoRevokeAll(p, reason) => RevokeRecord(c, w, p, reason, x);
  }

  lemma TickRecord(c: Config, w: World, to: int, x: Sid)
    ensures RecordKept(c, w, w.(now := to), x)
  {
  }

  lemma LivesOrNew(c: Config, w: World, p: Principal, x: Sid)
    requires Inv(c, w) && (x in MembersOf(w, p) || x in Replaced(w, p))
    ensures x !in w.h.first
  {
    assert OwnedBy(w, Record(p, x));
    assert x in w.h.first ==> Recorded(c, w, x);
  }

  lemma RecordedOnly(c: Config, w: World, x: Sid)
    requires Inv(c, w)
    ensures x in w.s.ended ==> x in w.h.first
  {
  }

  lemma RevokeRecord(c: Config, w: World, p: Principal, reason: string, x: Sid)
    requires Inv(c, w)
    ensures RecordKept(c, w, RevokeAll(c, w, p, reason), x)
  {
    hide Inv, MembersOf;
    if x in MembersOf(w, p) {
      LivesOrNew(c, w, p, x);
    }
    RecordedOnly(c, w, x);
    hide EndSessions;
    EndRecord(c, w, MembersOf(w, p), reason, x);
  }

  lemma EndRecord(c: Config, w: World, sids: set<Sid>, reason: string, x: Sid)
    requires x in sids && x in w.h.first ==> Live(w.s.ended, x, w.now)
    requires x in w.s.ended ==> x in w.h.first
    ensures RecordKept(c, w, EndSessions(c, w, sids, reason), x)
  {
  }

  lemma LoginRecord(c: Config, w: World, p: Principal, sid: Sid, hash: Hash, jti: Jti, x: Sid)
    requires Inv(c, w)
    ensures RecordKept(c, w, Login(c, w, p, sid, hash, jti), x)
  {
    hide Inv;
    RecordedOnly(c, w, x);
    if x in Replaced(w, p) {
      LivesOrNew(c, w, p, x);
    }
  }

  lemma RefreshRecord(c: Config, w: World, hash: Hash, hash': Hash, jti: Jti, x: Sid)
    requires Inv(c, w)
    ensures RecordKept(c, w, Refresh(c, w, hash, hash', jti), x)
  {
    hide Inv, RevokeAll;
    if RefreshAnswer(w, hash).Replayed? {
      RevokeRecord(c, w, w.s.used[hash].value.p, REFRESH_REPLAYED, x);
    }
  }

  lemma LogoutRecord(c: Config, w: World, hash: Hash, access: Option<Access>, x: Sid)
    requires Inv(c, w)
    ensures RecordKept(c, w, Logout(c, w, hash, access), x)
  {
    hide Owned, TokensApart, Listed, Named, Reasons;
    RecordedOnly(c, w, x);
    if Live(w.s.refresh, hash, w.now) {
      TokenOutlived(c, w, hash);
    }
  }

  lemma {:induction false} RecordAlong(c: Config, ws: seq<World>, es: seq<Event>, k: nat, j: nat, x: Sid)
    requires IsRun(c, ws, es) && k < j < |ws| && x !in ws[k].h.first && x in ws[k + 1].h.first
    ensures x in ws[j].h.first && x in ws[j].s.ended
    ensures ws[j].s.ended[x] == Entry(ws[j].h.first[x], ws[k].now + c.refreshTTL)
  {
    hide IsRun, Step, Inv, Enabled, Dead;
    Lengths(c, ws, es);
    InvAlong(c, ws, es, j - 1);
    StepOf(c, ws, es, j - 1);
    RecordStands(c, ws[j - 1], es[j - 1], x);
    if k + 1 < j {
      RecordAlong(c, ws, es, k, j - 1, x);
      StepGrows(c, ws[j - 1], es[j - 1]);
    }
  }

  /** Whatever the lifetimes, a gateway gives the first reason recorded for a session exactly until one refresh
      lifetime after it was recorded, and none from then on. */
  lemma VerifyReportsIff(c: Config, ws: seq<World>, es: seq<Event>, k: nat, j: nat, realm: string, a: Access)
    requires IsRun(c, ws, es) && k < j < |ws| && a.sid !in ws[k].h.first && a.sid in ws[k + 1].h.first
    requires VerifyAnswer(ws[j], realm, a).Revoked?
    requires !(a.jti in ws[j].s.blacklist && ws[j].now < ws[j].s.blacklist[a.jti])
    ensures a.sid in ws[j].h.first
    ensures VerifyAnswer(ws[j], realm, a).reason ==
              if ws[j].now < ws[k].now + c.refreshTTL then ws[j].h.first[a.sid] else ""
  {
    hide IsRun;
    RecordAlong(c, ws, es, k, j, a.sid);
  }

  /** So with access tokens that outlive refresh tokens the reason is forgotten while a token still lives. */
  lemma ReasonForgotten() returns (c: Config, ws: seq<World>, es: seq<Event>)
    ensures c == Settings(100, 10, false) && IsRun(c, ws, es) && |ws| == 4 && ws[3].now == 50
    ensures var a := Access(Principal("app", 1), 7, 1, 100);
            && a in ws[3].h.accesses && 7 in ws[3].h.first && ws[3].h.first[7] == "disabled"
            && VerifyAnswer(ws[2], "app", a) == Revoked("disabled") && VerifyAnswer(ws[3], "app", a) == Revoked("")
  {
    c := Settings(100, 10, false);
    var p := Principal("app", 1);
    es := [DoLogin(p, 7, 1, 1), DoRevokeAll(p, "disabled"), Tick(50)];
    var w1 := ShortLogin(c, p);
    var w2 := ShortRevoke(c, p, w1);
    hide Login, RevokeAll;
    ws := [Init(0), w1, w2, w2.(now := 50)];
  }

  lemma ShortLogin(c: Config, p: Principal) returns (w: World)
    requires c == Settings(100, 10, false)
    ensures w == Login(c, Init(0), p, 7, 1, 1) && w.now == 0 && w.s.blacklist == map[] && w.s.ended == map[]
    ensures MembersOf(w, p) == {7} && Access(p, 7, 1, 100) in w.h.accesses && w.h.first == map[]
  {
    w := Login(c, Init(0), p, 7, 1, 1);
  }

  lemma ShortRevoke(c: Config, p: Principal, w: World) returns (w': World)
    requires c == Settings(100, 10, false) && w.now == 0 && w.s.ended == map[] && w.h.first == map[]
    requires MembersOf(w, p) == {7}
    ensures w' == RevokeAll(c, w, p, "disabled") && w'.now == 0 && w'.s.blacklist == w.s.blacklist
    ensures 7 in w'.s.ended && w'.s.ended[7] == Entry("disabled", 10) && 7 !in w'.s.alive
    ensures w'.h.accesses == w.h.accesses && 7 in w'.h.first && w'.h.first[7] == "disabled"
  {
    w' := RevokeAll(c, w, p, "disabled");
  }

  // ------------------------------------------------------------------
  // How long a session lasts
  // ------------------------------------------------------------------

  /** A step that ends session x: a logout with its live token, or a revocation, a replay or (with single_session) a
      login of its principal. */
  predicate Ends(c: Config, w: World, e: Event, x: Sid)
    requires x in w.h.owner
  {
    match e
    case Tick(_) => false
    case DoLogin(p, _, _, _) => c.single && w.h.owner[x] == p
    case DoRefresh(hash, _, _) => RefreshAnswer(w, hash).Replayed? && w.s.used[hash].value.p == w.h.owner[x]
    case DoLogout(hash, _) => Live(w.s.refresh, hash, w.now) && w.s.refresh[hash].value.sid == x
    case DoRevokeAll(p, _) => w.h.owner[x] == p
  }

  predicate SameSession(w: World, w': World, x: Sid) {
    && (x in w'.s.alive <==> x in w.s.alive) && (x in w.s.alive ==> w'.s.alive[x] == w.s.alive[x])
    && (x in w'.h.first <==> x in w.h.first)
  }

  lemma RevokeSpares(c: Config, w: World, p: Principal, reason: string, x: Sid)
    requires Inv(c, w) && x in w.h.owner && w.h.owner[x] != p
    ensures SameSession(w, RevokeAll(c, w, p, reason), x)
  {
    assert x in MembersOf(w, p) ==> OwnedBy(w, Record(p, x));
  }

  lemma LoginSpares(c: Config, w: World, p: Principal, sid: Sid, hash: Hash, jti: Jti, x: Sid)
    requires Inv(c, w) && x in w.h.owner && x != sid && !(c.single && w.h.owner[x] == p)
    ensures SameSession(w, Login(c, w, p, sid, hash, jti), x)
  {
    hide Inv;
    ReplacedIsOwned(c, w, p, x);
  }

  /** Every other step leaves the session's key and its lifetime as they are: nothing extends it. */
  lemma NothingExtends(c: Config, w: World, e: Event, x: Sid)
    requires Inv(c, w) && Enabled(w, e) && x in w.h.owner && !Ends(c, w, e, x)
    ensures SameSession(w, Step(c, w, e), x)
  {
    hide Inv, Login, Refresh, Logout, RevokeAll, RefreshAnswer;
    match e
    case Tick(_) =>
    case DoLogin(p, sid, hash, jti) => LoginSpares(c, w, p, sid, hash, jti, x);
    case DoRefresh(hash, hash', jti) => RefreshSpares(c, w, hash, hash', jti, x);
    case DoLogout(hash, access) => LogoutSpares(c, w, hash, access, x);
    case DoRevokeAll(p, reason) => RevokeSpares(c, w, p, reason, x);
  }

  lemma RefreshSpares(c: Config, w: World, hash: Hash, hash': Hash, jti: Jti, x: Sid)
    requires Inv(c, w) && x in w.h.owner && !Ends(c, w, DoRefresh(hash, hash', jti), x)
    ensures SameSession(w, Refresh(c, w, hash, hash', jti), x)
  {
    hide Inv, RevokeAll;
    if RefreshAnswer(w, hash).Replayed? {
      RevokeSpares(c, w, w.s.used[hash].value.p, REFRESH_REPLAYED, x);
    }
  }

  lemma LogoutSpares(c: Config, w: World, hash: Hash, access: Option<Access>, x: Sid)
    requires x in w.h.owner && !Ends(c, w, DoLogout(hash, access), x)
    ensures SameSession(w, Logout(c, w, hash, access), x)
  {
  }

  /** x was started by the login at i and no step from there to j ended it. */
  ghost predicate Undisturbed(c: Config, ws: seq<World>, es: seq<Event>, i: nat, j: nat, x: Sid)
    requires i < j < |ws| && j <= |es|
  {
    && es[i].DoLogin? && es[i].sid == x
    && forall k :: i < k < j ==> x in ws[k].h.owner && !Ends(c, ws[k], es[k], x)
  }

  lemma BornAlive(c: Config, w: World, e: Event)
    requires Inv(c, w) && e.DoLogin? && Enabled(w, e)
    ensures var w' := Step(c, w, e);
            && e.sid in w'.s.alive && w'.s.alive[e.sid] == w.now + c.refreshTTL && e.sid !in w'.h.first
            && e.sid in w'.h.owner
  {
    hide Inv;
    ReplacedIsOwned(c, w, e.p, e.sid);
  }

  lemma ReplacedIsOwned(c: Config, w: World, p: Principal, x: Sid)
    requires Inv(c, w)
    ensures x in Replaced(w, p) ==> x in w.h.owner && w.h.owner[x] == p
    ensures x in w.h.first ==> x in w.h.owner
  {
    assert x in Replaced(w, p) ==> OwnedBy(w, Record(p, x));
  }

  lemma {:induction false} LastsAlong(c: Config, ws: seq<World>, es: seq<Event>, i: nat, j: nat, x: Sid)
    requires IsRun(c, ws, es) && i < j < |ws| && Undisturbed(c, ws, es, i, j, x)
    ensures x in ws[j].s.alive && ws[j].s.alive[x] == ws[i].now + c.refreshTTL && x !in ws[j].h.first
  {
    hide IsRun, Step, Inv, Enabled, Ends;
    Lengths(c, ws, es);
    InvAlong(c, ws, es, j - 1);
    StepOf(c, ws, es, j - 1);
    if i + 1 == j {
      BornAlive(c, ws[i], es[i]);
    } else {
      LastsAlong(c, ws, es, i, j - 1, x);
      NothingExtends(c, ws[j - 1], es[j - 1], x);
    }
  }

  /** The refresh token `hash` of session x was handed out by step m, by the login or by an exchange. */
  predicate Issues(w: World, e: Event, hash: Hash, x: Sid) {
    || (e.DoLogin? && e.hash == hash && e.sid == x)
    || (e.DoRefresh? && e.hash' == hash && RefreshAnswer(w, e.hash) == Granted(x))
  }

  predicate Presents(e: Event, hash: Hash) { (e.DoRefresh? || e.DoLogout?) && e.hash == hash }

  lemma IssuedEntry(c: Config, w: World, e: Event, hash: Hash, x: Sid)
    requires Enabled(w, e) && Issues(w, e, hash, x)
    ensures var w' := Step(c, w, e);
            && hash in w'.h.tokens && hash in w'.s.refresh && w'.s.refresh[hash].value.sid == x
            && w'.s.refresh[hash].until == w.now + c.refreshTTL
  {
  }

  predicate SameToken(w: World, w': World, hash: Hash)
    requires hash in w.h.tokens && hash in w.s.refresh
  {
    hash in w'.h.tokens && hash in w'.s.refresh && w'.s.refresh[hash] == w.s.refresh[hash]
  }

  lemma TokenStays(c: Config, w: World, e: Event, hash: Hash)
    requires Enabled(w, e) && !Presents(e, hash) && hash in w.h.tokens && hash in w.s.refresh
    ensures SameToken(w, Step(c, w, e), hash)
  {
    hide Login, Refresh, Logout;
    match e
    case Tick(_) =>
    case DoLogin(p, sid, next, jti) => LoginKeepsToken(c, w, p, sid, next, jti, hash);
    case DoRefresh(other, next, jti) => RefreshKeepsToken(c, w, other, next, jti, hash);
    case DoLogout(other, access) => LogoutKeepsToken(c, w, other, access, hash);
    case DoRevokeAll(_, _) =>
  }

  lemma LoginKeepsToken(c: Config, w: World, p: Principal, sid: Sid, next: Hash, jti: Jti, hash: Hash)
    requires next !in w.h.tokens && hash in w.h.tokens && hash in w.s.refresh
    ensures SameToken(w, Login(c, w, p, sid, next, jti), hash)
  {
    hide EndSessions;
    if Live(w.s.session, p, w.now) {
      EndingTouches(c, w, {w.s.session[p].value}, REPLACED);
    }
  }

  lemma EndingTouches(c: Config, w: World, sids: set<Sid>, reason: string)
    ensures var w' := EndSessions(c, w, sids, reason);
            w'.s.refresh == w.s.refresh && w'.h.tokens == w.h.tokens
  {
  }

  lemma RefreshKeepsToken(c: Config, w: World, other: Hash, next: Hash, jti: Jti, hash: Hash)
    requires next !in w.h.tokens && hash in w.h.tokens && hash in w.s.refresh && other != hash
    ensures SameToken(w, Refresh(c, w, other, next, jti), hash)
  {
    hide EndSessions, MembersOf, Alive;
    if RefreshAnswer(w, other).Replayed? {
      EndingTouches(c, w, MembersOf(w, w.s.used[other].value.p), REFRESH_REPLAYED);
    }
  }

  lemma LogoutKeepsToken(c: Config, w: World, other: Hash, access: Option<Access>, hash: Hash)
    requires hash in w.h.tokens && hash in w.s.refresh && other != hash
    ensures SameToken(w, Logout(c, w, other, access), hash)
  {
    hide EndSessions, Unnamed, Unlisted;
    if other in w.s.refresh {
      EndingTouches(c, w, {w.s.refresh[other].value.sid}, LOGOUT);
    }
  }

  lemma {:induction false} TokenAlong(c: Config, ws: seq<World>, es: seq<Event>, m: nat, j: nat, hash: Hash, x: Sid)
    requires IsRun(c, ws, es) && m < j < |ws| && Issues(ws[m], es[m], hash, x)
    requires forall k :: m < k < j ==> !Presents(es[k], hash)
    ensures hash in ws[j].h.tokens && hash in ws[j].s.refresh && ws[j].s.refresh[hash].value.sid == x
    ensures ws[j].s.refresh[hash].until == ws[m].now + c.refreshTTL
  {
    hide IsRun, Step, Enabled, Issues, Presents;
    Lengths(c, ws, es);
    StepOf(c, ws, es, j - 1);
    if m + 1 == j {
      IssuedEntry(c, ws[m], es[m], hash, x);
    } else {
      TokenAlong(c, ws, es, m, j - 1, hash, x);
      TokenStays(c, ws[j - 1], es[j - 1], hash);
    }
  }

  lemma {:induction false} ClockForward(c: Config, ws: seq<World>, es: seq<Event>, i: nat, j: nat)
    requires IsRun(c, ws, es) && i <= j < |ws|
    ensures ws[i].now <= ws[j].now
  {
    hide IsRun, Step, Enabled, Grown, Dead;
    if i < j {
      ClockForward(c, ws, es, i, j - 1);
      Lengths(c, ws, es);
      StepOf(c, ws, es, j - 1);
      StepGrows(c, ws[j - 1], es[j - 1]);
    }
  }

  lemma AnswerIs(w: World, hash: Hash, x: Sid, until: int, tokenUntil: int)
    requires hash in w.s.refresh && w.s.refresh[hash].value.sid == x && w.s.refresh[hash].until == tokenUntil
    requires x in w.s.alive && w.s.alive[x] == until <= tokenUntil && x !in w.s.ended
    ensures RefreshAnswer(w, hash) == Granted(x) <==> w.now < until
    ensures until <= w.now < tokenUntil ==> RefreshAnswer(w, hash) == Revoked("")
  {
  }

  /** A session nobody ends lasts one refresh lifetime from its login, whatever its tokens were promised: a refresh
      token of it that was never presented is granted exactly until then, however late it was handed out, and for
      the rest of its own lifetime it is answered as revoked without a reason. */
  lemma GrantedUntil(c: Config, ws: seq<World>, es: seq<Event>, i: nat, m: nat, j: nat, hash: Hash, x: Sid)
    requires IsRun(c, ws, es) && i <= m < j < |ws| && Undisturbed(c, ws, es, i, j, x)
    requires Issues(ws[m], es[m], hash, x) && forall k :: m < k < j ==> !Presents(es[k], hash)
    ensures RefreshAnswer(ws[j], hash) == Granted(x) <==> ws[j].now < ws[i].now + c.refreshTTL
    ensures ws[i].now + c.refreshTTL <= ws[j].now < ws[m].now + c.refreshTTL ==>
              RefreshAnswer(ws[j], hash) == Revoked("")
  {
    hide RefreshAnswer, Undisturbed, Issues, Presents;
    LastsAlong(c, ws, es, i, j, x);
    TokenAlong(c, ws, es, m, j, hash, x);
    ClockForward(c, ws, es, i, m);
    InvAlong(c, ws, es, j);
    AnswerIs(ws[j], hash, x, ws[i].now + c.refreshTTL, ws[m].now + c.refreshTTL);
  }

  // ------------------------------------------------------------------
  // What the operations are for
  // ------------------------------------------------------------------

  /** A login hands out tokens that work at once, the access token at the gateways of its realm and no other. */
  lemma LoginGrants(c: Config, w: World, p: Principal, sid: Sid, hash: Hash, jti: Jti, realm: string)
    requires Enabled(w, DoLogin(p, sid, hash, jti))
    ensures var w' := Login(c, w, p, sid, hash, jti);
            var a := Access(p, sid, jti, w.now + c.accessTTL);
            && RefreshAnswer(w', hash) == Granted(sid) && w'.h.tokens[hash] == Record(p, sid)
            && a in w'.h.accesses
            && VerifyAnswer(w', realm, a) == if realm == p.realm && p.uid > 0 then Granted(sid) else Invalid
  {
  }

  /** With single_session a login ends the principal's other sessions; without it, and for every other
      principal, the sessions go on. */
  lemma LoginReplaces(c: Config, w: World, p: Principal, sid: Sid, hash: Hash, jti: Jti, x: Sid)
    requires Inv(c, w) && Enabled(w, DoLogin(p, sid, hash, jti)) && x in w.h.owner
    ensures Alive(Login(c, w, p, sid, hash, jti), x) <==> Alive(w, x) && !(c.single && w.h.owner[x] == p)
  {
    hide Login, Reasons, TokensApart;
    LoginFrame(c, w, p, sid, hash, jti);
    if Alive(w, x) {
      assert c.single ==> NamedAs(w, x, w.h.owner[x]);
    }
    assert x in Replaced(w, p) ==> OwnedBy(w, Record(p, x));
  }

  /** A logout ends the session of its refresh token and no other. */
  lemma LogoutEnds(c: Config, w: World, hash: Hash, access: Option<Access>, x: Sid)
    requires Inv(c, w) && x in w.h.owner
    ensures Alive(Logout(c, w, hash, access), x)
       <==> Alive(w, x) && !(Live(w.s.refresh, hash, w.now) && w.h.tokens[hash].sid == x)
  {
    hide Logout, Owned, Listed, Named, Reasons;
    LogoutFrame(c, w, hash, access);
  }

  /** After a logout neither of the two tokens it was given is accepted again. */
  lemma LogoutRefuses(c: Config, w: World, hash: Hash, access: Option<Access>, realm: string)
    requires Inv(c, w)
    ensures RefreshAnswer(Logout(c, w, hash, access), hash) in {Invalid, Replayed}
    ensures Live(w.s.refresh, hash, w.now) ==> RefreshAnswer(Logout(c, w, hash, access), hash) == Invalid
    ensures access.Some? ==> VerifyAnswer(Logout(c, w, hash, access), realm, access.value) in {Invalid, Revoked(LOGOUT)}
  {
  }
}
