/** The issuer and the verifier as they work on Redis: one command after another, each method tied to the
    atomic step of the session model. `now` is the clock of the call. */
module SessionIssuer {
  import opened Options
  import opened Sessions

  /** The two records pointwise: what ending the sessions `done` one by one has left. */
  ghost predicate EndsAs(m': Endings, m: Endings, now: int, until: int, done: set<Sid>, reason: string) {
    && (forall x :: x in m' <==> x in m || (reason != "" && x in done))
    && (forall x :: x in m' ==>
          m'[x] == if reason != "" && x in done && !Live(m, x, now) then Entry(reason, until) else m[x])
  }

  ghost predicate FirstAs(m': map<Sid, string>, m: map<Sid, string>, done: set<Sid>, reason: string) {
    && (forall x :: x in m' <==> x in m || (reason != "" && x in done))
    && (forall x :: x in m' ==> m'[x] == if x in m then m[x] else reason)
  }

  lemma EndsAsRecorded(m': Endings, m: Endings, now: int, until: int, done: set<Sid>, reason: string)
    requires EndsAs(m', m, now, until, done, reason)
    ensures m' == EndRecords(m, now, until, done, reason)
  {
  }

  lemma FirstAsRecorded(m': map<Sid, string>, m: map<Sid, string>, done: set<Sid>, reason: string)
    requires FirstAs(m', m, done, reason)
    ensures m' == FirstReasons(m, done, reason)
  {
  }

  lemma AliveOneMore(m: map<Sid, int>, done: set<Sid>, x: Sid)
    ensures m - done - {x} == m - (done + {x})
  {
  }

  function EndOneIn(m: Endings, now: int, until: int, sid: Sid, reason: string): Endings {
    if reason == "" || Live(m, sid, now) then m else m[sid := Entry(reason, until)]
  }

  function FirstOneIn(m: map<Sid, string>, sid: Sid, reason: string): map<Sid, string> {
    if reason == "" || sid in m then m else m[sid := reason]
  }

  lemma EndsAsOneMore(m': Endings, m: Endings, now: int, until: int, done: set<Sid>, x: Sid, reason: string)
    requires EndsAs(m', m, now, until, done, reason) && x !in done
    ensures EndsAs(EndOneIn(m', now, until, x, reason), m, now, until, done + {x}, reason)
  {
  }

  lemma FirstAsOneMore(m': map<Sid, string>, m: map<Sid, string>, done: set<Sid>, x: Sid, reason: string)
    requires FirstAs(m', m, done, reason)
    ensures FirstAs(FirstOneIn(m', x, reason), m, done + {x}, reason)
  {
  }

  lemma EndOneRecord(m: Endings, first: map<Sid, string>, now: int, until: int, sid: Sid, reason: string)
    ensures EndRecords(m, now, until, {sid}, reason) == EndOneIn(m, now, until, sid, reason)
    ensures FirstReasons(first, {sid}, reason) == FirstOneIn(first, sid, reason)
  {
  }

  lemma NothingEnded(m: Endings, first: map<Sid, string>, now: int, until: int, reason: string)
    ensures EndsAs(m, m, now, until, {}, reason) && FirstAs(first, first, {}, reason)
  {
  }

  class Issuer {
    const c: Config
    var db: Store
    ghost var hist: History

    constructor (c: Config)
      ensures this.c == c && forall now :: At(now) == Init(now)
    {
      this.c := c;
      db := Store(map[], map[], map[], map[], map[], map[], map[]);
      hist := History(map[], map[], {}, {}, map[]);
    }

    ghost function At(now: int): World
      reads this
    {
      World(db, now, hist)
    }

    method EndSession(sid: Sid, reason: string, now: int)
      modifies this
      ensures db == old(db).(alive := old(db).alive - {sid},
                             ended := EndOneIn(old(db).ended, now, now + c.refreshTTL, sid, reason))
      ensures hist == old(hist).(first := FirstOneIn(old(hist).first, sid, reason))
    {
      db := db.(alive := db.alive - {sid});
      if reason != "" {
        if !Live(db.ended, sid, now) {
          db := db.(ended := db.ended[sid := Entry(reason, now + c.refreshTTL)]);
        }
        hist := hist.(first := FirstOneIn(hist.first, sid, reason));
      }
    }

    /** The loop of RevokeAll: every session of the set, in any order. */
    method EndAll(sids: set<Sid>, reason: string, now: int)
      modifies this
      ensures db == old(db).(alive := old(db).alive - sids, ended := db.ended)
      ensures EndsAs(db.ended, old(db).ended, now, now + c.refreshTTL, sids, reason)
      ensures hist == old(hist).(first := hist.first) && FirstAs(hist.first, old(hist).first, sids, reason)
    {
      hide EndsAs, FirstAs, EndOneIn, FirstOneIn;
      ghost var db0, hist0 := db, hist;
      ghost var until := now + c.refreshTTL;
      var left := sids;
      ghost var done: set<Sid> := {};
      assert db.alive - {} == db.alive;
      NothingEnded(db.ended, hist.first, now, until, reason);
      while left != {}
        invariant left !! done && left + done == sids
        invariant db == db0.(alive := db0.alive - done, ended := db.ended)
        invariant EndsAs(db.ended, db0.ended, now, until, done, reason)
        invariant hist == hist0.(first := hist.first) && FirstAs(hist.first, hist0.first, done, reason)
        decreases left
      {
        var sid :| sid in left;
        AliveOneMore(db0.alive, done, sid);
        EndsAsOneMore(db.ended, db0.ended, now, until, done, sid, reason);
        FirstAsOneMore(hist.first, hist0.first, done, sid, reason);
        EndSession(sid, reason, now);
        left, done := left - {sid}, done + {sid};
      }
      assert done == sids;
    }

    method IssueTokens(r: Record, hash: Hash, jti: Jti, now: int) returns (access: Access)
      modifies this
      ensures At(now) == Issue(c, old(At(now)), r, hash, jti)
      ensures access == Access(r.p, r.sid, jti, now + c.accessTTL)
    {
      access := Access(r.p, r.sid, jti, now + c.accessTTL);
      db := db.(refresh := db.refresh[hash := Entry(r, now + c.refreshTTL)]);
      hist := hist.(tokens := hist.tokens[hash := r], accesses := hist.accesses + {access});
    }

    method StartSession(p: Principal, sid: Sid, now: int)
      modifies this
      ensures At(now) == Begin(c, old(At(now)), p, sid)
    {
      var others := if Live(db.members, p, now) then db.members[p].value else {};
      db := db.(session := db.session[p := Entry(sid, now + c.refreshTTL)],
                members := db.members[p := Entry(others + {sid}, now + c.refreshTTL)],
                alive := db.alive[sid := now + c.refreshTTL]);
      hist := hist.(owner := hist.owner[sid := p]);
    }

    method LoginPrincipal(p: Principal, sid: Sid, hash: Hash, jti: Jti, now: int) returns (access: Access)
      modifies this
      ensures At(now) == Login(c, old(At(now)), p, sid, hash, jti)
      ensures access == Access(p, sid, jti, now + c.accessTTL)
    {
      ghost var w := At(now);
      if c.single && Live(db.session, p, now) {
        var prev := db.session[p].value;
        EndOneRecord(db.ended, hist.first, now, now + c.refreshTTL, prev, REPLACED);
        EndSession(prev, REPLACED, now);
        db := db.(members := Unlisted(db.members, now, p, prev));
      }
      assert At(now) == Replace(c, w, p);
      StartSession(p, sid, now);
      access := IssueTokens(Record(p, sid), hash, jti, now);
    }

    method RevokePrincipal(p: Principal, reason: string, now: int)
      modifies this
      ensures At(now) == RevokeAll(c, old(At(now)), p, reason)
    {
      hide EndsAs, FirstAs, EndRecords, FirstReasons;
      ghost var w := At(now);
      var sids := if Live(db.members, p, now) then db.members[p].value else {};
      EndAll(sids, reason, now);
      EndsAsRecorded(db.ended, w.s.ended, now, now + c.refreshTTL, sids, reason);
      FirstAsRecorded(hist.first, w.h.first, sids, reason);
      assert At(now) == EndSessions(c, w, sids, reason);
      db := db.(session := db.session - {p}, members := db.members - {p});
    }

    method RefreshToken(hash: Hash, hash': Hash, jti: Jti, now: int) returns (answer: Answer)
      modifies this
      ensures answer == RefreshAnswer(old(At(now)), hash)
      ensures At(now) == Refresh(c, old(At(now)), hash, hash', jti)
    {
      if !Live(db.refresh, hash, now) {
        if Live(db.used, hash, now) {
          RevokePrincipal(db.used[hash].value.p, REFRESH_REPLAYED, now);
          return Replayed;
        }
        return Invalid;
      }
      var r := db.refresh[hash].value;
      if !(r.sid in db.alive && now < db.alive[r.sid]) {
        db := db.(refresh := db.refresh - {hash});
        var reason := if Live(db.ended, r.sid, now) then db.ended[r.sid].value else "";
        return Revoked(reason);
      }
      db := db.(refresh := db.refresh - {hash}, used := db.used[hash := Entry(r, now + c.refreshTTL)]);
      hist := hist.(exchanged := hist.exchanged + {hash});
      var _ := IssueTokens(r, hash', jti, now);
      return Granted(r.sid);
    }

    method LogoutTokens(hash: Hash, access: Option<Access>, now: int)
      modifies this
      ensures At(now) == Logout(c, old(At(now)), hash, access)
    {
      hide EndRecords, FirstReasons, EndOneIn, FirstOneIn, Unlisted;
      ghost var w := At(now);
      if Live(db.refresh, hash, now) {
        var r := db.refresh[hash].value;
        EndOneRecord(db.ended, hist.first, now, now + c.refreshTTL, r.sid, LOGOUT);
        EndSession(r.sid, LOGOUT, now);
        if Live(db.session, r.p, now) && db.session[r.p].value == r.sid {
          db := db.(session := db.session - {r.p});
        }
        db := db.(members := Unlisted(db.members, now, r.p, r.sid));
        db := db.(refresh := db.refresh - {hash});
        assert At(now) == EndOwn(c, w, hash);
      }
      if access.Some? && now < access.value.exp {
        db := db.(blacklist := db.blacklist[access.value.jti := access.value.exp]);
      }
    }

    /** A gateway's check of a genuine token. It only reads. */
    method Verify(realm: string, a: Access, now: int) returns (answer: Answer)
      ensures answer == VerifyAnswer(At(now), realm, a)
    {
      if now >= a.exp {
        return Invalid;
      }
      if a.p.realm != realm {
        return Invalid;
      }
      if a.p.uid <= 0 {
        return Invalid;
      }
      if a.jti in db.blacklist && now < db.blacklist[a.jti] {
        return Revoked(LOGOUT);
      }
      if !(a.sid in db.alive && now < db.alive[a.sid]) {
        var reason := if Live(db.ended, a.sid, now) then db.ended[a.sid].value else "";
        return Revoked(reason);
      }
      return Granted(a.sid);
    }
  }
}
