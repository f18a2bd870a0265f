/** The key a request's answer is kept under (kitexx): service, method (`call`) and request_id, and the login's uid when
    the request has one. */
module IdempotencyKeys {
  import opened Options
  import MoneyText

  /** strconv.FormatInt. */
  function Text(uid: int): string { if uid < 0 then "-" + MoneyText.Digits(-uid) else MoneyText.Digits(uid) }

  function Login(uid: Option<int>): string { if uid.Some? then ":u" + Text(uid.value) else "" }

  function Key(service: string, call: string, id: string, uid: Option<int>): string {
    "idem:" + service + ":" + call + ":" + id + Login(uid)
  }

  /** Names of services and methods have no colon. */
  predicate IsName(s: string) { ':' !in s }

  lemma Parts(a: string, rest: string, b: string, rest': string)
    requires IsName(a) && IsName(b)
    ensures a + ":" + rest == b + ":" + rest' <==> a == b && rest == rest'
  {
    if a + ":" + rest == b + ":" + rest' {
      var k := a + ":" + rest;
      FirstColon(a, rest);
      FirstColon(b, rest');
      assert |a| == |b|;
      assert a == k[..|a|] && b == k[..|b|];
      assert rest == k[|a| + 1..] && rest' == k[|b| + 1..];
    }
  }

  lemma FirstColon(a: string, rest: string)
    requires IsName(a)
    ensures (a + ":" + rest)[|a|] == ':' && forall m :: 0 <= m < |a| ==> (a + ":" + rest)[m] != ':'
  {
    forall m | 0 <= m < |a| ensures (a + ":" + rest)[m] != ':' {
      assert a[m] in a && (a + ":" + rest)[m] == a[m];
    }
  }

  lemma TextHasNoColon(uid: int)
    ensures forall i :: 0 <= i < |Text(uid)| ==> Text(uid)[i] != ':'
    ensures |Text(uid)| > 0
  {
    var ds := MoneyText.Digits(if uid < 0 then -uid else uid);
    assert forall i :: 0 <= i < |ds| ==> MoneyText.IsDigit(ds[i]);
  }

  lemma TextIsInjective(a: int, b: int)
    requires Text(a) == Text(b)
    ensures a == b
  {
    var x, y := if a < 0 then -a else a, if b < 0 then -b else b;
    MoneyText.DigitsValue(x);
    MoneyText.DigitsValue(y);
    assert MoneyText.IsDigit(MoneyText.Digits(x)[0]) && MoneyText.IsDigit(MoneyText.Digits(y)[0]);
    assert a < 0 <==> Text(a)[0] == '-';
    assert b < 0 <==> Text(b)[0] == '-';
    if a < 0 {
      assert MoneyText.Digits(x) == Text(a)[1..] && MoneyText.Digits(y) == Text(b)[1..];
    }
  }

  /** The login's part ends a key after its last colon but one. */
  lemma LoginsAreTold(id: string, t: string, id': string, t': string)
    requires (forall i :: 0 <= i < |t| ==> t[i] != ':') && forall i :: 0 <= i < |t'| ==> t'[i] != ':'
    requires id + ":u" + t == id' + ":u" + t'
    ensures id == id' && t == t'
  {
    var k := id + ":u" + t;
    LastColon(id, t);
    LastColon(id', t');
    assert |id| == |id'|;
    assert id == k[..|id|] && id' == k[..|id'|] && t == k[|id| + 2..] && t' == k[|id'| + 2..];
  }

  lemma LastColon(id: string, t: string)
    requires forall i :: 0 <= i < |t| ==> t[i] != ':'
    ensures (id + ":u" + t)[|id|] == ':' && forall m :: |id| < m < |id| + 2 + |t| ==> (id + ":u" + t)[m] != ':'
  {
    forall m | |id| < m < |id| + 2 + |t| ensures (id + ":u" + t)[m] != ':' {
      if m >= |id| + 2 {
        assert (id + ":u" + t)[m] == t[m - |id| - 2];
      }
    }
  }

  /** Two requests share a key if and only if they are the same method's with the same id and login, or one of them has
      no login and an id that ends like the other's login. */
  lemma KeysMeetIff(service: string, call: string, id: string, uid: Option<int>,
                    service': string, call': string, id': string, uid': Option<int>)
    requires IsName(service) && IsName(call) && IsName(service') && IsName(call')
    ensures Key(service, call, id, uid) == Key(service', call', id', uid') <==>
              && service == service' && call == call'
              && ((id == id' && uid == uid')
                  || (uid.None? && uid'.Some? && id == id' + Login(uid'))
                  || (uid'.None? && uid.Some? && id' == id + Login(uid)))
  {
    hide Key, Login;
    var a, b := id + Login(uid), id' + Login(uid');
    KeyParts(service, call, id, uid);
    KeyParts(service', call', id', uid');
    PrefixTold("idem:", service + ":" + (call + ":" + a), service' + ":" + (call' + ":" + b));
    Parts(service, call + ":" + a, service', call' + ":" + b);
    Parts(call, a, call', b);
    TailsMeetIff(id, uid, id', uid');
  }

  lemma KeyParts(service: string, call: string, id: string, uid: Option<int>)
    ensures Key(service, call, id, uid) == "idem:" + (service + ":" + (call + ":" + (id + Login(uid))))
  {
    hide Login;
    Regroup("idem:", service, call, id, Login(uid));
  }

  lemma Regroup(a: string, b: string, c: string, d: string, e: string)
    ensures a + b + ":" + c + ":" + d + e == a + (b + ":" + (c + ":" + (d + e)))
  {
    assert c + ":" + d + e == c + ":" + (d + e);
    assert a + b + ":" + (c + ":" + d + e) == a + (b + ":" + (c + ":" + d + e));
    assert a + b + ":" + c + ":" + d + e == a + b + ":" + (c + ":" + d + e);
  }

  lemma PrefixTold(a: string, x: string, y: string)
    ensures a + x == a + y <==> x == y
  {
    if a + x == a + y {
      assert x == (a + x)[|a|..] && y == (a + y)[|a|..];
    }
  }

  lemma TailsMeetIff(id: string, uid: Option<int>, id': string, uid': Option<int>)
    ensures id + Login(uid) == id' + Login(uid') <==>
              || (id == id' && uid == uid')
              || (uid.None? && uid'.Some? && id == id' + Login(uid'))
              || (uid'.None? && uid.Some? && id' == id + Login(uid))
  {
    hide Text;
    assert id + "" == id && id' + "" == id';
    if uid.Some? && uid'.Some? && id + Login(uid) == id' + Login(uid') {
      TextHasNoColon(uid.value);
      TextHasNoColon(uid'.value);
      assert id + Login(uid) == id + ":u" + Text(uid.value) && id' + Login(uid') == id' + ":u" + Text(uid'.value);
      LoginsAreTold(id, Text(uid.value), id', Text(uid'.value));
      TextIsInjective(uid.value, uid'.value);
    }
  }

  /** So a login's request is its own among logins: another login's never meets its key. */
  lemma LoginsNeverMeet(service: string, call: string, id: string, uid: int, id': string, uid': int)
    requires IsName(service) && IsName(call) && uid != uid'
    ensures Key(service, call, id, Some(uid)) != Key(service, call, id', Some(uid'))
  {
    KeysMeetIff(service, call, id, Some(uid), service, call, id', Some(uid'));
  }

  /** A request without a login can meet one with. */
  lemma PlainMeetsLogin()
    ensures Key("pay", "Debit", "7:u5", None) == Key("pay", "Debit", "7", Some(5))
  {
    assert MoneyText.Digits(5) == "5";
    assert "7" + ":u5" == "7:u5";
    assert ":u" + "5" == ":u5";
  }
}
