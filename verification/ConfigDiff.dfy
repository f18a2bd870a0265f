/** The change list between two flattened documents (nacosx): what a record of a changed configuration carries. */
module ConfigDiff {
  type Doc = map<string, string>

  /** Added, Removed and Changed are the three values of op; the values are as they are before masking. */
  datatype Change =
    | Added(key: string, to: string)
    | Removed(key: string, from: string)
    | Changed(key: string, from: string, to: string)

  /** What happened to a key, as a sequence of none or one. */
  function At(was: Doc, cur: Doc, k: string): seq<Change> {
    if k in cur && k !in was then [Added(k, cur[k])]
    else if k in cur && was[k] != cur[k] then [Changed(k, was[k], cur[k])]
    else if k in was && k !in cur then [Removed(k, was[k])]
    else []
  }

  predicate Describes(was: Doc, cur: Doc, c: Change) { At(was, cur, c.key) == [c] }

  // ------------------------------------------------------------------
  // Keys in order
  // ------------------------------------------------------------------

  /** Strings compare character by character, a prefix before what it begins. */
  predicate Less(a: string, b: string)
    decreases |a|
  {
    if a == [] then b != []
    else b != [] && (a[0] < b[0] || (a[0] == b[0] && Less(a[1..], b[1..])))
  }

  lemma {:induction false} LessIsTotal(a: string, b: string)
    ensures Less(a, b) || Less(b, a) || a == b
    ensures !(Less(a, b) && Less(b, a)) && !Less(a, a)
    decreases |a|
  {
    if a != [] {
      LessIsTotal(a[1..], if b == [] then [] else b[1..]);
      if b != [] && a[0] == b[0] && a[1..] == b[1..] {
        assert a == [a[0]] + a[1..] && b == [b[0]] + b[1..];
      }
    }
  }

  lemma {:induction false} LessIsTransitive(a: string, b: string, c: string)
    requires Less(a, b) && Less(b, c)
    ensures Less(a, c)
    decreases |a|
  {
    if a != [] && a[0] == b[0] == c[0] {
      LessIsTransitive(a[1..], b[1..], c[1..]);
    }
  }

  ghost predicate Sorted(cs: seq<Change>) { forall i, j :: 0 <= i < j < |cs| ==> Less(cs[i].key, cs[j].key) }

  function Insert(c: Change, cs: seq<Change>): (out: seq<Change>)
    ensures forall x :: x in out <==> x == c || x in cs
    ensures |out| == |cs| + 1
  {
    if cs == [] || Less(c.key, cs[0].key) then [c] + cs else [cs[0]] + Insert(c, cs[1..])
  }

  lemma {:induction false} InsertSorts(c: Change, cs: seq<Change>)
    requires Sorted(cs) && forall x :: x in cs ==> x.key != c.key
    ensures Sorted(Insert(c, cs))
  {
    if cs == [] {
    } else if Less(c.key, cs[0].key) {
      forall j | 0 <= j < |cs| ensures Less(c.key, cs[j].key) {
        if j > 0 {
          LessIsTransitive(c.key, cs[0].key, cs[j].key);
        }
      }
    } else {
      InsertSorts(c, cs[1..]);
      var out := Insert(c, cs[1..]);
      LessIsTotal(c.key, cs[0].key);
      forall j | 0 <= j < |out| ensures Less(cs[0].key, out[j].key) {
        assert out[j] in out;
      }
    }
  }

  lemma BothEmpty(a: seq<Change>, b: seq<Change>)
    requires forall x :: x in a <==> x in b
    ensures a == [] <==> b == []
  {
    if a != [] {
      assert a[0] in b;
    }
    if b != [] {
      assert b[0] in a;
    }
  }

  /** Two sorted lists of the same changes are the same list, so the order the maps are walked in does not show. */
  lemma {:induction false} SortedIsUnique(a: seq<Change>, b: seq<Change>)
    requires Sorted(a) && Sorted(b) && forall x :: x in a <==> x in b
    ensures a == b
  {
    BothEmpty(a, b);
    if a != [] {
      assert a[0] in b;
      var i :| 0 <= i < |b| && b[i] == a[0];
      assert b[0] in a;
      var j :| 0 <= j < |a| && a[j] == b[0];
      LessIsTotal(a[0].key, b[0].key);
      assert a[0] == b[0];
      SortedTail(a, b);
      SortedTail(b, a);
      SortedIsUnique(a[1..], b[1..]);
      assert a == [a[0]] + a[1..] && b == [b[0]] + b[1..];
    }
  }

  lemma SortedTail(a: seq<Change>, b: seq<Change>)
    requires Sorted(a) && Sorted(b) && a != [] && b != [] && a[0] == b[0] && forall x :: x in a ==> x in b
    ensures forall x :: x in a[1..] ==> x in b[1..]
  {
    forall x | x in a[1..] ensures x in b[1..] {
      var i :| 0 < i < |a| && a[i] == x;
      LessIsTotal(a[0].key, a[i].key);
      assert x in b;
      var j :| 0 <= j < |b| && b[j] == x;
    }
  }

  // ------------------------------------------------------------------
  // A change list describes the change
  // ------------------------------------------------------------------

  /** The list a record carries: exactly the keys that are not what they were, in order. */
  ghost predicate IsDiff(was: Doc, cur: Doc, cs: seq<Change>) {
    && Sorted(cs)
    && (forall c :: c in cs ==> Describes(was, cur, c))
    && (forall k :: k in was.Keys + cur.Keys && At(was, cur, k) != [] ==> At(was, cur, k)[0] in cs)
  }

  lemma DiffIsUnique(was: Doc, cur: Doc, a: seq<Change>, b: seq<Change>)
    requires IsDiff(was, cur, a) && IsDiff(was, cur, b)
    ensures a == b
  {
    SameChanges(was, cur, a, b);
    SameChanges(was, cur, b, a);
    SortedIsUnique(a, b);
  }

  lemma SameChanges(was: Doc, cur: Doc, a: seq<Change>, b: seq<Change>)
    requires IsDiff(was, cur, a) && IsDiff(was, cur, b)
    ensures forall c :: c in a ==> c in b
  {
    forall c | c in a ensures c in b {
      assert Describes(was, cur, c);
      assert c.key in was.Keys + cur.Keys;
    }
  }

  function ApplyOne(d: Doc, c: Change): Doc { if c.Removed? then d - {c.key} else d[c.key := c.to] }

  function Apply(d: Doc, cs: seq<Change>): Doc
    decreases |cs|
  {
    if cs == [] then d else Apply(ApplyOne(d, cs[0]), cs[1..])
  }

  function Inverse(c: Change): Change {
    match c
    case Added(k, to) => Removed(k, to)
    case Removed(k, from) => Added(k, from)
    case Changed(k, from, to) => Changed(k, to, from)
  }

  ghost predicate Touches(cs: seq<Change>, k: string) { exists i :: 0 <= i < |cs| && cs[i].key == k }

  /** A key the list does not touch keeps its value; one it touches gets the value of its only change. */
  lemma {:induction false} ApplyAt(d: Doc, cs: seq<Change>, k: string)
    requires forall i, j :: 0 <= i < j < |cs| ==> cs[i].key != cs[j].key
    ensures !Touches(cs, k) ==> (k in Apply(d, cs) <==> k in d) && (k in d ==> Apply(d, cs)[k] == d[k])
    ensures forall i :: 0 <= i < |cs| && cs[i].key == k ==>
              (k in Apply(d, cs) <==> !cs[i].Removed?) && (!cs[i].Removed? ==> Apply(d, cs)[k] == cs[i].to)
    decreases |cs|
  {
    if cs != [] {
      var d1, rest := ApplyOne(d, cs[0]), cs[1..];
      ApplyAt(d1, rest, k);
      assert forall i :: 0 <= i < |rest| ==> rest[i] == cs[i + 1];
      if cs[0].key == k {
        assert !Touches(rest, k);
      } else {
        assert Touches(rest, k) ==> Touches(cs, k);
      }
    }
  }

  lemma ChangedIsTouched(was: Doc, cur: Doc, cs: seq<Change>, k: string)
    requires IsDiff(was, cur, cs) && At(was, cur, k) != []
    ensures Touches(cs, k)
  {
    assert At(was, cur, k)[0] in cs;
  }

  /** The unmasked list turns the document before into the one after. */
  lemma DiffApplies(was: Doc, cur: Doc, cs: seq<Change>)
    requires IsDiff(was, cur, cs)
    ensures Apply(was, cs) == cur
  {
    KeysDiffer(cs);
    forall k ensures k in Apply(was, cs) <==> k in cur
             ensures k in cur ==> k in Apply(was, cs) && Apply(was, cs)[k] == cur[k]
    {
      ApplyAt(was, cs, k);
      if At(was, cur, k) != [] {
        ChangedIsTouched(was, cur, cs, k);
      }
      if i :| 0 <= i < |cs| && cs[i].key == k {
        assert cs[i] in cs && Describes(was, cur, cs[i]);
      }
    }
  }

  lemma KeysDiffer(cs: seq<Change>)
    requires Sorted(cs)
    ensures forall i, j :: 0 <= i < j < |cs| ==> cs[i].key != cs[j].key
  {
    forall i, j | 0 <= i < j < |cs| ensures cs[i].key != cs[j].key {
      LessIsTotal(cs[i].key, cs[j].key);
    }
  }

  /** The list is empty exactly when the documents are equal. */
  lemma DiffIsEmptyIff(was: Doc, cur: Doc, cs: seq<Change>)
    requires IsDiff(was, cur, cs)
    ensures cs == [] <==> was == cur
  {
    if cs == [] {
      DiffApplies(was, cur, cs);
    } else {
      assert cs[0] in cs && Describes(was, cur, cs[0]);
    }
  }

  /** Turned round, it leads back. */
  lemma DiffReverses(was: Doc, cur: Doc, cs: seq<Change>)
    requires IsDiff(was, cur, cs)
    ensures var back := seq(|cs|, i requires 0 <= i < |cs| => Inverse(cs[i]));
            IsDiff(cur, was, back) && Apply(cur, back) == was
  {
    var back := seq(|cs|, i requires 0 <= i < |cs| => Inverse(cs[i]));
    forall c | c in back ensures Describes(cur, was, c) {
      var i :| 0 <= i < |back| && back[i] == c;
      assert cs[i] in cs && Describes(was, cur, cs[i]);
    }
    forall k | k in cur.Keys + was.Keys && At(cur, was, k) != [] ensures At(cur, was, k)[0] in back {
      var c := At(was, cur, k)[0];
      assert c in cs;
      var i :| 0 <= i < |cs| && cs[i] == c;
      assert back[i] == Inverse(c) == At(cur, was, k)[0];
    }
    DiffApplies(cur, was, back);
  }

  // ------------------------------------------------------------------
  // Secrets
  // ------------------------------------------------------------------

  const SECRET_WORDS := ["password", "passwd", "pwd", "secret", "token", "credential", "private", "apikey", "accesskey",
                         "signature"]

  const MASKED := "***"

  function LowerChar(c: char): char { if 'A' <= c <= 'Z' then c - 'A' + 'a' else c }

  function Lower(s: string): string { seq(|s|, i requires 0 <= i < |s| => LowerChar(s[i])) }

  function Squeezed(s: string): string {
    if s == [] then [] else (if s[0] == '_' || s[0] == '-' then [] else [s[0]]) + Squeezed(s[1..])
  }

  predicate Contains(s: string, word: string) { word <= s || (s != [] && Contains(s[1..], word)) }

  predicate HasSuffix(s: string, suffix: string) { |suffix| <= |s| && s[|s| - |suffix|..] == suffix }

  /** What comes after the last point. */
  function LastPart(name: string): string {
    if name == [] || name[|name| - 1] == '.' then [] else LastPart(name[..|name| - 1]) + [name[|name| - 1]]
  }

  /** The name has a word of a secret in it, or ends in a key. */
  predicate IsSecret(name: string) {
    var n, last := Lower(Squeezed(name)), LastPart(name);
    || (exists i :: 0 <= i < |SECRET_WORDS| && Contains(n, SECRET_WORDS[i]))
    || Lower(last) == "key" || HasSuffix(Lower(last), "_key") || HasSuffix(Lower(last), "-key")
    || HasSuffix(last, "Key")
  }

  /** What stands between the quotes of a list. */
  function Parts(value: string): seq<string> {
    if value == [] then []
    else if value[|value| - 1] == '"' then Parts(value[..|value| - 1])
    else
      var before := Parts(value[..|value| - 1]);
      if |value| == 1 || value[|value| - 2] == '"' || before == [] then before + [[value[|value| - 1]]]
      else before[..|before| - 1] + [before[|before| - 1] + [value[|value| - 1]]]
  }

  predicate HidesSecret(value: string) {
    var parts := Parts(value);
    |value| > 0 && value[0] == '[' && exists i :: 0 <= i < |parts| && |parts[i]| < 40 && IsSecret(parts[i])
  }

  function Mask(key: string, value: string): string { if IsSecret(key) || HidesSecret(value) then MASKED else value }

  /** What the record shows of a change. */
  function Masked(c: Change): Change {
    match c
    case Added(k, to) => Added(k, Mask(k, to))
    case Removed(k, from) => Removed(k, Mask(k, from))
    case Changed(k, from, to) => Changed(k, Mask(k, from), Mask(k, to))
  }

  function MaskedAll(cs: seq<Change>): seq<Change> { seq(|cs|, i requires 0 <= i < |cs| => Masked(cs[i])) }

  /** The value is none the record may show. */
  predicate Hidden(key: string, value: string) { IsSecret(key) || HidesSecret(value) }

  /** Two documents with the same keys that differ in hidden values only. */
  ghost predicate AlikeBut(a: Doc, b: Doc) {
    a.Keys == b.Keys && forall k :: k in a ==> a[k] == b[k] || (Hidden(k, a[k]) && Hidden(k, b[k]))
  }

  /** Two changes that differ in hidden values only, and change the same keys. */
  ghost predicate SameChange(was: Doc, cur: Doc, was': Doc, cur': Doc) {
    && AlikeBut(was, was') && AlikeBut(cur, cur')
    && forall k :: k in was && k in cur ==> (was[k] == cur[k] <==> was'[k] == cur'[k])
  }

  lemma SameMasked(was: Doc, cur: Doc, was': Doc, cur': Doc, k: string)
    requires SameChange(was, cur, was', cur') && At(was, cur, k) != []
    ensures At(was', cur', k) != [] && Masked(At(was, cur, k)[0]) == Masked(At(was', cur', k)[0])
  {
    hide IsSecret, HidesSecret;
    assert k in was ==> was[k] == was'[k] || (Hidden(k, was[k]) && Hidden(k, was'[k]));
    assert k in cur ==> cur[k] == cur'[k] || (Hidden(k, cur[k]) && Hidden(k, cur'[k]));
  }

  lemma MaskedSubset(was: Doc, cur: Doc, was': Doc, cur': Doc, cs: seq<Change>, cs': seq<Change>)
    requires IsDiff(was, cur, cs) && IsDiff(was', cur', cs') && SameChange(was, cur, was', cur')
    ensures forall x :: x in MaskedAll(cs) ==> x in MaskedAll(cs')
  {
    hide Masked;
    forall x | x in MaskedAll(cs) ensures x in MaskedAll(cs') {
      var i :| 0 <= i < |cs| && MaskedAll(cs)[i] == x;
      var k := cs[i].key;
      assert cs[i] in cs && Describes(was, cur, cs[i]);
      SameMasked(was, cur, was', cur', k);
      var c' := At(was', cur', k)[0];
      assert k in was'.Keys + cur'.Keys && c' in cs';
      var j :| 0 <= j < |cs'| && cs'[j] == c';
      assert MaskedAll(cs')[j] == x;
    }
  }

  lemma MaskedSorts(cs: seq<Change>)
    requires Sorted(cs)
    ensures Sorted(MaskedAll(cs))
  {
    hide Mask, Less;
    forall i, j | 0 <= i < j < |cs| ensures Less(MaskedAll(cs)[i].key, MaskedAll(cs)[j].key) {
      assert Less(cs[i].key, cs[j].key);
    }
  }

  /** A record tells nothing of a secret but that it changed: of two changes that differ in hidden values only, and of
      the same keys, the records are the same. */
  lemma RecordHidesSecrets(was: Doc, cur: Doc, was': Doc, cur': Doc, cs: seq<Change>, cs': seq<Change>)
    requires IsDiff(was, cur, cs) && IsDiff(was', cur', cs') && SameChange(was, cur, was', cur')
    ensures MaskedAll(cs) == MaskedAll(cs')
  {
    AlikeBack(was, was');
    AlikeBack(cur, cur');
    MaskedSubset(was, cur, was', cur', cs, cs');
    MaskedSubset(was', cur', was, cur, cs', cs);
    MaskedSorts(cs);
    MaskedSorts(cs');
    SortedIsUnique(MaskedAll(cs), MaskedAll(cs'));
  }

  lemma AlikeBack(a: Doc, b: Doc)
    requires AlikeBut(a, b)
    ensures AlikeBut(b, a)
  {
    hide Hidden;
  }

  /** And it tells everything else: without hidden values the record, applied to the document before, gives the one
      after. */
  lemma RecordShowsTheRest(was: Doc, cur: Doc, cs: seq<Change>)
    requires IsDiff(was, cur, cs)
    requires (forall k :: k in was ==> !Hidden(k, was[k])) && forall k :: k in cur ==> !Hidden(k, cur[k])
    ensures MaskedAll(cs) == cs && Apply(was, MaskedAll(cs)) == cur
  {
    hide Hidden, IsSecret, HidesSecret;
    forall i | 0 <= i < |cs| ensures Masked(cs[i]) == cs[i] {
      assert cs[i] in cs && Describes(was, cur, cs[i]);
      Shown(was, cur, cs[i]);
    }
    DiffApplies(was, cur, cs);
  }

  lemma Shown(was: Doc, cur: Doc, c: Change)
    requires Describes(was, cur, c)
    requires (c.key in was ==> !Hidden(c.key, was[c.key])) && (c.key in cur ==> !Hidden(c.key, cur[c.key]))
    ensures Masked(c) == c
  {
    hide IsSecret, HidesSecret;
  }

  // ------------------------------------------------------------------
  // The loops
  // ------------------------------------------------------------------

  /** The list as far as it goes once the keys of `seen` were looked at. */
  ghost predicate Partial(was: Doc, cur: Doc, seen: set<string>, cs: seq<Change>) {
    && Sorted(cs)
    && (forall c :: c in cs ==> Describes(was, cur, c) && c.key in seen)
    && (forall k :: k in seen && At(was, cur, k) != [] ==> At(was, cur, k)[0] in cs)
  }

  lemma PartialNext(was: Doc, cur: Doc, seen: set<string>, cs: seq<Change>, k: string)
    requires Partial(was, cur, seen, cs) && k !in seen
    ensures Partial(was, cur, seen + {k}, if At(was, cur, k) == [] then cs else Insert(At(was, cur, k)[0], cs))
  {
    if At(was, cur, k) != [] {
      var c := At(was, cur, k)[0];
      InsertSorts(c, cs);
      PartialInsert(was, cur, seen, cs, k, c, Insert(c, cs));
    }
  }

  lemma PartialInsert(was: Doc, cur: Doc, seen: set<string>, cs: seq<Change>, k: string, c: Change, out: seq<Change>)
    requires Partial(was, cur, seen, cs) && k !in seen && At(was, cur, k) == [c] && Sorted(out)
    requires forall x :: x in out <==> x == c || x in cs
    ensures Partial(was, cur, seen + {k}, out)
  {
    hide Sorted;
    assert c.key == k;
    forall x | x in out ensures Describes(was, cur, x) && x.key in seen + {k} {
    }
    forall q | q in seen + {k} && At(was, cur, q) != [] ensures At(was, cur, q)[0] in out {
      if q != k {
        assert At(was, cur, q)[0] in cs;
      }
    }
  }

  lemma PartialSame(was: Doc, cur: Doc, seen: set<string>, cs: seq<Change>, k: string)
    requires Partial(was, cur, seen, cs) && k in seen
    ensures Partial(was, cur, seen + {k}, cs)
  {
    assert seen + {k} == seen;
  }

  lemma PartialEnds(was: Doc, cur: Doc, cs: seq<Change>)
    ensures Partial(was, cur, {}, [])
    ensures Partial(was, cur, was.Keys + cur.Keys, cs) ==> IsDiff(was, cur, cs)
  {
  }

  lemma Taken(seen: set<string>, todo: set<string>, all: set<string>, k: string)
    requires k in todo && seen + todo == all
    ensures (seen + {k}) + (todo - {k}) == all && |todo - {k}| < |todo|
  {
    assert todo == (todo - {k}) + {k};
  }

  /** One key of the document as it is now. */
  method NotePresent(was: Doc, cur: Doc, ghost seen: set<string>, some: seq<Change>, k: string)
    returns (cs: seq<Change>)
    requires Partial(was, cur, seen, some) && k !in seen && k in cur
    ensures Partial(was, cur, seen + {k}, cs)
  {
    PartialNext(was, cur, seen, some, k);
    hide Partial, Insert;
    cs := some;
    if k !in was {
      cs := Insert(Added(k, cur[k]), cs);
    } else if was[k] != cur[k] {
      cs := Insert(Changed(k, was[k], cur[k]), cs);
    }
  }

  /** One key of the document as it was. */
  method NoteGone(was: Doc, cur: Doc, ghost gone: set<string>, some: seq<Change>, k: string) returns (cs: seq<Change>)
    requires Partial(was, cur, cur.Keys + gone, some) && k !in gone && k in was
    ensures Partial(was, cur, cur.Keys + (gone + {k}), cs)
  {
    assert cur.Keys + (gone + {k}) == (cur.Keys + gone) + {k};
    cs := some;
    if k !in cur {
      PartialNext(was, cur, cur.Keys + gone, some, k);
      hide Partial, Insert;
      cs := Insert(Removed(k, was[k]), cs);
    } else {
      hide Partial, Insert;
      PartialSame(was, cur, cur.Keys + gone, some, k);
    }
  }

  method Present(was: Doc, cur: Doc) returns (cs: seq<Change>)
    ensures Partial(was, cur, cur.Keys, cs)
  {
    hide Partial;
    cs := [];
    PartialEnds(was, cur, cs);
    var todo := cur.Keys;
    ghost var seen: set<string> := {};
    while todo != {}
      invariant seen + todo == cur.Keys && seen !! todo
      invariant Partial(was, cur, seen, cs)
      decreases |todo|
    {
      var k :| k in todo;
      Taken(seen, todo, cur.Keys, k);
      cs := NotePresent(was, cur, seen, cs, k);
      todo, seen := todo - {k}, seen + {k};
    }
    assert seen == cur.Keys;
  }

  method Gone(was: Doc, cur: Doc, some: seq<Change>) returns (cs: seq<Change>)
    requires Partial(was, cur, cur.Keys, some)
    ensures Partial(was, cur, cur.Keys + was.Keys, cs)
  {
    hide Partial;
    cs := some;
    var todo := was.Keys;
    ghost var gone: set<string> := {};
    assert cur.Keys + gone == cur.Keys;
    while todo != {}
      invariant gone + todo == was.Keys && gone !! todo
      invariant Partial(was, cur, cur.Keys + gone, cs)
      decreases |todo|
    {
      var k :| k in todo;
      Taken(gone, todo, was.Keys, k);
      cs := NoteGone(was, cur, gone, cs, k);
      todo, gone := todo - {k}, gone + {k};
    }
    assert gone == was.Keys;
  }

  /** First the keys that are there now, then those that are gone, in any order of the maps; then by key. */
  method Diff(was: Doc, cur: Doc) returns (cs: seq<Change>)
    ensures IsDiff(was, cur, cs)
  {
    cs := Present(was, cur);
    cs := Gone(was, cur, cs);
    assert cur.Keys + was.Keys == was.Keys + cur.Keys;
    PartialEnds(was, cur, cs);
  }
}
