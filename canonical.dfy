/** `json.dumps(value, sort_keys=True)` with Python's default separators
    (", " between items, ": " after a key) and its default `ensure_ascii`
    escaping: the canonical text that the integrity hash is computed over.
    Keys are emitted in Python's string order (code point by code point,
    a proper prefix first) at every depth, whatever order the dicts were
    built in. */
module Canonical {
  import opened Json
  import opened Escape

  // ---------------------------------------------------------------------
  // Python's order on str keys

  /** `a < b` on Python strings. */
  predicate KeyLess(a: string, b: string)
    decreases |a|
  {
    if |a| == 0 then |b| > 0
    else if |b| == 0 then false
    else if a[0] != b[0] then a[0] < b[0]
    else KeyLess(a[1..], b[1..])
  }

  /** The textbook order: `a` is a proper prefix of `b`, or the two agree up to
      some position where `a` has the smaller code point. */
  ghost predicate LexLess(a: string, b: string) {
    || (|a| < |b| && a == b[..|a|])
    || exists i :: 0 <= i < |a| && i < |b| && a[..i] == b[..i] && a[i] < b[i]
  }

  /** A first difference after an equal first character is one in the tails. */
  lemma LexLessTailDown(a: string, b: string)
    requires |a| > 0 && |b| > 0 && a[0] == b[0] && LexLess(a, b)
    ensures LexLess(a[1..], b[1..])
  {
    if |a| < |b| && a == b[..|a|] {
      assert a[1..] == b[1..][..|a[1..]|];
    } else {
      var i :| 0 <= i < |a| && i < |b| && a[..i] == b[..i] && a[i] < b[i];
      assert i > 0;
      assert a[1..][..i-1] == a[..i][1..] && b[1..][..i-1] == b[..i][1..];
      assert a[1..][i-1] == a[i] && b[1..][i-1] == b[i];
    }
  }

  /** A first difference in the tails is one after an equal first character. */
  lemma LexLessTailUp(a: string, b: string)
    requires |a| > 0 && |b| > 0 && a[0] == b[0] && LexLess(a[1..], b[1..])
    ensures LexLess(a, b)
  {
    var a', b' := a[1..], b[1..];
    if |a'| < |b'| && a' == b'[..|a'|] {
      assert a == [a[0]] + a' && b[..|a|] == [b[0]] + b'[..|a'|];
    } else {
      var j :| 0 <= j < |a'| && j < |b'| && a'[..j] == b'[..j] && a'[j] < b'[j];
      assert a[..j+1] == [a[0]] + a'[..j] && b[..j+1] == [b[0]] + b'[..j];
      assert a[j+1] == a'[j] && b[j+1] == b'[j];
    }
  }

  /** `KeyLess` is the textbook lexicographic order on code points. */
  lemma {:induction false} KeyLessMeaning(a: string, b: string)
    ensures KeyLess(a, b) <==> LexLess(a, b)
    decreases |a|
  {
    if |a| == 0 {
      assert |b| > 0 ==> a == b[..|a|];
    } else if |b| == 0 {
    } else if a[0] != b[0] {
      if a[0] < b[0] {
        assert a[..0] == b[..0];
      }
    } else {
      KeyLessMeaning(a[1..], b[1..]);
      if LexLess(a, b) { LexLessTailDown(a, b); }
      if LexLess(a[1..], b[1..]) { LexLessTailUp(a, b); }
    }
  }

  lemma KeyLessIrreflexive(a: string)
    ensures !KeyLess(a, a)
  {
  }

  lemma {:induction false} KeyLessTransitive(a: string, b: string, c: string)
    requires KeyLess(a, b) && KeyLess(b, c)
    ensures KeyLess(a, c)
    decreases |a|
  {
    if |a| > 0 && a[0] == b[0] && b[0] == c[0] {
      KeyLessTransitive(a[1..], b[1..], c[1..]);
    }
  }

  lemma {:induction false} KeyLessTotal(a: string, b: string)
    requires a != b
    ensures KeyLess(a, b) || KeyLess(b, a)
    decreases |a|
  {
    if |a| > 0 && |b| > 0 && a[0] == b[0] {
      assert a == [a[0]] + a[1..] && b == [b[0]] + b[1..];
      KeyLessTotal(a[1..], b[1..]);
    }
  }

  lemma {:induction false} KeyLessAsymmetric(a: string, b: string)
    requires KeyLess(a, b)
    ensures !KeyLess(b, a)
    decreases |a|
  {
    if |a| > 0 && a[0] == b[0] {
      KeyLessAsymmetric(a[1..], b[1..]);
    }
  }

  /** `a <= b` on Python strings. */
  predicate KeyLeq(a: string, b: string) {
    !KeyLess(b, a)
  }

  lemma KeyLeqTransitive(a: string, b: string, c: string)
    requires KeyLeq(a, b) && KeyLeq(b, c)
    ensures KeyLeq(a, c)
  {
    if KeyLess(c, a) {
      if a != b {
        KeyLessTotal(a, b);
        KeyLessTransitive(c, a, b);
      }
    }
  }

  // ---------------------------------------------------------------------
  // sorted(d.items()): a stable insertion sort on the key

  predicate SortedByKey<T>(s: seq<(string, T)>) {
    forall i, j :: 0 <= i < j < |s| ==> KeyLeq(s[i].0, s[j].0)
  }

  predicate StrictlySortedByKey<T>(s: seq<(string, T)>) {
    forall i, j :: 0 <= i < j < |s| ==> KeyLess(s[i].0, s[j].0)
  }

  /** Puts `e` before the first entry whose key is not smaller than its own. */
  function Insert<T(!new)>(e: (string, T), s: seq<(string, T)>): (r: seq<(string, T)>)
    ensures |r| == |s| + 1
    ensures multiset(r) == multiset(s) + multiset{e}
    ensures forall x :: x in r <==> x == e || x in s
  {
    if |s| == 0 then [e]
    else if KeyLeq(e.0, s[0].0) then [e] + s
    else
      assert s == [s[0]] + s[1..];
      [s[0]] + Insert(e, s[1..])
  }

  lemma {:induction false} InsertSorted<T(!new)>(e: (string, T), s: seq<(string, T)>)
    requires SortedByKey(s)
    ensures SortedByKey(Insert(e, s))
  {
    if |s| == 0 {
    } else if KeyLeq(e.0, s[0].0) {
      forall j | 0 <= j < |s| ensures KeyLeq(e.0, s[j].0) {
        if j > 0 { KeyLeqTransitive(e.0, s[0].0, s[j].0); }
      }
    } else {
      InsertSorted(e, s[1..]);
      var r := Insert(e, s[1..]);
      if !KeyLeq(s[0].0, e.0) {
        KeyLessAsymmetric(s[0].0, e.0);
      }
      forall x | x in r ensures KeyLeq(s[0].0, x.0) {
        if x != e {
          var j :| 0 <= j < |s[1..]| && s[1..][j] == x;
          assert s[j + 1] == x;
        }
      }
    }
  }

  lemma {:induction false} InsertStrictlySorted<T(!new)>(e: (string, T), s: seq<(string, T)>)
    requires StrictlySortedByKey(s)
    requires forall i :: 0 <= i < |s| ==> s[i].0 != e.0
    ensures StrictlySortedByKey(Insert(e, s))
  {
    if |s| == 0 {
    } else if KeyLeq(e.0, s[0].0) {
      KeyLessTotal(e.0, s[0].0);
      forall j | 0 <= j < |s| ensures KeyLess(e.0, s[j].0) {
        if j > 0 { KeyLessTransitive(e.0, s[0].0, s[j].0); }
      }
    } else {
      InsertStrictlySorted(e, s[1..]);
      var r := Insert(e, s[1..]);
      forall x | x in r ensures KeyLess(s[0].0, x.0) {
        if x != e {
          var j :| 0 <= j < |s[1..]| && s[1..][j] == x;
          assert s[j + 1] == x;
        }
      }
    }
  }

  /** The entries of a dict in key order; a permutation of them. */
  function SortByKey<T(!new)>(l: seq<(string, T)>): (r: seq<(string, T)>)
    ensures |r| == |l|
    ensures multiset(r) == multiset(l)
    ensures forall x :: x in r <==> x in l
  {
    if |l| == 0 then []
    else
      assert l == [l[0]] + l[1..];
      Insert(l[0], SortByKey(l[1..]))
  }

  lemma {:induction false} SortByKeySorted<T(!new)>(l: seq<(string, T)>)
    ensures SortedByKey(SortByKey(l))
    ensures UniqueKeys(l) ==> StrictlySortedByKey(SortByKey(l))
  {
    if |l| > 0 {
      var rest := SortByKey(l[1..]);
      SortByKeySorted(l[1..]);
      InsertSorted(l[0], rest);
      if UniqueKeys(l) {
        assert UniqueKeys(l[1..]);
        forall i | 0 <= i < |rest| ensures rest[i].0 != l[0].0 {
          assert rest[i] in l[1..];
        }
        InsertStrictlySorted(l[0], rest);
      }
    }
  }

  /** Entries in strictly increasing key order are fixed by their set. */
  lemma {:induction false} StrictlySortedUnique<T(!new)>(s: seq<(string, T)>, t: seq<(string, T)>)
    requires StrictlySortedByKey(s) && StrictlySortedByKey(t)
    requires forall x :: x in s <==> x in t
    ensures s == t
  {
    if |s| > 0 { SameElementsNonEmpty(s, t); }
    if |t| > 0 { SameElementsNonEmpty(t, s); }
    if |s| > 0 && |t| > 0 {
      assert s[0] in s && t[0] in t;
      var i :| 0 <= i < |t| && t[i] == s[0];
      var j :| 0 <= j < |s| && s[j] == t[0];
      if i > 0 && j > 0 {
        KeyLessAsymmetric(s[0].0, s[j].0);
      }
      assert s[0] == t[0];
      SortedTail(s);
      SortedTail(t);
      StrictlySortedUnique(s[1..], t[1..]);
      assert s == [s[0]] + s[1..] && t == [t[0]] + t[1..];
    }
  }

  lemma SameElementsNonEmpty<T(!new)>(s: seq<T>, t: seq<T>)
    requires forall x :: x in s <==> x in t
    requires |s| > 0
    ensures |t| > 0
  {
    assert s[0] in t;
  }

  /** The head of a strictly sorted list does not occur in its tail. */
  lemma SortedTail<T(!new)>(s: seq<(string, T)>)
    requires StrictlySortedByKey(s) && |s| > 0
    ensures forall x :: x in s[1..] <==> x in s && x != s[0]
  {
    forall x | x in s[1..] ensures x != s[0] {
      var k :| 0 <= k < |s[1..]| && s[1..][k] == x;
      assert s[k + 1] == x;
      KeyLessIrreflexive(s[0].0);
    }
    forall x | x in s && x != s[0] ensures x in s[1..] {
      var k :| 0 <= k < |s| && s[k] == x;
      assert s[1..][k - 1] == x;
    }
  }

  /** The entries with `f` applied to every value, keys untouched. */
  function MapValues<T, U>(l: seq<(string, T)>, f: T -> U): (r: seq<(string, U)>)
    ensures |r| == |l|
    ensures forall i :: 0 <= i < |l| ==> r[i] == (l[i].0, f(l[i].1))
  {
    seq(|l|, i requires 0 <= i < |l| => (l[i].0, f(l[i].1)))
  }

  /** Sorting looks at keys only, so it commutes with changing the values. */
  lemma {:induction false} SortByKeyMapValues<T(!new), U(!new)>(l: seq<(string, T)>, f: T -> U)
    ensures SortByKey(MapValues(l, f)) == MapValues(SortByKey(l), f)
  {
    if |l| > 0 {
      assert MapValues(l, f)[1..] == MapValues(l[1..], f);
      SortByKeyMapValues(l[1..], f);
      InsertMapValues(l[0], SortByKey(l[1..]), f);
    }
  }

  lemma {:induction false} InsertMapValues<T(!new), U(!new)>(e: (string, T), s: seq<(string, T)>, f: T -> U)
    ensures Insert((e.0, f(e.1)), MapValues(s, f)) == MapValues(Insert(e, s), f)
  {
    if |s| > 0 && !KeyLeq(e.0, s[0].0) {
      assert MapValues(s, f)[1..] == MapValues(s[1..], f);
      InsertMapValues(e, s[1..], f);
    }
  }

  // ---------------------------------------------------------------------
  // Numbers, lists and dicts

  predicate IsDigit(c: char) {
    '0' <= c <= '9'
  }

  /** The decimal digits of `n`, no leading zero: `int.__repr__`. */
  function NatText(n: nat): (s: string)
    ensures |s| > 0
    ensures forall i :: 0 <= i < |s| ==> IsDigit(s[i])
  {
    if n < 10 then [('0' as int + n) as char]
    else NatText(n / 10) + [('0' as int + n % 10) as char]
  }

  function IntText(i: int): (s: string)
    ensures |s| > 0 && IsAscii(s) && (s[0] == '-' || IsDigit(s[0]))
  {
    if i < 0 then "-" + NatText(-i) else NatText(i)
  }

  /** Item texts separated by ", ". */
  function JoinItems(texts: seq<string>): string {
    if |texts| == 0 then ""
    else if |texts| == 1 then texts[0]
    else texts[0] + ", " + JoinItems(texts[1..])
  }

  lemma {:induction false} JoinItemsAscii(texts: seq<string>)
    requires forall i :: 0 <= i < |texts| ==> IsAscii(texts[i])
    ensures IsAscii(JoinItems(texts))
  {
    if |texts| > 1 {
      assert forall i :: 0 <= i < |texts[1..]| ==> texts[1..][i] == texts[i + 1];
      JoinItemsAscii(texts[1..]);
      AsciiConcat(texts[0], ", ");
      AsciiConcat(texts[0] + ", ", JoinItems(texts[1..]));
    }
  }

  /** `"key": text`. */
  function EntryText(e: (string, string)): string {
    Quote(e.0) + ": " + e.1
  }

  /** The member texts of a list of (key, text) entries. */
  function MemberTexts(es: seq<(string, string)>): (texts: seq<string>)
    ensures |texts| == |es|
    ensures forall k :: 0 <= k < |es| ==> texts[k] == EntryText(es[k])
  {
    seq(|es|, k requires 0 <= k < |es| => EntryText(es[k]))
  }

  lemma MemberTextsAscii(es: seq<(string, string)>)
    requires forall e :: e in es ==> IsAscii(e.1)
    ensures forall k :: 0 <= k < |es| ==> IsAscii(MemberTexts(es)[k])
  {
    forall k | 0 <= k < |es|
      ensures IsAscii(MemberTexts(es)[k])
    {
      assert es[k] in es;
      AsciiConcat(Quote(es[k].0), ": ");
      AsciiConcat(Quote(es[k].0) + ": ", es[k].1);
    }
  }

  /** `json.dumps(v, sort_keys=True)`. Entries are sorted as (key, text) pairs:
      with unique keys that is the order of Python's (key, value) sort. */
  function Dumps(v: Value): (text: string)
    ensures |text| > 0 && text[0] != ']' && text[0] != '}'
    ensures IsAscii(text)
  {
    match v
    case Null => "null"
    case Bool(b) => if b then "true" else "false"
    case Int(i) => IntText(i)
    case Str(s) => Quote(s)
    case Array(items) =>
      var texts := seq(|items|, k requires 0 <= k < |items| => Dumps(items[k]));
      JoinItemsAscii(texts);
      AsciiConcat("[", JoinItems(texts));
      AsciiConcat("[" + JoinItems(texts), "]");
      "[" + JoinItems(texts) + "]"
    case Object(fields) =>
      var entries := seq(|fields|, k requires 0 <= k < |fields| => (fields[k].0, Dumps(fields[k].1)));
      var body := JoinItems(MemberTexts(SortByKey(entries)));
      MemberTextsAscii(SortByKey(entries));
      JoinItemsAscii(MemberTexts(SortByKey(entries)));
      AsciiConcat("{", body);
      AsciiConcat("{" + body, "}");
      "{" + body + "}"
  }

  // ---------------------------------------------------------------------
  // Key-order independence

  function KeySet<T>(l: seq<(string, T)>): set<string> {
    set i | 0 <= i < |l| :: l[i].0
  }

  /** `a` and `b` differ at most in the insertion order of their dicts' keys. */
  predicate SameUpToKeyOrder(a: Value, b: Value)
    decreases a
  {
    match a
    case Array(xs) =>
      && b.Array? && |xs| == |b.items|
      && forall k :: 0 <= k < |xs| ==> SameUpToKeyOrder(xs[k], b.items[k])
    case Object(fa) =>
      && b.Object? && UniqueKeys(fa) && UniqueKeys(b.fields)
      && KeySet(fa) == KeySet(b.fields)
      && forall i, j :: 0 <= i < |fa| && 0 <= j < |b.fields| && fa[i].0 == b.fields[j].0 ==>
           SameUpToKeyOrder(fa[i].1, b.fields[j].1)
    case _ => a == b
  }

  /** Dicts holding the same entries in different insertion order have the
      same canonical text, at any depth. */
  lemma {:induction false} KeyOrderIndependence(a: Value, b: Value)
    requires SameUpToKeyOrder(a, b)
    ensures Dumps(a) == Dumps(b)
    decreases a, 1
  {
    match a
    case Array(xs) =>
      forall k | 0 <= k < |xs| ensures Dumps(xs[k]) == Dumps(b.items[k]) {
        KeyOrderIndependence(xs[k], b.items[k]);
      }
      var ta := seq(|xs|, k requires 0 <= k < |xs| => Dumps(xs[k]));
      var tb := seq(|b.items|, k requires 0 <= k < |b.items| => Dumps(b.items[k]));
      assert ta == tb;
    case Object(fa) =>
      var fb := b.fields;
      var ea := seq(|fa|, k requires 0 <= k < |fa| => (fa[k].0, Dumps(fa[k].1)));
      var eb := seq(|fb|, k requires 0 <= k < |fb| => (fb[k].0, Dumps(fb[k].1)));
      SameEntryTexts(a, b, ea, eb);
      assert UniqueKeys(ea) && UniqueKeys(eb);
      SortByKeySorted(ea);
      SortByKeySorted(eb);
      StrictlySortedUnique(SortByKey(ea), SortByKey(eb));
    case _ =>
  }

  /** Related dicts have the same (key, text) entries. */
  lemma {:induction false} SameEntryTexts(a: Value, b: Value, ea: seq<(string, string)>, eb: seq<(string, string)>)
    requires a.Object? && b.Object? && SameUpToKeyOrder(a, b)
    requires ea == seq(|a.fields|, k requires 0 <= k < |a.fields| => (a.fields[k].0, Dumps(a.fields[k].1)))
    requires eb == seq(|b.fields|, k requires 0 <= k < |b.fields| => (b.fields[k].0, Dumps(b.fields[k].1)))
    ensures forall x :: x in ea <==> x in eb
    decreases a, 0
  {
    forall x | x in ea ensures x in eb {
      var i :| 0 <= i < |ea| && ea[i] == x;
      assert a.fields[i].0 in KeySet(a.fields);
      var j :| 0 <= j < |b.fields| && b.fields[j].0 == a.fields[i].0;
      KeyOrderIndependence(a.fields[i].1, b.fields[j].1);
      assert eb[j] == x;
    }
    forall x | x in eb ensures x in ea {
      var j :| 0 <= j < |eb| && eb[j] == x;
      assert b.fields[j].0 in KeySet(b.fields);
      var i :| 0 <= i < |a.fields| && a.fields[i].0 == b.fields[j].0;
      KeyOrderIndependence(a.fields[i].1, b.fields[j].1);
      assert ea[i] == x;
    }
  }

  lemma {:induction false} SameUpToKeyOrderSymmetric(a: Value, b: Value)
    requires SameUpToKeyOrder(a, b)
    ensures SameUpToKeyOrder(b, a)
    decreases a
  {
    match a
    case Array(xs) =>
      forall k | 0 <= k < |xs| ensures SameUpToKeyOrder(b.items[k], xs[k]) {
        SameUpToKeyOrderSymmetric(xs[k], b.items[k]);
      }
    case Object(fa) =>
      var fb := b.fields;
      forall j, i | 0 <= j < |fb| && 0 <= i < |fa| && fb[j].0 == fa[i].0
        ensures SameUpToKeyOrder(fb[j].1, fa[i].1)
      {
        SameUpToKeyOrderSymmetric(fa[i].1, fb[j].1);
      }
    case _ =>
  }

  lemma {:induction false} SameUpToKeyOrderTransitive(a: Value, b: Value, c: Value)
    requires SameUpToKeyOrder(a, b) && SameUpToKeyOrder(b, c)
    ensures SameUpToKeyOrder(a, c)
    decreases a
  {
    match a
    case Array(xs) =>
      forall k | 0 <= k < |xs| ensures SameUpToKeyOrder(xs[k], c.items[k]) {
        SameUpToKeyOrderTransitive(xs[k], b.items[k], c.items[k]);
      }
    case Object(fa) =>
      var fb, fc := b.fields, c.fields;
      forall i, j | 0 <= i < |fa| && 0 <= j < |fc| && fa[i].0 == fc[j].0
        ensures SameUpToKeyOrder(fa[i].1, fc[j].1)
      {
        assert fa[i].0 in KeySet(fb);
        var m :| 0 <= m < |fb| && fb[m].0 == fa[i].0;
        SameUpToKeyOrderTransitive(fa[i].1, fb[m].1, fc[j].1);
      }
    case _ =>
  }

  lemma StrictlySortedUniqueKeys<T>(s: seq<(string, T)>)
    requires StrictlySortedByKey(s)
    ensures UniqueKeys(s)
  {
    forall i, j | 0 <= i < j < |s| ensures s[i].0 != s[j].0 {
      KeyLessIrreflexive(s[i].0);
    }
  }
}
