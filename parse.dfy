/** A reader for the canonical text, used to prove that the encoder loses
    nothing but key order: reading `Dumps(v)` back gives `v` with every dict
    sorted (`Normalize(v)`), so two values with the same canonical text are
    the same up to the order in which their dicts' keys were inserted. */
module Parse {
  import opened Wrappers
  import opened Json
  import opened Escape
  import opened Canonical

  /** `v` with the entries of every dict put in key order. */
  function Normalize(v: Value): (n: Value)
  {
    match v
    case Array(items) => Array(seq(|items|, k requires 0 <= k < |items| => Normalize(items[k])))
    case Object(fields) =>
      Object(SortByKey(seq(|fields|, k requires 0 <= k < |fields| => (fields[k].0, Normalize(fields[k].1)))))
    case _ => v
  }

  // ---------------------------------------------------------------------
  // Numbers

  /** How many decimal digits `s` starts with. */
  function DigitRun(s: string): (n: nat)
    ensures n <= |s|
    ensures forall i :: 0 <= i < n ==> IsDigit(s[i])
    ensures n < |s| ==> !IsDigit(s[n])
  {
    if |s| == 0 || !IsDigit(s[0]) then 0 else 1 + DigitRun(s[1..])
  }

  function DigitsValue(ds: string): nat
    requires forall i :: 0 <= i < |ds| ==> IsDigit(ds[i])
  {
    if |ds| == 0 then 0
    else
      assert IsDigit(ds[|ds| - 1]);
      DigitsValue(ds[..|ds| - 1]) * 10 + (ds[|ds| - 1] as int - '0' as int)
  }

  /** Reads the longest run of digits at the front of `s`. */
  function ParseNat(s: string): (r: Option<(nat, string)>)
    ensures r.Some? ==> |r.value.1| < |s|
  {
    var n := DigitRun(s);
    if n == 0 then None else Some((DigitsValue(s[..n]), s[n..]))
  }

  lemma {:induction false} DigitRunOf(ds: string, rest: string)
    requires forall i :: 0 <= i < |ds| ==> IsDigit(ds[i])
    requires rest == [] || !IsDigit(rest[0])
    ensures DigitRun(ds + rest) == |ds|
  {
    if |ds| > 0 {
      assert (ds + rest)[1..] == ds[1..] + rest;
      DigitRunOf(ds[1..], rest);
    }
  }

  lemma {:induction false} DigitsValueOf(n: nat)
    ensures DigitsValue(NatText(n)) == n
  {
    if n >= 10 {
      var ds := NatText(n);
      assert ds[..|ds| - 1] == NatText(n / 10);
      DigitsValueOf(n / 10);
    }
  }

  lemma ParseNatText(n: nat, rest: string)
    requires rest == [] || !IsDigit(rest[0])
    ensures ParseNat(NatText(n) + rest) == Some((n, rest))
  {
    var s := NatText(n) + rest;
    DigitRunOf(NatText(n), rest);
    assert s[..|NatText(n)|] == NatText(n);
    assert s[|NatText(n)|..] == rest;
    DigitsValueOf(n);
  }

  // ---------------------------------------------------------------------
  // Values

  function ParseValue(s: string): (r: Option<(Value, string)>)
    ensures r.Some? ==> |r.value.1| < |s|
    decreases |s|, 1
  {
    if |s| == 0 then None
    else if s[0] == 'n' then (if |s| >= 4 && s[1] == 'u' && s[2] == 'l' && s[3] == 'l' then Some((Null, s[4..])) else None)
    else if s[0] == 't' then (if |s| >= 4 && s[1] == 'r' && s[2] == 'u' && s[3] == 'e' then Some((Bool(true), s[4..])) else None)
    else if s[0] == 'f' then (if |s| >= 5 && s[1] == 'a' && s[2] == 'l' && s[3] == 's' && s[4] == 'e' then Some((Bool(false), s[5..])) else None)
    else if s[0] == '"' then
      match UnescapeString(s[1..])
      case None => None
      case Some((x, r)) => Some((Str(x), r))
    else if s[0] == '[' then
      if |s| >= 2 && s[1] == ']' then Some((Array([]), s[2..]))
      else match ParseItems(s[1..])
        case None => None
        case Some((xs, r)) => Some((Array(xs), r))
    else if s[0] == '{' then
      if |s| >= 2 && s[1] == '}' then Some((Object([]), s[2..]))
      else match ParseMembers(s[1..])
        case None => None
        case Some((es, r)) => Some((Object(es), r))
    else if s[0] == '-' then
      match ParseNat(s[1..])
      case None => None
      case Some((n, r)) => Some((Int(-(n as int)), r))
    else
      match ParseNat(s)
      case None => None
      case Some((n, r)) => Some((Int(n), r))
  }

  /** Items up to and including the closing bracket. */
  function ParseItems(s: string): (r: Option<(seq<Value>, string)>)
    ensures r.Some? ==> |r.value.1| < |s|
    decreases |s|, 2
  {
    match ParseValue(s)
    case None => None
    case Some((v, r)) =>
      if Comma(r) then
        match ParseItems(r[2..])
        case None => None
        case Some((vs, u)) => Some(([v] + vs, u))
      else if |r| >= 1 && r[0] == ']' then Some(([v], r[1..]))
      else None
  }

  /** One `"key": value` member. */
  function ParseMember(s: string): (r: Option<((string, Value), string)>)
    ensures r.Some? ==> |r.value.1| < |s|
    decreases |s|, 2
  {
    if |s| == 0 || s[0] != '"' then None
    else match UnescapeString(s[1..])
      case None => None
      case Some((k, r)) =>
        if !Colon(r) then None
        else match ParseValue(r[2..])
          case None => None
          case Some((v, u)) => Some(((k, v), u))
  }

  /** Members up to and including the closing brace. */
  function ParseMembers(s: string): (r: Option<(seq<(string, Value)>, string)>)
    ensures r.Some? ==> |r.value.1| < |s|
    decreases |s|, 3
  {
    match ParseMember(s)
    case None => None
    case Some((e, u)) =>
      if Comma(u) then
        match ParseMembers(u[2..])
        case None => None
        case Some((es, w)) => Some(([e] + es, w))
      else if |u| >= 1 && u[0] == '}' then Some(([e], u[1..]))
      else None
  }

  /** The text starts with the item separator `, `. */
  predicate Comma(s: string) {
    |s| >= 2 && s[0] == ',' && s[1] == ' '
  }

  /** The text starts with the key separator `: `. */
  predicate Colon(s: string) {
    |s| >= 2 && s[0] == ':' && s[1] == ' '
  }

  /** What may follow a value inside the canonical text. */
  predicate Delimited(rest: string) {
    rest == [] || rest[0] == ',' || rest[0] == ']' || rest[0] == '}'
  }

  function DumpsAll(xs: seq<Value>): seq<string> {
    seq(|xs|, k requires 0 <= k < |xs| => Dumps(xs[k]))
  }

  function NormalizeAll(xs: seq<Value>): seq<Value> {
    seq(|xs|, k requires 0 <= k < |xs| => Normalize(xs[k]))
  }

  /** Reading the canonical text of `v` gives back `v` with its dicts sorted. */
  lemma {:induction false} ParseDumps(v: Value, rest: string)
    requires Delimited(rest)
    ensures ParseValue(Dumps(v) + rest) == Some((Normalize(v), rest))
  {
    match v
    case Null => ParseAtomText(v, rest);
    case Bool(_) => ParseAtomText(v, rest);
    case Int(i) => ParseIntText(i, rest);
    case Str(x) => ParseStrText(x, rest);
    case Array(items) =>
      forall k, d | 0 <= k < |items| && Delimited(d)
        ensures ParseValue(DumpsAll(items)[k] + d) == Some((NormalizeAll(items)[k], d))
      {
        ParseDumps(items[k], d);
      }
      ParseArrayText(items, rest);
    case Object(fields) =>
      var sorted := SortByKey(fields);
      var ms := MapValues(sorted, Dumps);
      var es := MapValues(sorted, Normalize);
      forall k, d | 0 <= k < |fields| && Delimited(d)
        ensures ParseMember(MemberTexts(ms)[k] + d) == Some((es[k], d))
      {
        assert sorted[k] in fields;
        ParseDumps(sorted[k].1, d);
        ParseMemberText(ms[k], es[k], d);
      }
      ParseObjectText(fields, rest);
  }

  lemma ParseAtomText(v: Value, rest: string)
    requires v.Null? || v.Bool?
    ensures ParseValue(Dumps(v) + rest) == Some((Normalize(v), rest))
  {
    var s := Dumps(v) + rest;
    if v.Null? {
      assert s[..4] == "null" && s[4..] == rest;
    } else if v.b {
      assert s[..4] == "true" && s[4..] == rest;
    } else {
      assert s[..5] == "false" && s[5..] == rest;
    }
  }

  lemma ParseIntText(i: int, rest: string)
    requires Delimited(rest)
    ensures ParseValue(Dumps(Int(i)) + rest) == Some((Int(i), rest))
  {
    assert rest == [] || !IsDigit(rest[0]);
    if i < 0 {
      var t := NatText(-i) + rest;
      assert Dumps(Int(i)) + rest == "-" + t;
      Opening('-', t);
      ParseNatText(-i, rest);
      ValueNeg("-" + t, -i, rest);
    } else {
      ParseNatText(i, rest);
      ValueNat(NatText(i) + rest, i, rest);
    }
  }

  lemma ValueNeg(s: string, n: nat, rest: string)
    requires |s| > 0 && s[0] == '-' && ParseNat(s[1..]) == Some((n, rest))
    ensures ParseValue(s) == Some((Int(-(n as int)), rest))
  {
  }

  lemma ValueNat(s: string, n: nat, rest: string)
    requires |s| > 0 && IsDigit(s[0]) && ParseNat(s) == Some((n, rest))
    ensures ParseValue(s) == Some((Int(n), rest))
  {
  }

  lemma ParseStrText(x: string, rest: string)
    ensures ParseValue(Dumps(Str(x)) + rest) == Some((Str(x), rest))
  {
    ReadQuoted(x, rest);
  }

  lemma ParseArrayText(items: seq<Value>, rest: string)
    requires Delimited(rest)
    requires forall k, d :: 0 <= k < |items| && Delimited(d) ==>
      ParseValue(DumpsAll(items)[k] + d) == Some((NormalizeAll(items)[k], d))
    ensures ParseValue(Dumps(Array(items)) + rest) == Some((Normalize(Array(items)), rest))
  {
    var texts := DumpsAll(items);
    ArrayTextSplit(items, rest);
    if |items| > 0 {
      var body := JoinItems(texts) + "]" + rest;
      ParseItemsJoin(texts, NormalizeAll(items), rest);
      JoinItemsHead(texts, "]" + rest);
      Opening('[', body);
      ValueArray("[" + body, NormalizeAll(items), rest);
    } else {
      Opening('[', "]" + rest);
      Opening(']', rest);
    }
  }

  lemma ParseObjectText(fields: seq<(string, Value)>, rest: string)
    requires Delimited(rest)
    requires forall k, d :: 0 <= k < |fields| && Delimited(d) ==>
      ParseMember(MemberTexts(MapValues(SortByKey(fields), Dumps))[k] + d) == Some((MapValues(SortByKey(fields), Normalize)[k], d))
    ensures ParseValue(Dumps(Object(fields)) + rest) == Some((Normalize(Object(fields)), rest))
  {
    var sorted := SortByKey(fields);
    var texts := MemberTexts(MapValues(sorted, Dumps));
    var es := MapValues(sorted, Normalize);
    ObjectTextSplit(fields, rest);
    if |fields| > 0 {
      var body := JoinItems(texts) + "}" + rest;
      ParseMembersJoin(texts, es, rest);
      MemberHead(MapValues(sorted, Dumps)[0]);
      JoinItemsHead(texts, "}" + rest);
      Opening('{', body);
      ValueObject("{" + body, es, rest);
    } else {
      assert texts == [] && es == [];
      assert JoinItems(texts) + "}" + rest == "}" + rest;
      Opening('{', "}" + rest);
      Opening('}', rest);
    }
  }

  /** The canonical text of an array, taken apart without the reader. */
  lemma ArrayTextSplit(items: seq<Value>, rest: string)
    ensures Dumps(Array(items)) + rest == "[" + (JoinItems(DumpsAll(items)) + "]" + rest)
    ensures Normalize(Array(items)) == Array(NormalizeAll(items))
    ensures |items| == 0 ==> Dumps(Array(items)) + rest == "[" + ("]" + rest) && NormalizeAll(items) == []
  {
    assert DumpsAll(items) == seq(|items|, k requires 0 <= k < |items| => Dumps(items[k]));
  }

  /** The canonical text of a dict, taken apart without the reader. */
  lemma ObjectTextSplit(fields: seq<(string, Value)>, rest: string)
    ensures Dumps(Object(fields)) + rest == "{" + (JoinItems(MemberTexts(MapValues(SortByKey(fields), Dumps))) + "}" + rest)
    ensures Normalize(Object(fields)) == Object(MapValues(SortByKey(fields), Normalize))
    ensures |SortByKey(fields)| == |fields|
  {
    DumpsObject(fields);
    Enclose("{", JoinItems(MemberTexts(MapValues(SortByKey(fields), Dumps))), "}", rest);
    NormalizeObject(fields);
  }

  lemma DumpsObject(fields: seq<(string, Value)>)
    ensures Dumps(Object(fields)) == "{" + JoinItems(MemberTexts(MapValues(SortByKey(fields), Dumps))) + "}"
  {
    var entries := seq(|fields|, k requires 0 <= k < |fields| => (fields[k].0, Dumps(fields[k].1)));
    assert entries == MapValues(fields, Dumps);
    SortByKeyMapValues(fields, Dumps);
  }

  lemma Enclose(a: string, b: string, c: string, rest: string)
    ensures a + b + c + rest == a + (b + c + rest)
  {
  }

  lemma NormalizeObject(fields: seq<(string, Value)>)
    ensures Normalize(Object(fields)) == Object(MapValues(SortByKey(fields), Normalize))
  {
    var normed := seq(|fields|, k requires 0 <= k < |fields| => (fields[k].0, Normalize(fields[k].1)));
    assert normed == MapValues(fields, Normalize);
    SortByKeyMapValues(fields, Normalize);
  }

  lemma Opening(c: char, t: string)
    ensures |[c] + t| > 0 && ([c] + t)[0] == c && ([c] + t)[1..] == t
    ensures Delimited([c] + t) == (c == ',' || c == ']' || c == '}')
  {
  }

  lemma Separator(t: string)
    ensures Comma(", " + t) && (", " + t)[2..] == t && Delimited(", " + t)
  {
  }

  /** A list of texts joined and closed, split at its first item. */
  lemma JoinItemsOne(texts: seq<string>, close: string, rest: string)
    requires |texts| == 1
    ensures JoinItems(texts) + close + rest == texts[0] + (close + rest)
  {
  }

  lemma JoinItemsCons(texts: seq<string>, close: string, rest: string)
    requires |texts| > 1
    ensures JoinItems(texts) + close + rest == texts[0] + (", " + (JoinItems(texts[1..]) + close + rest))
  {
    var j := JoinItems(texts[1..]);
    assert JoinItems(texts) == texts[0] + ", " + j;
    Associate(texts[0], ", ", j, close + rest);
  }

  lemma Associate(a: string, b: string, c: string, d: string)
    ensures a + b + c + d == a + (b + (c + d))
  {
  }

  lemma {:induction false} ParseItemsJoin(texts: seq<string>, ns: seq<Value>, rest: string)
    requires |texts| == |ns| > 0
    requires forall k, d :: 0 <= k < |texts| && Delimited(d) ==> ParseValue(texts[k] + d) == Some((ns[k], d))
    ensures ParseItems(JoinItems(texts) + "]" + rest) == Some((ns, rest))
  {
    if |texts| == 1 {
      JoinItemsOne(texts, "]", rest);
      var after := "]" + rest;
      Opening(']', rest);
      assert ParseValue(texts[0] + after) == Some((ns[0], after));
      ItemsLast(texts[0] + after, ns[0], after);
      assert [ns[0]] == ns;
    } else {
      var tail := JoinItems(texts[1..]) + "]" + rest;
      var after := ", " + tail;
      JoinItemsCons(texts, "]", rest);
      Separator(tail);
      assert ParseValue(texts[0] + after) == Some((ns[0], after));
      ParseItemsJoin(texts[1..], ns[1..], rest);
      ItemsMore(texts[0] + after, ns[0], after, ns[1..], rest);
      assert [ns[0]] + ns[1..] == ns;
    }
  }

  lemma {:induction false} ParseMembersJoin(texts: seq<string>, es: seq<(string, Value)>, rest: string)
    requires |texts| == |es| > 0
    requires forall k, d :: 0 <= k < |texts| && Delimited(d) ==> ParseMember(texts[k] + d) == Some((es[k], d))
    ensures ParseMembers(JoinItems(texts) + "}" + rest) == Some((es, rest))
  {
    if |texts| == 1 {
      JoinItemsOne(texts, "}", rest);
      var after := "}" + rest;
      Opening('}', rest);
      assert ParseMember(texts[0] + after) == Some((es[0], after));
      MembersLast(texts[0] + after, es[0], after);
      assert [es[0]] == es;
    } else {
      var tail := JoinItems(texts[1..]) + "}" + rest;
      var after := ", " + tail;
      JoinItemsCons(texts, "}", rest);
      Separator(tail);
      assert ParseMember(texts[0] + after) == Some((es[0], after));
      ParseMembersJoin(texts[1..], es[1..], rest);
      MembersMore(texts[0] + after, es[0], after, es[1..], rest);
      assert [es[0]] + es[1..] == es;
    }
  }

  lemma ParseMemberText(m: (string, string), e: (string, Value), after: string)
    requires m.0 == e.0 && ParseValue(m.1 + after) == Some((e.1, after))
    ensures ParseMember(EntryText(m) + after) == Some((e, after))
  {
    var r := ": " + m.1 + after;
    var s := EntryText(m) + after;
    MemberSplit(m, after);
    ReadQuoted(m.0, r);
    MemberStep(s, m.0, r, e.1, after);
    assert (m.0, e.1) == e;
  }

  lemma MemberSplit(m: (string, string), after: string)
    ensures EntryText(m) + after == Quote(m.0) + (": " + m.1 + after)
    ensures Colon(": " + m.1 + after) && (": " + m.1 + after)[2..] == m.1 + after
  {
  }

  lemma MemberStep(s: string, k: string, r: string, v: Value, u: string)
    requires |s| > 0 && s[0] == '"' && UnescapeString(s[1..]) == Some((k, r))
    requires Colon(r) && ParseValue(r[2..]) == Some((v, u))
    ensures ParseMember(s) == Some(((k, v), u))
  {
  }

  lemma JoinItemsHead(texts: seq<string>, t: string)
    requires |texts| > 0 && |texts[0]| > 0
    ensures |JoinItems(texts) + t| > 0 && (JoinItems(texts) + t)[0] == texts[0][0]
  {
  }

  lemma MemberHead(m: (string, string))
    ensures |EntryText(m)| > 0 && EntryText(m)[0] == '"'
  {
  }

  // One unfolding of the reader each, stated over plain strings.

  lemma ItemsLast(s: string, v: Value, r: string)
    requires ParseValue(s) == Some((v, r)) && |r| >= 1 && r[0] == ']'
    ensures ParseItems(s) == Some(([v], r[1..]))
  {
  }

  lemma ItemsMore(s: string, v: Value, r: string, vs: seq<Value>, u: string)
    requires ParseValue(s) == Some((v, r)) && Comma(r)
    requires ParseItems(r[2..]) == Some((vs, u))
    ensures ParseItems(s) == Some(([v] + vs, u))
  {
  }

  lemma MembersLast(s: string, e: (string, Value), r: string)
    requires ParseMember(s) == Some((e, r)) && |r| >= 1 && r[0] == '}'
    ensures ParseMembers(s) == Some(([e], r[1..]))
  {
  }

  lemma MembersMore(s: string, e: (string, Value), r: string, es: seq<(string, Value)>, u: string)
    requires ParseMember(s) == Some((e, r)) && Comma(r)
    requires ParseMembers(r[2..]) == Some((es, u))
    ensures ParseMembers(s) == Some(([e] + es, u))
  {
  }

  lemma ValueArray(s: string, xs: seq<Value>, r: string)
    requires |s| >= 2 && s[0] == '[' && s[1] != ']' && ParseItems(s[1..]) == Some((xs, r))
    ensures ParseValue(s) == Some((Array(xs), r))
  {
  }

  lemma ValueObject(s: string, es: seq<(string, Value)>, r: string)
    requires |s| >= 2 && s[0] == '{' && s[1] != '}' && ParseMembers(s[1..]) == Some((es, r))
    ensures ParseValue(s) == Some((Object(es), r))
  {
  }

  /** The encoder is injective up to key order: equal canonical texts mean
      equal sorted values. */
  lemma DumpsInjective(a: Value, b: Value)
    requires Dumps(a) == Dumps(b)
    ensures Normalize(a) == Normalize(b)
  {
    ParseDumps(a, []);
    ParseDumps(b, []);
    assert Dumps(a) + [] == Dumps(a) && Dumps(b) + [] == Dumps(b);
  }

  /** Sorting the dicts of a well-formed value only reorders keys. */
  lemma {:induction false} NormalizeRelated(v: Value)
    requires WellFormed(v)
    ensures SameUpToKeyOrder(v, Normalize(v))
  {
    match v
    case Array(items) =>
      forall k | 0 <= k < |items| ensures SameUpToKeyOrder(items[k], Normalize(v).items[k]) {
        NormalizeRelated(items[k]);
      }
    case Object(fields) =>
      forall i | 0 <= i < |fields| ensures SameUpToKeyOrder(fields[i].1, Normalize(fields[i].1)) {
        NormalizeRelated(fields[i].1);
      }
      NormalizeObject(fields);
      SortByKeyMapValues(fields, Normalize);
      SortedEntriesRelated(fields, SortByKey(MapValues(fields, Normalize)));
    case _ =>
  }

  lemma SortedEntriesRelated(fields: seq<(string, Value)>, sorted: seq<(string, Value)>)
    requires UniqueKeys(fields)
    requires forall i :: 0 <= i < |fields| ==> SameUpToKeyOrder(fields[i].1, Normalize(fields[i].1))
    requires sorted == SortByKey(MapValues(fields, Normalize))
    ensures SameUpToKeyOrder(Object(fields), Object(sorted))
  {
    var normed := MapValues(fields, Normalize);
    assert Keys(normed) == Keys(fields);
    SortByKeySorted(normed);
    StrictlySortedUniqueKeys(sorted);
    SortedKeySet(fields, sorted);
    forall i, j | 0 <= i < |fields| && 0 <= j < |sorted| && fields[i].0 == sorted[j].0
      ensures SameUpToKeyOrder(fields[i].1, sorted[j].1)
    {
      assert sorted[j] in normed;
      var m :| 0 <= m < |normed| && normed[m] == sorted[j];
      assert m == i;
    }
  }

  lemma SortedKeySet(fields: seq<(string, Value)>, sorted: seq<(string, Value)>)
    requires sorted == SortByKey(MapValues(fields, Normalize))
    ensures KeySet(sorted) == KeySet(fields)
  {
    var normed := MapValues(fields, Normalize);
    forall key | key in KeySet(sorted) ensures key in KeySet(fields) {
      var j :| 0 <= j < |sorted| && sorted[j].0 == key;
      assert sorted[j] in normed;
    }
    forall key | key in KeySet(fields) ensures key in KeySet(sorted) {
      var i :| 0 <= i < |fields| && fields[i].0 == key;
      assert normed[i] in sorted;
    }
  }

  /** For well-formed values the canonical text identifies exactly the
      values that differ only in key order. */
  lemma CanonicalTextIff(a: Value, b: Value)
    requires WellFormed(a) && WellFormed(b)
    ensures Dumps(a) == Dumps(b) <==> SameUpToKeyOrder(a, b)
  {
    if Dumps(a) == Dumps(b) {
      DumpsInjective(a, b);
      NormalizeRelated(a);
      NormalizeRelated(b);
      SameUpToKeyOrderSymmetric(b, Normalize(b));
      SameUpToKeyOrderTransitive(a, Normalize(a), b);
    }
    if SameUpToKeyOrder(a, b) {
      KeyOrderIndependence(a, b);
    }
  }
}
