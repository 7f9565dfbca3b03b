/** Values and string operations the Python source gets from the language:
    optional values, exceptions as results, dictionaries in insertion order,
    `sub in s` on strings, `str(int)`, `int(s)`, `s.lower()`, `s.replace(c, "")`
    and the `,` (thousands separator) format specifier. */
module Common {

  datatype Option<T> = None | Some(value: T)

  datatype Result<T, E> = Success(value: T) | Failure(error: E)

  /** A Python dict: its entries in insertion order. */
  type Dict<V> = seq<(string, V)>

  /** `d[key]` when `key in d`, and None when it is not. */
  function Lookup<V>(d: Dict<V>, key: string): Option<V> {
    if d == [] then None
    else if d[0].0 == key then Some(d[0].1)
    else Lookup(d[1..], key)
  }

  /** Lookup finds a key exactly when some entry has it, and then returns
      the value of the first such entry. */
  lemma {:induction false} LookupSpec<V>(d: Dict<V>, key: string)
    ensures Lookup(d, key).Some? <==> exists i :: 0 <= i < |d| && d[i].0 == key
    ensures Lookup(d, key).Some? ==>
      exists i :: 0 <= i < |d| && d[i] == (key, Lookup(d, key).value) && (forall j :: 0 <= j < i ==> d[j].0 != key)
  {
    if d != [] && d[0].0 != key {
      LookupSpec(d[1..], key);
      assert forall i :: 1 <= i < |d| ==> d[i] == d[1..][i - 1];
      if Lookup(d, key).Some? {
        var i :| 0 <= i < |d[1..]| && d[1..][i] == (key, Lookup(d, key).value) && (forall j :: 0 <= j < i ==> d[1..][j].0 != key);
        assert d[i + 1] == (key, Lookup(d, key).value);
        forall j | 0 <= j < i + 1
          ensures d[j].0 != key
        {
          if j > 0 { assert d[j] == d[1..][j - 1]; }
        }
      }
    }
  }

  /** An entry whose key no earlier entry has is the one Lookup finds. */
  lemma {:induction false} LookupAt<V>(d: Dict<V>, i: nat)
    requires i < |d| && forall j :: 0 <= j < i ==> d[j].0 != d[i].0
    ensures Lookup(d, d[i].0) == Some(d[i].1)
  {
    if i > 0 {
      assert forall j :: 0 <= j < i - 1 ==> d[1..][j] == d[j + 1];
      LookupAt(d[1..], i - 1);
    }
  }

  // ---------------------------------------------------------------- substrings

  predicate StartsWith(s: string, prefix: string) {
    |prefix| <= |s| && s[..|prefix|] == prefix
  }

  /** Python's `sub in s`. */
  predicate Contains(s: string, sub: string)
    decreases |s|
  {
    StartsWith(s, sub) || (s != [] && Contains(s[1..], sub))
  }

  lemma {:induction false} ContainsAt(s: string, sub: string, k: nat)
    requires k + |sub| <= |s| && s[k..k + |sub|] == sub
    ensures Contains(s, sub)
    decreases k
  {
    if k > 0 {
      assert s[1..][k - 1..k - 1 + |sub|] == s[k..k + |sub|];
      ContainsAt(s[1..], sub, k - 1);
    }
  }

  lemma ContainsInMiddle(a: string, sub: string, b: string)
    ensures Contains(a + sub + b, sub)
  {
    assert (a + sub + b)[|a|..|a| + |sub|] == sub;
    ContainsAt(a + sub + b, sub, |a|);
  }

  /** Every character of a substring occurs in the string that contains it, so
      a string without some character of `sub` does not contain `sub`. */
  lemma {:induction false} ContainedCharOccurs(s: string, sub: string, c: char)
    requires c in sub
    ensures Contains(s, sub) ==> c in s
    decreases |s|
  {
    if StartsWith(s, sub) {
      var k :| 0 <= k < |sub| && sub[k] == c;
      assert s[k] == c;
    } else if s != [] {
      ContainedCharOccurs(s[1..], sub, c);
      if c in s[1..] {
        var j :| 0 <= j < |s[1..]| && s[1..][j] == c;
        assert s[j + 1] == c;
      }
    }
  }

  // ---------------------------------------------------------------- lower case

  function LowerChar(c: char): char {
    if 'A' <= c <= 'Z' then (c as int + 32) as char else c
  }

  /** `s.lower()` on ASCII letters. */
  function Lower(s: string): (r: string)
    ensures |r| == |s|
    ensures forall i :: 0 <= i < |s| ==> r[i] == LowerChar(s[i])
  {
    seq(|s|, i requires 0 <= i < |s| => LowerChar(s[i]))
  }

  /** Lowering keeps every substring, lowered. */
  lemma {:induction false} ContainsLower(s: string, sub: string)
    requires Contains(s, sub)
    ensures Contains(Lower(s), Lower(sub))
    decreases |s|
  {
    if StartsWith(s, sub) {
      assert Lower(s)[..|sub|] == Lower(sub);
    } else {
      ContainsLower(s[1..], sub);
      assert Lower(s)[1..] == Lower(s[1..]);
    }
  }

  // ---------------------------------------------------------------- digits

  predicate IsDigit(c: char) { '0' <= c <= '9' }

  predicate AllDigits(s: string) { forall i :: 0 <= i < |s| ==> IsDigit(s[i]) }

  function DigitChar(d: nat): (c: char)
    requires d < 10
    ensures IsDigit(c)
  {
    ('0' as int + d) as char
  }

  function DigitValue(c: char): (d: nat)
    requires IsDigit(c)
    ensures d < 10
  {
    c as int - '0' as int
  }

  /** `str(n)` for a natural number. */
  function NatText(n: nat): (s: string)
    ensures s != [] && AllDigits(s)
    decreases n
  {
    if n < 10 then [DigitChar(n)] else NatText(n / 10) + [DigitChar(n % 10)]
  }

  /** `str(n)` for an integer. */
  function IntText(n: int): string {
    if n < 0 then "-" + NatText(-n) else NatText(n)
  }

  /** The number a string of decimal digits denotes. */
  function DigitsValue(s: string): nat
    requires AllDigits(s)
  {
    if s == [] then 0 else DigitsValue(s[..|s| - 1]) * 10 + DigitValue(s[|s| - 1])
  }

  /** `int(s)` (or `float(s)`) on a string of ASCII digits; None where Python
      would raise ValueError. */
  function ParseNat(s: string): Option<nat> {
    if s != [] && AllDigits(s) then Some(DigitsValue(s)) else None
  }

  /** `int(s)` on an optionally signed string of ASCII digits. */
  function ParseInt(s: string): Option<int> {
    if s != [] && s[0] == '-' then
      match ParseNat(s[1..])
      case Some(n) => var v: int := n; Some(-v)
      case None => None
    else
      match ParseNat(s)
      case Some(n) => Some(n)
      case None => None
  }

  lemma {:induction false} NatTextRoundTrip(n: nat)
    ensures DigitsValue(NatText(n)) == n
    decreases n
  {
    if n >= 10 {
      NatTextRoundTrip(n / 10);
      var s := NatText(n);
      assert s[..|s| - 1] == NatText(n / 10);
    }
  }

  /** `int(str(n)) == n`. */
  lemma IntTextRoundTrip(n: int)
    ensures ParseInt(IntText(n)) == Some(n)
  {
    if n < 0 {
      NatTextRoundTrip(-n);
      assert IntText(n)[1..] == NatText(-n);
    } else {
      NatTextRoundTrip(n);
    }
  }

  // ---------------------------------------------------------------- grouping

  /** `s.replace(c, "")`. */
  function RemoveChar(s: string, c: char): (r: string)
    ensures c !in r
  {
    if s == [] then []
    else RemoveChar(s[..|s| - 1], c) + (if s[|s| - 1] == c then [] else [s[|s| - 1]])
  }

  lemma {:induction false} RemoveCharAppend(a: string, b: string, c: char)
    ensures RemoveChar(a + b, c) == RemoveChar(a, c) + RemoveChar(b, c)
    decreases |b|
  {
    if b != [] {
      assert (a + b)[..|a + b| - 1] == a + b[..|b| - 1];
      RemoveCharAppend(a, b[..|b| - 1], c);
    } else {
      assert a + b == a;
    }
  }

  lemma {:induction false} RemoveCharAbsent(s: string, c: char)
    requires c !in s
    ensures RemoveChar(s, c) == s
    decreases |s|
  {
    if s != [] {
      RemoveCharAbsent(s[..|s| - 1], c);
      assert s == s[..|s| - 1] + [s[|s| - 1]];
    }
  }

  /** The three digits of n < 1000, zero-padded. */
  function Pad3(n: nat): (s: string)
    requires n < 1000
    ensures |s| == 3 && AllDigits(s)
  {
    [DigitChar(n / 100), DigitChar(n / 10 % 10), DigitChar(n % 10)]
  }

  /** `f"{n:,}"`: the decimal digits of n with a comma between groups of three. */
  function Grouped(n: nat): (s: string)
    ensures s != []
    decreases n
  {
    if n < 1000 then NatText(n) else Grouped(n / 1000) + "," + Pad3(n % 1000)
  }

  /** The shape of a grouped number: one to three leading digits, then
      groups of a comma and exactly three digits. */
  predicate GroupedForm(s: string)
    decreases |s|
  {
    (1 <= |s| <= 3 && AllDigits(s))
    || (|s| >= 5 && s[|s| - 4] == ',' && AllDigits(s[|s| - 3..]) && GroupedForm(s[..|s| - 4]))
  }

  lemma {:induction false} NatTextShort(n: nat)
    requires n < 1000
    ensures 1 <= |NatText(n)| <= 3
  {
    if n >= 10 { NatTextShort(n / 10); }
  }

  lemma GroupedShape(n: nat)
    ensures GroupedForm(Grouped(n))
    decreases n
  {
    if n < 1000 {
      NatTextShort(n);
    } else {
      var head, tail := Grouped(n / 1000), Pad3(n % 1000);
      GroupedShape(n / 1000);
      var s := head + "," + tail;
      assert s[..|s| - 4] == head && s[|s| - 4] == ',' && s[|s| - 3..] == tail;
    }
  }

  lemma GroupedUnseparated(n: nat)
    requires n >= 1000
    ensures RemoveChar(Grouped(n), ',') == RemoveChar(Grouped(n / 1000), ',') + Pad3(n % 1000)
  {
    var head, tail := Grouped(n / 1000), Pad3(n % 1000);
    assert Grouped(n) == (head + ",") + tail;
    RemoveCharAppend(head + ",", tail, ',');
    RemoveCharAppend(head, ",", ',');
    assert RemoveChar(",", ',') == [] by {
      assert ","[..0] == [];
    }
    RemoveCharAbsent(tail, ',');
    assert RemoveChar(head, ',') + [] == RemoveChar(head, ',');
  }

  /** Removing the separators from a grouped number gives back its digits. */
  lemma {:induction false} GroupedRoundTrip(n: nat)
    ensures AllDigits(RemoveChar(Grouped(n), ',')) && RemoveChar(Grouped(n), ',') != []
    ensures DigitsValue(RemoveChar(Grouped(n), ',')) == n
    decreases n
  {
    if n < 1000 {
      NatTextRoundTrip(n);
      RemoveCharAbsent(NatText(n), ',');
    } else {
      GroupedRoundTrip(n / 1000);
      GroupedUnseparated(n);
      Pad3Value(n % 1000);
      DigitsValueAppend3(RemoveChar(Grouped(n / 1000), ','), Pad3(n % 1000));
    }
  }

  lemma DigitsValueAppend1(a: string, c: char)
    requires AllDigits(a) && IsDigit(c)
    ensures AllDigits(a + [c])
    ensures DigitsValue(a + [c]) == DigitsValue(a) * 10 + DigitValue(c)
  {
    assert (a + [c])[..|a + [c]| - 1] == a;
  }

  lemma Pad3Value(n: nat)
    requires n < 1000
    ensures DigitsValue(Pad3(n)) == n
  {
    var p := Pad3(n);
    var q := n / 10;
    assert n == q * 10 + n % 10 && q == n / 100 * 10 + q % 10;
    assert DigitValue(p[0]) == n / 100 && DigitValue(p[1]) == q % 10 && DigitValue(p[2]) == n % 10;
    DigitsValueAppend1([], p[0]);
    assert [] + [p[0]] == [p[0]];
    DigitsValueAppend1([p[0]], p[1]);
    DigitsValueAppend1([p[0], p[1]], p[2]);
    assert [p[0]] + [p[1]] == [p[0], p[1]];
    assert [p[0], p[1]] + [p[2]] == p;
  }

  lemma DigitsValueAppend3(a: string, b: string)
    requires AllDigits(a) && |b| == 3 && AllDigits(b)
    ensures AllDigits(a + b)
    ensures DigitsValue(a + b) == DigitsValue(a) * 1000 + DigitsValue(b)
  {
    DigitsValueAppend1(a, b[0]);
    DigitsValueAppend1(a + [b[0]], b[1]);
    DigitsValueAppend1(a + [b[0]] + [b[1]], b[2]);
    assert a + [b[0]] + [b[1]] + [b[2]] == a + b;
    DigitsValueAppend1([], b[0]);
    DigitsValueAppend1([b[0]], b[1]);
    DigitsValueAppend1([b[0], b[1]], b[2]);
    assert [] + [b[0]] == [b[0]];
    assert [b[0]] + [b[1]] == [b[0], b[1]];
    assert [b[0], b[1]] + [b[2]] == b;
  }

  // ---------------------------------------------------------------- joining

  /** `sep.join(parts)`. */
  function Join(parts: seq<string>, sep: string): string {
    if parts == [] then ""
    else if |parts| == 1 then parts[0]
    else parts[0] + sep + Join(parts[1..], sep)
  }

  /** `"".join(parts)`. */
  function Concat(parts: seq<string>): string {
    if parts == [] then "" else Concat(parts[..|parts| - 1]) + parts[|parts| - 1]
  }

  /** The concatenation of a sequence of sequences. */
  function Flatten<T>(p: seq<seq<T>>): seq<T> {
    if p == [] then [] else Flatten(p[..|p| - 1]) + p[|p| - 1]
  }

  /** Pieces of exactly one element each concatenate to those elements. */
  lemma {:induction false} FlattenSingletons<T>(p: seq<seq<T>>)
    requires forall k :: 0 <= k < |p| ==> |p[k]| == 1
    ensures |Flatten(p)| == |p| && forall k :: 0 <= k < |p| ==> Flatten(p)[k] == p[k][0]
  {
    if p != [] {
      var init := p[..|p| - 1];
      assert forall k :: 0 <= k < |init| ==> init[k] == p[k];
      FlattenSingletons(init);
    }
  }

  predicate AtMostOne<T>(p: seq<seq<T>>) {
    forall k :: 0 <= k < |p| ==> |p[k]| <= 1
  }

  /** idx names, for every element of flat, the piece of p it is, in
      increasing order, and every non-empty piece is named. */
  ghost predicate IsOrigins<T>(p: seq<seq<T>>, flat: seq<T>, idx: seq<nat>) {
    && |idx| == |flat|
    && (forall i :: 0 <= i < |idx| ==> idx[i] < |p| && p[idx[i]] == [flat[i]])
    && (forall i, j :: 0 <= i < j < |idx| ==> idx[i] < idx[j])
    && (forall k :: 0 <= k < |p| && p[k] != [] ==> k in idx)
  }

  lemma OriginsSkip<T>(p: seq<seq<T>>, flat: seq<T>, idx: seq<nat>)
    requires p != [] && p[|p| - 1] == []
    requires IsOrigins(p[..|p| - 1], flat, idx)
    ensures IsOrigins(p, flat, idx)
  {
    forall k | 0 <= k < |p| && p[k] != []
      ensures k in idx
    {
      assert p[..|p| - 1][k] == p[k];
    }
  }

  lemma OriginsAppend<T>(p: seq<seq<T>>, flat: seq<T>, idx: seq<nat>, x: T)
    requires p != [] && p[|p| - 1] == [x]
    requires IsOrigins(p[..|p| - 1], flat, idx)
    ensures IsOrigins(p, flat + [x], idx + [|p| - 1])
  {
    var init := p[..|p| - 1];
    var idx', flat' := idx + [|p| - 1], flat + [x];
    forall i | 0 <= i < |idx'|
      ensures idx'[i] < |p| && p[idx'[i]] == [flat'[i]]
    {
      if i < |idx| {
        assert init[idx[i]] == p[idx[i]];
      }
    }
    forall k | 0 <= k < |p| && p[k] != []
      ensures k in idx'
    {
      if k < |p| - 1 {
        assert init[k] == p[k];
      }
    }
  }

  /** For pieces of at most one element each: the index of the piece every
      element of the concatenation comes from. */
  ghost function Origins<T>(p: seq<seq<T>>): (idx: seq<nat>)
    requires AtMostOne(p)
    ensures IsOrigins(p, Flatten(p), idx)
  {
    if p == [] then []
    else
      var init := p[..|p| - 1];
      var front := Origins(init);
      if p[|p| - 1] == [] then
        OriginsSkip(p, Flatten(init), front);
        front
      else
        var x := p[|p| - 1][0];
        assert p[|p| - 1] == [x];
        OriginsAppend(p, Flatten(init), front, x);
        front + [|p| - 1]
  }
}
