/**
 * The string operations corrupttest relies on: decimal rendering of integers
 * (Rust's `to_string`), joining with a separator, ASCII lower-casing and
 * substring search. Parsers beside them are the inverses used to state what
 * the rendered text denotes.
 */
module Text {
  import opened Wrappers

  predicate IsDigit(c: char) {
    '0' <= c <= '9'
  }

  function DigitChar(d: nat): (c: char)
    requires d < 10
    ensures IsDigit(c)
  {
    "0123456789"[d]
  }

  /** Decimal text of `n`, most significant digit first, no leading zeros. */
  function NatText(n: nat): (s: string)
    ensures |s| > 0
    ensures forall i :: 0 <= i < |s| ==> IsDigit(s[i])
    ensures |s| > 1 ==> s[0] != '0'
    decreases n
  {
    if n < 10 then [DigitChar(n)] else NatText(n / 10) + [DigitChar(n % 10)]
  }

  /** The value of a string of decimal digits. */
  function DigitsValue(s: string): nat
    requires forall i :: 0 <= i < |s| ==> IsDigit(s[i])
  {
    if s == [] then 0
    else
      var last := s[|s| - 1];
      assert IsDigit(last);
      DigitsValue(s[..|s| - 1]) * 10 + (last as int - '0' as int)
  }

  lemma {:induction false} NatTextRoundTrip(n: nat)
    ensures DigitsValue(NatText(n)) == n
    decreases n
  {
    var s := NatText(n);
    if n >= 10 {
      NatTextRoundTrip(n / 10);
      assert s[..|s| - 1] == NatText(n / 10);
    }
  }

  lemma NatTextInjective(m: nat, n: nat)
    requires NatText(m) == NatText(n)
    ensures m == n
  {
    NatTextRoundTrip(m);
    NatTextRoundTrip(n);
  }

  /** Decimal text of a signed integer, with a leading '-' when negative (`i64::to_string`). */
  function IntText(i: int): (s: string)
    ensures |s| > 0 && (IsDigit(s[0]) || s[0] == '-')
  {
    if i < 0 then "-" + NatText(-i) else NatText(i)
  }

  predicate AllDigits(s: string) {
    forall i :: 0 <= i < |s| ==> IsDigit(s[i])
  }

  /** Reads back what `IntText` writes. */
  function ParseInt(s: string): Option<int> {
    if |s| > 0 && AllDigits(s) then Some(DigitsValue(s) as int)
    else if |s| > 1 && s[0] == '-' && AllDigits(s[1..]) then Some(-(DigitsValue(s[1..]) as int))
    else None
  }

  lemma ParseNatText(n: nat)
    ensures ParseInt(NatText(n)) == Some(n as int)
  {
    assert AllDigits(NatText(n));
    NatTextRoundTrip(n);
  }

  lemma ParseNegatedNatText(n: nat)
    requires n > 0
    ensures ParseInt("-" + NatText(n)) == Some(-(n as int))
  {
    var s := "-" + NatText(n);
    assert s[1..] == NatText(n);
    assert !AllDigits(s) by {
      assert !IsDigit(s[0]);
    }
    NatTextRoundTrip(n);
  }

  /** `ParseInt` reads back every integer `IntText` writes. */
  lemma IntTextRoundTrip(i: int)
    ensures ParseInt(IntText(i)) == Some(i)
  {
    if i < 0 {
      var s := "-" + NatText(-i);
      assert IntText(i) == s;
      ParseNegatedNatText(-i);
    } else {
      var s := NatText(i);
      assert IntText(i) == s;
      ParseNatText(i);
    }
  }

  /** `parts` joined with `sep` between consecutive parts (Rust's `join`). */
  function Join(sep: string, parts: seq<string>): string {
    if |parts| == 0 then ""
    else if |parts| == 1 then parts[0]
    else Join(sep, parts[..|parts| - 1]) + sep + parts[|parts| - 1]
  }

  lemma JoinSnoc(sep: string, parts: seq<string>, last: string)
    ensures Join(sep, parts + [last]) == if parts == [] then last else Join(sep, parts) + sep + last
  {
    assert (parts + [last])[..|parts|] == parts;
  }

  /** The pieces of `s` between occurrences of `c`; always at least one piece. */
  function Split(s: string, c: char): (parts: seq<string>)
    ensures |parts| > 0
  {
    if s == [] then [""]
    else
      var rest := Split(s[1..], c);
      if s[0] == c then [""] + rest else [[s[0]] + rest[0]] + rest[1..]
  }

  lemma {:induction false} SplitWithout(s: string, c: char)
    requires c !in s
    ensures Split(s, c) == [s]
  {
    if s != [] {
      SplitWithout(s[1..], c);
      assert [s[0]] + s[1..] == s;
    }
  }

  /** One step of `Split`, on a string that starts with the separator. */
  lemma SplitConsSeparator(t: string, c: char)
    ensures Split([c] + t, c) == [""] + Split(t, c)
  {
    var s := [c] + t;
    assert s[0] == c && s[1..] == t;
  }

  /** One step of `Split`, on a string that starts with another character. */
  lemma SplitConsOther(h: char, t: string, c: char)
    requires h != c
    ensures Split([h] + t, c) == [[h] + Split(t, c)[0]] + Split(t, c)[1..]
  {
    var s := [h] + t;
    assert s[0] == h && s[1..] == t;
  }

  lemma ExtendFirst(p: string, xs: seq<string>, ys: seq<string>)
    requires |xs| > 0
    ensures [p + (xs + ys)[0]] + (xs + ys)[1..] == ([p + xs[0]] + xs[1..]) + ys
  {
    assert (xs + ys)[1..] == xs[1..] + ys;
  }

  lemma {:induction false} SplitAt(x: string, c: char, y: string)
    ensures Split(x + [c] + y, c) == Split(x, c) + Split(y, c)
    decreases |x|
  {
    if x == [] {
      SplitConsSeparator(y, c);
      assert x + [c] + y == [c] + y;
    } else {
      var t := x[1..];
      SplitAt(t, c, y);
      assert x + [c] + y == [x[0]] + (t + [c] + y);
      assert x == [x[0]] + t;
      if x[0] == c {
        SplitConsSeparator(t + [c] + y, c);
        SplitConsSeparator(t, c);
      } else {
        SplitConsOther(x[0], t + [c] + y, c);
        SplitConsOther(x[0], t, c);
        ExtendFirst([x[0]], Split(t, c), Split(y, c));
      }
    }
  }

  /** Splitting undoes joining, as long as no part contains the separator. */
  lemma {:induction false} SplitJoin(parts: seq<string>, c: char)
    requires |parts| > 0
    requires forall k :: 0 <= k < |parts| ==> c !in parts[k]
    ensures Split(Join([c], parts), c) == parts
  {
    if |parts| == 1 {
      SplitWithout(parts[0], c);
    } else {
      var init := parts[..|parts| - 1];
      var last := parts[|parts| - 1];
      SplitJoin(init, c);
      SplitWithout(last, c);
      SplitAt(Join([c], init), c, last);
      assert Join([c], parts) == Join([c], init) + [c] + last;
      assert init + [last] == parts;
    }
  }

  /** Each part preceded by the separator. */
  function Concat(sep: string, parts: seq<string>): string {
    if parts == [] then "" else Concat(sep, parts[..|parts| - 1]) + sep + parts[|parts| - 1]
  }

  /** Joining a longer list continues the join with each further part after a separator. */
  lemma {:induction false} JoinAppend(sep: string, parts: seq<string>, more: seq<string>)
    requires |parts| > 0
    ensures Join(sep, parts + more) == Join(sep, parts) + Concat(sep, more)
  {
    if more == [] {
      assert parts + more == parts;
    } else {
      var init := more[..|more| - 1];
      var last := more[|more| - 1];
      JoinAppend(sep, parts, init);
      assert parts + more == (parts + init) + [last];
      JoinSnoc(sep, parts + init, last);
      var j := Join(sep, parts);
      var c := Concat(sep, init);
      assert Join(sep, parts + more) == (j + c) + sep + last;
      assert Concat(sep, more) == c + sep + last;
      assert (j + c) + sep + last == j + (c + sep + last);
    }
  }

  /** Appending three pieces one by one to `a` appends their concatenation, as the push loops do. */
  lemma AppendPiecesThree(a: string, b: string, c: string, d: string)
    ensures a + b + c + d == a + (b + c + d)
  {
  }

  /** The same for the five pieces of an index clause. */
  lemma AppendPiecesFive(a: string, b: string, c: string, d: string, e: string, f: string)
    ensures a + b + c + d + e + f == a + (b + c + d + e + f)
  {
  }

  function LowerChar(c: char): char {
    if 'A' <= c <= 'Z' then (c as int + 32) as char else c
  }

  /** ASCII lower-casing, character by character. */
  function Lower(s: string): (r: string)
    ensures |r| == |s|
    ensures forall i :: 0 <= i < |s| ==> r[i] == LowerChar(s[i])
  {
    seq(|s|, i requires 0 <= i < |s| => LowerChar(s[i]))
  }

  lemma LowerIdempotent(s: string)
    ensures Lower(Lower(s)) == Lower(s)
  {
  }

  lemma LowerConcat(a: string, b: string)
    ensures Lower(a + b) == Lower(a) + Lower(b)
  {
  }

  /** Whether `sub` occurs in `s` at some position. */
  function Contains(s: string, sub: string): bool
    decreases |s|
  {
    if |s| < |sub| then false
    else s[..|sub|] == sub || Contains(s[1..], sub)
  }

  /** `sub` occurs in `s` starting at position `i`. */
  predicate OccursAt(s: string, sub: string, i: int) {
    0 <= i && i + |sub| <= |s| && s[i..i + |sub|] == sub
  }

  /** The search finds `sub` exactly when it occurs at some position. */
  lemma {:induction false} ContainsIff(s: string, sub: string)
    ensures Contains(s, sub) <==> exists i :: OccursAt(s, sub, i)
    decreases |s|
  {
    if |s| >= |sub| && s[..|sub|] == sub {
      assert OccursAt(s, sub, 0);
    } else if |s| >= |sub| {
      var t := s[1..];
      ContainsIff(t, sub);
      if Contains(t, sub) {
        var j :| OccursAt(t, sub, j);
        assert t[j..j + |sub|] == s[j + 1..j + 1 + |sub|];
        assert OccursAt(s, sub, j + 1);
      }
      if i :| OccursAt(s, sub, i) {
        assert i != 0;
        assert t[i - 1..i - 1 + |sub|] == s[i..i + |sub|];
        assert OccursAt(t, sub, i - 1);
      }
    }
  }

  lemma {:induction false} ContainsLength(s: string, sub: string)
    requires Contains(s, sub)
    ensures |sub| <= |s|
  {
  }

  lemma {:induction false} ContainsAppend(s: string, sub: string, t: string)
    requires Contains(s, sub)
    ensures Contains(s + t, sub)
    decreases |s|
  {
    assert (s + t)[..|sub|] == s[..|sub|];
    if s[..|sub|] != sub {
      ContainsAppend(s[1..], sub, t);
      assert (s + t)[1..] == s[1..] + t;
    }
  }

  lemma {:induction false} ContainsPrepend(p: string, s: string, sub: string)
    requires Contains(s, sub)
    ensures Contains(p + s, sub)
    decreases |p|
  {
    ContainsLength(s, sub);
    if p == [] {
      assert p + s == s;
    } else {
      ContainsPrepend(p[1..], s, sub);
      assert (p + s)[1..] == p[1..] + s;
    }
  }
}
