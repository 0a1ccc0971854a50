/** Python string operations the helpers and the sweep parser rely on:
    `str.split` with a one-character separator, `str.strip()`, and the
    decimal reading done by `int(...)`. */
module Strings {
  import opened Wrappers

  /** `s.split(sep)`: never empty, and "" splits into [""]. */
  function Split(s: string, sep: char): (pieces: seq<string>)
    ensures |pieces| >= 1
    ensures forall i :: 0 <= i < |pieces| ==> sep !in pieces[i]
    decreases |s|
  {
    if s == [] then [""]
    else
      var rest := Split(s[1..], sep);
      if s[0] == sep then [""] + rest
      else [[s[0]] + rest[0]] + rest[1..]
  }

  /** `sep.join(pieces)`, the inverse of Split. */
  function Join(pieces: seq<string>, sep: char): string
    requires |pieces| >= 1
  {
    if |pieces| == 1 then pieces[0] else pieces[0] + [sep] + Join(pieces[1..], sep)
  }

  lemma {:induction false} JoinSplit(s: string, sep: char)
    ensures Join(Split(s, sep), sep) == s
    decreases |s|
  {
    if s != [] {
      JoinSplit(s[1..], sep);
      var rest := Split(s[1..], sep);
      if s[0] != sep {
        if |rest| == 1 {
        } else {
          assert Join(rest, sep) == rest[0] + [sep] + Join(rest[1..], sep);
          assert ([s[0]] + rest[0]) + [sep] + Join(rest[1..], sep) == [s[0]] + Join(rest, sep);
        }
      }
    }
  }

  /** A piece free of the separator, followed by the separator, splits off as one piece. */
  lemma {:induction false} SplitPiece(p: string, sep: char, rest: string)
    requires sep !in p
    ensures Split(p + [sep] + rest, sep) == [p] + Split(rest, sep)
    decreases |p|
  {
    var s := p + [sep] + rest;
    if p == [] {
      assert s[1..] == rest;
    } else {
      assert s[1..] == p[1..] + [sep] + rest;
      assert sep !in p[1..] by { assert forall c :: c in p[1..] ==> c in p; }
      SplitPiece(p[1..], sep, rest);
      assert [p[0]] + p[1..] == p;
    }
  }

  /** A string free of the separator splits into itself. */
  lemma {:induction false} SplitNone(p: string, sep: char)
    requires sep !in p
    ensures Split(p, sep) == [p]
    decreases |p|
  {
    if p != [] {
      assert sep !in p[1..] by { assert forall c :: c in p[1..] ==> c in p; }
      SplitNone(p[1..], sep);
      assert [p[0]] + p[1..] == p;
    }
  }

  lemma {:induction false} SplitJoin(pieces: seq<string>, sep: char)
    requires |pieces| >= 1
    requires forall i :: 0 <= i < |pieces| ==> sep !in pieces[i]
    ensures Split(Join(pieces, sep), sep) == pieces
    decreases |pieces|
  {
    if |pieces| == 1 {
      SplitNone(pieces[0], sep);
    } else {
      SplitJoin(pieces[1..], sep);
      SplitPiece(pieces[0], sep, Join(pieces[1..], sep));
      assert [pieces[0]] + pieces[1..] == pieces;
    }
  }

  /** The characters `str.isspace()` accepts below U+0080. */
  predicate IsSpace(c: char)
  {
    c == ' ' || c == '\t' || c == '\n' || c == '\r' || c == '\U{0B}' || c == '\U{0C}'
    || c == '\U{1C}' || c == '\U{1D}' || c == '\U{1E}' || c == '\U{1F}'
  }

  /** The first index at or after `i` that does not hold white space (or |s|). */
  function SkipSpaces(s: string, i: nat): (k: nat)
    requires i <= |s|
    ensures i <= k <= |s| && (k == |s| || !IsSpace(s[k]))
    ensures forall m :: i <= m < k ==> IsSpace(s[m])
    decreases |s| - i
  {
    if i < |s| && IsSpace(s[i]) then SkipSpaces(s, i + 1) else i
  }

  /** The end of `s[lo..j]` once the white space at its end is dropped. */
  function SkipSpacesBack(s: string, lo: nat, j: nat): (k: nat)
    requires lo <= j <= |s|
    ensures lo <= k <= j && (k == lo || !IsSpace(s[k - 1]))
    ensures forall m :: k <= m < j ==> IsSpace(s[m])
    decreases j - lo
  {
    if lo < j && IsSpace(s[j - 1]) then SkipSpacesBack(s, lo, j - 1) else j
  }

  /** `s.strip()`: the slice of `s` left after removing the surrounding white space. Only
      white space is cut off, and no white space is left at either end. */
  function Strip(s: string): (r: string)
    ensures exists i, j ::
      && 0 <= i <= j <= |s| && r == s[i..j]
      && (forall k :: 0 <= k < i ==> IsSpace(s[k]))
      && (forall k :: j <= k < |s| ==> IsSpace(s[k]))
    ensures r == [] || (!IsSpace(r[0]) && !IsSpace(r[|r| - 1]))
  {
    var i := SkipSpaces(s, 0);
    var j := SkipSpacesBack(s, i, |s|);
    s[i..j]
  }

  predicate IsDigit(c: char) { '0' <= c <= '9' }

  /** Non-empty and made of ASCII decimal digits only. */
  predicate IsDecimal(s: string)
  {
    |s| > 0 && forall i :: 0 <= i < |s| ==> IsDigit(s[i])
  }

  function DigitValue(c: char): nat
    requires IsDigit(c)
  {
    c as int - '0' as int
  }

  /** The value of a decimal numeral, leading zeros allowed. */
  function DecimalValue(s: string): nat
    requires forall i :: 0 <= i < |s| ==> IsDigit(s[i])
  {
    if s == [] then 0 else 10 * DecimalValue(s[..|s| - 1]) + DigitValue(s[|s| - 1])
  }

  /** `str(n)` for a natural number. */
  function Decimal(n: nat): (s: string)
    ensures IsDecimal(s)
  {
    if n < 10 then ['0' + n as char]
    else Decimal(n / 10) + ['0' + (n % 10) as char]
  }

  lemma {:induction false} DecimalRoundTrip(n: nat)
    ensures DecimalValue(Decimal(n)) == n
  {
    if n >= 10 {
      DecimalRoundTrip(n / 10);
      var s := Decimal(n);
      assert s[..|s| - 1] == Decimal(n / 10);
    }
  }

  /** The part of `s` that `int()` reads as digits: the white space around it and one
      leading `+` sign are dropped. */
  function Numeral(s: string): (t: string)
    ensures |t| <= |s|
  {
    var core := Strip(s);
    if |core| > 0 && core[0] == '+' then core[1..] else core
  }

  /** White space on either side of a word that neither starts nor ends with white space is
      exactly what `strip()` removes. */
  lemma StripAround(pre: string, word: string, post: string)
    requires forall k :: 0 <= k < |pre| ==> IsSpace(pre[k])
    requires forall k :: 0 <= k < |post| ==> IsSpace(post[k])
    requires |word| > 0 && !IsSpace(word[0]) && !IsSpace(word[|word| - 1])
    ensures Strip(pre + word + post) == word
  {
    var s := pre + word + post;
    var n := |pre| + |word|;
    assert forall m :: 0 <= m < |pre| ==> s[m] == pre[m];
    assert forall m :: n <= m < |s| ==> s[m] == post[m - n];
    assert s[|pre|] == word[0] && s[n - 1] == word[|word| - 1];
    var i := SkipSpaces(s, 0);
    assert i == |pre|;
    var j := SkipSpacesBack(s, i, |s|);
    assert j == n;
    assert s[i..j] == word;
  }

  /** A plain decimal numeral is its own numeral: nothing around it is dropped. */
  lemma NumeralOfDecimal(s: string)
    requires IsDecimal(s)
    ensures Numeral(s) == s
  {
    StripAround([], s, []);
    assert [] + s + [] == s;
  }

  /** `int()` reads a decimal numeral surrounded by white space as the numeral. */
  lemma NumeralPadded(pre: string, d: string, post: string)
    requires forall k :: 0 <= k < |pre| ==> IsSpace(pre[k])
    requires forall k :: 0 <= k < |post| ==> IsSpace(post[k])
    requires IsDecimal(d)
    ensures Numeral(pre + d + post) == d
  {
    assert IsDigit(d[0]) && IsDigit(d[|d| - 1]);
    StripAround(pre, d, post);
  }

  /** `int()` reads a decimal numeral after one `+` sign as the numeral. */
  lemma NumeralSigned(d: string)
    requires IsDecimal(d)
    ensures Numeral("+" + d) == d
  {
    var signed := "+" + d;
    assert signed[0] == '+' && signed[|signed| - 1] == d[|d| - 1];
    StripAround([], signed, []);
    assert [] + signed + [] == signed;
    assert signed[1..] == d;
  }

  /** `int(s)` for a natural number: white space around the digits and a leading `+` are
      accepted; None stands for the ValueError. */
  function ParseNat(s: string): (r: Option<nat>)
    ensures r.Some? <==> IsDecimal(Numeral(s))
    ensures r.Some? ==> r.value == DecimalValue(Numeral(s))
  {
    var t := Numeral(s);
    if IsDecimal(t) then Some(DecimalValue(t)) else None
  }

}
