/** String primitives of the JavaScript runtime that the client relies on:
    String.prototype.split / Array.prototype.join with a one-character
    separator, Number.prototype.toString and parseInt for base-10 integers,
    ASCII case mapping, trim, substring search and truncation. */
module Text {
  import opened Wrappers

  /** A JavaScript number as produced by parseInt: an integer or NaN. */
  datatype Num = Int(v: int) | NaN {
    /** JavaScript truthiness of the number: 0 and NaN are falsy. */
    predicate Truthy() {
      Int? && v != 0
    }
  }

  // ---------------------------------------------------------------- split / join

  /** `xs.join(sep)`: the empty array joins to "", a single piece to itself. */
  function Join(xs: seq<string>, sep: char): (r: string)
    ensures xs == [] ==> r == ""
    ensures |xs| == 1 ==> r == xs[0]
  {
    if xs == [] then ""
    else if |xs| == 1 then xs[0]
    else xs[0] + [sep] + Join(xs[1..], sep)
  }

  /** Index of the first `c` in `s`, or |s| when there is none. */
  function IndexOf(s: string, c: char): (k: nat)
    ensures k <= |s|
    ensures forall i :: 0 <= i < k ==> s[i] != c
    ensures k < |s| ==> s[k] == c
  {
    if s == [] then 0
    else if s[0] == c then 0
    else 1 + IndexOf(s[1..], c)
  }

  /** `s.split(sep)`: always at least one piece; no piece contains `sep`. */
  function Split(s: string, sep: char): (r: seq<string>)
    ensures |r| >= 1
    ensures forall i :: 0 <= i < |r| ==> sep !in r[i]
    decreases |s|
  {
    var k := IndexOf(s, sep);
    if k == |s| then [s]
    else [s[..k]] + Split(s[k + 1..], sep)
  }

  predicate NoneContains(xs: seq<string>, sep: char) {
    forall i :: 0 <= i < |xs| ==> sep !in xs[i]
  }

  /** Splitting a join recovers the pieces, provided there is at least one
      piece and no piece contains the separator. */
  lemma {:induction false} SplitJoin(xs: seq<string>, sep: char)
    requires xs != []
    requires NoneContains(xs, sep)
    ensures Split(Join(xs, sep), sep) == xs
  {
    if |xs| == 1 {
      IndexOfAbsent(xs[0], sep);
    } else {
      SplitFirst(xs[0], Join(xs[1..], sep), sep);
      SplitJoin(xs[1..], sep);
    }
  }

  /** A piece free of the separator is split off the front. */
  lemma SplitFirst(p: string, rest: string, sep: char)
    requires sep !in p
    ensures Split(p + [sep] + rest, sep) == [p] + Split(rest, sep)
  {
    var s := p + [sep] + rest;
    IndexOfAfterPrefix(p, rest, sep);
    assert s[..|p|] == p;
    assert s[|p| + 1..] == rest;
  }

  /** A character found in no piece and different from the separator is
      absent from the join. */
  lemma {:induction false} JoinHasNo(xs: seq<string>, sep: char, c: char)
    requires c != sep && NoneContains(xs, c)
    ensures c !in Join(xs, sep)
  {
    if |xs| > 1 {
      JoinHasNo(xs[1..], sep, c);
      assert Join(xs, sep) == xs[0] + [sep] + Join(xs[1..], sep);
    }
  }

  lemma {:induction false} IndexOfAbsent(s: string, c: char)
    requires c !in s
    ensures IndexOf(s, c) == |s|
  {
    if s != [] {
      assert s[0] != c;
      IndexOfAbsent(s[1..], c);
    }
  }

  lemma {:induction false} IndexOfAfterPrefix(p: string, rest: string, c: char)
    requires c !in p
    ensures IndexOf(p + [c] + rest, c) == |p|
  {
    if p != [] {
      assert (p + [c] + rest)[1..] == p[1..] + [c] + rest;
      IndexOfAfterPrefix(p[1..], rest, c);
    }
  }

  // ---------------------------------------------------------------- integers

  predicate IsDigit(c: char) {
    '0' <= c <= '9'
  }

  function DigitChar(d: nat): (c: char)
    requires d < 10
    ensures IsDigit(c)
  {
    "0123456789"[d]
  }

  function DigitValue(c: char): (d: nat)
    requires IsDigit(c)
    ensures d < 10
  {
    c as int - '0' as int
  }

  /** Decimal digits of a natural number, most significant first, no leading zeros. */
  function NatToString(n: nat): (r: string)
    ensures r != []
    ensures forall i :: 0 <= i < |r| ==> IsDigit(r[i])
  {
    if n < 10 then [DigitChar(n)]
    else NatToString(n / 10) + [DigitChar(n % 10)]
  }

  /** `n.toString()` for an integer-valued JavaScript number. */
  function IntToString(n: int): (r: string)
    ensures r != []
  {
    if n < 0 then "-" + NatToString(-n) else NatToString(n)
  }

  /** Value of a string of decimal digits. */
  function DigitsValue(s: string): nat
    requires forall i :: 0 <= i < |s| ==> IsDigit(s[i])
  {
    if s == [] then 0
    else 10 * DigitsValue(s[..|s| - 1]) + DigitValue(s[|s| - 1])
  }

  /** Length of the longest prefix of `s` made of decimal digits. */
  function DigitRun(s: string): (k: nat)
    ensures k <= |s|
    ensures forall i :: 0 <= i < k ==> IsDigit(s[i])
    ensures k < |s| ==> !IsDigit(s[k])
  {
    if s == [] || !IsDigit(s[0]) then 0 else 1 + DigitRun(s[1..])
  }

  /** The white-space characters parseInt and trim skip (ASCII subset). */
  predicate IsSpace(c: char) {
    c == ' ' || c == '\t' || c == '\n' || c == '\r' || c == '\U{B}' || c == '\U{C}'
  }

  function SkipSpaces(s: string): (r: string)
    ensures |r| <= |s|
    ensures r == s[|s| - |r|..]
    ensures forall i :: 0 <= i < |s| - |r| ==> IsSpace(s[i])
    ensures r != [] ==> !IsSpace(r[0])
  {
    if s != [] && IsSpace(s[0]) then SkipSpaces(s[1..]) else s
  }

  /** `parseInt(s)` in base 10: leading white space is skipped, one optional
      sign is read, then the longest run of digits; NaN when that run is empty. */
  function ParseInt(s: string): (r: Num)
    ensures (forall i :: 0 <= i < |s| ==> !IsDigit(s[i])) ==> r == NaN
  {
    var t := SkipSpaces(s);
    var u := Unsigned(t);
    var k := DigitRun(u);
    assert (forall i :: 0 <= i < |s| ==> !IsDigit(s[i])) ==> k == 0 by {
      if forall i :: 0 <= i < |s| ==> !IsDigit(s[i]) {
        NoDigitNoRun(s);
      }
    }
    if k == 0 then NaN
    else
      var mag: int := DigitsValue(u[..k]);
      Int(if t != [] && t[0] == '-' then -mag else mag)
  }

  /** What follows an optional leading sign: a suffix of `t`. */
  function Unsigned(t: string): (u: string)
    ensures |u| <= |t| && u == t[|t| - |u|..]
  {
    if t != [] && (t[0] == '-' || t[0] == '+') then t[1..] else t
  }

  /** A text without digits leaves parseInt no digit run to read. */
  lemma NoDigitNoRun(s: string)
    requires forall i :: 0 <= i < |s| ==> !IsDigit(s[i])
    ensures DigitRun(Unsigned(SkipSpaces(s))) == 0
  {
    var u := Unsigned(SkipSpaces(s));
    if u != [] {
      assert u[0] == s[|s| - |u|];
    }
  }

  lemma {:induction false} DigitRunAll(s: string)
    requires forall i :: 0 <= i < |s| ==> IsDigit(s[i])
    ensures DigitRun(s) == |s|
  {
    if s != [] {
      DigitRunAll(s[1..]);
    }
  }

  lemma {:induction false} DigitsValueOfNat(n: nat)
    ensures DigitsValue(NatToString(n)) == n
  {
    var s := NatToString(n);
    if n >= 10 {
      assert s[..|s| - 1] == NatToString(n / 10);
      DigitsValueOfNat(n / 10);
    }
  }

  /** parseInt inverts toString on integers. */
  lemma ParseIntToString(n: int)
    ensures ParseInt(IntToString(n)) == Int(n)
  {
    var m: nat := if n < 0 then -n else n;
    var d := NatToString(m);
    var s := IntToString(n);
    assert SkipSpaces(s) == s by {
      assert s != [] && !IsSpace(s[0]);
    }
    assert Unsigned(s) == d;
    DigitRunAll(d);
    assert d[..|d|] == d;
    DigitsValueOfNat(m);
  }

  /** The decimal rendering of an integer never contains a separator such as ','. */
  lemma IntToStringHasNo(n: int, c: char)
    requires !IsDigit(c) && c != '-'
    ensures c !in IntToString(n)
  {
    var s := IntToString(n);
    var d := NatToString(if n < 0 then -n else n);
    assert forall i :: 0 <= i < |d| ==> d[i] != c;
  }

  // ---------------------------------------------------------------- case, trim, search

  /** `toLowerCase` on ASCII letters; other characters are unchanged. */
  function ToLower(s: string): (r: string)
    ensures |r| == |s|
    ensures forall i :: 0 <= i < |s| ==>
      r[i] == (if 'A' <= s[i] <= 'Z' then (s[i] as int + 32) as char else s[i])
  {
    if s == [] then ""
    else [if 'A' <= s[0] <= 'Z' then (s[0] as int + 32) as char else s[0]] + ToLower(s[1..])
  }

  /** `toUpperCase` on ASCII letters; other characters are unchanged. */
  function ToUpper(s: string): (r: string)
    ensures |r| == |s|
    ensures forall i :: 0 <= i < |s| ==>
      r[i] == (if 'a' <= s[i] <= 'z' then (s[i] as int - 32) as char else s[i])
  {
    if s == [] then ""
    else [if 'a' <= s[0] <= 'z' then (s[0] as int - 32) as char else s[0]] + ToUpper(s[1..])
  }

  /** `s.trim()`: white space removed at both ends; what was cut is all white space. */
  function Trim(s: string): (r: string)
    ensures |r| <= |s|
    ensures exists k :: SpacePadded(s, k, r)
    ensures r != [] ==> !IsSpace(r[0]) && !IsSpace(r[|r| - 1])
  {
    TrimPadded(s);
    TrimEnd(SkipSpaces(s))
  }

  lemma TrimPadded(s: string)
    ensures SpacePadded(s, |s| - |SkipSpaces(s)|, TrimEnd(SkipSpaces(s)))
  {
    PaddedBySteps(s, SkipSpaces(s), TrimEnd(SkipSpaces(s)));
  }

  /** Cutting white space at the front and then at the back leaves a text
      padded by white space only. */
  lemma PaddedBySteps(s: string, t: string, r: string)
    requires |t| <= |s| && t == s[|s| - |t|..]
    requires forall i :: 0 <= i < |s| - |t| ==> IsSpace(s[i])
    requires |r| <= |t| && r == t[..|r|]
    requires forall i :: |r| <= i < |t| ==> IsSpace(t[i])
    ensures SpacePadded(s, |s| - |t|, r)
  {
    var k := |s| - |t|;
    assert r == s[k..k + |r|];
    forall i | k + |r| <= i < |s|
      ensures IsSpace(s[i])
    {
      assert s[i] == t[i - k];
    }
  }

  /** `s` is `r` with only white space before (the first `k` characters) and after it. */
  predicate SpacePadded(s: string, k: int, r: string) {
    0 <= k <= |s| - |r| && r == s[k..k + |r|] &&
    (forall i :: 0 <= i < k ==> IsSpace(s[i])) &&
    (forall i :: k + |r| <= i < |s| ==> IsSpace(s[i]))
  }

  /** The back half of `trim`: white space removed at the end only. */
  function TrimEnd(s: string): (r: string)
    ensures |r| <= |s| && r == s[..|r|]
    ensures forall i :: |r| <= i < |s| ==> IsSpace(s[i])
    ensures r != [] ==> !IsSpace(r[|r| - 1])
    ensures r != [] && s != [] && !IsSpace(s[0]) ==> !IsSpace(r[0])
  {
    if s != [] && IsSpace(s[|s| - 1]) then TrimEnd(s[..|s| - 1]) else s
  }

  predicate StartsWith(s: string, prefix: string) {
    |prefix| <= |s| && s[..|prefix|] == prefix
  }

  /** `hay.includes(needle)`: `needle` occurs at some position of `hay`. */
  predicate Includes(hay: string, needle: string)
    decreases |hay|
  {
    StartsWith(hay, needle) || (hay != [] && Includes(hay[1..], needle))
  }

  /** A needle found at position k is included. */
  lemma {:induction false} IncludesAt(hay: string, needle: string, k: nat)
    requires k <= |hay| && StartsWith(hay[k..], needle)
    ensures Includes(hay, needle)
  {
    if k > 0 {
      assert hay[1..][k - 1..] == hay[k..];
      IncludesAt(hay[1..], needle, k - 1);
    }
  }

  // ---------------------------------------------------------------- optional form fields

  /** A request field filled from a numeric input only when the input is
      non-empty (`if (x) data.f = parseInt(x)`): present exactly then, and
      holding the input parsed. */
  predicate NumIfGiven(o: Option<Num>, input: string) {
    (o.Some? <==> input != "") && (o.Some? ==> o.value == ParseInt(input))
  }

  /** A request field filled from a text input only when the input is non-empty. */
  predicate TextIfGiven(o: Option<string>, input: string) {
    (o.Some? <==> input != "") && (o.Some? ==> o.value == input)
  }
}
