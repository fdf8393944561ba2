/**
 * The part of Python's `str` that the assistant's code relies on, over
 * `seq<char>`: `strip()` and `strip(chars)`, `upper()` and `lower()`, the
 * `in` substring test, `startswith`, `split(c)` on one character, `sep.join`,
 * and the decimal conversions `str(n)` and `int(s)`.
 */
module Strings {
  import opened Wrappers

  /** `str.isspace()` of one character over ASCII: tab, line feed, vertical
      tab, form feed, carriage return, the separators 0x1C-0x1F and space. */
  predicate IsSpace(c: char) {
    (9 <= c as int <= 13) || (28 <= c as int <= 32)
  }

  // ---------------------------------------------------------------------------
  // Stripping
  // ---------------------------------------------------------------------------

  /** The number of leading characters of `s` that satisfy `drop`. */
  function Lead(s: string, drop: char -> bool): (k: nat)
    ensures k <= |s|
    decreases |s|
  {
    if s != [] && drop(s[0]) then 1 + Lead(s[1..], drop) else 0
  }

  /** Lead counts a run of dropped characters that is followed by a kept
      one or by the end. */
  lemma {:induction false} LeadFacts(s: string, drop: char -> bool)
    ensures var k := Lead(s, drop);
            (forall i :: 0 <= i < k ==> drop(s[i])) && (k == |s| || !drop(s[k]))
    decreases |s|
  {
    if s != [] && drop(s[0]) {
      LeadFacts(s[1..], drop);
    }
  }

  /** The number of trailing characters of `s` that satisfy `drop`. */
  function Trail(s: string, drop: char -> bool): (k: nat)
    ensures k <= |s|
    decreases |s|
  {
    if s != [] && drop(s[|s| - 1]) then 1 + Trail(s[..|s| - 1], drop) else 0
  }

  /** Trail counts a run of dropped characters that is preceded by a kept
      one or by the start. */
  lemma {:induction false} TrailFacts(s: string, drop: char -> bool)
    ensures var k := Trail(s, drop);
            (forall i :: |s| - k <= i < |s| ==> drop(s[i])) && (k == |s| || !drop(s[|s| - 1 - k]))
    decreases |s|
  {
    if s != [] && drop(s[|s| - 1]) {
      TrailFacts(s[..|s| - 1], drop);
    }
  }

  /** Drops the characters satisfying `drop` at both ends (see
      `StripByFacts`). */
  function StripBy(s: string, drop: char -> bool): (r: string)
    ensures |r| <= |s|
  {
    var a := Lead(s, drop);
    var t := s[a..];
    t[..|t| - Trail(t, drop)]
  }

  /** The stripped text is the slice of `s` from its first kept character
      to its last kept one. */
  lemma StripByFacts(s: string, drop: char -> bool)
    ensures var r := StripBy(s, drop);
            && Lead(s, drop) + |r| <= |s|
            && r == s[Lead(s, drop)..Lead(s, drop) + |r|]
            && (r == [] || (!drop(r[0]) && !drop(r[|r| - 1])))
            && (forall i :: 0 <= i < Lead(s, drop) ==> drop(s[i]))
            && (forall i :: Lead(s, drop) + |r| <= i < |s| ==> drop(s[i]))
  {
    var a := Lead(s, drop);
    var t := s[a..];
    var b := Trail(t, drop);
    LeadFacts(s, drop);
    TrailFacts(t, drop);
    assert forall i :: a + |t| - b <= i < |s| ==> s[i] == t[i - a];
  }

  /** `s.strip()` */
  function Strip(s: string): string {
    StripBy(s, IsSpace)
  }

  /** Stripping only removes characters: what is left was in `s`. */
  lemma StripKeepsChars(s: string)
    ensures forall i :: 0 <= i < |Strip(s)| ==> Strip(s)[i] in s
  {
    StripByFacts(s, IsSpace);
    var a := Lead(s, IsSpace);
    forall i | 0 <= i < |Strip(s)|
      ensures Strip(s)[i] in s
    {
      assert Strip(s)[i] == s[a + i];
    }
  }

  /** `s.strip(c)` for a one-character argument. */
  function StripChar(s: string, c: char): string {
    StripBy(s, x => x == c)
  }

  /** Lead is determined by its contract. */
  lemma {:induction false} LeadUnique(s: string, drop: char -> bool, k: nat)
    requires k <= |s| && (forall i :: 0 <= i < k ==> drop(s[i])) && (k == |s| || !drop(s[k]))
    ensures Lead(s, drop) == k
    decreases |s|
  {
    if k > 0 {
      LeadUnique(s[1..], drop, k - 1);
    }
  }

  /** Trail is determined by its contract. */
  lemma {:induction false} TrailUnique(s: string, drop: char -> bool, k: nat)
    requires k <= |s| && (forall i :: |s| - k <= i < |s| ==> drop(s[i]))
    requires k == |s| || !drop(s[|s| - 1 - k])
    ensures Trail(s, drop) == k
    decreases |s|
  {
    if k > 0 {
      TrailUnique(s[..|s| - 1], drop, k - 1);
    }
  }

  /** Stripping twice is stripping once. */
  lemma {:induction false} StripIdempotent(s: string)
    ensures Strip(Strip(s)) == Strip(s)
  {
    var r := Strip(s);
    StripByFacts(s, IsSpace);
    LeadUnique(r, IsSpace, 0);
    TrailUnique(r[0..], IsSpace, 0);
  }

  /** Text with no white space at either end is its own strip. */
  lemma StripUnpadded(s: string)
    requires s == [] || (!IsSpace(s[0]) && !IsSpace(s[|s| - 1]))
    ensures Strip(s) == s
  {
    LeadUnique(s, IsSpace, 0);
    TrailUnique(s[0..], IsSpace, 0);
  }

  // ---------------------------------------------------------------------------
  // Case mapping (ASCII letters only)
  // ---------------------------------------------------------------------------

  function UpperChar(c: char): char {
    if 'a' <= c <= 'z' then (c as int - 32) as char else c
  }

  function LowerChar(c: char): char {
    if 'A' <= c <= 'Z' then (c as int + 32) as char else c
  }

  function MapChars(f: char -> char, s: string): (r: string)
    ensures |r| == |s|
    ensures forall i :: 0 <= i < |s| ==> r[i] == f(s[i])
  {
    seq(|s|, i requires 0 <= i < |s| => f(s[i]))
  }

  /** `s.upper()` */
  function Upper(s: string): string {
    MapChars(UpperChar, s)
  }

  /** `s.lower()` */
  function Lower(s: string): string {
    MapChars(LowerChar, s)
  }

  /** Upper-casing forgets the case the text had. */
  lemma UpperOfLower(s: string)
    ensures Upper(Lower(s)) == Upper(s)
  {
  }

  /** Character mappings that keep white space white preserve Lead. */
  lemma {:induction false} LeadMap(s: string, f: char -> char)
    requires forall i :: 0 <= i < |s| ==> IsSpace(f(s[i])) == IsSpace(s[i])
    ensures Lead(MapChars(f, s), IsSpace) == Lead(s, IsSpace)
  {
    var m := MapChars(f, s);
    var a := Lead(s, IsSpace);
    LeadFacts(s, IsSpace);
    assert forall i :: 0 <= i < a ==> IsSpace(m[i]);
    LeadUnique(m, IsSpace, a);
  }

  /** Character mappings that keep white space white preserve Trail. */
  lemma {:induction false} TrailMap(s: string, f: char -> char)
    requires forall i :: 0 <= i < |s| ==> IsSpace(f(s[i])) == IsSpace(s[i])
    ensures Trail(MapChars(f, s), IsSpace) == Trail(s, IsSpace)
  {
    var m := MapChars(f, s);
    var b := Trail(s, IsSpace);
    TrailFacts(s, IsSpace);
    assert forall i :: |s| - b <= i < |s| ==> IsSpace(m[i]);
    TrailUnique(m, IsSpace, b);
  }

  /** A character mapping that keeps white space white commutes with strip. */
  lemma {:induction false} StripMap(s: string, f: char -> char)
    requires forall i :: 0 <= i < |s| ==> IsSpace(f(s[i])) == IsSpace(s[i])
    ensures Strip(MapChars(f, s)) == MapChars(f, Strip(s))
  {
    var m := MapChars(f, s);
    LeadMap(s, f);
    var a := Lead(s, IsSpace);
    var t, u := s[a..], m[a..];
    assert u == MapChars(f, t);
    TrailMap(t, f);
    var b := Trail(t, IsSpace);
    assert u[..|u| - b] == MapChars(f, t[..|t| - b]);
  }

  /** `s.strip().upper()` equals `s.upper().strip()`. */
  lemma StripUpper(s: string)
    ensures Strip(Upper(s)) == Upper(Strip(s))
  {
    StripMap(s, UpperChar);
  }

  /** `s.strip().lower()` equals `s.lower().strip()`. */
  lemma StripLower(s: string)
    ensures Strip(Lower(s)) == Lower(Strip(s))
  {
    StripMap(s, LowerChar);
  }

  // ---------------------------------------------------------------------------
  // Substrings
  // ---------------------------------------------------------------------------

  /** `pat` occurs in `s` starting at index `i`. */
  predicate OccursAt(s: string, pat: string, i: int) {
    0 <= i && i + |pat| <= |s| && s[i..i + |pat|] == pat
  }

  /** `s.find(pat, from)`, with None for -1. */
  function IndexOf(s: string, pat: string, from: nat): (r: Option<nat>)
    ensures r.Some? ==> from <= r.value && OccursAt(s, pat, r.value)
    ensures forall i :: from <= i && (r.None? || i < r.value) ==> !OccursAt(s, pat, i)
    decreases |s| - from
  {
    if from + |pat| > |s| then None
    else if s[from..from + |pat|] == pat then Some(from)
    else IndexOf(s, pat, from + 1)
  }

  /** `pat in s` */
  predicate Contains(s: string, pat: string) {
    exists i :: 0 <= i <= |s| && OccursAt(s, pat, i)
  }

  /** `s.find(pat)` succeeds exactly when `pat in s`. */
  lemma IndexOfContains(s: string, pat: string)
    ensures Contains(s, pat) <==> IndexOf(s, pat, 0).Some?
  {
  }

  /** `s.startswith(p)` */
  predicate StartsWith(s: string, p: string) {
    |p| <= |s| && s[..|p|] == p
  }


  /** The position of the first of `keys` that occurs in `text`, if any. */
  function FirstContained(keys: seq<string>, text: string): (r: Option<nat>)
    ensures r.Some? ==> r.value < |keys| && Contains(text, keys[r.value])
    ensures forall j :: 0 <= j < |keys| && (r.None? || j < r.value) ==> !Contains(text, keys[j])
    decreases |keys|
  {
    if |keys| == 0 then None
    else if Contains(text, keys[0]) then Some(0)
    else match FirstContained(keys[1..], text)
      case None => None
      case Some(i) => Some(i + 1)
  }

  // ---------------------------------------------------------------------------
  // Join and split
  // ---------------------------------------------------------------------------

  /** `sep.join(xs)` */
  function Join(sep: string, xs: seq<string>): string {
    if |xs| == 0 then ""
    else if |xs| == 1 then xs[0]
    else xs[0] + sep + Join(sep, xs[1..])
  }

  /** Joining one more piece appends the separator and the piece. */
  lemma {:induction false} JoinAppend(sep: string, xs: seq<string>, x: string)
    requires |xs| >= 1
    ensures Join(sep, xs + [x]) == Join(sep, xs) + sep + x
    decreases |xs|
  {
    if |xs| == 1 {
      assert (xs + [x])[1..] == [x];
    } else {
      assert (xs + [x])[1..] == xs[1..] + [x];
      JoinAppend(sep, xs[1..], x);
    }
  }

  /** Where the i-th piece starts in `Join(sep, xs)`. */
  function JoinOffset(sep: string, xs: seq<string>, i: nat): nat
    requires i < |xs|
    decreases i
  {
    if i == 0 then 0 else |xs[0]| + |sep| + JoinOffset(sep, xs[1..], i - 1)
  }

  /** Piece `i` of a join sits at its offset, followed by one separator
      and the next piece, or by the end of the text. */
  predicate PieceAt(sep: string, xs: seq<string>, i: nat)
    requires i < |xs|
  {
    var o := JoinOffset(sep, xs, i);
    var e := o + |xs[i]|;
    var j := Join(sep, xs);
    && e <= |j| && j[o..e] == xs[i]
    && (i + 1 < |xs| ==> e + |sep| <= |j| && j[e..e + |sep|] == sep && JoinOffset(sep, xs, i + 1) == e + |sep|)
    && (i + 1 == |xs| ==> e == |j|)
  }

  /** The layout of a join: the pieces in their order, the first at the
      start, the last at the end, and exactly one separator between two
      neighbours. */
  lemma {:induction false} JoinPieceAt(sep: string, xs: seq<string>, i: nat)
    requires i < |xs|
    ensures PieceAt(sep, xs, i)
    decreases i
  {
    if i == 0 {
      JoinPieceFirst(sep, xs);
    } else {
      JoinPieceAt(sep, xs[1..], i - 1);
      JoinPieceLater(sep, xs, i);
    }
  }

  /** The first piece starts the join. */
  lemma JoinPieceFirst(sep: string, xs: seq<string>)
    requires 0 < |xs|
    ensures PieceAt(sep, xs, 0)
  {
    if |xs| == 1 {
      assert Join(sep, xs) == xs[0];
    } else {
      var rest := Join(sep, xs[1..]);
      assert Join(sep, xs) == xs[0] + sep + rest;
      JoinHead(xs[0], sep, rest);
      assert JoinOffset(sep, xs, 1) == |xs[0]| + |sep| + JoinOffset(sep, xs[1..], 0);
    }
  }

  /** A later piece sits where it sits in the join of the tail, shifted by
      the first piece and one separator. */
  lemma JoinPieceLater(sep: string, xs: seq<string>, i: nat)
    requires 0 < i < |xs| && PieceAt(sep, xs[1..], i - 1)
    ensures PieceAt(sep, xs, i)
  {
    var tail := xs[1..];
    var rest := Join(sep, tail);
    assert Join(sep, xs) == xs[0] + sep + rest;
    assert tail[i - 1] == xs[i];
    var o := JoinOffset(sep, tail, i - 1);
    assert JoinOffset(sep, xs, i) == |xs[0] + sep| + o;
    var e := o + |xs[i]|;
    JoinShift(xs[0] + sep, rest, o, e);
    if i + 1 < |xs| {
      assert JoinOffset(sep, xs, i + 1) == |xs[0] + sep| + JoinOffset(sep, tail, i);
      JoinShift(xs[0] + sep, rest, e, e + |sep|);
    }
  }

  /** The head and the separator of `x + sep + rest`. */
  lemma JoinHead(x: string, sep: string, rest: string)
    ensures (x + sep + rest)[..|x|] == x
    ensures (x + sep + rest)[|x|..|x| + |sep|] == sep
  {
  }

  /** A slice of the tail of `p + rest`. */
  lemma JoinShift(p: string, rest: string, a: nat, b: nat)
    requires a <= b <= |rest|
    ensures (p + rest)[|p| + a..|p| + b] == rest[a..b]
  {
  }

  /** `s.split(c)` for a one-character separator: the maximal pieces of `s`
      between occurrences of `c`, always at least one. */
  function Split(s: string, c: char): (r: seq<string>)
    ensures |r| >= 1
    ensures forall k :: 0 <= k < |r| ==> c !in r[k]
    decreases |s|
  {
    if s == [] then [""]
    else
      var rest := Split(s[1..], c);
      if s[0] == c then [""] + rest else [[s[0]] + rest[0]] + rest[1..]
  }

  /** Joining the pieces of a split with the separator gives back the text. */
  lemma {:induction false} JoinSplit(s: string, c: char)
    ensures Join([c], Split(s, c)) == s
    decreases |s|
  {
    if s != [] {
      var rest := Split(s[1..], c);
      JoinSplit(s[1..], c);
      if s[0] == c {
        assert ([""] + rest)[1..] == rest;
      } else if |rest| > 1 {
        var r := [[s[0]] + rest[0]] + rest[1..];
        assert r[1..] == rest[1..];
        assert Join([c], rest) == rest[0] + [c] + Join([c], rest[1..]);
      }
    }
  }

  lemma {:induction false} SplitNoSeparator(x: string, c: char)
    requires c !in x
    ensures Split(x, c) == [x]
    decreases |x|
  {
    if x != [] {
      SplitNoSeparator(x[1..], c);
      assert [x[0]] + x[1..] == x;
    }
  }

  lemma {:induction false} SplitAfterPiece(x: string, c: char, t: string)
    requires c !in x
    ensures Split(x + [c] + t, c) == [x] + Split(t, c)
    decreases |x|
  {
    if x == [] {
      assert ([c] + t)[1..] == t;
    } else {
      var s := x + [c] + t;
      assert s[0] == x[0] && s[1..] == x[1..] + [c] + t;
      SplitAfterPiece(x[1..], c, t);
      assert [x[0]] + x[1..] == x;
    }
  }

  /** Splitting a join undoes it when no piece contains the separator. */
  lemma {:induction false} SplitJoin(xs: seq<string>, c: char)
    requires |xs| >= 1
    requires forall k :: 0 <= k < |xs| ==> c !in xs[k]
    ensures Split(Join([c], xs), c) == xs
    decreases |xs|
  {
    if |xs| == 1 {
      SplitNoSeparator(xs[0], c);
    } else {
      SplitJoin(xs[1..], c);
      SplitAfterPiece(xs[0], c, Join([c], xs[1..]));
    }
  }

  // ---------------------------------------------------------------------------
  // Decimal numbers
  // ---------------------------------------------------------------------------

  predicate IsDigit(c: char) {
    '0' <= c <= '9'
  }

  predicate AllDigits(s: string) {
    forall i :: 0 <= i < |s| ==> IsDigit(s[i])
  }

  function DigitChar(d: nat): (c: char)
    requires d < 10
    ensures IsDigit(c) && c as int - '0' as int == d
  {
    ('0' as int + d) as char
  }

  /** `str(n)` for a natural number: decimal digits, no leading zeros. */
  function NatToString(n: nat): (r: string)
    ensures |r| >= 1 && AllDigits(r)
    decreases n
  {
    if n < 10 then [DigitChar(n)] else NatToString(n / 10) + [DigitChar(n % 10)]
  }

  /** `str(n)` for an integer. */
  function IntToString(n: int): string {
    if n < 0 then "-" + NatToString(-n) else NatToString(n)
  }

  /** The value of a string of decimal digits. */
  function DigitsValue(s: string): nat
    requires AllDigits(s)
  {
    if s == [] then 0 else DigitsValue(s[..|s| - 1]) * 10 + (s[|s| - 1] as int - '0' as int)
  }

  /** `int(s)` on an already stripped string: an optional sign followed by at
      least one decimal digit; anything else raises ValueError (None here). */
  function ParseInt(s: string): Option<int> {
    if |s| > 0 && (s[0] == '-' || s[0] == '+') then
      var ds := s[1..];
      if |ds| > 0 && AllDigits(ds) then
        var v: int := if s[0] == '-' then 0 - DigitsValue(ds) else DigitsValue(ds);
        Some(v)
      else None
    else if |s| > 0 && AllDigits(s) then Some(DigitsValue(s))
    else None
  }

  lemma {:induction false} DigitsOfNat(n: nat)
    ensures DigitsValue(NatToString(n)) == n
    decreases n
  {
    if n >= 10 {
      var s := NatToString(n);
      assert s[..|s| - 1] == NatToString(n / 10);
      DigitsOfNat(n / 10);
    }
  }

  /** `int(str(n)) == n` */
  lemma {:induction false} ParseIntToString(n: int)
    ensures ParseInt(IntToString(n)) == Some(n)
  {
    if n < 0 {
      var ds := NatToString(-n);
      var s := "-" + ds;
      assert s[0] == '-' && s[1..] == ds;
      DigitsOfNat(-n);
      assert ParseInt(s) == Some(0 - DigitsValue(ds));
    } else {
      var s := NatToString(n);
      DigitsOfNat(n);
      assert s[0] != '-' && s[0] != '+' by { assert IsDigit(s[0]); }
    }
  }

  /** A parsed string is the sign-free decimal form of its value, possibly
      with a sign and leading zeros: every accepted string is non-empty and
      consists of digits after an optional sign. */
  lemma ParseIntShape(s: string)
    requires ParseInt(s).Some?
    ensures |s| > 0
    ensures AllDigits(s) || ((s[0] == '-' || s[0] == '+') && |s| > 1 && AllDigits(s[1..]))
  {
  }
}
