/**
 * The JavaScript string built-ins that the request pipeline relies on:
 * `trim`, `split` on one character, `includes`, `toLowerCase`, rendering a
 * number in a template literal, and `parseInt` without a radix.
 */
module JsText {
  import opened Wrappers

  // ---------------------------------------------------------------------------
  // Whitespace and trim
  // ---------------------------------------------------------------------------

  /** The WhiteSpace and LineTerminator code points that `String.prototype.trim` removes. */
  predicate IsJsWhitespace(c: char) {
    c == ' ' || c == '\t' || c == '\n' || c == '\r' || c == '\U{000B}' || c == '\U{000C}'
    || c == '\U{00A0}' || c == '\U{1680}' || ('\U{2000}' <= c <= '\U{200A}')
    || c == '\U{2028}' || c == '\U{2029}' || c == '\U{202F}' || c == '\U{205F}'
    || c == '\U{3000}' || c == '\U{FEFF}'
  }

  predicate AllWhitespace(s: string) {
    forall i :: 0 <= i < |s| ==> IsJsWhitespace(s[i])
  }

  predicate NoWhitespace(s: string) {
    forall i :: 0 <= i < |s| ==> !IsJsWhitespace(s[i])
  }

  /** `s` neither starts nor ends with whitespace. */
  predicate NoEdgeWhitespace(s: string) {
    s == [] || (!IsJsWhitespace(s[0]) && !IsJsWhitespace(s[|s| - 1]))
  }

  function TrimStart(s: string): (r: string)
    ensures |r| <= |s| && r == s[|s| - |r|..]
    ensures r != [] ==> !IsJsWhitespace(r[0])
    ensures AllWhitespace(s[..|s| - |r|])
  {
    if s != [] && IsJsWhitespace(s[0]) then
      var r := TrimStart(s[1..]);
      assert s[1..][..|s| - 1 - |r|] == s[1..|s| - |r|];
      r
    else s
  }

  function TrimEnd(s: string): (r: string)
    ensures |r| <= |s| && r == s[..|r|]
    ensures r != [] ==> !IsJsWhitespace(r[|r| - 1])
    ensures AllWhitespace(s[|r|..])
  {
    if s != [] && IsJsWhitespace(s[|s| - 1]) then
      var r := TrimEnd(s[..|s| - 1]);
      assert s[..|s| - 1][..|r|] == s[..|r|];
      assert s[|r|..] == s[..|s| - 1][|r|..] + [s[|s| - 1]];
      r
    else s
  }

  /** `String.prototype.trim`: whitespace removed from both ends, nothing else touched. */
  function Trim(s: string): (r: string)
    ensures |r| <= |s|
    ensures NoEdgeWhitespace(r)
    ensures r == [] <==> AllWhitespace(s)
    ensures NoEdgeWhitespace(s) ==> r == s
  {
    var t := TrimStart(s);
    var r := TrimEnd(t);
    assert r != [] ==> r[0] == t[0];
    assert r == [] ==> AllWhitespace(s) by {
      if r == [] { TrimEmptyOnlyIfBlank(s, t, r); }
    }
    assert NoEdgeWhitespace(s) && s != [] ==> t == s && r == t;
    r
  }

  lemma TrimEmptyOnlyIfBlank(s: string, t: string, r: string)
    requires t == TrimStart(s) && r == TrimEnd(t) && r == []
    ensures AllWhitespace(s)
  {
    assert |t| == 0 by {
      assert t[|r|..] == t;
    }
    assert s[..|s| - |t|] == s;
  }

  lemma TrimIdempotent(s: string)
    ensures Trim(Trim(s)) == Trim(s)
  {
  }

  /** The test `!text || text.trim() === ''` of the source: empty or whitespace only. */
  predicate IsBlank(s: string) {
    s == [] || Trim(s) == []
  }

  // ---------------------------------------------------------------------------
  // split / join on one separator character
  // ---------------------------------------------------------------------------

  /** `s.split(sep)` for a one-character separator: the pieces between separators, always at least one. */
  function Split(s: string, sep: char): (parts: seq<string>)
    ensures |parts| >= 1
    ensures forall i :: 0 <= i < |parts| ==> sep !in parts[i]
  {
    if s == [] then [""]
    else
      var rest := Split(s[1..], sep);
      if s[0] == sep then [""] + rest
      else [[s[0]] + rest[0]] + rest[1..]
  }

  /** `parts.join(sep)`. */
  function Join(parts: seq<string>, sep: char): string
    requires |parts| >= 1
  {
    if |parts| == 1 then parts[0] else parts[0] + [sep] + Join(parts[1..], sep)
  }

  /** Joining the pieces back gives the original string. */
  lemma {:induction false} JoinSplit(s: string, sep: char)
    ensures Join(Split(s, sep), sep) == s
  {
    if s != [] {
      var rest := Split(s[1..], sep);
      JoinSplit(s[1..], sep);
      if s[0] == sep {
        assert ([""] + rest)[1..] == rest;
      } else {
        var parts := [[s[0]] + rest[0]] + rest[1..];
        if |rest| == 1 {
        } else {
          assert parts[1..] == rest[1..];
          assert Join(rest, sep) == rest[0] + [sep] + Join(rest[1..], sep);
        }
      }
    }
  }

  /** A separator-free prefix glues onto the first piece. */
  lemma {:induction false} SplitPrefix(a: string, t: string, sep: char)
    requires sep !in a
    ensures Split(a + t, sep) == [a + Split(t, sep)[0]] + Split(t, sep)[1..]
    decreases |a|
  {
    if a != [] {
      assert (a + t)[1..] == a[1..] + t;
      assert (a + t)[0] == a[0];
      SplitPrefix(a[1..], t, sep);
      assert [a[0]] + (a[1..] + Split(t, sep)[0]) == a + Split(t, sep)[0];
    } else {
      var p := Split(t, sep);
      assert a + t == t;
      assert a + p[0] == p[0];
      assert [p[0]] + p[1..] == p;
    }
  }

  /** Splitting a join of separator-free pieces gives the pieces back. */
  lemma {:induction false} SplitJoin(parts: seq<string>, sep: char)
    requires |parts| >= 1
    requires forall i :: 0 <= i < |parts| ==> sep !in parts[i]
    ensures Split(Join(parts, sep), sep) == parts
  {
    if |parts| == 1 {
      SplitPrefix(parts[0], "", sep);
      assert parts[0] + "" == parts[0];
    } else {
      var tail := Join(parts[1..], sep);
      SplitJoin(parts[1..], sep);
      var t := [sep] + tail;
      assert Split(t, sep) == [""] + Split(tail, sep);
      SplitPrefix(parts[0], t, sep);
      assert parts[0] + [sep] + tail == parts[0] + t;
      assert parts[0] + "" == parts[0];
      assert [parts[0]] + parts[1..] == parts;
    }
  }

  /** The first piece is everything before the first separator. */
  lemma SplitHead(a: string, t: string, sep: char)
    requires sep !in a
    ensures Split(a + [sep] + t, sep)[0] == a
  {
    SplitPrefix(a, [sep] + t, sep);
    assert a + [sep] + t == a + ([sep] + t);
    assert Split([sep] + t, sep)[0] == "";
    assert a + "" == a;
  }

  /** A string without the separator is a single piece. */
  lemma SplitWhole(s: string, sep: char)
    requires sep !in s
    ensures Split(s, sep) == [s]
  {
    SplitJoin([s], sep);
  }

  /** There are several pieces exactly when the separator occurs. */
  lemma SplitSeveralIff(s: string, sep: char)
    ensures |Split(s, sep)| >= 2 <==> sep in s
  {
    if sep !in s {
      SplitWhole(s, sep);
    } else {
      JoinSplit(s, sep);
    }
  }

  /** A separator-free piece appended after a separator becomes the last piece. */
  lemma {:induction false} SplitAppend(h: string, t: string, sep: char)
    requires sep !in t
    ensures Split(h + [sep] + t, sep) == Split(h, sep) + [t]
  {
    if h == [] {
      SplitWhole(t, sep);
      assert h + [sep] + t == [sep] + t;
      assert ([sep] + t)[1..] == t;
    } else {
      SplitAppend(h[1..], t, sep);
      assert (h + [sep] + t)[1..] == h[1..] + [sep] + t;
      assert (h + [sep] + t)[0] == h[0];
      var rest := Split(h[1..], sep);
      assert (rest + [t])[0] == rest[0];
      assert (rest + [t])[1..] == rest[1..] + [t];
    }
  }

  /** Trimming a clean string behind one leading whitespace character gives the string back. */
  lemma TrimAfterSpace(c: char, s: string)
    requires IsJsWhitespace(c) && s != [] && NoEdgeWhitespace(s)
    ensures Trim([c] + s) == s
  {
    assert ([c] + s)[1..] == s;
  }

  // ---------------------------------------------------------------------------
  // includes
  // ---------------------------------------------------------------------------

  predicate StartsWith(s: string, prefix: string) {
    |prefix| <= |s| && s[..|prefix|] == prefix
  }

  /** `s.includes(sub)`: `sub` occurs somewhere in `s`. */
  function Includes(s: string, sub: string): (b: bool)
    ensures b <==> exists i :: 0 <= i <= |s| - |sub| && StartsWith(s[i..], sub)
  {
    if StartsWith(s, sub) then
      assert StartsWith(s[0..], sub);
      true
    else if s == [] then false
    else
      var b := Includes(s[1..], sub);
      IncludesStep(s, sub, b);
      b
  }

  lemma IncludesStep(s: string, sub: string, b: bool)
    requires s != [] && !StartsWith(s, sub)
    requires b <==> exists i :: 0 <= i <= |s| - 1 - |sub| && StartsWith(s[1..][i..], sub)
    ensures b <==> exists i :: 0 <= i <= |s| - |sub| && StartsWith(s[i..], sub)
  {
    if b {
      var i :| 0 <= i <= |s| - 1 - |sub| && StartsWith(s[1..][i..], sub);
      assert s[1..][i..] == s[i + 1..];
    } else {
      forall i | 0 <= i <= |s| - |sub| ensures !StartsWith(s[i..], sub) {
        if i > 0 {
          assert s[1..][i - 1..] == s[i..];
        }
      }
    }
  }

  // ---------------------------------------------------------------------------
  // toLowerCase (ASCII letters)
  // ---------------------------------------------------------------------------

  function LowerChar(c: char): (d: char)
    ensures IsJsWhitespace(d) <==> IsJsWhitespace(c)
  {
    if 'A' <= c <= 'Z' then (c as int + 32) as char else c
  }

  /** `s.toLowerCase()` on the ASCII letters; every other character is kept. */
  function ToLower(s: string): (r: string)
    ensures |r| == |s|
    ensures forall i :: 0 <= i < |s| ==> r[i] == LowerChar(s[i])
  {
    seq(|s|, i requires 0 <= i < |s| => LowerChar(s[i]))
  }

  /** Lower-casing neither adds nor removes whitespace, so it commutes with trim on clean strings. */
  lemma LowerKeepsNoWhitespace(s: string)
    requires NoWhitespace(s)
    ensures NoWhitespace(ToLower(s))
    ensures Trim(ToLower(s)) == ToLower(s)
  {
  }

  // ---------------------------------------------------------------------------
  // Numbers in template literals, and parseInt
  // ---------------------------------------------------------------------------

  predicate IsDigit(c: char) { '0' <= c <= '9' }

  function DigitChar(d: nat): (c: char)
    requires d < 10
    ensures IsDigit(c) && c as int - '0' as int == d
  {
    ('0' as int + d) as char
  }

  /** `${n}` for a non-negative integer: its decimal digits without leading zeros. */
  function NatToDecimal(n: nat): (s: string)
    ensures |s| >= 1
    ensures forall i :: 0 <= i < |s| ==> IsDigit(s[i])
    ensures |s| > 1 ==> s[0] != '0'
    ensures s[0] == '0' ==> n == 0
  {
    if n < 10 then [DigitChar(n)] else NatToDecimal(n / 10) + [DigitChar(n % 10)]
  }

  /** `${i}` for any integer. */
  function IntToDecimal(i: int): string {
    if i < 0 then "-" + NatToDecimal(-i) else NatToDecimal(i)
  }

  /** The value of a digit character in the given radix (10 or 16), if it is one. */
  function DigitValue(c: char, radix: nat): (v: Option<nat>)
    ensures v.Some? ==> v.value < radix
    ensures radix >= 10 && IsDigit(c) ==> v == Some(c as int - '0' as int)
  {
    if '0' <= c <= '9' && (c as int - '0' as int) < radix then Some(c as int - '0' as int)
    else if radix == 16 && 'a' <= c <= 'f' then Some(c as int - 'a' as int + 10)
    else if radix == 16 && 'A' <= c <= 'F' then Some(c as int - 'A' as int + 10)
    else None
  }

  /** The longest prefix of `s` made of digits of `radix`. */
  function LeadingDigits(s: string, radix: nat): (d: string)
    ensures |d| <= |s| && d == s[..|d|]
    ensures forall i :: 0 <= i < |d| ==> DigitValue(d[i], radix).Some?
    ensures |d| < |s| ==> DigitValue(s[|d|], radix).None?
  {
    if s != [] && DigitValue(s[0], radix).Some? then [s[0]] + LeadingDigits(s[1..], radix) else ""
  }

  /** Positional value of a digit string, most significant digit first. */
  function DigitsValue(d: string, radix: nat): nat
    requires forall i :: 0 <= i < |d| ==> DigitValue(d[i], radix).Some?
  {
    if d == [] then 0
    else DigitsValue(d[..|d| - 1], radix) * radix + DigitValue(d[|d| - 1], radix).value
  }

  /** The value of the longest digit prefix, or None (NaN) when there is no digit. */
  function DigitPrefixValue(body: string, radix: nat): Option<nat> {
    var d := LeadingDigits(body, radix);
    if d == [] then None else Some(DigitsValue(d, radix))
  }

  /** An unsigned numeral: `0x`/`0X` switches to hexadecimal, otherwise decimal. */
  function ParseUnsigned(u: string): Option<nat> {
    if |u| >= 2 && u[0] == '0' && (u[1] == 'x' || u[1] == 'X') then DigitPrefixValue(u[2..], 16)
    else DigitPrefixValue(u, 10)
  }

  function Negated(v: Option<nat>): Option<int> {
    match v
    case None => None
    case Some(n) => Some(0 - n)
  }

  /**
   * `parseInt(s)` with no radix: leading whitespace skipped, an optional sign,
   * then an unsigned numeral. None stands for NaN (no digits at all).
   */
  function ParseInt(s: string): Option<int> {
    var t := TrimStart(s);
    if t != [] && t[0] == '-' then
      Negated(ParseUnsigned(t[1..]))
    else if t != [] && t[0] == '+' then ParseUnsigned(t[1..])
    else ParseUnsigned(t)
  }

  lemma {:induction false} DecimalValueOfRendering(n: nat)
    ensures DigitsValue(NatToDecimal(n), 10) == n
  {
    if n >= 10 {
      var s := NatToDecimal(n);
      DecimalValueOfRendering(n / 10);
      assert s[..|s| - 1] == NatToDecimal(n / 10);
    }
  }

  lemma {:induction false} LeadingDigitsOfDigits(s: string)
    requires forall i :: 0 <= i < |s| ==> IsDigit(s[i])
    ensures LeadingDigits(s, 10) == s
  {
    if s != [] {
      LeadingDigitsOfDigits(s[1..]);
    }
  }

  /** An unsigned canonical decimal numeral is read as its value. */
  lemma ParseUnsignedOfDigits(s: string)
    requires |s| >= 1 && forall i :: 0 <= i < |s| ==> IsDigit(s[i])
    requires |s| > 1 ==> s[0] != '0'
    ensures ParseUnsigned(s) == Some(DigitsValue(s, 10))
  {
    LeadingDigitsOfDigits(s);
  }

  /** parseInt of a canonical decimal digit string is its value. */
  lemma ParseIntOfDigits(s: string)
    requires |s| >= 1 && forall i :: 0 <= i < |s| ==> IsDigit(s[i])
    requires |s| > 1 ==> s[0] != '0'
    ensures ParseInt(s) == Some(DigitsValue(s, 10))
  {
    assert !IsJsWhitespace(s[0]);
    assert TrimStart(s) == s;
    ParseUnsignedOfDigits(s);
  }

  /** parseInt of a minus sign followed by a canonical digit string is the negated value. */
  lemma ParseIntOfNegatedDigits(s: string)
    requires |s| >= 1 && forall i :: 0 <= i < |s| ==> IsDigit(s[i])
    requires |s| > 1 ==> s[0] != '0'
    ensures ParseInt("-" + s).Some? && ParseInt("-" + s).value + DigitsValue(s, 10) == 0
  {
    var full := "-" + s;
    assert !IsJsWhitespace(full[0]);
    assert TrimStart(full) == full;
    assert full[1..] == s;
    ParseUnsignedOfDigits(s);
  }

  /** parseInt reads back the rendering of a natural number. */
  lemma ParseIntNatRendering(n: nat)
    ensures ParseInt(NatToDecimal(n)) == Some(n)
  {
    DecimalValueOfRendering(n);
    ParseIntOfDigits(NatToDecimal(n));
  }

  /** parseInt reads back a minus sign followed by the rendering of a natural number. */
  lemma ParseIntNegativeRendering(n: nat)
    ensures ParseInt("-" + NatToDecimal(n)) == Some(-(n as int))
  {
    DecimalValueOfRendering(n);
    ParseIntOfNegatedDigits(NatToDecimal(n));
  }

  /** parseInt reads back what a template literal wrote, for every integer. */
  lemma ParseIntRendering(i: int)
    ensures ParseInt(IntToDecimal(i)) == Some(i)
  {
    if i < 0 {
      var n: nat := -i;
      assert IntToDecimal(i) == "-" + NatToDecimal(n);
      ParseIntNegativeRendering(n);
    } else {
      assert IntToDecimal(i) == NatToDecimal(i);
      ParseIntNatRendering(i);
    }
  }
}
