/** String helpers the screens rely on: JavaScript's String.prototype.trim,
    toUpperCase on the characters an app code can hold, decimal text of
    numbers as JavaScript prints them, and join / split on one separator. */
module Text {

  import opened Opt

  // ---------------------------------------------------------------------
  // trim
  // ---------------------------------------------------------------------

  /** The characters JavaScript's trim removes: WhiteSpace and LineTerminator
      of ECMAScript (tab, vertical tab, form feed, space, no-break space,
      byte-order mark, the Unicode space separators, LF, CR, LS, PS). */
  predicate IsSpace(c: char)
  {
    c == ' ' || c == '\t' || c == '\n' || c == '\r' || c == '\U{000B}' || c == '\U{000C}'
    || c == '\U{00A0}' || c == '\U{FEFF}' || c == '\U{1680}' || ('\U{2000}' <= c <= '\U{200A}')
    || c == '\U{2028}' || c == '\U{2029}' || c == '\U{202F}' || c == '\U{205F}' || c == '\U{3000}'
  }

  predicate AllSpace(s: string)
  {
    forall k :: 0 <= k < |s| ==> IsSpace(s[k])
  }

  /** Number of whitespace characters at the front of s. */
  function LeadingSpace(s: string): (n: nat)
    ensures n <= |s|
    ensures AllSpace(s[..n])
    ensures n < |s| ==> !IsSpace(s[n])
  {
    if s == [] || !IsSpace(s[0]) then 0
    else
      var n := 1 + LeadingSpace(s[1..]);
      assert s[..n] == [s[0]] + s[1..][..n - 1];
      n
  }

  /** Number of whitespace characters at the back of s. */
  function TrailingSpace(s: string): (n: nat)
    ensures n <= |s|
    ensures AllSpace(s[|s| - n..])
    ensures n < |s| ==> !IsSpace(s[|s| - 1 - n])
  {
    if s == [] || !IsSpace(s[|s| - 1]) then 0
    else
      var t := s[..|s| - 1];
      var n := 1 + TrailingSpace(t);
      assert s[|s| - n..] == t[|t| - (n - 1)..] + [s[|s| - 1]];
      n
  }

  /** String.prototype.trim: s without its leading and trailing whitespace. */
  function Trim(s: string): (r: string)
    ensures |r| <= |s|
    ensures r == [] || (!IsSpace(r[0]) && !IsSpace(r[|r| - 1]))
    ensures r == [] <==> AllSpace(s)
  {
    var i := LeadingSpace(s);
    if i == |s| then
      assert s[..i] == s;
      []
    else
      var t := s[i..];
      var j := TrailingSpace(t);
      var r := t[..|t| - j];
      assert r[0] == s[i] && r[|r| - 1] == t[|t| - 1 - j];
      r
  }

  /** A text without whitespace at either end is its own trim. */
  lemma TrimUnpadded(s: string)
    requires s != [] && !IsSpace(s[0]) && !IsSpace(s[|s| - 1])
    ensures Trim(s) == s
  {
    assert LeadingSpace(s) == 0;
    assert TrailingSpace(s) == 0;
    assert s[0..][..|s| - 0] == s;
  }

  lemma {:induction false} LeadingSpaceOf(before: string, rest: string)
    requires AllSpace(before) && rest != [] && !IsSpace(rest[0])
    ensures LeadingSpace(before + rest) == |before|
  {
    if before != [] {
      assert (before + rest)[1..] == before[1..] + rest;
      LeadingSpaceOf(before[1..], rest);
    }
  }

  lemma {:induction false} TrailingSpaceOf(rest: string, after: string)
    requires AllSpace(after) && rest != [] && !IsSpace(rest[|rest| - 1])
    ensures TrailingSpace(rest + after) == |after|
  {
    if after != [] {
      assert (rest + after)[..|rest + after| - 1] == rest + after[..|after| - 1];
      TrailingSpaceOf(rest, after[..|after| - 1]);
    }
  }

  /** Trim removes exactly the whitespace put around a text that has none
      at its ends. */
  lemma TrimPadded(before: string, s: string, after: string)
    requires s != [] && !IsSpace(s[0]) && !IsSpace(s[|s| - 1])
    requires AllSpace(before) && AllSpace(after)
    ensures Trim(before + s + after) == s
  {
    var t := before + s + after;
    assert t == before + (s + after);
    LeadingSpaceOf(before, s + after);
    assert t[|before|..] == s + after;
    TrailingSpaceOf(s, after);
    assert (s + after)[..|s|] == s;
  }

  /** Trimming twice is trimming once. */
  lemma {:induction false} TrimIdempotent(s: string)
    ensures Trim(Trim(s)) == Trim(s)
  {
    if Trim(s) != [] {
      TrimUnpadded(Trim(s));
    }
  }

  // ---------------------------------------------------------------------
  // toUpperCase
  // ---------------------------------------------------------------------

  predicate IsLowerAscii(c: char) { 'a' <= c <= 'z' }

  function UpperChar(c: char): (u: char)
    ensures !IsLowerAscii(u)
    ensures IsLowerAscii(c) ==> u as int == c as int - 32
    ensures !IsLowerAscii(c) ==> u == c
  {
    if IsLowerAscii(c) then (c as int - 32) as char else c
  }

  /** toUpperCase restricted to the ASCII letters: every lower-case letter
      becomes its capital, every other character is kept. */
  function ToUpper(s: string): (r: string)
    ensures |r| == |s|
    ensures forall k :: 0 <= k < |s| ==> r[k] == UpperChar(s[k])
  {
    seq(|s|, k requires 0 <= k < |s| => UpperChar(s[k]))
  }

  lemma ToUpperIdempotent(s: string)
    ensures ToUpper(ToUpper(s)) == ToUpper(s)
    ensures forall k :: 0 <= k < |s| ==> !IsLowerAscii(ToUpper(s)[k])
  {
  }

  // ---------------------------------------------------------------------
  // Decimal text of numbers
  // ---------------------------------------------------------------------

  predicate IsDigit(c: char) { '0' <= c <= '9' }

  function DigitChar(d: nat): (c: char)
    requires d < 10
    ensures IsDigit(c) && c as int - '0' as int == d
  {
    ('0' as int + d) as char
  }

  function DigitValue(c: char): (d: nat)
    requires IsDigit(c)
    ensures d < 10 && DigitChar(d) == c
  {
    c as int - '0' as int
  }

  /** Number.prototype.toString for a whole non-negative number: its decimal
      digits, most significant first, with no leading zero. */
  function NatText(n: nat): (r: string)
    ensures |r| >= 1
    ensures forall k :: 0 <= k < |r| ==> IsDigit(r[k])
    ensures |r| > 1 ==> r[0] != '0'
  {
    if n < 10 then [DigitChar(n)] else NatText(n / 10) + [DigitChar(n % 10)]
  }

  /** Reads a run of decimal digits back as a number. */
  function ParseDigits(s: string): (n: nat)
    requires forall k :: 0 <= k < |s| ==> IsDigit(s[k])
  {
    if s == [] then 0 else 10 * ParseDigits(s[..|s| - 1]) + DigitValue(s[|s| - 1])
  }

  /** NatText and ParseDigits are inverse. */
  lemma {:induction false} ParseNatText(n: nat)
    ensures ParseDigits(NatText(n)) == n
  {
    if n >= 10 {
      var t := NatText(n);
      assert t[..|t| - 1] == NatText(n / 10);
      ParseNatText(n / 10);
    }
  }

  /** Distinct numbers have distinct text. */
  lemma NatTextInjective(m: nat, n: nat)
    requires NatText(m) == NatText(n)
    ensures m == n
  {
    ParseNatText(m);
    ParseNatText(n);
  }

  /** Index of the first c in s, or |s| when there is none. */
  function IndexOf(s: string, c: char): (k: nat)
    ensures k <= |s|
    ensures forall j :: 0 <= j < k ==> s[j] != c
    ensures k < |s| ==> s[k] == c
    ensures k == |s| <==> c !in s
  {
    if s == [] then 0 else if s[0] == c then 0 else 1 + IndexOf(s[1..], c)
  }

  /** The first separator after a piece that holds none is the one that
      follows the piece. */
  lemma {:induction false} IndexOfAfter(a: string, c: char, b: string)
    requires c !in a
    ensures IndexOf(a + [c] + b, c) == |a|
  {
    if a != [] {
      assert (a + [c] + b)[1..] == a[1..] + [c] + b;
      IndexOfAfter(a[1..], c, b);
    }
  }

  predicate AllDigits(s: string)
  {
    forall k :: 0 <= k < |s| ==> IsDigit(s[k])
  }

  function Signed(neg: bool, n: nat): int
  {
    if neg then -(n as int) else n
  }

  /** Text of the fraction of a whole-cent amount: "" for none, else a dot
      and one or two digits with the trailing zero dropped. */
  function FractionText(f: nat): (r: string)
    requires f < 100
  {
    if f == 0 then ""
    else if f % 10 == 0 then "." + [DigitChar(f / 10)]
    else "." + [DigitChar(f / 10), DigitChar(f % 10)]
  }

  /** Text of a non-negative amount in cents, without a sign. */
  function UnsignedCentsText(m: nat): (r: string)
  {
    NatText(m / 100) + FractionText(m % 100)
  }

  /** Text of an amount in cents as JavaScript prints the number cents / 100:
      a minus sign when negative, the whole part, and the fraction with its
      trailing zeros dropped ("12", "12.5", "12.05", "-0.5"). */
  function CentsText(c: int): (r: string)
    ensures r != [] && (c < 0 <==> r[0] == '-')
  {
    if c < 0 then "-" + UnsignedCentsText(-c) else UnsignedCentsText(c)
  }

  /** Reads a fraction text back as cents. */
  function ParseFraction(frac: string): (r: Option<nat>)
  {
    if frac == "" then Some(0)
    else if |frac| == 2 && frac[0] == '.' && IsDigit(frac[1]) then Some(10 * DigitValue(frac[1]))
    else if |frac| == 3 && frac[0] == '.' && IsDigit(frac[1]) && IsDigit(frac[2]) then
      Some(10 * DigitValue(frac[1]) + DigitValue(frac[2]))
    else None
  }

  /** Reads unsigned amount text back as cents. */
  function ParseUnsignedCents(body: string): (r: Option<nat>)
  {
    var k := IndexOf(body, '.');
    var whole := body[..k];
    if whole == [] || !AllDigits(whole) then None
    else match ParseFraction(body[k..])
      case None => None
      case Some(f) => Some(100 * ParseDigits(whole) + f)
  }

  /** Reads the text of a number in the form CentsText writes back as cents;
      None for anything else. */
  function ParseCents(s: string): (r: Option<int>)
  {
    if |s| > 0 && s[0] == '-' then
      match ParseUnsignedCents(s[1..])
      case None => None
      case Some(m) => Some(-(m as int))
    else
      match ParseUnsignedCents(s)
      case None => None
      case Some(m) => Some(m)
  }

  lemma ParseFractionText(f: nat)
    requires f < 100
    ensures ParseFraction(FractionText(f)) == Some(f)
  {
  }

  lemma ParseUnsignedCentsText(m: nat)
    ensures ParseUnsignedCents(UnsignedCentsText(m)) == Some(m)
  {
    var whole := NatText(m / 100);
    var frac := FractionText(m % 100);
    var body := whole + frac;
    ParseNatText(m / 100);
    ParseFractionText(m % 100);
    PointAfterDigits(whole, frac);
    assert body[..|whole|] == whole;
    assert body[|whole|..] == frac;
  }

  /** The first point of digits followed by a fraction text is the one
      that starts the fraction. */
  lemma PointAfterDigits(whole: string, frac: string)
    requires AllDigits(whole)
    requires frac == "" || frac[0] == '.'
    ensures IndexOf(whole + frac, '.') == |whole|
  {
    assert forall j :: 0 <= j < |whole| ==> whole[j] != '.';
    if frac == "" {
      assert whole + frac == whole;
    } else {
      assert whole + frac == whole + ['.'] + frac[1..];
      IndexOfAfter(whole, '.', frac[1..]);
    }
  }

  /** Printing an amount and reading it back gives the amount. */
  lemma ParseCentsText(c: int)
    ensures ParseCents(CentsText(c)) == Some(c)
  {
    var m: nat := if c < 0 then -c else c;
    var whole := NatText(m / 100);
    var body := UnsignedCentsText(m);
    ParseUnsignedCentsText(m);
    assert body[0] == whole[0] && IsDigit(whole[0]);
    if c < 0 {
      assert CentsText(c) == "-" + body;
      assert CentsText(c)[1..] == body;
    } else {
      assert CentsText(c) == body;
    }
  }

  /** Amount text holds only digits, a minus sign and a decimal point. */
  lemma CentsTextChars(c: int)
    ensures forall k :: 0 <= k < |CentsText(c)| ==>
              IsDigit(CentsText(c)[k]) || CentsText(c)[k] == '-' || CentsText(c)[k] == '.'
  {
    var m := if c < 0 then -c else c;
    var whole := NatText(m / 100);
    var frac := FractionText(m % 100);
    assert UnsignedCentsText(m) == whole + frac;
    assert forall k :: 0 <= k < |frac| ==> IsDigit(frac[k]) || frac[k] == '.';
  }

  // ---------------------------------------------------------------------
  // join / split on one separator character
  // ---------------------------------------------------------------------

  /** Array.prototype.join with a one-character separator. */
  function Join(xs: seq<string>, sep: char): (r: string)
    ensures |xs| == 1 ==> r == xs[0]
  {
    if xs == [] then ""
    else if |xs| == 1 then xs[0]
    else xs[0] + [sep] + Join(xs[1..], sep)
  }

  /** String.prototype.split with a one-character separator. */
  function Split(s: string, sep: char): (r: seq<string>)
    ensures |r| >= 1
    decreases |s|
  {
    var k := IndexOf(s, sep);
    if k == |s| then [s] else [s[..k]] + Split(s[k + 1..], sep)
  }

  /** Splitting a join gives back the pieces, as long as none of them holds
      the separator and there is at least one. */
  lemma {:induction false} SplitJoin(xs: seq<string>, sep: char)
    requires |xs| >= 1
    requires forall k :: 0 <= k < |xs| ==> sep !in xs[k]
    ensures Split(Join(xs, sep), sep) == xs
  {
    if |xs| == 1 {
      assert IndexOf(xs[0], sep) == |xs[0]|;
    } else {
      SplitAtFirst(xs[0], sep, Join(xs[1..], sep));
      SplitJoin(xs[1..], sep);
      assert xs == [xs[0]] + xs[1..];
    }
  }

  /** Splitting at a separator that follows a piece without one gives the
      piece, then the split of the rest. */
  lemma SplitAtFirst(a: string, sep: char, rest: string)
    requires sep !in a
    ensures Split(a + [sep] + rest, sep) == [a] + Split(rest, sep)
  {
    var s := a + [sep] + rest;
    IndexOfAfter(a, sep, rest);
    assert s[..|a|] == a;
    assert s[|a| + 1..] == rest;
  }
}
