/** The string operations the components use: case mapping (ASCII letters),
    `includes`, `startsWith`, `replace(/\D/g, '')`, `charAt(0).toUpperCase() + slice(1)`,
    `split` / `join`, number-to-string and `padStart`, and texts made of lines. */
module Text {
  import opened Wrappers
  import opened Collections

  // ---------------------------------------------------------------- case

  predicate IsUpper(c: char) { 'A' <= c <= 'Z' }
  predicate IsLower(c: char) { 'a' <= c <= 'z' }

  function LowerChar(c: char): (r: char)
    ensures IsUpper(c) ==> IsLower(r)
    ensures !IsUpper(c) ==> r == c
  {
    if IsUpper(c) then (c as int + 32) as char else c
  }

  function UpperChar(c: char): (r: char)
    ensures IsLower(c) ==> IsUpper(r)
    ensures !IsLower(c) ==> r == c
  {
    if IsLower(c) then (c as int - 32) as char else c
  }

  /** `s.toLowerCase()` */
  function ToLower(s: string): (r: string)
    ensures |r| == |s|
    ensures forall i :: 0 <= i < |s| ==> r[i] == LowerChar(s[i])
  {
    seq(|s|, i requires 0 <= i < |s| => LowerChar(s[i]))
  }

  /** Lower-casing twice is lower-casing once, so a query may be given in any case. */
  lemma ToLowerIdempotent(s: string)
    ensures ToLower(ToLower(s)) == ToLower(s)
  {
    var t := ToLower(s);
    forall i | 0 <= i < |s| ensures ToLower(t)[i] == t[i] {
      assert !IsUpper(t[i]);
    }
  }

  /** `s.charAt(0).toUpperCase() + s.slice(1)`; the empty string stays empty. */
  function Capitalize(s: string): (r: string)
    ensures |r| == |s|
    ensures |s| > 0 ==> r[0] == UpperChar(s[0]) && r[1..] == s[1..]
  {
    if s == [] then [] else [UpperChar(s[0])] + s[1..]
  }

  // ---------------------------------------------------------------- search

  /** `s.includes(q)`: q occurs in s as a contiguous substring. */
  predicate Includes(s: string, q: string) {
    exists i :: 0 <= i <= |s| - |q| && OccursAt(s, q, i)
  }

  /** q is the piece of s that starts at index i. */
  predicate OccursAt(s: string, q: string, i: int) {
    0 <= i && i + |q| <= |s| && s[i..i + |q|] == q
  }

  lemma IncludesEmpty(s: string)
    ensures Includes(s, "")
  {
    assert OccursAt(s, "", 0);
  }

  lemma IncludesSelf(s: string)
    ensures Includes(s, s)
  {
    assert OccursAt(s, s, 0);
  }

  /** A piece written out between two others is found by `includes`. */
  lemma IncludesMiddle(a: string, q: string, b: string)
    ensures Includes(a + q + b, q)
  {
    var s := a + q + b;
    assert s[|a|..|a| + |q|] == q;
    assert OccursAt(s, q, |a|);
  }

  /** `s.startsWith(p)` */
  predicate StartsWith(s: string, p: string) {
    |p| <= |s| && s[..|p|] == p
  }

  lemma StartsWithAppend(p: string, rest: string)
    ensures StartsWith(p + rest, p)
  {
    assert (p + rest)[..|p|] == p;
  }

  // ---------------------------------------------------------------- digits

  predicate IsDigit(c: char) { '0' <= c <= '9' }

  predicate AllDigits(s: string) { forall i :: 0 <= i < |s| ==> IsDigit(s[i]) }

  /** `s.replace(/\D/g, '')`: the digits of s, in order. */
  function DigitsOnly(s: string): (r: string)
    ensures AllDigits(r)
    ensures |r| <= |s|
    ensures AllDigits(s) ==> r == s
  {
    if s == [] then []
    else if IsDigit(s[0]) then [s[0]] + DigitsOnly(s[1..])
    else DigitsOnly(s[1..])
  }

  lemma {:induction false} DigitsOnlyAppend(a: string, b: string)
    ensures DigitsOnly(a + b) == DigitsOnly(a) + DigitsOnly(b)
  {
    if a != [] {
      assert (a + b)[1..] == a[1..] + b;
      DigitsOnlyAppend(a[1..], b);
    } else {
      assert a + b == b;
    }
  }

  function DigitChar(d: nat): (c: char)
    requires d < 10
    ensures IsDigit(c)
  {
    ("0123456789")[d]
  }

  function DigitValue(c: char): (d: nat)
    requires IsDigit(c)
    ensures d < 10 && DigitChar(d) == c
  {
    c as int - '0' as int
  }

  /** The decimal text of a natural number, as JavaScript's `String(n)` writes it. */
  function NatToString(n: nat): (r: string)
    ensures |r| > 0 && AllDigits(r)
    decreases n
  {
    if n < 10 then [DigitChar(n)] else NatToString(n / 10) + [DigitChar(n % 10)]
  }

  /** The value of a string of decimal digits (empty means 0). */
  function ParseNat(s: string): (n: nat)
    requires AllDigits(s)
    decreases |s|
  {
    if s == [] then 0 else ParseNat(s[..|s| - 1]) * 10 + DigitValue(s[|s| - 1])
  }

  lemma {:induction false} ParseNatToString(n: nat)
    ensures ParseNat(NatToString(n)) == n
    decreases n
  {
    if n >= 10 {
      var s := NatToString(n);
      var q, d := n / 10, n % 10;
      assert s == NatToString(q) + [DigitChar(d)];
      assert s[..|s| - 1] == NatToString(q);
      ParseNatToString(q);
      DigitRoundTrip(d);
      assert ParseNat(s) == q * 10 + d;
    } else {
      DigitRoundTrip(n);
    }
  }

  lemma DigitRoundTrip(d: nat)
    requires d < 10
    ensures DigitValue(DigitChar(d)) == d
  {
  }

  lemma NatToStringInjective(a: nat, b: nat)
    requires NatToString(a) == NatToString(b)
    ensures a == b
  {
    ParseNatToString(a);
    ParseNatToString(b);
  }

  lemma {:induction false} NatToStringShort(n: nat, k: nat)
    requires k > 0 && n < Pow10(k)
    ensures |NatToString(n)| <= k
    decreases n
  {
    if n >= 10 {
      NatToStringShort(n / 10, k - 1);
    }
  }

  /** A number of at least 10^(k-1) takes at least k digits. */
  lemma {:induction false} NatToStringLong(n: nat, k: nat)
    requires k > 0 && n >= Pow10(k - 1)
    ensures |NatToString(n)| >= k
    decreases n
  {
    if k > 1 {
      NatToStringLong(n / 10, k - 1);
    }
  }

  function Pow10(k: nat): (p: nat)
    ensures p > 0
  {
    if k == 0 then 1 else 10 * Pow10(k - 1)
  }

  /** Leading zeros do not change the value of a digit string. */
  lemma {:induction false} ParseNatLeadingZeros(z: nat, s: string)
    requires AllDigits(s)
    ensures AllDigits(Repeat('0', z) + s)
    ensures ParseNat(Repeat('0', z) + s) == ParseNat(s)
    decreases |s|
  {
    var t := Repeat('0', z) + s;
    assert forall i :: 0 <= i < |t| ==> IsDigit(t[i]) by {
      forall i | 0 <= i < |t| ensures IsDigit(t[i]) {
        if i >= z { assert t[i] == s[i - z]; }
      }
    }
    if s == [] {
      assert t == Repeat('0', z);
      RepeatZerosParse(z);
    } else {
      assert t[..|t| - 1] == Repeat('0', z) + s[..|s| - 1];
      ParseNatLeadingZeros(z, s[..|s| - 1]);
    }
  }

  lemma {:induction false} RepeatZerosParse(z: nat)
    ensures AllDigits(Repeat('0', z))
    ensures ParseNat(Repeat('0', z)) == 0
  {
    if z > 0 {
      var t := Repeat('0', z);
      assert t[..|t| - 1] == Repeat('0', z - 1);
      RepeatZerosParse(z - 1);
    }
  }

  function Repeat(c: char, n: nat): (r: string)
    ensures |r| == n && forall i :: 0 <= i < n ==> r[i] == c
  {
    if n == 0 then [] else Repeat(c, n - 1) + [c]
  }

  /** `s.padStart(width, c)`: c repeated in front up to the width; a longer s is unchanged. */
  function PadStart(s: string, width: nat, c: char): (r: string)
    ensures |s| >= width ==> r == s
    ensures |s| < width ==> |r| == width && r[width - |s|..] == s
                            && forall i :: 0 <= i < width - |s| ==> r[i] == c
  {
    if |s| >= width then s else Repeat(c, width - |s|) + s
  }

  /** `String(i)` for an integer in plain notation: a '-' in front of the magnitude when
      negative. JavaScript writes this form only below 10^21 in magnitude (from there it
      writes exponent notation, "1e+21") and holds integers exactly only up to 2^53 - 1. */
  function IntToString(i: int): string {
    if i < 0 then "-" + NatToString(-i) else NatToString(i)
  }

  /** Reads back what IntToString writes. */
  function ParseInt(s: string): int {
    if |s| > 0 && s[0] == '-' && AllDigits(s[1..]) then 0 - ParseNat(s[1..]) as int
    else if AllDigits(s) then ParseNat(s)
    else 0
  }

  lemma ParseIntToString(i: int)
    ensures ParseInt(IntToString(i)) == i
  {
    if i < 0 {
      var m: nat := -i;
      ParseIntMinus(NatToString(m));
      ParseNatToString(m);
    } else {
      ParseIntDigits(NatToString(i));
      ParseNatToString(i);
    }
  }

  lemma ParseIntMinus(d: string)
    requires AllDigits(d)
    ensures ParseInt("-" + d) == 0 - ParseNat(d)
  {
    var s := "-" + d;
    assert s[0] == '-' && s[1..] == d;
  }

  lemma ParseIntDigits(d: string)
    requires AllDigits(d) && d != []
    ensures ParseInt(d) == ParseNat(d)
  {
    assert IsDigit(d[0]);
  }

  lemma IntToStringInjective(a: int, b: int)
    requires IntToString(a) == IntToString(b)
    ensures a == b
  {
    ParseIntToString(a);
    ParseIntToString(b);
  }

  /** The characters `parseInt` skips: ECMAScript's white space (tab, vertical tab, form
      feed, space, no-break space, the byte order mark and the other space separators of
      Unicode) and its line terminators. */
  predicate IsSpace(c: char) {
    || c == '\t' || c == '\n' || c == 11 as char || c == 12 as char || c == '\r' || c == ' '
    || c == 0xA0 as char || c == 0x1680 as char || (0x2000 as char <= c <= 0x200A as char)
    || c == 0x2028 as char || c == 0x2029 as char || c == 0x202F as char || c == 0x205F as char
    || c == 0x3000 as char || c == 0xFEFF as char
  }

  /** The longest run of digits at the start of s. */
  function LeadingDigits(s: string): (r: string)
    ensures AllDigits(r) && |r| <= |s| && r == s[..|r|]
    ensures |r| < |s| ==> !IsDigit(s[|r|])
  {
    if s == [] || !IsDigit(s[0]) then []
    else [s[0]] + LeadingDigits(s[1..])
  }

  /** s without its leading white space. */
  function TrimStart(s: string): (r: string)
    ensures s == [] || !IsSpace(s[0]) ==> r == s
  {
    if s != [] && IsSpace(s[0]) then TrimStart(s[1..]) else s
  }

  /** An optional sign and the digits right after it; None when there are none. */
  function ParseSigned(s: string): Option<int> {
    var neg := s != [] && s[0] == '-';
    var body := if s != [] && (s[0] == '-' || s[0] == '+') then s[1..] else s;
    var d := LeadingDigits(body);
    if d == [] then None
    else if neg then Some(0 - ParseNat(d))
    else Some(ParseNat(d))
  }

  /** `parseInt(s, 10)`: leading white space and one sign are skipped, then the longest
      run of digits is read; with no digit the result is NaN, here None. */
  function JsParseInt(s: string): Option<int> {
    ParseSigned(TrimStart(s))
  }

  /** `parseInt` reads back what `String` writes, and ignores whatever follows the
      digits ("12abc" is 12). */
  lemma JsParseIntPrefix(i: int, tail: string)
    requires tail == [] || !IsDigit(tail[0])
    ensures JsParseInt(IntToString(i) + tail) == Some(i)
  {
    if i < 0 {
      var m: nat := -i;
      assert IntToString(i) == "-" + NatToString(m);
      ParseNegative(m, tail);
    } else {
      assert IntToString(i) == NatToString(i);
      ParseNonNegative(i, tail);
    }
  }

  /** `parseInt(String(i))` is i. */
  lemma JsParseIntString(i: int)
    ensures JsParseInt(IntToString(i)) == Some(i)
  {
    JsParseIntPrefix(i, []);
    assert IntToString(i) + [] == IntToString(i);
  }

  /** Form feed, vertical tab and the no-break space are white space to `parseInt`,
      so "\f\v\u00A0-5" reads as -5. */
  lemma JsParseIntSkipsControlSpaces()
    ensures JsParseInt([12 as char, 11 as char, 0xA0 as char, '-', '5']) == Some(-5)
  {
    var s := [12 as char, 11 as char, 0xA0 as char, '-', '5'];
    assert TrimStart(s) == ['-', '5'] by {
      assert IsSpace(s[0]) && IsSpace(s[1]) && IsSpace(s[2]) && !IsSpace('-');
      assert TrimStart(s) == TrimStart(s[1..]);
      assert s[1..] == [11 as char, 0xA0 as char, '-', '5'];
      assert TrimStart(s[1..]) == TrimStart([0xA0 as char, '-', '5']);
      assert TrimStart([0xA0 as char, '-', '5']) == TrimStart(['-', '5']);
    }
    assert LeadingDigits(['5']) == ['5'];
  }

  lemma ParseNegative(m: nat, tail: string)
    requires m > 0 && (tail == [] || !IsDigit(tail[0]))
    ensures JsParseInt("-" + NatToString(m) + tail) == Some(0 - m)
  {
    ParseMinusDigits(NatToString(m), tail);
    ParseNatToString(m);
  }

  /** A '-' and a run of digits: the digits are read and negated. */
  lemma ParseMinusDigits(d: string, tail: string)
    requires AllDigits(d) && d != [] && (tail == [] || !IsDigit(tail[0]))
    ensures JsParseInt("-" + d + tail) == Some(0 - ParseNat(d))
  {
    LeadingDigitsOf(d, tail);
    ParseSignedMinus(d + tail, d);
    var s := ['-'] + (d + tail);
    assert "-" + d + tail == s;
    assert s[0] == '-' && !IsSpace('-');
    JsParseIntNoSpace(s);
  }

  /** After a '-', the digits that follow are read and negated. */
  lemma ParseSignedMinus(body: string, d: string)
    requires LeadingDigits(body) == d && d != []
    ensures ParseSigned(['-'] + body) == Some(0 - ParseNat(d))
  {
    assert (['-'] + body)[1..] == body;
  }

  /** Text that does not start with white space is parsed as it stands. */
  lemma JsParseIntNoSpace(s: string)
    requires s != [] && !IsSpace(s[0])
    ensures JsParseInt(s) == ParseSigned(s)
  {
  }

  lemma ParseNonNegative(m: nat, tail: string)
    requires tail == [] || !IsDigit(tail[0])
    ensures JsParseInt(NatToString(m) + tail) == Some(m)
  {
    ParseDigits(NatToString(m), tail);
    ParseNatToString(m);
  }

  /** A run of digits with no sign: the digits are read. */
  lemma ParseDigits(d: string, tail: string)
    requires AllDigits(d) && d != [] && (tail == [] || !IsDigit(tail[0]))
    ensures JsParseInt(d + tail) == Some(ParseNat(d))
  {
    var s := d + tail;
    assert s[0] == d[0] && IsDigit(s[0]) && !IsSpace(s[0]);
    LeadingDigitsOf(d, tail);
  }

  lemma {:induction false} LeadingDigitsOf(d: string, tail: string)
    requires AllDigits(d) && (tail == [] || !IsDigit(tail[0]))
    ensures LeadingDigits(d + tail) == d
    decreases |d|
  {
    if d == [] {
      assert d + tail == tail;
    } else {
      assert (d + tail)[1..] == d[1..] + tail;
      LeadingDigitsOf(d[1..], tail);
    }
  }

  // ---------------------------------------------------------------- template pieces

  /** A template literal: its pieces written one after the other. */
  function Concat(ps: seq<string>): string
    decreases |ps|
  {
    if ps == [] then "" else ps[0] + Concat(ps[1..])
  }

  lemma {:induction false} ConcatSplit(ps: seq<string>, k: nat)
    requires k < |ps|
    ensures Concat(ps) == Concat(ps[..k]) + ps[k] + Concat(ps[k + 1..])
    decreases k
  {
    if k > 0 {
      ConcatSplit(ps[1..], k - 1);
      assert ps[1..][..k - 1] == ps[1..k];
      assert ps[1..][k - 1 + 1..] == ps[k + 1..];
      assert ps[..k] == [ps[0]] + ps[1..k];
      assert Concat(ps[..k]) == ps[0] + Concat(ps[1..k]) by {
        assert ps[..k][1..] == ps[1..k];
      }
    }
  }

  /** Every piece of a template literal can be found in its text. */
  lemma ConcatIncludes(ps: seq<string>, k: nat)
    requires k < |ps|
    ensures Includes(Concat(ps), ps[k])
  {
    ConcatSplit(ps, k);
    IncludesMiddle(Concat(ps[..k]), ps[k], Concat(ps[k + 1..]));
  }

  /** A template literal starts with its first piece. */
  lemma ConcatStartsWith(ps: seq<string>)
    requires |ps| > 0
    ensures StartsWith(Concat(ps), ps[0])
  {
    StartsWithAppend(ps[0], Concat(ps[1..]));
  }

  /** Pieces without line breaks make a text without line breaks. */
  lemma {:induction false} ConcatNoNewline(ps: seq<string>)
    requires forall k :: 0 <= k < |ps| ==> NoNewline(ps[k])
    ensures NoNewline(Concat(ps))
    decreases |ps|
  {
    if ps != [] {
      ConcatNoNewline(ps[1..]);
      assert forall c :: c in ps[0] + Concat(ps[1..]) ==> c in ps[0] || c in Concat(ps[1..]);
      assert NoNewline(ps[0]);
    }
  }

  lemma DigitsNoNewline(s: string)
    requires AllDigits(s)
    ensures NoNewline(s)
  {
  }

  lemma IntToStringNoNewline(i: int)
    ensures NoNewline(IntToString(i))
  {
    if i < 0 {
      DigitsNoNewline(NatToString(-i));
      NoNewlineAppend("-", NatToString(-i));
    } else {
      DigitsNoNewline(NatToString(i));
    }
  }

  lemma NoNewlineAppend(a: string, b: string)
    requires NoNewline(a) && NoNewline(b)
    ensures NoNewline(a + b)
  {
    assert forall c :: c in a + b ==> c in a || c in b;
  }

  // ---------------------------------------------------------------- split / join

  /** `s.split(sep)`: never empty; n separators give n + 1 parts. */
  function Split(s: string, sep: char): (r: seq<string>)
    ensures |r| >= 1
    ensures forall k :: 0 <= k < |r| ==> sep !in r[k]
    decreases |s|
  {
    if s == [] then [""]
    else
      var rest := Split(s[1..], sep);
      if s[0] == sep then [""] + rest else [[s[0]] + rest[0]] + rest[1..]
  }

  /** `parts.join(sep)` */
  function Join(parts: seq<string>, sep: string): string
    decreases |parts|
  {
    if parts == [] then ""
    else if |parts| == 1 then parts[0]
    else parts[0] + sep + Join(parts[1..], sep)
  }

  /** `parts.map(Capitalize)` */
  function CapitalizeAll(parts: seq<string>): (r: seq<string>)
    ensures |r| == |parts| && forall k :: 0 <= k < |parts| ==> r[k] == Capitalize(parts[k])
  {
    seq(|parts|, k requires 0 <= k < |parts| => Capitalize(parts[k]))
  }

  /** Cuts s at its first c: the part before and the part after; None when c is absent. */
  function SplitAtFirst(s: string, c: char): (r: Option<(string, string)>)
    ensures r.None? <==> c !in s
    ensures r.Some? ==> s == r.value.0 + [c] + r.value.1 && c !in r.value.0
    decreases |s|
  {
    if s == [] then None
    else if s[0] == c then Some(([], s[1..]))
    else
      match SplitAtFirst(s[1..], c)
      case None => None
      case Some((before, after)) => Some(([s[0]] + before, after))
  }

  /** Cutting at the first c finds the c right after a piece that has none. */
  lemma {:induction false} SplitAtFirstAppend(a: string, c: char, b: string)
    requires c !in a
    ensures SplitAtFirst(a + [c] + b, c) == Some((a, b))
    decreases |a|
  {
    var s := a + [c] + b;
    if a == [] {
      assert s[1..] == b;
    } else {
      assert s[1..] == a[1..] + [c] + b;
      SplitAtFirstAppend(a[1..], c, b);
      assert [a[0]] + a[1..] == a;
    }
  }

  // ---------------------------------------------------------------- lines

  predicate NoNewline(s: string) { '\n' !in s }

  /** No line of a list holds a line break. */
  predicate AllOneLine(lines: seq<string>) {
    forall k :: 0 <= k < |lines| ==> NoNewline(lines[k])
  }

  lemma AllOneLineAppend(a: seq<string>, b: seq<string>)
    requires AllOneLine(a) && AllOneLine(b)
    ensures AllOneLine(a + b)
  {
    forall k | 0 <= k < |a + b| ensures NoNewline((a + b)[k]) {
      if k >= |a| { assert (a + b)[k] == b[k - |a|]; }
    }
  }

  /** A text written line by line, every line ended by '\n'. */
  function UnLines(lines: seq<string>): string
    decreases |lines|
  {
    if lines == [] then "" else lines[0] + "\n" + UnLines(lines[1..])
  }

  lemma {:induction false} UnLinesAppend(a: seq<string>, b: seq<string>)
    ensures UnLines(a + b) == UnLines(a) + UnLines(b)
    decreases |a|
  {
    if a == [] {
      assert a + b == b;
    } else {
      assert (a + b)[1..] == a[1..] + b;
      UnLinesAppend(a[1..], b);
    }
  }

  lemma UnLinesOne(a: string)
    ensures UnLines([a]) == a + "\n"
  {
    assert [a][1..] == [];
  }

  lemma UnLinesTwo(a: string, b: string)
    ensures UnLines([a, b]) == a + "\n" + b + "\n"
  {
    assert [a, b] == [a] + [b];
    UnLinesAppend([a], [b]);
    UnLinesOne(a);
    UnLinesOne(b);
  }

  lemma UnLinesThree(a: string, b: string, c: string)
    ensures UnLines([a, b, c]) == a + "\n" + b + "\n" + c + "\n"
  {
    assert [a, b, c] == [a, b] + [c];
    UnLinesAppend([a, b], [c]);
    UnLinesTwo(a, b);
    UnLinesOne(c);
  }

  /** Appending a line and its line break to the text of some lines. */
  lemma AddLine(message: string, lines: seq<string>, l: string)
    requires message == UnLines(lines)
    ensures message + l + "\n" == UnLines(lines + [l])
    ensures l == "" ==> message + "\n" == UnLines(lines + [l])
  {
    UnLinesAppend(lines, [l]);
    UnLinesOne(l);
    AppendAssoc(message, l, "\n");
  }

  lemma AppendAssoc(a: string, b: string, c: string)
    ensures a + b + c == a + (b + c)
  {
  }

  /** Appending a blank line and then a line. */
  lemma AddBlankAndLine(message: string, lines: seq<string>, l: string)
    requires message == UnLines(lines)
    ensures message + "\n" + l + "\n" == UnLines(lines + ["", l])
  {
    AddLine(message, lines, "");
    AddLine(message + "\n", lines + [""], l);
    assert lines + [""] + [l] == lines + ["", l];
  }

  /** `s.forEach(x => text += line(x) + '\n')` */
  method AppendLines<T>(text: string, s: seq<T>, line: T -> string) returns (r: string)
    ensures r == text + UnLines(Map(s, line))
  {
    r := text;
    var i := 0;
    assert Map(s[..0], line) == [];
    while i < |s|
      invariant 0 <= i <= |s|
      invariant r == text + UnLines(Map(s[..i], line))
    {
      assert s[..i + 1][..i] == s[..i];
      assert Map(s[..i + 1], line) == Map(s[..i], line) + [line(s[i])];
      UnLinesAppend(Map(s[..i], line), [line(s[i])]);
      UnLinesOne(line(s[i]));
      AppendAssoc(text, UnLines(Map(s[..i], line)), line(s[i]) + "\n");
      r := r + (line(s[i]) + "\n");
      i := i + 1;
    }
    assert s[..|s|] == s;
  }

  /** Cuts a text at every '\n'; a last line without '\n' counts too. */
  function SplitLines(t: string): seq<string>
    decreases |t|
  {
    if t == [] then []
    else if t[0] == '\n' then [""] + SplitLines(t[1..])
    else
      var r := SplitLines(t[1..]);
      if r == [] then [[t[0]]] else [[t[0]] + r[0]] + r[1..]
  }

  lemma {:induction false} SplitLinesCons(l: string, rest: string)
    requires NoNewline(l)
    ensures SplitLines(l + "\n" + rest) == [l] + SplitLines(rest)
    decreases |l|
  {
    var t := l + "\n" + rest;
    if l == [] {
      assert t[1..] == rest;
    } else {
      assert t[1..] == l[1..] + "\n" + rest;
      SplitLinesCons(l[1..], rest);
      assert [t[0]] + l[1..] == l;
    }
  }

  lemma {:induction false} SplitLinesSingle(t: string)
    requires NoNewline(t) && t != []
    ensures SplitLines(t) == [t]
    decreases |t|
  {
    assert t[0] in t;
    assert t[0] != '\n';
    var r := SplitLines(t[1..]);
    if |t| > 1 {
      assert forall c :: c in t[1..] ==> c in t;
      SplitLinesSingle(t[1..]);
      assert r == [t[1..]];
      assert [t[0]] + t[1..] == t;
      assert SplitLines(t) == [[t[0]] + t[1..]] + r[1..];
      assert r[1..] == [];
    } else {
      assert t[1..] == [];
      assert r == [];
      assert [t[0]] == t;
      assert SplitLines(t) == [[t[0]]];
    }
  }

  /** Lines, each ended by '\n', followed by a last unended line read back as all of them. */
  lemma {:induction false} SplitUnLinesThen(lines: seq<string>, last: string)
    requires forall k :: 0 <= k < |lines| ==> NoNewline(lines[k])
    requires NoNewline(last) && last != []
    ensures SplitLines(UnLines(lines) + last) == lines + [last]
    decreases |lines|
  {
    if lines == [] {
      SplitLinesSingle(last);
      assert UnLines(lines) + last == last;
    } else {
      assert UnLines(lines) + last == lines[0] + "\n" + (UnLines(lines[1..]) + last);
      SplitLinesCons(lines[0], UnLines(lines[1..]) + last);
      SplitUnLinesThen(lines[1..], last);
      assert [lines[0]] + (lines[1..] + [last]) == lines + [last];
    }
  }

  /** Reading a line-by-line text back gives the same lines. */
  lemma {:induction false} SplitUnLines(lines: seq<string>)
    requires forall k :: 0 <= k < |lines| ==> NoNewline(lines[k])
    ensures SplitLines(UnLines(lines)) == lines
    decreases |lines|
  {
    if lines != [] {
      SplitLinesCons(lines[0], UnLines(lines[1..]));
      SplitUnLines(lines[1..]);
    }
  }
}
