/**
 * The JavaScript string built-ins the pages rely on: `trim`, `split` on a
 * one-character separator, `includes`, `parseInt`, `parseFloat` (read
 * into whole cents) and decimal formatting of integers.
 */
module JsText {
  import opened Common
  import Seqs

  /** The characters `String.prototype.trim` removes (ECMAScript WhiteSpace and LineTerminator). */
  predicate IsSpace(c: char) {
    c == ' ' || c == '\t' || c == '\n' || c == '\r' || c == '\U{B}' || c == '\U{C}' ||
    c == '\U{A0}' || c == '\U{FEFF}' || c == '\U{1680}' || ('\U{2000}' <= c <= '\U{200A}') ||
    c == '\U{2028}' || c == '\U{2029}' || c == '\U{202F}' || c == '\U{205F}' || c == '\U{3000}'
  }

  /** An ASCII decimal digit (what `\d` and `parseInt` accept). */
  predicate IsDigit(c: char) {
    '0' <= c <= '9'
  }

  /** `s.trimStart()`. */
  function TrimStart(s: string): (r: string)
    ensures |r| <= |s| && r == s[|s| - |r|..]
    ensures |r| > 0 ==> !IsSpace(r[0])
    ensures forall i :: 0 <= i < |s| - |r| ==> IsSpace(s[i])
    ensures r == "" <==> forall i :: 0 <= i < |s| ==> IsSpace(s[i])
  {
    if |s| > 0 && IsSpace(s[0]) then TrimStart(s[1..]) else s
  }

  /** `s.trimEnd()`. */
  function TrimEnd(s: string): (r: string)
    ensures |r| <= |s| && r == s[..|r|]
    ensures |r| > 0 ==> !IsSpace(r[|r| - 1])
    ensures forall i :: |r| <= i < |s| ==> IsSpace(s[i])
    ensures r == "" <==> forall i :: 0 <= i < |s| ==> IsSpace(s[i])
  {
    if |s| > 0 && IsSpace(s[|s| - 1]) then TrimEnd(s[..|s| - 1]) else s
  }

  /**
   * `s.trim()`: a block of `s` with no white space at either end, empty
   * exactly when `s` is all white space, and only white space is dropped.
   */
  function Trim(s: string): (r: string)
    ensures Contains(s, r)
    ensures |r| > 0 ==> !IsSpace(r[0]) && !IsSpace(r[|r| - 1])
    ensures r == "" <==> forall i :: 0 <= i < |s| ==> IsSpace(s[i])
  {
    var t := TrimStart(s);
    var r := TrimEnd(t);
    assert OccursAt(s, r, |s| - |t|);
    r
  }

  /** Trimming twice is trimming once. */
  lemma TrimIdempotent(s: string)
    ensures Trim(Trim(s)) == Trim(s)
  {
    var r := Trim(s);
    assert TrimStart(r) == r;
  }

  /** `sub` occurs in `s` starting at index `i`. */
  predicate OccursAt(s: string, sub: string, i: int) {
    0 <= i && i + |sub| <= |s| && s[i..i + |sub|] == sub
  }

  /** `s.includes(sub)`. */
  predicate Contains(s: string, sub: string) {
    exists i | 0 <= i <= |s| - |sub| :: OccursAt(s, sub, i)
  }

  /** Five ASCII digits in a row start at index `i` of `s`. */
  predicate FiveDigitsAt(s: string, i: int) {
    0 <= i && i + 5 <= |s| && forall j | i <= j < i + 5 :: IsDigit(s[j])
  }

  /** The `/\d{5}/` test: five consecutive ASCII digits somewhere in `s`. */
  predicate HasFiveDigitRun(s: string) {
    exists i | 0 <= i <= |s| - 5 :: FiveDigitsAt(s, i)
  }

  /** `s.split(sep)` for a one-character separator. */
  function Split(s: string, sep: char): (parts: seq<string>)
    ensures |parts| >= 1
    ensures forall k :: 0 <= k < |parts| ==> sep !in parts[k]
    decreases |s|
  {
    if sep !in s then [s]
    else
      var i := Seqs.IndexOf(s, sep);
      [s[..i]] + Split(s[i + 1..], sep)
  }

  /** `parts.join(sep)`. */
  function Join(parts: seq<string>, sep: char): string
  {
    if |parts| == 0 then ""
    else if |parts| == 1 then parts[0]
    else parts[0] + [sep] + Join(parts[1..], sep)
  }

  /** Splitting and joining again restores the string. */
  lemma {:induction false} JoinSplit(s: string, sep: char)
    ensures Join(Split(s, sep), sep) == s
    decreases |s|
  {
    if sep in s {
      var i := Seqs.IndexOf(s, sep);
      SplitFirst(s, sep);
      JoinSplit(s[i + 1..], sep);
      JoinCons(s[..i], Split(s[i + 1..], sep), sep);
    }
  }

  /** A string holding the separator splits into the piece before its first occurrence and the pieces after it. */
  lemma SplitFirst(s: string, sep: char)
    requires sep in s
    ensures var i := Seqs.IndexOf(s, sep);
      Split(s, sep) == [s[..i]] + Split(s[i + 1..], sep) && s == s[..i] + [sep] + s[i + 1..]
  {
    var i := Seqs.IndexOf(s, sep);
    AroundIndex(s, i);
  }

  /** A string is the part before index `i`, the character there and the part after it. */
  lemma AroundIndex(s: string, i: int)
    requires 0 <= i < |s|
    ensures s == s[..i] + [s[i]] + s[i + 1..]
  {
    assert s[..i] + [s[i]] == s[..i + 1];
  }

  /** Joining a first piece onto at least one more puts a separator between them. */
  lemma JoinCons(a: string, rest: seq<string>, sep: char)
    requires |rest| >= 1
    ensures Join([a] + rest, sep) == a + [sep] + Join(rest, sep)
  {
    assert ([a] + rest)[1..] == rest;
  }

  /** The first separator of `a + [sep] + b` is the one after `a` when `a` holds none. */
  lemma {:induction false} IndexOfAfter(a: string, sep: char, b: string)
    requires sep !in a
    ensures Seqs.IndexOf(a + [sep] + b, sep) == |a|
  {
    if |a| > 0 {
      assert (a + [sep] + b)[1..] == a[1..] + [sep] + b;
      IndexOfAfter(a[1..], sep, b);
    }
  }

  /** Splitting at a first separator: the piece before it, then the pieces of the rest. */
  lemma SplitAt(a: string, sep: char, b: string)
    requires sep !in a
    ensures Split(a + [sep] + b, sep) == [a] + Split(b, sep)
  {
    var s := a + [sep] + b;
    IndexOfAfter(a, sep, b);
    assert s[..|a|] == a;
    assert s[|a| + 1..] == b;
  }

  /** Joining pieces free of the separator and splitting again restores the pieces. */
  lemma {:induction false} SplitJoin(parts: seq<string>, sep: char)
    requires |parts| >= 1
    requires forall k :: 0 <= k < |parts| ==> sep !in parts[k]
    ensures Split(Join(parts, sep), sep) == parts
  {
    if |parts| == 1 {
      assert Join(parts, sep) == parts[0];
      assert sep !in parts[0];
    } else {
      var rest := parts[1..];
      assert parts == [parts[0]] + rest;
      JoinCons(parts[0], rest, sep);
      SplitJoin(rest, sep);
      SplitAt(parts[0], sep, Join(rest, sep));
    }
  }

  /**
   * The piece a destructuring `const [a, b] = s.split(sep)` binds at `k`,
   * as a template literal or string concatenation prints it: a missing
   * piece prints as "undefined".
   */
  function PieceOrUndefined(parts: seq<string>, k: nat): string {
    if k < |parts| then parts[k] else "undefined"
  }

  function DigitValue(c: char): nat
    requires IsDigit(c)
  {
    (c as int) - ('0' as int)
  }

  /** The value of a string of decimal digits. */
  function DecimalValue(ds: string): nat
    requires forall i :: 0 <= i < |ds| ==> IsDigit(ds[i])
  {
    if |ds| == 0 then 0 else 10 * DecimalValue(ds[..|ds| - 1]) + DigitValue(ds[|ds| - 1])
  }

  /** A number read after a minus sign is negated; NaN stays NaN. */
  function Negated(r: Option<int>, negative: bool): Option<int> {
    if negative && r.Some? then Some(-r.value) else r
  }

  /**
   * The digits `parseInt` reads after the sign, scanning left to right:
   * `acc` is the value of the digits read so far and `seen` whether there
   * was any. The scan stops at the first character that is not a digit.
   */
  function DigitsFrom(s: string, acc: nat, seen: bool): (r: Option<int>)
    ensures r.Some? ==> r.value >= 0
    decreases |s|
  {
    if |s| > 0 && IsDigit(s[0]) then DigitsFrom(s[1..], 10 * acc + DigitValue(s[0]), true)
    else if seen then Some(acc)
    else None
  }

  /**
   * `parseInt(s)` (base 10): leading white space, an optional sign, then the
   * longest run of digits; `None` stands for NaN, when there is no digit.
   */
  function ParseInt(s: string): Option<int>
    decreases |s|
  {
    if |s| > 0 && IsSpace(s[0]) then ParseInt(s[1..])
    else if |s| > 0 && (s[0] == '-' || s[0] == '+') then Negated(DigitsFrom(s[1..], 0, false), s[0] == '-')
    else DigitsFrom(s, 0, false)
  }

  /**
   * The digits after a decimal point, read to the nearest whole cent with
   * halves rounded up. Whether the part beyond the second digit reaches half
   * a cent depends on the third digit alone.
   */
  function FractionCents(f: string): (c: nat)
    requires |f| > 0 && IsDigit(f[0])
    ensures c <= 100
  {
    var tenth := DigitValue(f[0]);
    var hundredth := if |f| > 1 && IsDigit(f[1]) then DigitValue(f[1]) else 0;
    var roundUp := |f| > 2 && IsDigit(f[1]) && IsDigit(f[2]) && DigitValue(f[2]) >= 5;
    10 * tenth + hundredth + (if roundUp then 1 else 0)
  }

  /**
   * The unsigned part of `parseFloat` in cents, scanning left to right as
   * `DigitsFrom` does; after the whole part, a `.` followed by a digit
   * starts the fraction. `None` when there is no digit on either side of
   * the point.
   */
  function CentsFrom(s: string, acc: nat, seen: bool): (r: Option<int>)
    ensures r.Some? ==> r.value >= 0
    decreases |s|
  {
    if |s| > 0 && IsDigit(s[0]) then CentsFrom(s[1..], 10 * acc + DigitValue(s[0]), true)
    else if |s| > 1 && s[0] == '.' && IsDigit(s[1]) then Some(100 * acc + FractionCents(s[1..]))
    else if seen then Some(100 * acc)
    else None
  }

  /**
   * `parseFloat(s)` read to the nearest whole cent: leading white space, an
   * optional sign, then the unsigned number; `None` stands for NaN.
   */
  function ParseCents(s: string): Option<int>
    decreases |s|
  {
    if |s| > 0 && IsSpace(s[0]) then ParseCents(s[1..])
    else if |s| > 0 && (s[0] == '-' || s[0] == '+') then Negated(CentsFrom(s[1..], 0, false), s[0] == '-')
    else CentsFrom(s, 0, false)
  }

  /** Reading a digit string from any point on, with the value of the digits before it, gives the whole string's value. */
  lemma {:induction false} ScanDigits(ds: string, k: nat)
    requires forall i :: 0 <= i < |ds| ==> IsDigit(ds[i])
    requires 0 < |ds| && k <= |ds|
    ensures DigitsFrom(ds[k..], DecimalValue(ds[..k]), k > 0) == Some(DecimalValue(ds))
    ensures CentsFrom(ds[k..], DecimalValue(ds[..k]), k > 0) == Some(100 * DecimalValue(ds))
    decreases |ds| - k
  {
    if k == |ds| {
      assert ds[..k] == ds;
    } else {
      assert ds[..k + 1][..k] == ds[..k];
      assert ds[k..][1..] == ds[k + 1..];
      ScanDigits(ds, k + 1);
    }
  }

  /** A run of digits alone reads as its decimal value, or that many whole units in cents. */
  lemma ScanAllDigits(ds: string)
    requires 0 < |ds| && forall i :: 0 <= i < |ds| ==> IsDigit(ds[i])
    ensures DigitsFrom(ds, 0, false) == Some(DecimalValue(ds))
    ensures CentsFrom(ds, 0, false) == Some(100 * DecimalValue(ds))
  {
    ScanDigits(ds, 0);
    assert ds[0..] == ds;
    assert ds[..0] == "";
  }

  /** `n.toString()` for a non-negative integer. */
  function NatToString(n: nat): (s: string)
    ensures |s| >= 1
    ensures forall i :: 0 <= i < |s| ==> IsDigit(s[i])
  {
    if n < 10 then [('0' as int + n) as char]
    else NatToString(n / 10) + [('0' as int + n % 10) as char]
  }

  /** `n.toString()` for an integer. */
  function IntToString(n: int): string {
    if n < 0 then "-" + NatToString(-n) else NatToString(n)
  }

  /** Printing a non-negative integer in decimal and reading the digits back is the identity. */
  lemma {:induction false} DecimalValueOfNatToString(n: nat)
    ensures DecimalValue(NatToString(n)) == n
  {
    if n >= 10 {
      DecimalValueOfNatToString(n / 10);
      var s := NatToString(n);
      assert s[..|s| - 1] == NatToString(n / 10);
    }
  }

  /** The decimal form of an integer: a minus sign exactly for a negative one, then the digits of its magnitude. */
  lemma IntToStringShape(n: int)
    ensures var s, m := IntToString(n), if n < 0 then -n else n;
      !IsSpace(s[0]) && (s[0] == '-' <==> n < 0) && s[0] != '+' &&
      (if n < 0 then s[1..] else s) == NatToString(m)
  {
    var s := IntToString(n);
    var m := if n < 0 then -n else n;
    var digits := NatToString(m);
    assert IsDigit(digits[0]);
    if n < 0 {
      assert s == "-" + digits;
      assert s[1..] == digits;
    }
  }

  /** `parseInt(String(n)) === n`: parsing an integer's decimal form gives the integer back. */
  lemma ParseIntToString(n: int)
    ensures ParseInt(IntToString(n)) == Some(n)
  {
    var m := if n < 0 then -n else n;
    IntToStringShape(n);
    ScanAllDigits(NatToString(m));
    DecimalValueOfNatToString(m);
  }

  /** `parseFloat` of an integer's decimal form, in cents, is a hundred times the integer. */
  lemma ParseCentsOfInt(n: int)
    ensures ParseCents(IntToString(n)) == Some(100 * n)
  {
    var m := if n < 0 then -n else n;
    IntToStringShape(n);
    ScanAllDigits(NatToString(m));
    DecimalValueOfNatToString(m);
  }

  /** `String(n).padStart(2, '0')` for a non-negative integer. */
  function Pad2(n: nat): (s: string)
    ensures |s| >= 2
  {
    var d := NatToString(n);
    if |d| < 2 then "0" + d else d
  }

  /** Padding keeps the value: a two-digit field reads back as the number. */
  lemma ParsePad2(n: nat)
    ensures ParseInt(Pad2(n)) == Some(n)
  {
    var d := NatToString(n);
    DecimalValueOfNatToString(n);
    var s := Pad2(n);
    ScanAllDigits(s);
    if |d| < 2 {
      assert s == ['0'] + d;
      assert s[..1] == "0" && s[1..] == d;
      assert s[..1][..0] == "" && d[..0] == "";
    } else {
      ParseIntToString(n);
    }
  }
}
