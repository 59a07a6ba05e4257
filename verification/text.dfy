/** Python string operations the modelled code relies on: `str.join`,
    `str.split` with a one-character separator, `str(int)`, `int(str)`,
    slicing past the end, `startswith`, ASCII `lower`/`upper` and
    `str.replace`. */
module Text {
  import opened Wrappers

  predicate IsDigit(c: char) { '0' <= c <= '9' }

  /** The ASCII characters Python's `str.isspace` accepts (what `int()` strips). */
  predicate IsSpace(c: char) {
    c == ' ' || ('\t' <= c <= '\r') || (28 <= c as int <= 31)
  }

  function DigitChar(d: nat): (c: char)
    requires d < 10
    ensures IsDigit(c)
  {
    ('0' as int + d) as char
  }

  function DigitValue(c: char): nat
    requires IsDigit(c)
  {
    c as int - '0' as int
  }

  /** `str(n)` for a non-negative integer: decimal digits, no leading zero. */
  function NatToString(n: nat): (s: string)
    ensures |s| > 0
    ensures forall i :: 0 <= i < |s| ==> IsDigit(s[i])
    ensures n > 0 ==> s[0] != '0'
    decreases n
  {
    if n < 10 then [DigitChar(n)] else NatToString(n / 10) + [DigitChar(n % 10)]
  }

  /** `str(i)` for any integer. */
  function IntToString(i: int): string {
    if i < 0 then "-" + NatToString(-i) else NatToString(i)
  }

  predicate DigitsOrUnderscores(s: string) {
    forall i :: 0 <= i < |s| ==> IsDigit(s[i]) || s[i] == '_'
  }

  /** Python's `int()` accepts digits separated by single underscores. */
  predicate IsDigitGroup(s: string) {
    |s| > 0 && IsDigit(s[0]) && DigitsOrUnderscores(s) &&
    forall i :: 0 <= i < |s| && s[i] == '_' ==> i + 1 < |s| && IsDigit(s[i + 1])
  }

  /** Value of a digit string, underscores ignored. */
  function DigitsValue(s: string): nat
    requires DigitsOrUnderscores(s)
  {
    if s == [] then 0
    else if s[|s| - 1] == '_' then DigitsValue(s[..|s| - 1])
    else DigitsValue(s[..|s| - 1]) * 10 + DigitValue(s[|s| - 1])
  }

  function TrimLeft(s: string): (r: string)
    ensures |r| <= |s|
    ensures r == [] || !IsSpace(r[0])
  {
    if s != [] && IsSpace(s[0]) then TrimLeft(s[1..]) else s
  }

  function TrimRight(s: string): (r: string)
    ensures |r| <= |s|
    ensures r == [] || !IsSpace(r[|r| - 1])
  {
    if s != [] && IsSpace(s[|s| - 1]) then TrimRight(s[..|s| - 1]) else s
  }

  function Strip(s: string): string {
    TrimRight(TrimLeft(s))
  }

  /** Python's `int(s)` on a string: `None` where Python raises ValueError.
      Surrounding whitespace is stripped, an optional sign is accepted. */
  function ParseInt(s: string): Option<int> {
    var t := Strip(s);
    if |t| > 0 && (t[0] == '-' || t[0] == '+') then
      if IsDigitGroup(t[1..]) then
        var v: int := DigitsValue(t[1..]);
        Some(if t[0] == '-' then -v else v)
      else None
    else if IsDigitGroup(t) then Some(DigitsValue(t))
    else None
  }

  /** Python's `s[k:]`, which is empty rather than an error past the end. */
  function Drop<T>(s: seq<T>, k: nat): (r: seq<T>)
    ensures |r| == if k <= |s| then |s| - k else 0
  {
    if k <= |s| then s[k..] else []
  }

  /** Python's `s[:k]`. */
  function Take<T>(s: seq<T>, k: nat): (r: seq<T>)
    ensures |r| == if k <= |s| then k else |s|
  {
    if k <= |s| then s[..k] else s
  }

  predicate StartsWith(s: string, prefix: string) {
    |prefix| <= |s| && s[..|prefix|] == prefix
  }

  function LowerChar(c: char): char {
    if 'A' <= c <= 'Z' then (c as int + 32) as char else c
  }

  function UpperChar(c: char): char {
    if 'a' <= c <= 'z' then (c as int - 32) as char else c
  }

  function Lower(s: string): (r: string)
    ensures |r| == |s|
    ensures forall i :: 0 <= i < |s| ==> r[i] == LowerChar(s[i])
  {
    if s == [] then [] else [LowerChar(s[0])] + Lower(s[1..])
  }

  function Upper(s: string): (r: string)
    ensures |r| == |s|
    ensures forall i :: 0 <= i < |s| ==> r[i] == UpperChar(s[i])
  {
    if s == [] then [] else [UpperChar(s[0])] + Upper(s[1..])
  }

  /** `sep.join(parts)`. */
  function Join(parts: seq<string>, sep: string): string {
    if |parts| == 0 then ""
    else if |parts| == 1 then parts[0]
    else parts[0] + sep + Join(parts[1..], sep)
  }

  /** `s.split(c)` for a one-character separator. */
  function Split(s: string, c: char): (r: seq<string>)
    ensures |r| > 0
  {
    if s == [] then [""]
    else
      var rest := Split(s[1..], c);
      if s[0] == c then [""] + rest else [[s[0]] + rest[0]] + rest[1..]
  }

  predicate OccursAt(s: string, t: string, i: nat) {
    i + |t| <= |s| && s[i..i + |t|] == t
  }

  /** `s.replace(t, n)`: every non-overlapping occurrence, left to right. */
  function ReplaceAll(s: string, t: string, n: string): string
    requires |t| > 0
    decreases |s|
  {
    if |s| < |t| then s
    else if s[..|t|] == t then n + ReplaceAll(s[|t|..], t, n)
    else [s[0]] + ReplaceAll(s[1..], t, n)
  }

  // ---------------------------------------------------------------------
  // int <-> str

  lemma {:induction false} DigitsValueAppend(s: string, d: nat)
    requires d < 10
    requires DigitsOrUnderscores(s)
    ensures DigitsValue(s + [DigitChar(d)]) == DigitsValue(s) * 10 + d
  {
    var t := s + [DigitChar(d)];
    assert t[..|t| - 1] == s;
  }

  lemma {:induction false} NatToStringValue(n: nat)
    ensures DigitsValue(NatToString(n)) == n
    decreases n
  {
    if n < 10 {
      DigitsValueAppend("", n);
      assert "" + [DigitChar(n)] == [DigitChar(n)];
    } else {
      NatToStringValue(n / 10);
      DigitsValueAppend(NatToString(n / 10), n % 10);
    }
  }

  lemma StripUnchanged(s: string)
    requires s != [] && !IsSpace(s[0]) && !IsSpace(s[|s| - 1])
    ensures Strip(s) == s
  {
  }

  /** `int(str(i)) == i` for every integer. */
  lemma ParseIntToString(i: int)
    ensures ParseInt(IntToString(i)) == Some(i)
  {
    var s := IntToString(i);
    NatToStringValue(if i < 0 then -i else i);
    StripUnchanged(s);
    if i < 0 {
      assert s[1..] == NatToString(-i);
    }
  }

  /** `int(str(i)[k:])` when the characters dropped are a sign and leading
      digits: the remaining digits are read back with leading zeros allowed. */
  lemma {:induction false} DigitsValueConcat(a: string, b: string)
    requires forall i :: 0 <= i < |a| ==> IsDigit(a[i])
    requires forall i :: 0 <= i < |b| ==> IsDigit(b[i])
    ensures DigitsValue(a + b) == DigitsValue(a) * Pow10(|b|) + DigitsValue(b)
    decreases |b|
  {
    if b == [] {
      assert a + b == a;
    } else {
      var b' := b[..|b| - 1];
      var d := DigitValue(b[|b| - 1]);
      assert (a + b)[..|a + b| - 1] == a + b';
      assert (a + b)[|a + b| - 1] == b[|b| - 1];
      DigitsValueConcat(a, b');
      var va, vb, p := DigitsValue(a), DigitsValue(b'), Pow10(|b'|);
      assert Pow10(|b|) == 10 * p;
      assert DigitsValue(a + b) == DigitsValue(a + b') * 10 + d;
      assert DigitsValue(b) == vb * 10 + d;
      ShiftDecimal(va, p, vb);
    }
  }

  lemma ShiftDecimal(x: int, y: int, z: int)
    ensures (x * y + z) * 10 == x * (10 * y) + z * 10
  {
    calc {
      (x * y + z) * 10;
      x * y * 10 + z * 10;
      x * (y * 10) + z * 10;
    }
  }

  function Pow10(k: nat): (r: nat)
    ensures r > 0
  {
    if k == 0 then 1 else 10 * Pow10(k - 1)
  }

  lemma {:induction false} DigitsValuePositive(s: string)
    requires |s| > 0 && s[0] != '0'
    requires forall i :: 0 <= i < |s| ==> IsDigit(s[i])
    ensures DigitsValue(s) > 0
    decreases |s|
  {
    if |s| > 1 {
      DigitsValuePositive(s[..|s| - 1]);
    }
  }

  /** A digit string without a leading zero is what `str` prints for its value. */
  lemma {:induction false} NatToStringCanonical(s: string)
    requires |s| > 0 && s[0] != '0'
    requires forall i :: 0 <= i < |s| ==> IsDigit(s[i])
    ensures NatToString(DigitsValue(s)) == s
    decreases |s|
  {
    var p := s[..|s| - 1];
    if p != [] {
      DigitsValuePositive(p);
      NatToStringCanonical(p);
      var n := DigitsValue(s);
      assert n / 10 == DigitsValue(p) && n % 10 == DigitValue(s[|s| - 1]);
      assert s == p + [s[|s| - 1]];
    }
  }

  // ---------------------------------------------------------------------
  // join / split

  lemma {:induction false} SplitNoSeparator(s: string, c: char)
    requires c !in s
    ensures Split(s, c) == [s]
  {
    if s != [] {
      SplitNoSeparator(s[1..], c);
      assert [s[0]] + s[1..] == s;
    }
  }

  lemma {:induction false} SplitAtSeparator(a: string, b: string, c: char)
    requires c !in a
    ensures Split(a + [c] + b, c) == [a] + Split(b, c)
  {
    if a == [] {
      assert a + [c] + b == [c] + b;
      assert ([c] + b)[1..] == b;
    } else {
      SplitAtSeparator(a[1..], b, c);
      assert (a + [c] + b)[1..] == a[1..] + [c] + b;
      assert [a[0]] + a[1..] == a;
    }
  }

  /** Joining with a one-character separator that no part contains, then
      splitting on it, gives the parts back. */
  lemma {:induction false} SplitJoin(parts: seq<string>, c: char)
    requires |parts| > 0
    requires forall k :: 0 <= k < |parts| ==> c !in parts[k]
    ensures Split(Join(parts, [c]), c) == parts
  {
    if |parts| == 1 {
      SplitNoSeparator(parts[0], c);
    } else {
      SplitJoin(parts[1..], c);
      SplitAtSeparator(parts[0], Join(parts[1..], [c]), c);
      assert [parts[0]] + parts[1..] == parts;
    }
  }

  // ---------------------------------------------------------------------
  // replace

  /** A string in which no occurrence of `t` starts is left unchanged. */
  lemma {:induction false} ReplaceAbsent(s: string, t: string, n: string)
    requires |t| > 0
    requires forall i :: 0 <= i <= |s| ==> !OccursAt(s, t, i)
    ensures ReplaceAll(s, t, n) == s
    decreases |s|
  {
    if |s| >= |t| {
      assert !OccursAt(s, t, 0);
      forall i | 0 <= i <= |s[1..]|
        ensures !OccursAt(s[1..], t, i)
      {
        assert !OccursAt(s, t, i + 1);
        if i + |t| <= |s[1..]| {
          assert s[1..][i..i + |t|] == s[i + 1..i + 1 + |t|];
        }
      }
      ReplaceAbsent(s[1..], t, n);
    }
  }

  /** Replacement skips a prefix in which no occurrence of `t` starts. */
  lemma {:induction false} ReplaceAfterPrefix(p: string, s: string, t: string, n: string)
    requires |t| > 0
    requires forall i :: 0 <= i < |p| ==> !OccursAt(p + s, t, i)
    ensures ReplaceAll(p + s, t, n) == p + ReplaceAll(s, t, n)
    decreases |p|
  {
    if p != [] {
      var q := p[1..];
      assert (p + s)[1..] == q + s;
      forall i | 0 <= i < |q|
        ensures !OccursAt(q + s, t, i)
      {
        assert !OccursAt(p + s, t, i + 1);
        if i + |t| <= |q + s| {
          assert (q + s)[i..i + |t|] == (p + s)[i + 1..i + 1 + |t|];
        }
      }
      ReplaceAfterPrefix(q, s, t, n);
      assert !OccursAt(p + s, t, 0);
      if |p + s| >= |t| {
        assert (p + s)[..|t|] != t;
      }
      assert [p[0]] + (q + ReplaceAll(s, t, n)) == p + ReplaceAll(s, t, n);
    } else {
      assert p + s == s;
    }
  }

  /** No position of `s` holds the character `a` followed by `b`. */
  predicate NoPair(s: string, a: char, b: char) {
    forall i :: 0 <= i < |s| - 1 ==> !(s[i] == a && s[i + 1] == b)
  }

  lemma NoPairConcat(x: string, y: string, a: char, b: char)
    requires NoPair(x, a, b) && NoPair(y, a, b)
    requires x == [] || y == [] || !(x[|x| - 1] == a && y[0] == b)
    ensures NoPair(x + y, a, b)
  {
    var s := x + y;
    forall i | 0 <= i < |s| - 1
      ensures !(s[i] == a && s[i + 1] == b)
    {
      if i + 1 < |x| {
        assert s[i] == x[i] && s[i + 1] == x[i + 1];
      } else if i >= |x| {
        assert s[i] == y[i - |x|] && s[i + 1] == y[i + 1 - |x|];
      }
    }
  }

  /** A pattern containing the pair `a b` cannot occur anywhere in a string
      free of that pair. */
  lemma NoPairNoOccurrence(s: string, t: string, a: char, b: char, k: nat, i: nat)
    requires NoPair(s, a, b)
    requires k + 1 < |t| && t[k] == a && t[k + 1] == b
    ensures !OccursAt(s, t, i)
  {
    if i + |t| <= |s| {
      assert !(s[i + k] == a && s[i + k + 1] == b);
      assert s[i..i + |t|][k] == s[i + k] && s[i..i + |t|][k + 1] == s[i + k + 1];
    }
  }

  /** The pair-free form of `NoPair` for a string that lacks `a` altogether. */
  lemma NoPairWithout(s: string, a: char, b: char)
    requires a !in s
    ensures NoPair(s, a, b)
  {
    forall i | 0 <= i < |s| - 1 ensures s[i] != a {
      assert s[i] in s;
    }
  }

  // ---------------------------------------------------------------------
  // repr

  /** A hexadecimal digit, lower case. */
  function HexDigit(d: nat): char
    requires d < 16
  {
    if d < 10 then ('0' as int + d) as char else ('a' as int + d - 10) as char
  }

  /** The quote Python's `repr` puts around a string: single quotes,
      unless the string holds a single quote and no double quote. */
  function ReprQuote(s: string): char {
    if '\'' in s && '"' !in s then '"' else '\''
  }

  /** One character of a string's `repr` between quotes `q`: the quote
      itself and the backslash are escaped, tab, newline and carriage
      return get their short escapes, and the other ASCII control
      characters and DEL are written `\xhh`. */
  function ReprChar(c: char, q: char): string {
    if c == q || c == '\\' then ['\\', c]
    else if c == '\t' then "\\t"
    else if c == '\n' then "\\n"
    else if c == '\r' then "\\r"
    else if (c as int) < 0x20 || c as int == 0x7f then "\\x" + [HexDigit(c as int / 16), HexDigit(c as int % 16)]
    else [c]
  }

  function ReprBody(s: string, q: char): string {
    if s == [] then "" else ReprChar(s[0], q) + ReprBody(s[1..], q)
  }

  /** `repr` of a string. */
  function StrRepr(s: string): string {
    var q := ReprQuote(s);
    [q] + ReprBody(s, q) + [q]
  }

  /** A character that `repr` keeps as it is. */
  predicate PlainChar(c: char) {
    c != '\'' && c != '"' && c != '\\' && 0x20 <= c as int && c as int != 0x7f
  }

  /** A string of plain characters is shown between single quotes,
      unchanged. */
  lemma {:induction false} PlainRepr(s: string)
    requires forall k :: 0 <= k < |s| ==> PlainChar(s[k])
    ensures StrRepr(s) == "'" + s + "'"
  {
    PlainBody(s, '\'');
  }

  lemma {:induction false} PlainBody(s: string, q: char)
    requires forall k :: 0 <= k < |s| ==> PlainChar(s[k])
    requires q == '\'' || q == '"'
    ensures ReprBody(s, q) == s
  {
    if s != [] {
      assert PlainChar(s[0]);
      PlainBody(s[1..], q);
      assert s == [s[0]] + s[1..];
    }
  }
}
