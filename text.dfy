/**
 * The JavaScript string built-ins the backup tool relies on: `trim`,
 * `toLowerCase`, `split` on one character, `replace` of one character
 * everywhere, stripping one trailing "/", `padStart`, integer printing
 * (`${n}`) and `parseInt(s, 10)`.
 */
module Text {
  import opened Results

  /** The code points ECMAScript counts as WhiteSpace or LineTerminator:
      what `trim` removes and what `parseInt` skips before the number. */
  predicate IsSpace(c: char) {
    || c == '\t' || c == '\n' || c == '\U{000B}' || c == '\U{000C}' || c == '\r' || c == ' '
    || c == '\U{00A0}' || c == '\U{1680}' || ('\U{2000}' <= c <= '\U{200A}')
    || c == '\U{2028}' || c == '\U{2029}' || c == '\U{202F}' || c == '\U{205F}'
    || c == '\U{3000}' || c == '\U{FEFF}'
  }

  predicate AllSpace(s: string) {
    forall i :: 0 <= i < |s| ==> IsSpace(s[i])
  }

  /** No white space at either end. */
  predicate Trimmed(s: string) {
    s == [] || (!IsSpace(s[0]) && !IsSpace(s[|s| - 1]))
  }

  /** `s.trimStart()`: drops the leading white space (see `TrimStartDrops`). */
  function TrimStart(s: string): (r: string)
    ensures |r| <= |s|
    ensures r == [] || !IsSpace(r[0])
  {
    if s != [] && IsSpace(s[0]) then TrimStart(s[1..]) else s
  }

  /** `s.trimEnd()`: drops the trailing white space (see `TrimEndDrops`). */
  function TrimEnd(s: string): (r: string)
    ensures |r| <= |s|
    ensures r == [] || !IsSpace(r[|r| - 1])
    ensures r != [] ==> r[0] == s[0]
  {
    if s != [] && IsSpace(s[|s| - 1]) then TrimEnd(s[..|s| - 1]) else s
  }

  /** `trimStart` keeps a suffix and drops only white space. */
  lemma {:induction false} TrimStartDrops(s: string)
    ensures var r := TrimStart(s); r == s[|s| - |r|..] && AllSpace(s[..|s| - |r|])
  {
    if s != [] && IsSpace(s[0]) {
      TrimStartDrops(s[1..]);
      var r := TrimStart(s[1..]);
      assert s[..|s| - |r|] == [s[0]] + s[1..][..|s| - 1 - |r|];
    }
  }

  /** `trimEnd` keeps a prefix and drops only white space. */
  lemma {:induction false} TrimEndDrops(s: string)
    ensures var r := TrimEnd(s); r == s[..|r|] && AllSpace(s[|r|..])
  {
    if s != [] && IsSpace(s[|s| - 1]) {
      TrimEndDrops(s[..|s| - 1]);
      var r := TrimEnd(s[..|s| - 1]);
      assert s[|r|..] == s[..|s| - 1][|r|..] + [s[|s| - 1]];
    }
  }

  /** `s.trim()`: the part of `s` between its leading and trailing white space. */
  function Trim(s: string): (r: string)
    ensures Trimmed(r)
    ensures |r| <= |s|
  {
    TrimEnd(TrimStart(s))
  }

  /** Trimming adds no character. */
  lemma TrimWithout(s: string, c: char)
    requires c !in s
    ensures c !in Trim(s)
  {
    var t := TrimStart(s);
    var r := TrimEnd(t);
    TrimStartDrops(s);
    TrimEndDrops(t);
    forall i | 0 <= i < |r| ensures r[i] != c {
      assert r[i] == t[i] == s[|s| - |t| + i];
    }
  }

  lemma {:induction false} TrimStartPadded(a: string, m: string)
    requires AllSpace(a)
    requires m == [] || !IsSpace(m[0])
    ensures TrimStart(a + m) == m
  {
    if a != [] {
      assert (a + m)[1..] == a[1..] + m;
      TrimStartPadded(a[1..], m);
    }
  }

  lemma {:induction false} TrimEndPadded(m: string, b: string)
    requires AllSpace(b)
    requires m == [] || !IsSpace(m[|m| - 1])
    ensures TrimEnd(m + b) == m
  {
    if b != [] {
      assert (m + b)[..|m + b| - 1] == m + b[..|b| - 1];
      TrimEndPadded(m, b[..|b| - 1]);
    }
  }

  /** Trimming a string made of white space, a trimmed middle and white space gives the middle. */
  lemma TrimPadded(a: string, m: string, b: string)
    requires AllSpace(a) && AllSpace(b) && Trimmed(m)
    ensures Trim(a + m + b) == m
  {
    if m == [] {
      assert a + m + b == a + b;
      assert (a + b) + [] == a + b;
      TrimStartPadded(a + b, []);
    } else {
      assert a + m + b == a + (m + b);
      TrimStartPadded(a, m + b);
      TrimEndPadded(m, b);
    }
  }

  /** A trimmed string is left as it is. */
  lemma TrimTrimmed(s: string)
    requires Trimmed(s)
    ensures Trim(s) == s
  {
    assert [] + s + [] == s;
    TrimPadded([], s, []);
  }

  lemma TrimIdempotent(s: string)
    ensures Trim(Trim(s)) == Trim(s)
  {
    var t := Trim(s);
    assert [] + t + [] == t;
    TrimPadded([], t, []);
  }

  /** ASCII `toLowerCase`. */
  function LowerChar(c: char): char {
    if 'A' <= c <= 'Z' then (c as int + 32) as char else c
  }

  function Lower(s: string): string {
    seq(|s|, i requires 0 <= i < |s| => LowerChar(s[i]))
  }

  /** `s.split(sep)` for a one-character separator: never empty, and no part holds `sep`. */
  function Split(s: string, sep: char): (parts: seq<string>)
    ensures |parts| >= 1
    ensures forall i :: 0 <= i < |parts| ==> sep !in parts[i]
  {
    if s == [] then [""]
    else
      var rest := Split(s[1..], sep);
      if s[0] == sep then [""] + rest
      else [[s[0]] + rest[0]] + rest[1..]
  }

  /** `parts.join(sep)` */
  function Join(parts: seq<string>, sep: char): string {
    if |parts| == 0 then ""
    else if |parts| == 1 then parts[0]
    else parts[0] + [sep] + Join(parts[1..], sep)
  }

  /** Splitting loses nothing: joining the parts back gives the input. */
  lemma {:induction false} JoinSplit(s: string, sep: char)
    ensures Join(Split(s, sep), sep) == s
  {
    if s != [] {
      var rest := Split(s[1..], sep);
      JoinSplit(s[1..], sep);
      if s[0] == sep {
        assert Split(s, sep)[1..] == rest;
      } else {
        var parts := Split(s, sep);
        if |rest| > 1 {
          assert parts[1..] == rest[1..];
        }
      }
    }
  }

  /** Joining parts without the separator and splitting again gives the parts back. */
  lemma {:induction false} SplitJoin(parts: seq<string>, sep: char)
    requires |parts| >= 1
    requires forall i :: 0 <= i < |parts| ==> sep !in parts[i]
    ensures Split(Join(parts, sep), sep) == parts
  {
    if |parts| == 1 {
      SplitWithout(parts[0], sep);
    } else {
      SplitJoin(parts[1..], sep);
      SplitAt(parts[0], sep, Join(parts[1..], sep));
      assert parts == [parts[0]] + parts[1..];
    }
  }

  /** A string without the separator splits into itself alone. */
  lemma {:induction false} SplitWithout(s: string, sep: char)
    requires sep !in s
    ensures Split(s, sep) == [s]
  {
    if s != [] {
      assert s[0] in s && s == [s[0]] + s[1..];
      SplitWithout(s[1..], sep);
    }
  }

  /** A string with the separator splits into at least two parts. */
  lemma SplitWith(s: string, sep: char)
    requires sep in s
    ensures |Split(s, sep)| >= 2
  {
    JoinSplit(s, sep);
  }

  /** The first part ends at the first separator. */
  lemma {:induction false} SplitAt(x: string, sep: char, rest: string)
    requires sep !in x
    ensures Split(x + [sep] + rest, sep) == [x] + Split(rest, sep)
  {
    if x == [] {
      assert x + [sep] + rest == [sep] + rest;
    } else {
      assert x[0] in x && x == [x[0]] + x[1..];
      assert (x + [sep] + rest)[1..] == x[1..] + [sep] + rest;
      SplitAt(x[1..], sep, rest);
    }
  }

  /** `s.replace(/c/g, rep)`: every `c` becomes `rep`. */
  function Replace(s: string, c: char, rep: string): (r: string)
    ensures c !in rep ==> c !in r
    ensures forall i :: 0 <= i < |r| ==> r[i] in s || r[i] in rep
  {
    if s == [] then ""
    else
      var rest := Replace(s[1..], c, rep);
      var head := if s[0] == c then rep else [s[0]];
      assert forall i :: 0 <= i < |head| ==> head[i] in s || head[i] in rep;
      assert forall i :: |head| <= i < |head + rest| ==> (head + rest)[i] == rest[i - |head|];
      head + rest
  }

  /** Replacing one character by another keeps the length and changes nothing else. */
  lemma {:induction false} ReplaceByChar(s: string, c: char, d: char)
    ensures |Replace(s, c, [d])| == |s|
    ensures forall i :: 0 <= i < |s| ==> Replace(s, c, [d])[i] == (if s[i] == c then d else s[i])
  {
    if s != [] {
      ReplaceByChar(s[1..], c, d);
    }
  }

  /** Removing a character that does not occur changes nothing. */
  lemma {:induction false} ReplaceAbsent(s: string, c: char, rep: string)
    requires c !in s
    ensures Replace(s, c, rep) == s
  {
    if s != [] {
      ReplaceAbsent(s[1..], c, rep);
    }
  }

  /** `s.replace(/\/$/, "")`: at most one trailing slash goes. */
  function StripTrailingSlash(s: string): (r: string)
    ensures s == r || s == r + "/"
    ensures s == r <==> (s == [] || s[|s| - 1] != '/')
  {
    if s != [] && s[|s| - 1] == '/' then s[..|s| - 1] else s
  }

  /** A string setting that is truthy: present and not empty. */
  predicate Filled(o: Option<string>) {
    o.Some? && o.value != ""
  }

  predicate EndsWith(s: string, suffix: string) {
    |suffix| <= |s| && s[|s| - |suffix|..] == suffix
  }

  predicate StartsWith(s: string, prefix: string) {
    |prefix| <= |s| && s[..|prefix|] == prefix
  }

  function Repeat(c: char, n: nat): (r: string)
    ensures |r| == n && forall i :: 0 <= i < n ==> r[i] == c
  {
    if n == 0 then "" else [c] + Repeat(c, n - 1)
  }

  /** `s.padStart(n, c)` for a one-character pad. */
  function PadStart(s: string, n: nat, c: char): (r: string)
    ensures |r| == if |s| >= n then |s| else n
    ensures EndsWith(r, s)
    ensures forall i :: 0 <= i < |r| - |s| ==> r[i] == c
  {
    if |s| >= n then s else Repeat(c, n - |s|) + s
  }

  predicate IsDigit(c: char) {
    '0' <= c <= '9'
  }

  predicate AllDigits(s: string) {
    forall i :: 0 <= i < |s| ==> IsDigit(s[i])
  }

  function DigitChar(d: int): (c: char)
    requires 0 <= d < 10
    ensures IsDigit(c)
  {
    ('0' as int + d) as char
  }

  function DigitValue(c: char): (d: int)
    requires IsDigit(c)
    ensures 0 <= d < 10 && DigitChar(d) == c
  {
    c as int - '0' as int
  }

  /** The decimal digits of `n`, without leading zeros. */
  function Digits(n: nat): (r: string)
    ensures |r| >= 1 && AllDigits(r)
    ensures |r| == 1 <==> n < 10
    ensures n >= 10 ==> r[0] != '0'
  {
    if n < 10 then [DigitChar(n)] else Digits(n / 10) + [DigitChar(n % 10)]
  }

  /** `${n}` for an integer `n`. */
  function DecimalString(n: int): string {
    if n < 0 then "-" + Digits(-n) else Digits(n)
  }

  function DigitsValue(ds: string): nat
    requires AllDigits(ds)
  {
    if ds == [] then 0 else DigitsValue(ds[..|ds| - 1]) * 10 + DigitValue(ds[|ds| - 1])
  }

  /** The longest prefix of `s` made of decimal digits. */
  function DigitPrefix(s: string): (r: string)
    ensures |r| <= |s| && r == s[..|r|] && AllDigits(r)
    ensures |r| == |s| || !IsDigit(s[|r|])
  {
    if s != [] && IsDigit(s[0]) then [s[0]] + DigitPrefix(s[1..]) else []
  }

  /** `parseInt(s, 10)`: skip white space, an optional sign, then the longest
      run of digits; `None` stands for NaN (no digit at all). */
  /** 2^53: every integer up to this size is a double, so `parseInt` returns it exactly;
      beyond it the double is rounded. */
  const MaxExactInteger: int := 0x20_0000_0000_0000

  function ParseInt(s: string): Option<int> {
    var t := TrimStart(s);
    var unsigned := if t != [] && (t[0] == '+' || t[0] == '-') then t[1..] else t;
    var ds := DigitPrefix(unsigned);
    if ds == [] then None
    else
      var v: int := DigitsValue(ds);
      Some(if t[0] == '-' then -v else v)
  }

  lemma {:induction false} DigitsValueOfDigits(n: nat)
    ensures DigitsValue(Digits(n)) == n
  {
    if n >= 10 {
      var ds := Digits(n);
      assert ds[..|ds| - 1] == Digits(n / 10);
      DigitsValueOfDigits(n / 10);
    }
  }

  /** The digit run ends at the first character that is not a digit. */
  lemma {:induction false} DigitPrefixStops(ds: string, tail: string)
    requires AllDigits(ds)
    requires tail == [] || !IsDigit(tail[0])
    ensures DigitPrefix(ds + tail) == ds
  {
    if ds != [] {
      assert (ds + tail)[1..] == ds[1..] + tail;
      DigitPrefixStops(ds[1..], tail);
    }
  }

  lemma {:induction false} DigitPrefixOfDigits(s: string)
    requires AllDigits(s)
    ensures DigitPrefix(s) == s
  {
    if s != [] {
      DigitPrefixOfDigits(s[1..]);
    }
  }

  /** Printing an integer and parsing it back with `parseInt` gives the integer,
      for every integer a double holds exactly. */
  lemma ParseIntDecimal(n: int)
    requires -MaxExactInteger <= n <= MaxExactInteger
    ensures ParseInt(DecimalString(n)) == Some(n)
  {
    var s := DecimalString(n);
    var m: nat := if n < 0 then -n else n;
    assert !IsSpace(s[0]);
    assert TrimStart(s) == s;
    var ds := Digits(m);
    DigitPrefixOfDigits(ds);
    DigitsValueOfDigits(m);
    if n < 0 {
      assert s[1..] == ds;
    }
  }
}
