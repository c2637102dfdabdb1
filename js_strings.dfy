/** The JavaScript string operations the core relies on (`trim`, `split`,
    `includes`, `toLowerCase`, `parseInt`, `toString`, `padStart`), each
    defined once on `seq<char>` together with the facts the rest of the
    model uses about it. */
module JsStrings {
  import opened Common

  /** The WhiteSpace and LineTerminator code points of ECMAScript, which
      `trim` and `parseInt` skip. */
  predicate IsWhitespace(c: char) {
    || c == ' ' || c == '\t' || c == '\n' || c == '\r'
    || c == '\U{000B}' || c == '\U{000C}' || c == '\U{00A0}' || c == '\U{1680}'
    || ('\U{2000}' <= c <= '\U{200A}')
    || c == '\U{2028}' || c == '\U{2029}' || c == '\U{202F}' || c == '\U{205F}'
    || c == '\U{3000}' || c == '\U{FEFF}'
  }

  /** `s.trimStart()`: drops the leading whitespace and nothing else. */
  function TrimStart(s: string): (r: string)
    ensures |r| <= |s| && r == s[|s| - |r|..]
    ensures r == [] || !IsWhitespace(r[0])
    ensures forall i :: 0 <= i < |s| - |r| ==> IsWhitespace(s[i])
  {
    if s != [] && IsWhitespace(s[0]) then TrimStart(s[1..]) else s
  }

  /** `s.trimEnd()`: drops the trailing whitespace and nothing else. */
  function TrimEnd(s: string): (r: string)
    ensures |r| <= |s| && r == s[..|r|]
    ensures r == [] || !IsWhitespace(r[|r| - 1])
    ensures forall i :: |r| <= i < |s| ==> IsWhitespace(s[i])
  {
    if s != [] && IsWhitespace(s[|s| - 1]) then TrimEnd(s[..|s| - 1]) else s
  }

  /** `s.trim()`: neither end of the result is whitespace. */
  function Trim(s: string): (r: string)
    ensures r == [] || (!IsWhitespace(r[0]) && !IsWhitespace(r[|r| - 1]))
  {
    var t := TrimStart(s);
    var e := TrimEnd(t);
    assert e != [] ==> e[0] == t[0];
    e
  }

  /** A character absent from `s` is absent from `s.trim()`. */
  lemma TrimKeepsOut(s: string, c: char)
    requires c !in s
    ensures c !in Trim(s)
  {
    var t := TrimStart(s);
    var e := TrimEnd(t);
    assert t == s[|s| - |t|..] && e == t[..|e|];
    forall k | 0 <= k < |e| ensures e[k] != c {
      assert e[k] == t[k] == s[|s| - |t| + k];
    }
  }

  /** What `s.trim()` drops on either side of that slice is whitespace. */
  lemma {:induction false} TrimDropsWhitespace(s: string)
    ensures var a := |s| - |TrimStart(s)|;
      && (forall i :: 0 <= i < a ==> IsWhitespace(s[i]))
      && (forall i :: a + |Trim(s)| <= i < |s| ==> IsWhitespace(s[i]))
  {
    var t := TrimStart(s);
    var a := |s| - |t|;
    var e := TrimEnd(t);
    forall i | a + |e| <= i < |s| ensures IsWhitespace(s[i]) {
      assert s[i] == t[i - a];
    }
  }

  /** A string that is all whitespace trims to the empty string, and only such a string does. */
  lemma TrimEmptyIff(s: string)
    ensures Trim(s) == [] <==> forall i :: 0 <= i < |s| ==> IsWhitespace(s[i])
  {
    var t := TrimStart(s);
    if Trim(s) == [] {
      assert TrimEnd(t) == [];
      assert |t| == 0;
    } else {
      assert t != [] && t[0] == s[|s| - |t|];
      assert !IsWhitespace(s[|s| - |t|]);
    }
  }

  /** Whether `s` has a character other than whitespace. */
  predicate HasContent(s: string) {
    s != [] && (!IsWhitespace(s[0]) || HasContent(s[1..]))
  }

  /** `s.trim()` is truthy exactly when `s` has a character other than whitespace. */
  lemma {:induction false} HasContentIff(s: string)
    ensures HasContent(s) <==> Trim(s) != []
  {
    TrimEmptyIff(s);
    HasContentWhitespace(s);
  }

  lemma {:induction false} HasContentWhitespace(s: string)
    ensures HasContent(s) <==> exists i :: 0 <= i < |s| && !IsWhitespace(s[i])
  {
    if s != [] {
      HasContentWhitespace(s[1..]);
      if exists i :: 0 <= i < |s| && !IsWhitespace(s[i]) {
        var i :| 0 <= i < |s| && !IsWhitespace(s[i]);
        if i > 0 {
          assert s[1..][i - 1] == s[i];
        }
      }
      if exists i :: 0 <= i < |s[1..]| && !IsWhitespace(s[1..][i]) {
        var i :| 0 <= i < |s[1..]| && !IsWhitespace(s[1..][i]);
        assert s[i + 1] == s[1..][i];
      }
    }
  }

  /** Index of the first occurrence of `c` in `s`. */
  function IndexOf(s: string, c: char): (i: nat)
    requires c in s
    ensures i < |s| && s[i] == c && c !in s[..i]
  {
    if s[0] == c then 0 else IndexOf(s[1..], c) + 1
  }

  /** `s.split(sep)` for a one-character separator. */
  function Split(s: string, sep: char): (parts: seq<string>)
    ensures |parts| >= 1
    ensures forall i :: 0 <= i < |parts| ==> sep !in parts[i]
    decreases |s|
  {
    if sep !in s then [s]
    else
      var i := IndexOf(s, sep);
      [s[..i]] + Split(s[i + 1..], sep)
  }

  /** `parts.join(sep)` */
  function Join(parts: seq<string>, sep: char): string
    requires |parts| >= 1
  {
    if |parts| == 1 then parts[0] else parts[0] + [sep] + Join(parts[1..], sep)
  }

  /** Splitting loses nothing: joining the pieces with the separator gives back the string. */
  lemma {:induction false} JoinSplit(s: string, sep: char)
    ensures Join(Split(s, sep), sep) == s
    decreases |s|
  {
    var parts := Split(s, sep);
    if sep in s {
      var i := IndexOf(s, sep);
      var rest := s[i + 1..];
      assert parts == [s[..i]] + Split(rest, sep);
      assert parts[0] == s[..i] && parts[1..] == Split(rest, sep) && |parts| > 1;
      assert Join(parts, sep) == s[..i] + [sep] + Join(Split(rest, sep), sep);
      JoinSplit(rest, sep);
      assert s == s[..i] + [sep] + rest;
    } else {
      assert parts == [s];
    }
  }

  /** Splitting is the inverse of joining pieces that do not contain the separator. */
  lemma {:induction false} SplitJoin(parts: seq<string>, sep: char)
    requires |parts| >= 1
    requires forall i :: 0 <= i < |parts| ==> sep !in parts[i]
    ensures Split(Join(parts, sep), sep) == parts
  {
    if |parts| > 1 {
      var s := Join(parts, sep);
      var p := parts[0];
      assert s == p + [sep] + Join(parts[1..], sep);
      assert s[|p|] == sep && s[..|p|] == p;
      assert IndexOf(s, sep) == |p|;
      assert s[|p| + 1..] == Join(parts[1..], sep);
      SplitJoin(parts[1..], sep);
    }
  }

  /** `s.includes(t)`: `t` occurs somewhere in `s`; the empty string occurs everywhere. */
  predicate Includes(s: string, t: string)
    ensures Includes(s, t) ==> |t| <= |s|
    decreases |s|
  {
    if |t| <= |s| && s[..|t|] == t then true
    else if s == [] then false
    else Includes(s[1..], t)
  }

  /** `t` occurs in `s` starting at index `i`. */
  predicate OccursAt(s: string, t: string, i: int) {
    0 <= i && i + |t| <= |s| && s[i..i + |t|] == t
  }

  /** `Includes` agrees with "`t` occurs at some index of `s`", in both directions. */
  lemma {:induction false} IncludesIff(s: string, t: string)
    ensures Includes(s, t) <==> exists i :: OccursAt(s, t, i)
    decreases |s|
  {
    if |t| <= |s| && s[..|t|] == t {
      assert OccursAt(s, t, 0);
    } else if s == [] {
    } else {
      IncludesIff(s[1..], t);
      if exists i :: OccursAt(s, t, i) {
        var i :| OccursAt(s, t, i);
        assert i != 0;
        OccursAtTail(s, t, i);
      }
      if Includes(s[1..], t) {
        var i :| OccursAt(s[1..], t, i);
        OccursAtTail(s, t, i + 1);
      }
    }
  }

  /** An occurrence past the first character is an occurrence in the tail. */
  lemma OccursAtTail(s: string, t: string, i: int)
    requires s != [] && i >= 1
    ensures OccursAt(s, t, i) <==> OccursAt(s[1..], t, i - 1)
  {
    if i + |t| <= |s| {
      assert s[1..][i - 1..i - 1 + |t|] == s[i..i + |t|];
    }
  }

  /** Every string includes itself. */
  lemma IncludesSelf(s: string)
    ensures Includes(s, s)
  {
  }

  /** A string longer than `s` does not occur in it. */
  lemma {:induction false} NotIncludedWhenLonger(s: string, t: string)
    requires |t| > |s|
    ensures !Includes(s, t)
    decreases |s|
  {
    if s != [] {
      NotIncludedWhenLonger(s[1..], t);
    }
  }

  /** A string whose first character does not occur in `s` does not occur in it. */
  lemma {:induction false} NotIncludedWhenFirstCharAbsent(s: string, t: string)
    requires t != [] && t[0] !in s
    ensures !Includes(s, t)
    decreases |s|
  {
    if s != [] {
      assert s[0] != t[0];
      assert t[0] !in s[1..];
      NotIncludedWhenFirstCharAbsent(s[1..], t);
    }
  }

  /** ASCII upper case to lower case; every other character is kept. */
  function LowerChar(c: char): char {
    if 'A' <= c <= 'Z' then (c as int + 32) as char else c
  }

  /** `s.toLowerCase()` on the ASCII letters. */
  function ToLower(s: string): (r: string)
    ensures |r| == |s|
    ensures forall i :: 0 <= i < |s| ==> r[i] == LowerChar(s[i])
  {
    seq(|s|, i requires 0 <= i < |s| => LowerChar(s[i]))
  }

  predicate IsDigit(c: char) {
    '0' <= c <= '9'
  }

  predicate AllDigits(s: string) {
    forall i :: 0 <= i < |s| ==> IsDigit(s[i])
  }

  function DigitChar(d: nat): (c: char)
    requires d < 10
    ensures IsDigit(c) && c as int - '0' as int == d
  {
    ('0' as int + d) as char
  }

  /** Decimal value of a string of digits. */
  function DecimalValue(s: string): nat
    requires AllDigits(s)
  {
    if s == [] then 0 else DecimalValue(s[..|s| - 1]) * 10 + (s[|s| - 1] as int - '0' as int)
  }

  /** `n.toString()` for a natural number. */
  function NatToString(n: nat): (s: string)
    ensures |s| >= 1 && AllDigits(s)
    ensures |s| > 1 ==> s[0] != '0'
  {
    if n < 10 then [DigitChar(n)] else NatToString(n / 10) + [DigitChar(n % 10)]
  }

  /** Reading back the decimal digits of `n` gives `n`. */
  lemma {:induction false} DecimalValueOfNatToString(n: nat)
    ensures DecimalValue(NatToString(n)) == n
  {
    var s := NatToString(n);
    if n >= 10 {
      DecimalValueOfNatToString(n / 10);
      assert s[..|s| - 1] == NatToString(n / 10);
    }
  }

  /** `NatToString` is injective. */
  lemma NatToStringInjective(m: nat, n: nat)
    requires NatToString(m) == NatToString(n)
    ensures m == n
  {
    DecimalValueOfNatToString(m);
    DecimalValueOfNatToString(n);
  }

  /** The longest prefix of `s` made of digits. */
  function DigitPrefix(s: string): (d: string)
    ensures |d| <= |s| && d == s[..|d|] && AllDigits(d)
    ensures |d| == |s| || !IsDigit(s[|d|])
  {
    if s != [] && IsDigit(s[0]) then [s[0]] + DigitPrefix(s[1..]) else []
  }

  /** `parseInt(s, 10)`: leading whitespace, an optional sign, then at least
      one digit, read up to the first non-digit; `None` stands for `NaN`. */
  function ParseInt(s: string): (r: Option<int>)
    ensures (forall i :: 0 <= i < |s| ==> !IsDigit(s[i])) ==> r.None?
  {
    var t := TrimStart(s);
    if t != [] && (t[0] == '+' || t[0] == '-') then
      var d := DigitPrefix(t[1..]);
      if d == [] then None
      else if t[0] == '-' then Some(0 - DecimalValue(d) as int)
      else Some(DecimalValue(d))
    else
      var d := DigitPrefix(t);
      if d == [] then None else Some(DecimalValue(d))
  }

  /** `parseInt` reads back what `toString` writes for a natural number,
      also when other text follows after a non-digit. */
  lemma ParseIntOfNatToString(n: nat, rest: string)
    requires rest == [] || !IsDigit(rest[0])
    ensures ParseInt(NatToString(n) + rest) == Some(n)
  {
    var d := NatToString(n);
    var s := d + rest;
    assert s[0] == d[0] && IsDigit(s[0]);
    assert !IsWhitespace(s[0]) && s[0] != '+' && s[0] != '-';
    assert TrimStart(s) == s;
    DigitPrefixOfDigits(d, rest);
    DecimalValueOfNatToString(n);
    assert DigitPrefix(s) == d && DecimalValue(d) == n;
  }

  lemma ParseIntOfNat(n: nat)
    ensures ParseInt(NatToString(n)) == Some(n)
  {
    ParseIntOfNatToString(n, []);
    assert NatToString(n) + [] == NatToString(n);
  }

  lemma {:induction false} DigitPrefixOfDigits(d: string, rest: string)
    requires AllDigits(d)
    requires rest == [] || !IsDigit(rest[0])
    ensures DigitPrefix(d + rest) == d
  {
    if d != [] {
      assert (d + rest)[1..] == d[1..] + rest;
      DigitPrefixOfDigits(d[1..], rest);
    } else {
      assert d + rest == rest;
    }
  }

  function Repeat(c: char, n: nat): (r: string)
    ensures |r| == n && forall i :: 0 <= i < n ==> r[i] == c
  {
    if n == 0 then [] else [c] + Repeat(c, n - 1)
  }

  /** `s.padStart(width, fill)` with a one-character fill. */
  function PadStart(s: string, width: nat, fill: char): (r: string)
    ensures |s| >= width ==> r == s
    ensures |s| < width ==>
      && |r| == width && r[width - |s|..] == s
      && (forall i :: 0 <= i < width - |s| ==> r[i] == fill)
  {
    if |s| >= width then s else Repeat(fill, width - |s|) + s
  }
}
