/** String operations of JavaScript's `String.prototype` used by the modelled
    code (`trim`, `split` on one character, `Array.prototype.join`) and the
    decimal rendering of a natural number in a template literal. */
module Text {

  /** The characters `String.prototype.trim` removes: JavaScript's
      WhiteSpace and LineTerminator productions (tab, vertical tab, form feed,
      space, no-break space, byte order mark, the space separators of
      category Zs, line feed, carriage return, line and paragraph separator). */
  predicate IsJsWhitespace(c: char) {
    || c == '\t' || c == '\n' || c == '\U{B}' || c == '\U{C}' || c == '\r'
    || c == ' ' || c == '\U{A0}' || c == '\U{1680}'
    || ('\U{2000}' <= c <= '\U{200A}')
    || c == '\U{2028}' || c == '\U{2029}' || c == '\U{202F}' || c == '\U{205F}'
    || c == '\U{3000}' || c == '\U{FEFF}'
  }

  predicate IsDigit(c: char) {
    '0' <= c <= '9'
  }

  predicate AllDigits(s: string) {
    forall i :: 0 <= i < |s| ==> IsDigit(s[i])
  }

  function DigitValue(c: char): (d: nat)
    requires IsDigit(c)
    ensures d < 10
  {
    (c as int) - ('0' as int)
  }

  function DigitChar(d: nat): (c: char)
    requires d < 10
    ensures IsDigit(c) && DigitValue(c) == d
  {
    (('0' as int) + d) as char
  }

  /** The number of leading decimal digits of `s`. */
  function LeadingDigits(s: string): (n: nat)
    ensures n <= |s| && AllDigits(s[..n])
    ensures n < |s| ==> !IsDigit(s[n])
  {
    if s == [] || !IsDigit(s[0]) then 0
    else
      var n := 1 + LeadingDigits(s[1..]);
      assert s[..n] == [s[0]] + s[1..][..n - 1];
      n
  }

  // ---------------------------------------------------------------------
  // trim

  /** How many whitespace characters `s` starts with. */
  function LeadingSpace(s: string): (n: nat)
    ensures n <= |s|
    ensures n < |s| ==> !IsJsWhitespace(s[n])
  {
    if s == [] || !IsJsWhitespace(s[0]) then 0
    else 1 + LeadingSpace(s[1..])
  }

  /** What `LeadingSpace` counts is whitespace. */
  lemma {:induction false} LeadingSpaceIsWhitespace(s: string)
    ensures forall i :: 0 <= i < LeadingSpace(s) ==> IsJsWhitespace(s[i])
  {
    if s != [] && IsJsWhitespace(s[0]) {
      LeadingSpaceIsWhitespace(s[1..]);
      forall i | 1 <= i < LeadingSpace(s) ensures IsJsWhitespace(s[i]) {
        assert s[i] == s[1..][i - 1];
      }
    }
  }

  /** The length of `s` without its trailing whitespace. */
  function KeptLength(s: string): (n: nat)
    ensures n <= |s|
    ensures n > 0 ==> !IsJsWhitespace(s[n - 1])
  {
    if s == [] || !IsJsWhitespace(s[|s| - 1]) then |s|
    else KeptLength(s[..|s| - 1])
  }

  /** What `KeptLength` leaves out is whitespace. */
  lemma {:induction false} TrailingIsWhitespace(s: string)
    ensures forall i :: KeptLength(s) <= i < |s| ==> IsJsWhitespace(s[i])
  {
    if s != [] && IsJsWhitespace(s[|s| - 1]) {
      var p := s[..|s| - 1];
      TrailingIsWhitespace(p);
      forall i | KeptLength(s) <= i < |s| - 1 ensures IsJsWhitespace(s[i]) {
        assert s[i] == p[i];
      }
    }
  }

  /** `s.trim()`: an infix of `s`, starting where the leading whitespace
      ends; `TrimDropsOnlyWhitespace` says what is dropped. */
  function Trim(s: string): (r: string)
    ensures LeadingSpace(s) + |r| <= |s| && r == s[LeadingSpace(s)..LeadingSpace(s) + |r|]
  {
    var k := LeadingSpace(s);
    s[k..k + KeptLength(s[k..])]
  }

  /** What `trim` drops is whitespace, at both ends, and what it keeps
      neither starts nor ends with whitespace. */
  lemma TrimDropsOnlyWhitespace(s: string)
    ensures forall i :: 0 <= i < LeadingSpace(s) ==> IsJsWhitespace(s[i])
    ensures forall i :: LeadingSpace(s) + |Trim(s)| <= i < |s| ==> IsJsWhitespace(s[i])
    ensures Trim(s) == [] || (!IsJsWhitespace(Trim(s)[0]) && !IsJsWhitespace(Trim(s)[|Trim(s)| - 1]))
  {
    var k := LeadingSpace(s);
    var t := s[k..];
    var r := Trim(s);
    LeadingSpaceIsWhitespace(s);
    TrailingIsWhitespace(t);
    forall i | k + |r| <= i < |s| ensures IsJsWhitespace(s[i]) {
      assert s[i] == t[i - k];
    }
    if r != [] {
      assert r[0] == s[k];
      assert r[|r| - 1] == t[|r| - 1];
    }
  }

  /** A string with no whitespace at either end is its own trim. */
  lemma TrimOfTrimmed(s: string)
    requires s == [] || (!IsJsWhitespace(s[0]) && !IsJsWhitespace(s[|s| - 1]))
    ensures Trim(s) == s
  {
    assert LeadingSpace(s) == 0;
    assert s[0..] == s;
  }

  /** Trimming adds no character: one absent from `s` is absent from its
      trim. */
  lemma TrimKeepsAbsent(s: string, c: char)
    requires c !in s
    ensures c !in Trim(s)
  {
    var r := Trim(s);
    var k := LeadingSpace(s);
    forall j | 0 <= j < |r| ensures r[j] != c {
      assert r[j] == s[k + j];
    }
  }

  /** A leading whitespace character does not change the trim. */
  lemma TrimSkipsLeading(c: char, s: string)
    requires IsJsWhitespace(c)
    ensures Trim([c] + s) == Trim(s)
  {
    var t := [c] + s;
    assert t[1..] == s;
    TrimDropsFirst(t);
  }

  lemma TrimDropsFirst(t: string)
    requires t != [] && IsJsWhitespace(t[0])
    ensures Trim(t) == Trim(t[1..])
  {
    var s := t[1..];
    var k := LeadingSpace(s);
    var u := s[k..];
    var n := KeptLength(u);
    assert Trim(t) == u[..n] by {
      assert LeadingSpace(t) == 1 + k;
      assert t[1 + k..] == u;
    }
    assert Trim(s) == u[..n];
  }

  /** Trimming twice is trimming once. */
  lemma TrimIdempotent(s: string)
    ensures Trim(Trim(s)) == Trim(s)
  {
    TrimDropsOnlyWhitespace(s);
    TrimOfTrimmed(Trim(s));
  }

  /** A string is trimmed to the empty string exactly when it is all
      whitespace. */
  lemma {:induction false} TrimEmptyIffBlank(s: string)
    ensures Trim(s) == [] <==> forall i :: 0 <= i < |s| ==> IsJsWhitespace(s[i])
  {
    var r := Trim(s);
    var k := LeadingSpace(s);
    TrimDropsOnlyWhitespace(s);
    if r != [] {
      assert s[k] == r[0];
    }
  }

  // ---------------------------------------------------------------------
  // join and split

  /** `parts.join(sep)`. */
  function Join(parts: seq<string>, sep: string): (r: string)
    ensures |parts| == 0 ==> r == ""
    ensures |parts| == 1 ==> r == parts[0]
  {
    if |parts| == 0 then "" else if |parts| == 1 then parts[0]
    else parts[0] + sep + Join(parts[1..], sep)
  }

  /** Prepending a character to the first part prepends it to the join. */
  lemma JoinConsFirst(c: char, p: string, ps: seq<string>, sep: string)
    ensures Join([[c] + p] + ps, sep) == [c] + Join([p] + ps, sep)
  {
    if |ps| > 0 {
      assert ([[c] + p] + ps)[1..] == ps;
      assert ([p] + ps)[1..] == ps;
    }
  }

  /** `s.split(sep)` for a one-character separator: the pieces between
      separators, in order. There is always at least one piece: the empty
      string splits into `[""]` and every separator adds one piece. */
  function Split(s: string, sep: char): (r: seq<string>)
    ensures |r| >= 1
    ensures forall i :: 0 <= i < |r| ==> sep !in r[i]
    ensures Join(r, [sep]) == s
  {
    if s == [] then [[]]
    else
      var rest := Split(s[1..], sep);
      if s[0] == sep then
        assert ([[]] + rest)[1..] == rest;
        [[]] + rest
      else
        var r := [[s[0]] + rest[0]] + rest[1..];
        assert rest == [rest[0]] + rest[1..];
        JoinConsFirst(s[0], rest[0], rest[1..], [sep]);
        assert s == [s[0]] + s[1..];
        r
  }

  /** Splitting a join of separator-free pieces gives the pieces back. */
  lemma {:induction false} SplitJoin(ps: seq<string>, sep: char)
    requires |ps| >= 1
    requires forall i :: 0 <= i < |ps| ==> sep !in ps[i]
    ensures Split(Join(ps, [sep]), sep) == ps
  {
    if |ps| == 1 {
      SplitNoSeparator(ps[0], sep);
    } else {
      SplitJoin(ps[1..], sep);
      SplitAfterPiece(ps[0], Join(ps[1..], [sep]), sep);
      assert ps == [ps[0]] + ps[1..];
    }
  }

  /** A string without the separator is a single piece. */
  lemma {:induction false} SplitNoSeparator(p: string, sep: char)
    requires sep !in p
    ensures Split(p, sep) == [p]
  {
    if p != [] {
      SplitNoSeparator(p[1..], sep);
      assert p == [p[0]] + p[1..];
    }
  }

  /** A separator-free piece followed by the separator splits off as the
      first piece. */
  lemma {:induction false} SplitAfterPiece(p: string, tail: string, sep: char)
    requires sep !in p
    ensures Split(p + [sep] + tail, sep) == [p] + Split(tail, sep)
  {
    var t := p + [sep] + tail;
    if p == [] {
      assert t == [sep] + tail && t[1..] == tail;
    } else {
      assert t[0] == p[0] != sep && t[1..] == p[1..] + [sep] + tail;
      assert Split(t[1..], sep) == [p[1..]] + Split(tail, sep) by {
        SplitAfterPiece(p[1..], tail, sep);
      }
      assert p == [p[0]] + p[1..];
    }
  }

  // ---------------------------------------------------------------------
  // natural numbers in decimal

  /** The decimal digits of `n`, as `${n}` renders them. */
  function NatToString(n: nat): (r: string)
    ensures |r| >= 1 && AllDigits(r)
    ensures r[0] != '0' || n == 0
  {
    if n < 10 then [DigitChar(n)] else NatToString(n / 10) + [DigitChar(n % 10)]
  }

  /** The number a string of decimal digits denotes. */
  function DigitsValue(s: string): nat
    requires AllDigits(s)
  {
    if s == [] then 0 else DigitsValue(s[..|s| - 1]) * 10 + DigitValue(s[|s| - 1])
  }

  /** Reading back the rendering of `n` gives `n`. */
  lemma {:induction false} NatToStringRoundTrip(n: nat)
    ensures DigitsValue(NatToString(n)) == n
  {
    var r := NatToString(n);
    if n >= 10 {
      NatToStringRoundTrip(n / 10);
      assert r[..|r| - 1] == NatToString(n / 10);
    }
  }

  /** Different numbers render differently. */
  lemma NatToStringInjective(m: nat, n: nat)
    requires NatToString(m) == NatToString(n)
    ensures m == n
  {
    NatToStringRoundTrip(m);
    NatToStringRoundTrip(n);
  }
}
