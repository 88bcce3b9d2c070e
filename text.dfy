/** The few pieces of Python's string handling the application relies on:
    decimal formatting ("%0Nd", str(n)), int() on digit strings, split,
    strip, lower, title and join.  Characters outside ASCII get no case
    mapping here. */
module Text {
  import opened Wrappers

  // ---------------------------------------------------------------- digits

  predicate IsDigit(c: char) { '0' <= c <= '9' }

  predicate AllDigits(s: string) { forall i :: 0 <= i < |s| ==> IsDigit(s[i]) }

  function DigitValue(c: char): nat
    requires IsDigit(c)
  {
    (c as int) - ('0' as int)
  }

  function DigitChar(d: nat): (c: char)
    requires d < 10
    ensures IsDigit(c) && DigitValue(c) == d
  {
    (('0' as int) + d) as char
  }

  /** The number a string of decimal digits denotes, most significant digit first. */
  function DigitsValue(s: string): nat
    requires AllDigits(s)
  {
    if s == [] then 0 else DigitsValue(s[..|s| - 1]) * 10 + DigitValue(s[|s| - 1])
  }

  /** Python's str(n) for n >= 0: the shortest decimal numeral of n. */
  function Decimal(n: nat): (s: string)
    ensures |s| >= 1 && AllDigits(s)
    ensures n >= 10 ==> s[0] != '0'
    ensures n < 10 <==> |s| == 1
  {
    if n < 10 then [DigitChar(n)] else Decimal(n / 10) + [DigitChar(n % 10)]
  }

  /** Reading back the numeral of n gives n. */
  lemma {:induction false} DecimalValue(n: nat)
    ensures DigitsValue(Decimal(n)) == n
  {
    if n >= 10 {
      var s := Decimal(n);
      assert s[..|s| - 1] == Decimal(n / 10);
      DecimalValue(n / 10);
    }
  }

  /** Two different numbers never share a numeral. */
  lemma DecimalInjective(m: nat, n: nat)
    requires Decimal(m) == Decimal(n)
    ensures m == n
  {
    DecimalValue(m);
    DecimalValue(n);
  }

  function Zeros(k: nat): (z: string)
    ensures |z| == k && AllDigits(z)
    ensures forall i :: 0 <= i < k ==> z[i] == '0'
  {
    if k == 0 then [] else Zeros(k - 1) + ['0']
  }

  /** Python's "%0<width>d" applied to n >= 0: the numeral padded with zeros on the left. */
  function Padded(n: nat, width: nat): (s: string)
    ensures AllDigits(s) && |s| >= width && |s| >= 1
    ensures |Decimal(n)| >= width ==> s == Decimal(n)
    ensures |Decimal(n)| < width ==> |s| == width
  {
    var d := Decimal(n);
    (if |d| < width then Zeros(width - |d|) else []) + d
  }

  /** str() of a two-place Decimal that is not negative, given in hundredths:
      "1.50" for 150. */
  function Hundredths(h: nat): (s: string)
    ensures |s| >= 4 && s[|s| - 3] == '.'
  {
    Decimal(h / 100) + "." + Padded(h % 100, 2)
  }

  /** Leading zeros do not change the value of a numeral. */
  lemma {:induction false} LeadingZerosValue(k: nat, s: string)
    requires AllDigits(s)
    ensures DigitsValue(Zeros(k) + s) == DigitsValue(s)
    decreases |s|, k
  {
    if s == [] {
      if k > 0 {
        assert Zeros(k) + s == Zeros(k);
        assert Zeros(k)[..k - 1] == Zeros(k - 1) + [];
        LeadingZerosValue(k - 1, []);
      }
    } else {
      var z := Zeros(k) + s;
      assert z[..|z| - 1] == Zeros(k) + s[..|s| - 1];
      LeadingZerosValue(k, s[..|s| - 1]);
    }
  }

  /** Python's int() restricted to strings of decimal digits: leading zeros are
      accepted, anything else is a ValueError (None). */
  function PyInt(s: string): (r: Option<nat>)
    ensures r.Some? <==> |s| > 0 && AllDigits(s)
  {
    if |s| > 0 && AllDigits(s) then Some(DigitsValue(s)) else None
  }

  /** int() reads back a zero-padded numeral as the number it was made from. */
  lemma PaddedValue(n: nat, width: nat)
    ensures PyInt(Padded(n, width)) == Some(n)
  {
    var d := Decimal(n);
    DecimalValue(n);
    if |d| < width {
      LeadingZerosValue(width - |d|, d);
    } else {
      assert Padded(n, width) == d;
    }
  }

  // --------------------------------------------------------- prefix, split

  predicate StartsWith(s: string, prefix: string) {
    |prefix| <= |s| && s[..|prefix|] == prefix
  }

  /** Index of the first occurrence of c in s. */
  function IndexOf(s: string, c: char): (i: nat)
    requires c in s
    ensures i < |s| && s[i] == c && c !in s[..i]
    ensures forall j :: 0 <= j < i ==> s[j] != c
  {
    if s[0] == c then 0 else 1 + IndexOf(s[1..], c)
  }

  /** Python's s.split(c): the pieces between successive occurrences of c,
      empty pieces included. */
  function Split(s: string, c: char): (parts: seq<string>)
    ensures |parts| >= 1
    ensures c in s <==> |parts| >= 2
    ensures forall k :: 0 <= k < |parts| ==> c !in parts[k]
    decreases |s|
  {
    if c in s then
      var i := IndexOf(s, c);
      [s[..i]] + Split(s[i + 1..], c)
    else
      [s]
  }

  /** Splitting "a" + c + b with no c in a yields a, then the pieces of b. */
  lemma SplitAfterFirst(a: string, c: char, b: string)
    requires c !in a
    ensures Split(a + [c] + b, c) == [a] + Split(b, c)
  {
    var s := a + [c] + b;
    assert s[|a|] == c;
    var i := IndexOf(s, c);
    assert forall j :: 0 <= j < |a| ==> s[j] == a[j];
    assert s[..i] == a;
    assert s[i + 1..] == b;
  }

  /** Python's sep.join(parts). */
  function Join(sep: string, parts: seq<string>): string {
    if parts == [] then []
    else if |parts| == 1 then parts[0]
    else parts[0] + sep + Join(sep, parts[1..])
  }

  /** Splitting pieces joined by c, none of which holds c, gives them back. */
  lemma {:induction false} SplitJoin(parts: seq<string>, c: char)
    requires parts != []
    requires forall k :: 0 <= k < |parts| ==> c !in parts[k]
    ensures Split(Join([c], parts), c) == parts
    decreases |parts|
  {
    var head, tail := parts[0], parts[1..];
    assert c !in head;
    if |parts| == 1 {
      assert Join([c], parts) == head;
      assert parts == [head];
    } else {
      assert forall k :: 0 <= k < |tail| ==> c !in tail[k] by {
        forall k | 0 <= k < |tail| ensures c !in tail[k] {
          assert tail[k] == parts[k + 1];
        }
      }
      SplitJoin(tail, c);
      assert Join([c], parts) == head + [c] + Join([c], tail);
      SplitAfterFirst(head, c, Join([c], tail));
      assert parts == [head] + tail;
    }
  }

  // ------------------------------------------------------ whitespace, case

  /** Python's str.isspace() on the ASCII range. */
  predicate IsSpace(c: char) {
    c == ' ' || (9 <= c as int <= 13) || (28 <= c as int <= 31)
  }

  /** Number of whitespace characters at the start of s. */
  function LeadingSpaces(s: string): (k: nat)
    ensures k <= |s|
  {
    if s != [] && IsSpace(s[0]) then 1 + LeadingSpaces(s[1..]) else 0
  }

  /** The leading run is all whitespace and ends at a character that is not. */
  lemma {:induction false} LeadingSpacesRun(s: string)
    ensures forall i :: 0 <= i < LeadingSpaces(s) ==> IsSpace(s[i])
    ensures LeadingSpaces(s) < |s| ==> !IsSpace(s[LeadingSpaces(s)])
    decreases |s|
  {
    if s != [] && IsSpace(s[0]) {
      LeadingSpacesRun(s[1..]);
      assert forall i :: 0 < i < |s| ==> s[i] == s[1..][i - 1];
    }
  }

  /** Number of whitespace characters at the end of s. */
  function TrailingSpaces(s: string): (k: nat)
    ensures k <= |s|
  {
    if s != [] && IsSpace(s[|s| - 1]) then 1 + TrailingSpaces(s[..|s| - 1]) else 0
  }

  /** The trailing run is all whitespace and starts after a character that
      is not. */
  lemma {:induction false} TrailingSpacesRun(s: string)
    ensures forall i :: |s| - TrailingSpaces(s) <= i < |s| ==> IsSpace(s[i])
    ensures TrailingSpaces(s) < |s| ==> !IsSpace(s[|s| - 1 - TrailingSpaces(s)])
    decreases |s|
  {
    if s != [] && IsSpace(s[|s| - 1]) {
      TrailingSpacesRun(s[..|s| - 1]);
      assert forall i :: 0 <= i < |s| - 1 ==> s[i] == s[..|s| - 1][i];
    }
  }

  /** Python's s.strip(): s without its leading and trailing whitespace. */
  function Strip(s: string): (r: string)
    ensures |r| <= |s|
  {
    var t := s[LeadingSpaces(s)..];
    t[..|t| - TrailingSpaces(t)]
  }

  /** A string without whitespace at either end is its own strip. */
  lemma StripUnpadded(s: string)
    requires s == [] || (!IsSpace(s[0]) && !IsSpace(s[|s| - 1]))
    ensures Strip(s) == s
  {
    if s != [] {
      assert LeadingSpaces(s) == 0;
      assert s[0..] == s;
      assert TrailingSpaces(s) == 0;
    }
  }

  /** The strip of s is a slice of s that starts and ends with a character
      that is not whitespace. */
  lemma StripEnds(s: string)
    ensures var r := Strip(s);
      r == [] || (!IsSpace(r[0]) && !IsSpace(r[|r| - 1]))
    ensures Strip(s) == s[LeadingSpaces(s)..][..|s| - LeadingSpaces(s) - TrailingSpaces(s[LeadingSpaces(s)..])]
  {
    var t := s[LeadingSpaces(s)..];
    LeadingSpacesRun(s);
    TrailingSpacesRun(t);
    var r := Strip(s);
    if r != [] {
      assert r[0] == t[0] == s[LeadingSpaces(s)];
      assert r[|r| - 1] == t[|t| - 1 - TrailingSpaces(t)];
    }
  }

  /** Stripping twice is stripping once. */
  lemma StripIdempotent(s: string)
    ensures Strip(Strip(s)) == Strip(s)
  {
    StripEnds(s);
    StripUnpadded(Strip(s));
  }

  predicate IsUpper(c: char) { 'A' <= c <= 'Z' }
  predicate IsLower(c: char) { 'a' <= c <= 'z' }
  predicate IsLetter(c: char) { IsUpper(c) || IsLower(c) }

  function LowerChar(c: char): (d: char)
    ensures IsUpper(c) ==> IsLower(d)
    ensures !IsUpper(c) ==> d == c
  {
    if IsUpper(c) then ((c as int) + 32) as char else c
  }

  function UpperChar(c: char): (d: char)
    ensures IsLower(c) ==> IsUpper(d)
    ensures !IsLower(c) ==> d == c
  {
    if IsLower(c) then ((c as int) - 32) as char else c
  }

  /** Python's s.lower() on ASCII letters. */
  function Lower(s: string): (r: string)
    ensures |r| == |s|
  {
    seq(|s|, i requires 0 <= i < |s| => LowerChar(s[i]))
  }

  /** Python's s.title() on ASCII: a letter is upper-cased when the character
      before it is not a letter, and lower-cased otherwise. */
  function Title(s: string): (r: string)
    ensures |r| == |s|
  {
    TitleAfter(s, false)
  }

  function TitleAfter(s: string, afterLetter: bool): (r: string)
    ensures |r| == |s|
  {
    if s == [] then []
    else
      var c := s[0];
      var d := if !IsLetter(c) then c else if afterLetter then LowerChar(c) else UpperChar(c);
      [d] + TitleAfter(s[1..], IsLetter(c))
  }

  /** What title-casing does to each character: a letter that opens a word
      is upper-cased, a letter after a letter is lower-cased, anything else
      is kept, and letters stay letters. */
  lemma {:induction false} TitleAfterShape(s: string, afterLetter: bool)
    ensures var r := TitleAfter(s, afterLetter);
      && (s != [] && IsLetter(s[0]) && !afterLetter ==> IsUpper(r[0]))
      && (forall i :: 0 < i < |s| && IsLetter(s[i - 1]) && IsLetter(s[i]) ==> IsLower(r[i]))
      && (forall i :: 0 <= i < |s| && !IsLetter(s[i]) ==> r[i] == s[i])
      && (forall i :: 0 <= i < |s| ==> (IsLetter(r[i]) <==> IsLetter(s[i])))
    decreases |s|
  {
    if s != [] {
      var r, t := TitleAfter(s, afterLetter), s[1..];
      TitleAfterShape(t, IsLetter(s[0]));
      assert r[1..] == TitleAfter(t, IsLetter(s[0]));
      forall i | 0 < i < |s|
        ensures r[i] == TitleAfter(t, IsLetter(s[0]))[i - 1] && s[i] == t[i - 1]
      {
      }
    }
  }

  /** Title-casing twice is title-casing once. */
  lemma {:induction false} TitleAfterIdempotent(s: string, afterLetter: bool)
    ensures TitleAfter(TitleAfter(s, afterLetter), afterLetter) == TitleAfter(s, afterLetter)
    decreases |s|
  {
    if s != [] {
      var t := TitleAfter(s, afterLetter);
      assert t[1..] == TitleAfter(s[1..], IsLetter(s[0]));
      TitleAfterIdempotent(s[1..], IsLetter(s[0]));
    }
  }

  /** A stripped string keeps its ends free of blanks when title-cased, so
      strip().title() is a normal form. */
  lemma TitleStripIdempotent(s: string)
    ensures Title(Strip(Title(Strip(s)))) == Title(Strip(s))
  {
    var y := Strip(s);
    var t := Title(y);
    StripEnds(s);
    if t != [] {
      TitleAfterShape(y, false);
      assert !IsLetter(y[0]) ==> t[0] == y[0];
      assert !IsLetter(y[|y| - 1]) ==> t[|t| - 1] == y[|y| - 1];
    }
    StripUnpadded(t);
    TitleAfterIdempotent(y, false);
  }

  /** lower().strip() is a normal form. */
  lemma LowerStripIdempotent(s: string)
    ensures Strip(Lower(Strip(Lower(s)))) == Strip(Lower(s))
  {
    var l := Lower(s);
    var y := Strip(l);
    var a := LeadingSpaces(l);
    StripEnds(l);
    assert forall i :: 0 <= i < |y| ==> y[i] == l[a + i];
    assert forall i :: 0 <= i < |y| ==> !IsUpper(y[i]);
    assert Lower(y) == y;
    StripIdempotent(l);
  }
}
