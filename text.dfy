/** The string operations the front end and the back end rely on: substring search
    (`includes` in JavaScript, `in` in Python), case mapping, underscore replacement,
    `trim`, and the decimal rendering of integers (`String(n)`, template literals). */
module Text {

  /** `t` occurs in `s` starting at position `i`. */
  predicate OccursAt(s: string, t: string, i: int) {
    0 <= i && i + |t| <= |s| && s[i..i + |t|] == t
  }

  predicate IsPrefix(t: string, s: string) {
    |t| <= |s| && s[..|t|] == t
  }

  /** `s.includes(t)`: `t` occurs in `s` as a contiguous block. */
  predicate Contains(s: string, t: string)
    decreases |s|
  {
    IsPrefix(t, s) || (|s| > 0 && Contains(s[1..], t))
  }

  /** `Contains` means exactly that there is a position where `t` occurs. */
  lemma {:induction false} ContainsIff(s: string, t: string)
    ensures Contains(s, t) <==> exists i :: OccursAt(s, t, i)
    decreases |s|
  {
    if |s| > 0 {
      ContainsIff(s[1..], t);
      if Contains(s[1..], t) {
        var i :| OccursAt(s[1..], t, i);
        assert s[1..][i..i + |t|] == s[i + 1..i + 1 + |t|];
        assert OccursAt(s, t, i + 1);
      }
      if i :| OccursAt(s, t, i) {
        if i > 0 {
          assert s[1..][i - 1..i - 1 + |t|] == s[i..i + |t|];
          assert OccursAt(s[1..], t, i - 1);
        } else {
          assert IsPrefix(t, s);
        }
      }
    } else {
      if i :| OccursAt(s, t, i) {
        assert |t| == 0 && IsPrefix(t, s);
      }
    }
    if IsPrefix(t, s) {
      assert OccursAt(s, t, 0);
    }
  }

  /** A string that lacks some character of `t` cannot contain `t`. */
  lemma LacksCharNotContains(s: string, t: string, c: char)
    requires c in t && c !in s
    ensures !Contains(s, t)
  {
    var j :| 0 <= j < |t| && t[j] == c;
    forall i | 0 <= i && i + |t| <= |s|
      ensures !OccursAt(s, t, i)
    {
      assert s[i..i + |t|][j] == s[i + j];
    }
    ContainsIff(s, t);
  }

  /** A string whose occurrence of `t` lies inside a slice contains `t` too. */
  lemma ContainsAt(s: string, t: string, i: int)
    requires OccursAt(s, t, i)
    ensures Contains(s, t)
  {
    ContainsIff(s, t);
  }

  // ---------------------------------------------------------------------------
  // Case mapping. JavaScript's toLowerCase/toUpperCase map every Unicode letter;
  // the model maps the ASCII and Latin-1 letters, which covers the Spanish text
  // this system handles (Á, É, Í, Ó, Ú, Ñ, Ü). The three Latin-1 lower-case letters
  // whose upper case is not a Latin-1 letter of the same length (ß, ÿ, µ) are kept.

  predicate IsUpperLetter(c: char) {
    ('A' <= c <= 'Z') || ('À' <= c <= 'Þ' && c != '×')
  }

  predicate IsLowerLetter(c: char) {
    ('a' <= c <= 'z') || ('à' <= c <= 'þ' && c != '÷')
  }

  function LowerChar(c: char): (r: char)
    ensures !IsUpperLetter(r)
    ensures r == c || IsUpperLetter(c)
  {
    if IsUpperLetter(c) then (c as int + 32) as char else c
  }

  function UpperChar(c: char): (r: char)
    ensures !IsLowerLetter(r)
    ensures r == c || IsLowerLetter(c)
    ensures IsLowerLetter(c) ==> IsUpperLetter(r)
  {
    if IsLowerLetter(c) then (c as int - 32) as char else c
  }

  /** `s.toLowerCase()`: every character lower-cased, length kept. */
  function ToLower(s: string): (r: string)
    ensures |r| == |s|
    ensures forall i :: 0 <= i < |s| ==> r[i] == LowerChar(s[i])
  {
    if s == [] then [] else [LowerChar(s[0])] + ToLower(s[1..])
  }

  /** `s.toUpperCase()`: every character upper-cased, length kept. */
  function ToUpper(s: string): (r: string)
    ensures |r| == |s|
    ensures forall i :: 0 <= i < |s| ==> r[i] == UpperChar(s[i])
  {
    if s == [] then [] else [UpperChar(s[0])] + ToUpper(s[1..])
  }

  /** Lower-casing a string that holds no upper-case letter leaves it as it is. */
  lemma ToLowerKeepsCaselessText(s: string)
    requires forall i :: 0 <= i < |s| ==> !IsUpperLetter(s[i])
    ensures ToLower(s) == s
  {
  }

  /** Lower-casing twice is lower-casing once. */
  lemma ToLowerIdempotent(s: string)
    ensures ToLower(ToLower(s)) == ToLower(s)
  {
  }

  /** An occurrence survives lower-casing of both sides: a search that lower-cases
      both the text and the query finds every match a case-sensitive search finds. */
  lemma ContainsToLower(s: string, t: string)
    requires Contains(s, t)
    ensures Contains(ToLower(s), ToLower(t))
  {
    ContainsIff(s, t);
    var i :| OccursAt(s, t, i);
    var ls, lt := ToLower(s), ToLower(t);
    forall j | 0 <= j < |t|
      ensures ls[i + j] == lt[j]
    {
      assert s[i..i + |t|][j] == t[j];
    }
    assert ls[i..i + |t|] == lt;
    ContainsAt(ls, lt, i);
  }

  /** `s.replace(/_/g, " ")`: every underscore becomes a space, nothing else moves. */
  function ReplaceUnderscores(s: string): (r: string)
    ensures |r| == |s|
    ensures forall i :: 0 <= i < |s| ==> r[i] == (if s[i] == '_' then ' ' else s[i])
    ensures '_' !in r
  {
    if s == [] then [] else [if s[0] == '_' then ' ' else s[0]] + ReplaceUnderscores(s[1..])
  }

  // ---------------------------------------------------------------------------
  // trim(): ECMAScript removes WhiteSpace and LineTerminator code points at both ends.

  predicate IsSpace(c: char) {
    var n := c as int;
    (0x09 <= n <= 0x0D) || n == 0x20 || n == 0xA0 || n == 0x1680 ||
    (0x2000 <= n <= 0x200A) || n == 0x2028 || n == 0x2029 || n == 0x202F ||
    n == 0x205F || n == 0x3000 || n == 0xFEFF
  }

  /** `s.trim()`: white space is dropped from both ends; what remains starts and ends
      with a non-space, and is empty exactly when the field held nothing but white
      space. */
  function Trim(s: string): (r: string)
    ensures |r| <= |s|
    ensures r != [] ==> !IsSpace(r[0]) && !IsSpace(r[|r| - 1])
    ensures r == [] <==> forall i :: 0 <= i < |s| ==> IsSpace(s[i])
    decreases |s|
  {
    if s != [] && IsSpace(s[0]) then Trim(s[1..])
    else if s != [] && IsSpace(s[|s| - 1]) then Trim(s[..|s| - 1])
    else s
  }
  /** `r` is `s[a..b]`, and `s` holds only blanks before `a` and from `b` on. */
  predicate TrimmedAt(s: string, r: string, a: int, b: int) {
    0 <= a <= b <= |s| && r == s[a..b] &&
    (forall i :: 0 <= i < a ==> IsSpace(s[i])) &&
    (forall i :: b <= i < |s| ==> IsSpace(s[i]))
  }

  /** A blank put in front of a trimmed slice leaves the slice trimmed. */
  lemma BlankBefore(s: string, r: string, a: int, b: int)
    requires s != [] && IsSpace(s[0]) && TrimmedAt(s[1..], r, a, b)
    ensures TrimmedAt(s, r, a + 1, b + 1)
  {
    var t := s[1..];
    assert t[a..b] == s[a + 1..b + 1];
    forall i | 1 <= i < a + 1
      ensures IsSpace(s[i])
    {
      assert s[i] == t[i - 1];
    }
    forall i | b + 1 <= i < |s|
      ensures IsSpace(s[i])
    {
      assert s[i] == t[i - 1];
    }
  }

  /** A blank put behind a trimmed slice leaves the slice trimmed. */
  lemma BlankAfter(s: string, r: string, a: int, b: int)
    requires s != [] && IsSpace(s[|s| - 1]) && TrimmedAt(s[..|s| - 1], r, a, b)
    ensures TrimmedAt(s, r, a, b)
  {
    var t := s[..|s| - 1];
    assert t[a..b] == s[a..b];
    forall i | b <= i < |s| - 1
      ensures IsSpace(s[i])
    {
      assert s[i] == t[i];
    }
  }

  /** `trim()` cuts blanks off the ends and nothing else: the result is a contiguous
      slice of the input with only blanks before and after it. */
  lemma {:induction false} TrimSlice(s: string)
    ensures exists a, b :: TrimmedAt(s, Trim(s), a, b)
    decreases |s|
  {
    if s != [] && IsSpace(s[0]) {
      TrimSlice(s[1..]);
      var a, b :| TrimmedAt(s[1..], Trim(s[1..]), a, b);
      BlankBefore(s, Trim(s), a, b);
    } else if s != [] && IsSpace(s[|s| - 1]) {
      TrimSlice(s[..|s| - 1]);
      var a, b :| TrimmedAt(s[..|s| - 1], Trim(s[..|s| - 1]), a, b);
      BlankAfter(s, Trim(s), a, b);
    } else {
      assert s[0..|s|] == s;
      assert TrimmedAt(s, Trim(s), 0, |s|);
    }
  }




  // ---------------------------------------------------------------------------
  // Decimal rendering of integers.

  predicate IsDigit(c: char) {
    '0' <= c <= '9'
  }

  function DigitChar(d: nat): (c: char)
    requires d < 10
    ensures IsDigit(c) && c as int - '0' as int == d
  {
    (d + '0' as int) as char
  }

  /** `String(n)` for a natural number: its decimal digits, no leading zero. */
  function NatToString(n: nat): (r: string)
    ensures |r| > 0
    ensures forall i :: 0 <= i < |r| ==> IsDigit(r[i])
    ensures r[0] == '0' <==> n == 0
    decreases n
  {
    if n < 10 then [DigitChar(n)] else NatToString(n / 10) + [DigitChar(n % 10)]
  }

  /** The number a string of decimal digits denotes. */
  function DigitsValue(s: string): nat
    requires forall i :: 0 <= i < |s| ==> IsDigit(s[i])
  {
    if s == [] then 0
    else
      assert IsDigit(s[|s| - 1]);
      DigitsValue(s[..|s| - 1]) * 10 + (s[|s| - 1] as int - '0' as int)
  }

  /** Reading the digits back gives the number: the rendering loses nothing. */
  lemma {:induction false} NatToStringRoundTrip(n: nat)
    ensures DigitsValue(NatToString(n)) == n
    decreases n
  {
    if n >= 10 {
      NatToStringRoundTrip(n / 10);
      var r := NatToString(n);
      assert r[..|r| - 1] == NatToString(n / 10);
    }
  }

  /** Distinct numbers render as distinct strings. */
  lemma NatToStringInjective(a: nat, b: nat)
    requires NatToString(a) == NatToString(b)
    ensures a == b
  {
    NatToStringRoundTrip(a);
    NatToStringRoundTrip(b);
  }

  /** `String(n)` for any integer: a minus sign before the digits of a negative one. */
  function IntToString(n: int): (r: string)
    ensures |r| > 0
    ensures forall i :: 0 <= i < |r| ==> IsDigit(r[i]) || r[i] == '-'
    ensures r[0] == '-' <==> n < 0
  {
    if n < 0 then "-" + NatToString(-n) else NatToString(n)
  }

  function Pow10(w: nat): (p: nat)
    ensures p >= 1
  {
    if w == 0 then 1 else 10 * Pow10(w - 1)
  }

  /** A number below 10^w needs at most w digits. */
  lemma {:induction false} NatToStringFits(n: nat, w: nat)
    requires 1 <= w && n < Pow10(w)
    ensures |NatToString(n)| <= w
    decreases w
  {
    assert Pow10(1) == 10;
    if n >= 10 {
      assert n / 10 < Pow10(w - 1);
      NatToStringFits(n / 10, w - 1);
    }
  }

  /** The digits of `n`, left-padded with zeros to at least `w` characters
      (`String(n).padStart(w, "0")`). */
  function ZeroPad(n: nat, w: nat): (r: string)
    ensures |r| == if |NatToString(n)| >= w then |NatToString(n)| else w
    ensures forall i :: 0 <= i < |r| ==> IsDigit(r[i])
  {
    var d := NatToString(n);
    if |d| >= w then d else seq(w - |d|, _ => '0') + d
  }
}
