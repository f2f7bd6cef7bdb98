/** String helpers the service relies on from Go's `fmt` and `strings`
    packages, restricted to what the modelled code uses: decimal rendering
    of non-negative integers (`%d`), ASCII lower-casing, single-character
    replacement and prefix trimming. */
module Text {

  predicate IsDigit(c: char) {
    '0' <= c <= '9'
  }

  predicate AllDigits(s: string) {
    forall i :: 0 <= i < |s| ==> IsDigit(s[i])
  }

  function DigitChar(d: nat): (c: char)
    requires d < 10
    ensures IsDigit(c)
  {
    ['0', '1', '2', '3', '4', '5', '6', '7', '8', '9'][d]
  }

  function DigitValue(c: char): (d: nat)
    requires IsDigit(c)
    ensures d < 10
  {
    (c as int - '0' as int) as nat
  }

  lemma DigitRoundTrip(d: nat)
    requires d < 10
    ensures DigitValue(DigitChar(d)) == d
  {
  }

  /** The text `fmt.Sprintf("%d", n)` produces for a non-negative `n`:
      its base-ten digits, most significant first, with no leading zero. */
  function NatToDecimal(n: nat): (s: string)
    ensures |s| >= 1
    ensures AllDigits(s)
    ensures s[0] == '0' ==> n == 0
    decreases n
  {
    if n < 10 then [DigitChar(n)] else NatToDecimal(n / 10) + [DigitChar(n % 10)]
  }

  /** The number a string of decimal digits denotes (the reading `%d` output
      has for a parser): an independent left-to-right definition. */
  function DecimalValue(s: string): nat
    requires AllDigits(s)
    decreases |s|
  {
    if |s| == 0 then 0 else DecimalValue(s[..|s| - 1]) * 10 + DigitValue(s[|s| - 1])
  }

  /** Parsing the rendered decimal gives the number back. */
  lemma {:induction false} DecimalRoundTrip(n: nat)
    ensures DecimalValue(NatToDecimal(n)) == n
    decreases n
  {
    var s := NatToDecimal(n);
    if n < 10 {
      DigitRoundTrip(n);
    } else {
      DecimalRoundTrip(n / 10);
      assert s[..|s| - 1] == NatToDecimal(n / 10);
      DigitRoundTrip(n % 10);
    }
  }

  /** Distinct numbers render to distinct texts, so a rendered index names
      exactly one position. */
  lemma DecimalInjective(a: nat, b: nat)
    ensures NatToDecimal(a) == NatToDecimal(b) <==> a == b
  {
    if NatToDecimal(a) == NatToDecimal(b) {
      DecimalRoundTrip(a);
      DecimalRoundTrip(b);
    }
  }

  /** ASCII case folding of one character. */
  function LowerChar(c: char): char {
    if 'A' <= c <= 'Z' then (c as int - 'A' as int + 'a' as int) as char else c
  }

  /** `strings.ToLower`, restricted to ASCII letters: every other character
      is left as it is. */
  function ToLower(s: string): (r: string)
    ensures |r| == |s|
    ensures forall i :: 0 <= i < |s| ==> r[i] == LowerChar(s[i])
  {
    seq(|s|, i requires 0 <= i < |s| => LowerChar(s[i]))
  }

  /** `strings.Replace(s, from, to, -1)` for one-character `from` and `to`:
      every occurrence of `from` is replaced. */
  function ReplaceAll(s: string, from: char, to: char): (r: string)
    ensures |r| == |s|
    ensures forall i :: 0 <= i < |s| ==> r[i] == if s[i] == from then to else s[i]
  {
    seq(|s|, i requires 0 <= i < |s| => if s[i] == from then to else s[i])
  }

  /** ASCII upper-casing of one character. */
  function UpperChar(c: char): char {
    if 'a' <= c <= 'z' then (c as int - 'a' as int + 'A' as int) as char else c
  }

  /** `strings.ToUpper`, restricted to ASCII letters. */
  function ToUpper(s: string): (r: string)
    ensures |r| == |s|
    ensures forall i :: 0 <= i < |s| ==> r[i] == UpperChar(s[i])
  {
    seq(|s|, i requires 0 <= i < |s| => UpperChar(s[i]))
  }

  predicate HasNoUpper(s: string) {
    forall i :: 0 <= i < |s| ==> !('A' <= s[i] <= 'Z')
  }

  /** Lower-casing undoes upper-casing on text without capitals. */
  lemma LowerUndoesUpper(s: string)
    requires HasNoUpper(s)
    ensures ToLower(ToUpper(s)) == s
  {
    assert forall i :: 0 <= i < |s| ==> LowerChar(UpperChar(s[i])) == s[i];
  }

  /** `strings.Replace(s, from, to, 1)` for one-character `from` and `to`:
      only the first occurrence of `from` is replaced. */
  function ReplaceFirst(s: string, from: char, to: char): (r: string)
    ensures |r| == |s|
    ensures from !in s ==> r == s
    decreases |s|
  {
    if |s| == 0 then ""
    else if s[0] == from then [to] + s[1..]
    else [s[0]] + ReplaceFirst(s[1..], from, to)
  }

  /** The first occurrence is the one replaced: the text before it is kept,
      and so is everything after it, further occurrences included. */
  lemma {:induction false} ReplaceFirstSplit(a: string, b: string, from: char, to: char)
    requires from !in a
    ensures ReplaceFirst(a + [from] + b, from, to) == a + [to] + b
    decreases |a|
  {
    if |a| == 0 {
      assert a + [from] + b == [from] + b;
    } else {
      assert (a + [from] + b)[1..] == a[1..] + [from] + b;
      ReplaceFirstSplit(a[1..], b, from, to);
      assert [a[0]] + (a[1..] + [to] + b) == a + [to] + b;
    }
  }

  /** Where `from` occurs at most once, replacing the first occurrence and
      replacing every occurrence agree. */
  lemma {:induction false} ReplaceFirstIsReplaceAllWhenUnique(s: string, from: char, to: char)
    requires forall i, j :: 0 <= i < j < |s| && s[i] == from ==> s[j] != from
    ensures ReplaceFirst(s, from, to) == ReplaceAll(s, from, to)
    decreases |s|
  {
    if |s| > 0 {
      if s[0] == from {
        assert forall j :: 0 < j < |s| ==> s[j] != from;
        assert ReplaceAll(s, from, to) == [to] + s[1..];
      } else {
        ReplaceFirstIsReplaceAllWhenUnique(s[1..], from, to);
        assert ReplaceAll(s, from, to) == [s[0]] + ReplaceAll(s[1..], from, to);
      }
    }
  }

  /** Upper-casing two lower-case words, joining them with an underscore,
      then lower-casing and turning the first underscore into a dot gives
      the words joined by a dot, provided the first word has no underscore. */
  lemma {:induction false} JoinedUpperRoundTrip(a: string, b: string)
    requires HasNoUpper(a) && HasNoUpper(b) && '_' !in a
    ensures ReplaceFirst(ToLower(ToUpper(a) + "_" + ToUpper(b)), '_', '.') == a + "." + b
  {
    var joined := ToUpper(a) + "_" + ToUpper(b);
    LowerUndoesUpper(a);
    LowerUndoesUpper(b);
    assert ToLower(joined) == ToLower(ToUpper(a)) + "_" + ToLower(ToUpper(b));
    ReplaceFirstSplit(a, b, '_', '.');
    assert a + ['_'] + b == a + "_" + b;
    assert a + ['.'] + b == a + "." + b;
  }

  /** Case mapping and replacement work character by character, so they
      distribute over concatenation. */
  lemma ToUpperAppend(a: string, b: string)
    ensures ToUpper(a + b) == ToUpper(a) + ToUpper(b)
  {
    assert forall i :: 0 <= i < |a + b| ==> ToUpper(a + b)[i] == (ToUpper(a) + ToUpper(b))[i];
  }

  lemma ToLowerAppend(a: string, b: string)
    ensures ToLower(a + b) == ToLower(a) + ToLower(b)
  {
    assert forall i :: 0 <= i < |a + b| ==> ToLower(a + b)[i] == (ToLower(a) + ToLower(b))[i];
  }

  lemma ReplaceAllAppend(a: string, b: string, from: char, to: char)
    ensures ReplaceAll(a + b, from, to) == ReplaceAll(a, from, to) + ReplaceAll(b, from, to)
  {
    assert forall i :: 0 <= i < |a + b| ==> ReplaceAll(a + b, from, to)[i] == (ReplaceAll(a, from, to) + ReplaceAll(b, from, to))[i];
  }

  /** `strings.TrimPrefix`: drops `p` from the front of `s` when it is there. */
  function TrimPrefix(s: string, p: string): (r: string)
    ensures p <= s ==> p + r == s
    ensures !(p <= s) ==> r == s
  {
    if p <= s then s[|p|..] else s
  }

  /** The longest leading run of decimal digits. */
  function DigitPrefix(s: string): (r: string)
    ensures AllDigits(r)
    ensures r <= s
    decreases |s|
  {
    if |s| == 0 || !IsDigit(s[0]) then "" else [s[0]] + DigitPrefix(s[1..])
  }

  /** A digit string followed by a non-digit is read back whole. */
  lemma {:induction false} DigitPrefixOf(d: string, tail: string)
    requires AllDigits(d)
    requires |tail| > 0 && !IsDigit(tail[0])
    ensures DigitPrefix(d + tail) == d
    decreases |d|
  {
    if |d| > 0 {
      assert (d + tail)[1..] == d[1..] + tail;
      DigitPrefixOf(d[1..], tail);
      assert [d[0]] + d[1..] == d;
    } else {
      assert d + tail == tail;
    }
  }
}
