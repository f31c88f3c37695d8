/**
 * The strings the script writes into the page: the decimal numerals of the
 * "i / n" image counters, and the test `/<[^>]*>/` that decides whether a
 * translated text is markup.
 */
module Text {
  import opened Wrappers

  predicate IsDigit(c: char) {
    '0' <= c <= '9'
  }

  predicate AllDigits(s: string) {
    forall i :: 0 <= i < |s| ==> IsDigit(s[i])
  }

  function DigitChar(d: nat): (c: char)
    requires d < 10
    ensures IsDigit(c) && c as int - '0' as int == d
  {
    ('0' as int + d) as char
  }

  function DigitValue(c: char): (d: nat)
    requires IsDigit(c)
    ensures d < 10
  {
    c as int - '0' as int
  }

  /** The numeral JavaScript prints for a non-negative integer: digits only, no leading zero. */
  function NatToString(n: nat): (s: string)
    ensures |s| > 0 && AllDigits(s)
    ensures (|s| == 1) == (n < 10)
    ensures s[0] == '0' ==> n == 0
    ensures |s| > 1 ==> s[0] != '0'
  {
    if n < 10 then [DigitChar(n)] else NatToString(n / 10) + [DigitChar(n % 10)]
  }

  /** The value of a string of decimal digits (most significant first). */
  function DigitsValue(s: string): nat
    requires AllDigits(s)
  {
    if s == [] then 0 else DigitsValue(s[..|s| - 1]) * 10 + DigitValue(s[|s| - 1])
  }

  lemma {:induction false} DigitsValueOfNatToString(n: nat)
    ensures DigitsValue(NatToString(n)) == n
  {
    if n >= 10 {
      var s := NatToString(n);
      assert s[..|s| - 1] == NatToString(n / 10);
      DigitsValueOfNatToString(n / 10);
    }
  }

  /** The numeral JavaScript prints for an integer-valued number. */
  function IntToString(i: int): (s: string)
    ensures |s| > 0 && ' ' !in s
  {
    if i < 0 then "-" + NatToString(-i) else NatToString(i)
  }

  /** Reads back a numeral produced by IntToString; None for anything else. */
  function ParseInt(s: string): Option<int> {
    if |s| > 1 && s[0] == '-' && AllDigits(s[1..]) then Some(-(DigitsValue(s[1..]) as int))
    else if |s| > 0 && AllDigits(s) then Some(DigitsValue(s))
    else None
  }

  lemma ParseIntOfIntToString(i: int)
    ensures ParseInt(IntToString(i)) == Some(i)
  {
    var s := IntToString(i);
    if i < 0 {
      assert s[1..] == NatToString(-i);
      assert |s| > 1 && s[0] == '-' && AllDigits(s[1..]);
      DigitsValueOfNatToString(-i);
    } else {
      assert s == NatToString(i) && s[0] != '-';
      DigitsValueOfNatToString(i);
    }
  }

  /** The text of an image counter: `${shown} / ${total}`. */
  function Indicator(shown: int, total: int): string {
    IntToString(shown) + " / " + IntToString(total)
  }

  /** Index of the first space of s, or |s| when there is none. */
  function IndexOfSpace(s: string): (k: nat)
    ensures k <= |s|
    ensures k < |s| ==> s[k] == ' '
    ensures forall j :: 0 <= j < k ==> s[j] != ' '
  {
    if s == [] || s[0] == ' ' then 0 else 1 + IndexOfSpace(s[1..])
  }

  /** Reads the two numbers back out of a counter text. */
  function ParseIndicator(s: string): Option<(int, int)> {
    var k := IndexOfSpace(s);
    if k + 3 <= |s| && s[k..k + 3] == " / " then
      match (ParseInt(s[..k]), ParseInt(s[k + 3..]))
      case (Some(a), Some(b)) => Some((a, b))
      case _ => None
    else None
  }

  lemma IndexOfSpaceAfterWord(a: string, b: string)
    requires ' ' !in a && |b| > 0 && b[0] == ' '
    ensures IndexOfSpace(a + b) == |a|
  {
    var ab := a + b;
    assert ab[|a|] == ' ';
    assert forall j :: 0 <= j < |a| ==> ab[j] == a[j] && a[j] in a;
  }

  /** The counter text determines both numbers it shows. */
  lemma IndicatorRoundTrip(shown: int, total: int)
    ensures ParseIndicator(Indicator(shown, total)) == Some((shown, total))
  {
    var a, b := IntToString(shown), IntToString(total);
    var s := Indicator(shown, total);
    assert s == a + (" / " + b);
    IndexOfSpaceAfterWord(a, " / " + b);
    assert s[..|a|] == a;
    assert s[|a|..|a| + 3] == " / ";
    assert s[|a| + 3..] == b;
    ParseIntOfIntToString(shown);
    ParseIntOfIntToString(total);
  }

  /**
   * What the regular expression `/<[^>]*>/` matches somewhere in s: a '<'
   * followed later by a '>' with no '>' in between.
   */
  ghost predicate MatchesTagPattern(s: string) {
    exists i, j :: 0 <= i < j < |s| && s[i] == '<' && s[j] == '>' &&
      forall k :: i < k < j ==> s[k] != '>'
  }

  /** The regular-expression test, scanning for the first '<'. */
  function ContainsTag(s: string): bool {
    if s == [] then false
    else if s[0] == '<' then '>' in s[1..]
    else ContainsTag(s[1..])
  }

  lemma {:induction false} FirstOccurrence(t: string, c: char)
    requires c in t
    ensures exists j :: 0 <= j < |t| && t[j] == c && forall k :: 0 <= k < j ==> t[k] != c
  {
    if t[0] != c {
      assert c in t[1..] by {
        var m :| 0 <= m < |t| && t[m] == c;
        assert t[1..][m - 1] == c;
      }
      FirstOccurrence(t[1..], c);
      var j :| 0 <= j < |t[1..]| && t[1..][j] == c && forall k :: 0 <= k < j ==> t[1..][k] != c;
      assert t[j + 1] == c;
      forall k | 0 <= k < j + 1 ensures t[k] != c {
        if k > 0 { assert t[k] == t[1..][k - 1]; }
      }
    }
  }

  /** Whatever the scan reports as markup, the regular expression matches. */
  lemma {:induction false} ContainsTagSound(s: string)
    requires ContainsTag(s)
    ensures MatchesTagPattern(s)
  {
    if s[0] == '<' {
      FirstOccurrence(s[1..], '>');
      var j :| 0 <= j < |s[1..]| && s[1..][j] == '>' && forall k :: 0 <= k < j ==> s[1..][k] != '>';
      assert s[j + 1] == '>';
      forall k | 0 < k < j + 1 ensures s[k] != '>' {
        assert s[k] == s[1..][k - 1];
      }
      assert 0 < j + 1 < |s|;
    } else {
      var t := s[1..];
      ContainsTagSound(t);
      var i, j :| 0 <= i < j < |t| && t[i] == '<' && t[j] == '>' &&
        forall k :: i < k < j ==> t[k] != '>';
      assert s[i + 1] == '<' && s[j + 1] == '>';
      forall k | i + 1 < k < j + 1 ensures s[k] != '>' {
        assert s[k] == t[k - 1];
      }
    }
  }

  /** Whatever the regular expression matches, the scan reports as markup. */
  lemma {:induction false} ContainsTagComplete(s: string)
    requires MatchesTagPattern(s)
    ensures ContainsTag(s)
  {
    var i, j :| 0 <= i < j < |s| && s[i] == '<' && s[j] == '>' &&
      forall k :: i < k < j ==> s[k] != '>';
    if s[0] == '<' {
      assert s[1..][j - 1] == '>';
    } else {
      var t := s[1..];
      assert t[i - 1] == '<' && t[j - 1] == '>';
      forall k | i - 1 < k < j - 1 ensures t[k] != '>' {
        assert t[k] == s[k + 1];
      }
      ContainsTagComplete(t);
    }
  }

  /** The scan is exactly the regular-expression test. */
  lemma ContainsTagMatchesPattern(s: string)
    ensures ContainsTag(s) <==> MatchesTagPattern(s)
  {
    if ContainsTag(s) { ContainsTagSound(s); }
    if MatchesTagPattern(s) { ContainsTagComplete(s); }
  }

  /** A text with no '<' is never taken for markup. */
  lemma {:induction false} NoAngleBracketNoTag(s: string)
    requires '<' !in s
    ensures !ContainsTag(s)
  {
    if s != [] {
      NoAngleBracketNoTag(s[1..]);
    }
  }
}
