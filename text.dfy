/** The string operations the route classifier and the record builder rely on:
    Python's substring test `pat in text`, `sep.join(parts)` and `str(n)` for a
    natural number. */
module Text {

  /** `pat` occurs in `text` starting at index `i`. */
  ghost predicate OccursAt(text: string, pat: string, i: int)
  {
    0 <= i && i + |pat| <= |text| && text[i..i + |pat|] == pat
  }

  /** Python's `pat in text`: try every start position from the left.
      The empty pattern occurs in every string. */
  function Contains(text: string, pat: string): (found: bool)
    ensures |pat| == 0 ==> found
    ensures found ==> |pat| <= |text|
    decreases |text|
  {
    if |pat| > |text| then false
    else if text[..|pat|] == pat then true
    else Contains(text[1..], pat)
  }

  /** The left-to-right search finds `pat` exactly when some window of `text` equals it. */
  lemma {:induction false} ContainsIff(text: string, pat: string)
    ensures Contains(text, pat) <==> exists i :: OccursAt(text, pat, i)
    decreases |text|
  {
    if |pat| > |text| {
    } else if text[..|pat|] == pat {
      assert OccursAt(text, pat, 0);
    } else {
      ContainsIff(text[1..], pat);
      if Contains(text[1..], pat) {
        var i :| OccursAt(text[1..], pat, i);
        assert text[1..][i..i + |pat|] == text[i + 1..i + 1 + |pat|];
        assert OccursAt(text, pat, i + 1);
      }
      if i :| OccursAt(text, pat, i) {
        assert i != 0;
        assert text[1..][i - 1..i - 1 + |pat|] == text[i..i + |pat|];
        assert OccursAt(text[1..], pat, i - 1);
      }
    }
  }

  /** A text in which the pattern's first character never appears does not
      contain the pattern. */
  lemma {:induction false} MissingFirstCharacter(text: string, pat: string)
    requires |pat| > 0
    requires forall k :: 0 <= k < |text| ==> text[k] != pat[0]
    ensures !Contains(text, pat)
    decreases |text|
  {
    if |pat| <= |text| {
      assert text[..|pat|][0] != pat[0];
      MissingFirstCharacter(text[1..], pat);
    }
  }

  /** A match inside `middle` is still a match once text is added on either side. */
  lemma ContainsInfix(before: string, middle: string, after: string, pat: string)
    requires Contains(middle, pat)
    ensures Contains(before + middle + after, pat)
  {
    ContainsIff(middle, pat);
    var i :| OccursAt(middle, pat, i);
    var whole := before + middle + after;
    assert whole[|before| + i..|before| + i + |pat|] == middle[i..i + |pat|];
    assert OccursAt(whole, pat, |before| + i);
    ContainsIff(whole, pat);
  }

  /** Python's `sep.join(parts)`: the parts in order, `sep` between neighbours. */
  function Join(parts: seq<string>, sep: string): (s: string)
    ensures forall i :: 0 <= i < |parts| ==> |parts[i]| <= |s|
  {
    if |parts| == 0 then []
    else if |parts| == 1 then parts[0]
    else parts[0] + sep + Join(parts[1..], sep)
  }

  /** Cutting the parts at any inner position cuts the joined text at a separator. */
  lemma {:induction false} JoinSplit(parts: seq<string>, sep: string, k: nat)
    requires 0 < k < |parts|
    ensures Join(parts, sep) == Join(parts[..k], sep) + sep + Join(parts[k..], sep)
  {
    if k > 1 {
      var front := parts[..k];
      JoinSplit(parts[1..], sep, k - 1);
      assert parts[1..][..k - 1] == front[1..];
      assert parts[1..][k - 1..] == parts[k..];
      assert Join(front, sep) == front[0] + sep + Join(front[1..], sep);
      assert Join(parts, sep) == parts[0] + sep + Join(parts[1..], sep);
    } else {
      assert parts[..1] == [parts[0]];
    }
  }

  /** A match inside one part, or across one separator between neighbouring
      parts, is a match in the joined text. */
  lemma JoinContainsAdjacent(parts: seq<string>, sep: string, k: nat, pat: string)
    requires k + 1 < |parts|
    requires Contains(parts[k] + sep + parts[k + 1], pat)
    ensures Contains(Join(parts, sep), pat)
  {
    var pair := parts[k] + sep + parts[k + 1];
    var tail := Join(parts[k..], sep);
    assert parts[k..][1..] == parts[k + 1..];
    var rest: string;
    if k + 2 < |parts| {
      JoinSplit(parts[k + 1..], sep, 1);
      assert parts[k + 1..][..1] == [parts[k + 1]];
      assert parts[k + 1..][1..] == parts[k + 2..];
      rest := sep + Join(parts[k + 2..], sep);
    } else {
      assert parts[k + 1..] == [parts[k + 1]];
      rest := [];
    }
    assert tail == pair + rest;
    var before: string;
    if k == 0 {
      assert parts[0..] == parts;
      before := [];
    } else {
      JoinSplit(parts, sep, k);
      before := Join(parts[..k], sep) + sep;
    }
    assert Join(parts, sep) == before + pair + rest;
    ContainsInfix(before, pair, rest, pat);
  }

  /** A match inside any single part is a match in the joined text. */
  lemma JoinContainsPart(parts: seq<string>, sep: string, k: nat, pat: string)
    requires k < |parts|
    requires Contains(parts[k], pat)
    ensures Contains(Join(parts, sep), pat)
  {
    if k + 1 < |parts| {
      ContainsInfix([], parts[k], sep + parts[k + 1], pat);
      assert [] + parts[k] + (sep + parts[k + 1]) == parts[k] + sep + parts[k + 1];
      JoinContainsAdjacent(parts, sep, k, pat);
    } else if k == 0 {
      assert Join(parts, sep) == parts[k];
    } else {
      JoinSplit(parts, sep, k);
      assert parts[k..] == [parts[k]];
      ContainsInfix(Join(parts[..k], sep) + sep, parts[k], [], pat);
      assert Join(parts, sep) == (Join(parts[..k], sep) + sep) + parts[k] + [];
    }
  }

  /** The character for a decimal digit. */
  function DigitChar(d: nat): (c: char)
    requires d < 10
    ensures '0' <= c <= '9' && (c as int) - ('0' as int) == d
  {
    (('0' as int) + d) as char
  }

  /** Python's `str(n)` for a natural number: its decimal digits, most significant first. */
  function DecimalString(n: nat): (s: string)
    ensures |s| > 0
    ensures forall i :: 0 <= i < |s| ==> '0' <= s[i] <= '9'
    ensures |s| == 1 <==> n < 10
    ensures |s| > 1 ==> s[0] != '0'
    decreases n
  {
    if n < 10 then [DigitChar(n)]
    else DecimalString(n / 10) + [DigitChar(n % 10)]
  }

  /** The number a string of decimal digits denotes (Python's `int(s)` on digits). */
  function DecimalValue(s: string): nat
    requires forall i :: 0 <= i < |s| ==> '0' <= s[i] <= '9'
  {
    if |s| == 0 then 0
    else DecimalValue(s[..|s| - 1]) * 10 + ((s[|s| - 1] as int) - ('0' as int))
  }

  /** Reading back the decimal digits gives the number: `int(str(n)) == n`. */
  lemma {:induction false} DecimalRoundTrip(n: nat)
    ensures DecimalValue(DecimalString(n)) == n
    decreases n
  {
    var s := DecimalString(n);
    if n >= 10 {
      DecimalRoundTrip(n / 10);
      assert s[..|s| - 1] == DecimalString(n / 10);
    }
  }
}
