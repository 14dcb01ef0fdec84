/**
  The two name shapes of the catalogue, written as predicates instead of
  regular expressions: a product name is `[a-zA-Z]+[0-9]+` and a query for
  `n` letters is `[a-zA-Z]{n}[0-9]{2,3}`, both matched against the whole name.
 */
module Names {

  /** `[a-zA-Z]`: an ASCII letter. */
  predicate IsLetter(c: char) {
    'a' <= c <= 'z' || 'A' <= c <= 'Z'
  }

  /** `[0-9]`: an ASCII digit. */
  predicate IsDigit(c: char) {
    '0' <= c <= '9'
  }

  predicate AllLetters(s: string) {
    forall i :: 0 <= i < |s| ==> IsLetter(s[i])
  }

  predicate AllDigits(s: string) {
    forall i :: 0 <= i < |s| ==> IsDigit(s[i])
  }

  /** The language of `[a-zA-Z]+[0-9]+`: one or more letters, then one or more digits, nothing else. */
  ghost predicate ValidName(s: string) {
    exists k :: 0 < k < |s| && AllLetters(s[..k]) && AllDigits(s[k..])
  }

  /**
    The language of `[a-zA-Z]{n}[0-9]{2,3}`: exactly `n` letters, then two or
    three digits, nothing else. Equivalently, the name's whole letter run is
    `n` long and two or three digits make up the rest.
   */
  predicate QueryShape(n: nat, s: string): (r: bool)
    ensures r <==> LetterRun(s) == n && (|s| == n + 2 || |s| == n + 3) && AllDigits(s[n..])
  {
    if (|s| == n + 2 || |s| == n + 3) && AllLetters(s[..n]) && AllDigits(s[n..]) then
      assert IsDigit(s[n..][0]);
      LetterRunEndsAtNonLetter(s, n);
      true
    else
      false
  }

  /** The length of the longest run of letters at the start of `s`. */
  function LetterRun(s: string): (k: nat)
    ensures k <= |s|
    ensures AllLetters(s[..k])
    ensures k < |s| ==> !IsLetter(s[k])
  {
    if s == [] || !IsLetter(s[0]) then 0
    else
      var k := 1 + LetterRun(s[1..]);
      assert s[..k] == [s[0]] + s[1..][..k - 1];
      k
  }

  /**
    Matches a product name left to right: consume the letters, then demand
    at least one of them and digits from there to the end.
   */
  function MatchesProductName(s: string): (b: bool)
    ensures b <==> ValidName(s)
  {
    var k := LetterRun(s);
    assert ValidName(s) ==> 0 < k < |s| && AllDigits(s[k..]) by {
      if ValidName(s) {
        var j :| 0 < j < |s| && AllLetters(s[..j]) && AllDigits(s[j..]);
        SplitIsLetterRun(s, j);
      }
    }
    0 < k < |s| && AllDigits(s[k..])
  }

  /** A run of `j` letters ended by a non-letter is the longest letter run of `s`. */
  lemma {:induction false} LetterRunEndsAtNonLetter(s: string, j: nat)
    requires j < |s| && AllLetters(s[..j]) && !IsLetter(s[j])
    ensures LetterRun(s) == j
  {
    if j > 0 {
      assert IsLetter(s[..j][0]);
      assert s[1..][..j - 1] == s[..j][1..];
      LetterRunEndsAtNonLetter(s[1..], j - 1);
    }
  }

  /** No character is both a letter and a digit, so a split into letters then digits is unique. */
  lemma SplitIsLetterRun(s: string, k: nat)
    requires 0 < k < |s| && AllLetters(s[..k]) && AllDigits(s[k..])
    ensures LetterRun(s) == k
  {
    assert IsDigit(s[k..][0]);
    LetterRunEndsAtNonLetter(s, k);
  }

  /** With at least one letter, every name a query selects is also a valid product name. */
  lemma QueryShapeIsValidName(n: nat, s: string)
    requires 0 < n && QueryShape(n, s)
    ensures ValidName(s)
  {
  }

  /** A query for zero letters selects only names of digits, and no valid product name is one. */
  lemma ZeroLetterQueryMatchesNoValidName(s: string)
    requires ValidName(s)
    ensures !QueryShape(0, s)
  {
    var k :| 0 < k < |s| && AllLetters(s[..k]) && AllDigits(s[k..]);
    assert IsLetter(s[..k][0]);
  }

  /** A valid product name starts with a letter and ends with a digit. */
  lemma ValidNameCharacters(s: string)
    requires ValidName(s)
    ensures IsLetter(s[0]) && IsDigit(s[|s| - 1])
  {
  }

  /** Every character of a valid product name is a letter or a digit. */
  lemma ValidNameCharacterAt(s: string, i: nat)
    requires ValidName(s) && i < |s|
    ensures IsLetter(s[i]) || IsDigit(s[i])
  {
  }
}
