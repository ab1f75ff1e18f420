/**
 * Strings as the source uses them: ASCII lower-casing (`str.lower`),
 * substring search (`x in s`, `re.search` of a literal), `str.join`,
 * decimal rendering of integers (f-strings) and `int()` truncation of a float.
 */
module Text {

  function LowerChar(c: char): char {
    if 'A' <= c <= 'Z' then (c as int + 32) as char else c
  }

  /** `s.lower()` restricted to ASCII. */
  function Lower(s: string): (r: string)
    ensures |r| == |s|
    ensures forall i :: 0 <= i < |s| ==> r[i] == LowerChar(s[i])
  {
    seq(|s|, i requires 0 <= i < |s| => LowerChar(s[i]))
  }

  /** Lower-casing leaves no ASCII capital behind and is idempotent. */
  lemma LowerIdempotent(s: string)
    ensures forall i :: 0 <= i < |s| ==> !('A' <= Lower(s)[i] <= 'Z')
    ensures Lower(Lower(s)) == Lower(s)
  {
    assert forall i :: 0 <= i < |s| ==> LowerChar(LowerChar(s[i])) == LowerChar(s[i]);
  }

  /** Lower-casing works character by character, so it distributes over concatenation. */
  lemma LowerConcat(a: string, b: string)
    ensures Lower(a + b) == Lower(a) + Lower(b)
  {
    assert forall i :: 0 <= i < |a + b| ==> Lower(a + b)[i] == (Lower(a) + Lower(b))[i];
  }

  /** `pat` occurs in `text` starting at index `i`. */
  predicate OccursAt(pat: string, text: string, i: int) {
    0 <= i && i + |pat| <= |text| && text[i..i + |pat|] == pat
  }

  /** Python's `pat in text`. */
  function IsSubstring(pat: string, text: string): (r: bool)
    ensures r <==> exists i :: OccursAt(pat, text, i)
    decreases |text|
  {
    if |pat| > |text| then
      false
    else if pat == text[..|pat|] then
      assert OccursAt(pat, text, 0);
      true
    else
      var rest := IsSubstring(pat, text[1..]);
      if rest then
        var j :| OccursAt(pat, text[1..], j);
        assert OccursAt(pat, text, j + 1);
        true
      else
        assert |pat| > 0 && |text| > 0;
        assert forall i | OccursAt(pat, text, i) :: i >= 1 && OccursAt(pat, text[1..], i - 1);
        false
  }

  lemma {:induction false} SubstringOfConcat(pat: string, a: string, b: string)
    requires IsSubstring(pat, b)
    ensures IsSubstring(pat, a + b) && IsSubstring(pat, b + a)
  {
    var j :| OccursAt(pat, b, j);
    assert (a + b)[|a| + j..|a| + j + |pat|] == b[j..j + |pat|];
    assert OccursAt(pat, a + b, |a| + j);
    assert (b + a)[j..j + |pat|] == b[j..j + |pat|];
    assert OccursAt(pat, b + a, j);
  }

  lemma SubstringOfSelf(s: string)
    ensures IsSubstring(s, s)
  {
    assert OccursAt(s, s, 0);
  }

  /** A pattern with a character that never occurs in the text does not occur in it. */
  lemma CharAbsent(pat: string, text: string, k: nat)
    requires k < |pat| && pat[k] !in text
    ensures !IsSubstring(pat, text)
  {
  }

  /** `sep.join(parts)`. */
  function Join(parts: seq<string>, sep: string): string
  {
    if |parts| == 0 then ""
    else if |parts| == 1 then parts[0]
    else parts[0] + sep + Join(parts[1..], sep)
  }

  /** Joining a part in front of at least one more puts a separator between them. */
  lemma JoinCons(p: string, rest: seq<string>, sep: string)
    requires |rest| > 0
    ensures Join([p] + rest, sep) == p + sep + Join(rest, sep)
  {
    assert ([p] + rest)[1..] == rest;
  }

  /** `' '.join(parts)` is empty exactly when there is nothing to join or only one empty part. */
  lemma {:induction false} JoinEmpty(parts: seq<string>, sep: string)
    requires sep != ""
    ensures Join(parts, sep) == "" <==> |parts| == 0 || (|parts| == 1 && parts[0] == "")
  {
    if |parts| >= 2 {
      assert |Join(parts, sep)| >= |sep| > 0;
    }
  }

  /** Every part appears, verbatim, in the joined string. */
  lemma {:induction false} JoinContainsParts(parts: seq<string>, sep: string, k: nat)
    requires k < |parts|
    ensures IsSubstring(parts[k], Join(parts, sep))
  {
    if |parts| == 1 {
      SubstringOfSelf(parts[0]);
    } else if k == 0 {
      SubstringOfSelf(parts[0]);
      SubstringOfConcat(parts[0], sep + Join(parts[1..], sep), parts[0]);
      assert parts[0] + sep + Join(parts[1..], sep) == parts[0] + (sep + Join(parts[1..], sep));
    } else {
      JoinContainsParts(parts[1..], sep, k - 1);
      SubstringOfConcat(parts[k], parts[0] + sep, Join(parts[1..], sep));
      assert parts[0] + sep + Join(parts[1..], sep) == (parts[0] + sep) + Join(parts[1..], sep);
    }
  }

  function DigitChar(d: nat): char
    requires d < 10
  {
    ('0' as int + d) as char
  }

  predicate IsDigit(c: char) {
    '0' <= c <= '9'
  }

  /** Decimal rendering of a natural number, as `str(n)` gives it. */
  function NatToString(n: nat): (s: string)
    ensures |s| >= 1
    ensures forall i :: 0 <= i < |s| ==> IsDigit(s[i])
    ensures |s| > 1 ==> s[0] != '0'
  {
    if n < 10 then [DigitChar(n)] else NatToString(n / 10) + [DigitChar(n % 10)]
  }

  /** Decimal rendering of an integer with a leading `-` when negative, as `str(i)` gives it. */
  function IntToString(i: int): (s: string)
    ensures |s| >= 1
    ensures (s[0] == '-') <==> i < 0
  {
    if i < 0 then "-" + NatToString(-i) else NatToString(i)
  }

  /** Reads a string of decimal digits back into a number. */
  function ParseNat(s: string): nat
    requires forall i :: 0 <= i < |s| ==> IsDigit(s[i])
  {
    if |s| == 0 then 0
    else
      assert IsDigit(s[|s| - 1]);
      10 * ParseNat(s[..|s| - 1]) + (s[|s| - 1] as int - '0' as int)
  }

  lemma {:induction false} ParseNatToString(n: nat)
    ensures ParseNat(NatToString(n)) == n
  {
    if n >= 10 {
      var s := NatToString(n);
      assert s[..|s| - 1] == NatToString(n / 10);
      ParseNatToString(n / 10);
    }
  }

  /** Python's `int(x)` on a float: truncation toward zero. */
  function Trunc(x: real): (r: int)
    ensures 0.0 <= x ==> 0 <= r && r as real <= x < r as real + 1.0
    ensures x < 0.0 ==> r <= 0 && r as real - 1.0 < x <= r as real
  {
    if x >= 0.0 then x.Floor else -((-x).Floor)
  }
}
