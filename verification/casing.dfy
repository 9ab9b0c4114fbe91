/** How the first (English) text of a sample is cased from one uniform draw
    (Synthtext/gen.py:99-103). Characters are treated as ASCII: Python's
    str.upper / str.capitalize act on all of Unicode, this model only on the
    26 Latin letters. */
module Casing {

  predicate IsLower(c: char) { 'a' <= c <= 'z' }

  predicate IsUpper(c: char) { 'A' <= c <= 'Z' }

  function UpperChar(c: char): char {
    if IsLower(c) then (c as int - 32) as char else c
  }

  function LowerChar(c: char): char {
    if IsUpper(c) then (c as int + 32) as char else c
  }

  /** str.upper */
  function Upper(s: string): (u: string)
    ensures |u| == |s|
  {
    seq(|s|, i requires 0 <= i < |s| => UpperChar(s[i]))
  }

  function Lower(s: string): (l: string)
    ensures |l| == |s|
  {
    seq(|s|, i requires 0 <= i < |s| => LowerChar(s[i]))
  }

  /** str.capitalize: first character upper-cased, the rest lower-cased. */
  function Capitalize(s: string): (c: string)
    ensures |c| == |s|
  {
    if |s| == 0 then [] else [UpperChar(s[0])] + Lower(s[1..])
  }

  /** No lower-case letter anywhere. */
  ghost predicate AllUpper(s: string) {
    forall i :: 0 <= i < |s| ==> !IsLower(s[i])
  }

  /** Capitalised form: no lower-case first letter, no upper-case letter after it. */
  ghost predicate Capitalized(s: string) {
    && (|s| > 0 ==> !IsLower(s[0]))
    && forall i :: 1 <= i < |s| ==> !IsUpper(s[i])
  }

  /** Two strings that agree letter for letter once case is ignored. */
  ghost predicate SameLetters(a: string, b: string) {
    |a| == |b| && forall i :: 0 <= i < |a| ==> UpperChar(a[i]) == UpperChar(b[i])
  }

  /** Upper-casing leaves no lower-case letter, changes only the case of
      letters, and is idempotent. */
  lemma UpperSpec(s: string)
    ensures AllUpper(Upper(s))
    ensures SameLetters(Upper(s), s)
    ensures AllUpper(s) <==> Upper(s) == s
  {
    if AllUpper(s) {
      assert forall i :: 0 <= i < |s| ==> Upper(s)[i] == s[i];
    }
  }

  /** Character-level facts behind the string lemmas. */
  lemma CaseChars(c: char)
    ensures !IsLower(UpperChar(c)) && !IsUpper(LowerChar(c))
    ensures UpperChar(LowerChar(c)) == UpperChar(c)
    ensures UpperChar(UpperChar(c)) == UpperChar(c)
    ensures LowerChar(LowerChar(c)) == LowerChar(c)
    ensures !IsLower(c) ==> UpperChar(c) == c
    ensures !IsUpper(c) ==> LowerChar(c) == c
  {
  }

  /** Capitalising yields the capitalised form of the same letters and is
      idempotent. */
  lemma CapitalizeSpec(s: string)
    ensures Capitalized(Capitalize(s))
    ensures SameLetters(Capitalize(s), s)
    ensures Capitalize(Capitalize(s)) == Capitalize(s)
  {
    if |s| > 0 {
      var c := Capitalize(s);
      CaseChars(s[0]);
      forall i | 1 <= i < |s|
        ensures c[i] == LowerChar(s[i]) && !IsUpper(c[i])
        ensures UpperChar(c[i]) == UpperChar(s[i])
      {
        CaseChars(s[i]);
      }
      var cc := Capitalize(c);
      forall i | 0 <= i < |s|
        ensures cc[i] == c[i]
      {
        if i == 0 { CaseChars(s[0]); } else { CaseChars(s[i]); }
      }
    }
  }

  /** Upper-casing after capitalising is the same as upper-casing alone, so
      the two-step path of the source (capitalize, then upper) is plain upper. */
  lemma UpperAfterCapitalize(s: string)
    ensures Upper(Capitalize(s)) == Upper(s)
  {
    if |s| > 0 {
      var c := Capitalize(s);
      assert forall i :: 1 <= i < |s| ==> c[i] == LowerChar(s[i]);
      assert forall i :: 0 <= i < |s| ==> Upper(c)[i] == Upper(s)[i];
    }
  }

  /** The casing step of one generation attempt. `r` is the np.random.rand()
      draw, the two rates come from the configuration. The source tests the
      wider threshold first (capitalize), then the narrower one (upper). */
  function CaseText(text: string, r: real, capitalizeRate: real, uppercaseRate: real): (t: string)
    ensures |t| == |text|
    ensures r < uppercaseRate ==> t == Upper(text)
    ensures uppercaseRate <= r < capitalizeRate + uppercaseRate ==> t == Capitalize(text)
    ensures !(r < uppercaseRate) && !(r < capitalizeRate + uppercaseRate) ==> t == text
  {
    var t1 := if r < capitalizeRate + uppercaseRate then Capitalize(text) else text;
    UpperAfterCapitalize(text);
    if r < uppercaseRate then Upper(t1) else t1
  }
}
