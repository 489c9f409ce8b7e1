/** ASCII case folding of names: at-rule names, media feature names and
    feature keys compare case-insensitively. No other normalisation (Unicode
    case folding included) is modelled. */
module Text {

  predicate IsUpper(c: char) {
    'A' <= c <= 'Z'
  }

  /** Folds one ASCII upper-case letter to lower case; every other character is kept. */
  function Lower(c: char): (r: char)
    ensures !IsUpper(r)
    ensures IsUpper(c) ==> r as int == c as int + 32
    ensures !IsUpper(c) ==> r == c
  {
    if IsUpper(c) then (c as int + 32) as char else c
  }

  /** `s` with every character folded by `Lower`. */
  function LowerStr(s: string): (r: string)
    ensures |r| == |s|
  {
    seq(|s|, i requires 0 <= i < |s| => Lower(s[i]))
  }

  /** `t` is `s` with every character folded. */
  predicate Folds(s: string, t: string) {
    |t| == |s| && forall i :: 0 <= i < |s| ==> t[i] == Lower(s[i])
  }

  /** `s` and `t` differ at most in the letter case of ASCII letters. */
  predicate EqualIgnoringCase(s: string, t: string) {
    |s| == |t| && forall i :: 0 <= i < |s| ==> Lower(s[i]) == Lower(t[i])
  }

  /** Two strings fold to the same string exactly when they are equal ignoring case. */
  lemma LowerStrEqual(s: string, t: string)
    ensures LowerStr(s) == LowerStr(t) <==> EqualIgnoringCase(s, t)
  {
    if LowerStr(s) == LowerStr(t) {
      forall i | 0 <= i < |s|
        ensures Lower(s[i]) == Lower(t[i])
      {
        assert LowerStr(s)[i] == LowerStr(t)[i];
      }
    }
  }

  /** No character of `s` is an upper-case letter. */
  predicate IsLowerCase(s: string) {
    forall i :: 0 <= i < |s| ==> !IsUpper(s[i])
  }

  /** Folding always yields a lower-case string. */
  lemma LowerStrIsLowerCase(s: string)
    ensures IsLowerCase(LowerStr(s))
  {
  }

  /** A string without upper-case letters is its own folding. */
  lemma LowerStrOfLowerCase(s: string)
    requires IsLowerCase(s)
    ensures LowerStr(s) == s
  {
  }

  /** `t` is the folding of `s` when it agrees with it character by character. */
  lemma FoldsTo(s: string, t: string)
    requires |s| == |t|
    requires forall i :: 0 <= i < |s| ==> Lower(s[i]) == t[i]
    ensures LowerStr(s) == t
  {
  }
}
