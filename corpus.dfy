/** Word-cloud corpus cleaning: `re.sub(r"\b[a-zA-Z]\b", " ", text)`
    blanks out every single ASCII letter that stands alone as a word. Word
    characters are taken to be ASCII letters, digits and '_'. */
module Corpus {

  predicate IsAsciiLetter(c: char)
  {
    'a' <= c <= 'z' || 'A' <= c <= 'Z'
  }

  /** `\w` over ASCII. */
  predicate IsWordChar(c: char)
  {
    IsAsciiLetter(c) || '0' <= c <= '9' || c == '_'
  }

  /** `\b[a-zA-Z]\b` matches the one character at `i`: an ASCII letter with
      no word character directly before or after it. */
  predicate Standalone(s: string, i: nat)
    requires i < |s|
  {
    IsAsciiLetter(s[i]) &&
    (i == 0 || !IsWordChar(s[i - 1])) &&
    (i + 1 == |s| || !IsWordChar(s[i + 1]))
  }

  /** Every match is one character long and is replaced by one space; the
      matches are found in the original text, so each position is decided
      on its own. */
  function StripSingleLetters(s: string): (r: string)
    ensures |r| == |s|
    ensures forall i :: 0 <= i < |s| ==> r[i] == if Standalone(s, i) then ' ' else s[i]
  {
    seq(|s|, i requires 0 <= i < |s| => if Standalone(s, i) then ' ' else s[i])
  }

  /** After cleaning, no single-letter word is left. */
  lemma StripLeavesNoStandalone(s: string)
    ensures forall i :: 0 <= i < |s| ==> !Standalone(StripSingleLetters(s), i)
  {
    var r := StripSingleLetters(s);
    forall i | 0 <= i < |s| ensures !Standalone(r, i) {
      if !Standalone(s, i) && IsAsciiLetter(s[i]) {
        if i > 0 && IsWordChar(s[i - 1]) {
          assert !Standalone(s, i - 1);
          assert r[i - 1] == s[i - 1];
        } else {
          assert i + 1 < |s| && IsWordChar(s[i + 1]);
          assert !Standalone(s, i + 1);
          assert r[i + 1] == s[i + 1];
        }
      }
    }
  }

  /** A text without single-letter words comes out unchanged. */
  lemma StripCleanIsIdentity(s: string)
    requires forall i :: 0 <= i < |s| ==> !Standalone(s, i)
    ensures StripSingleLetters(s) == s
  {
  }

  /** Cleaning twice is cleaning once. */
  lemma StripIdempotent(s: string)
    ensures StripSingleLetters(StripSingleLetters(s)) == StripSingleLetters(s)
  {
    StripLeavesNoStandalone(s);
    StripCleanIsIdentity(StripSingleLetters(s));
  }

  /** Cleaning only ever turns letters into spaces: every other character,
      and every letter that belongs to a longer word, keeps its place. */
  lemma StripOnlyBlanksLetters(s: string, i: nat)
    requires i < |s|
    ensures StripSingleLetters(s)[i] != s[i] ==> IsAsciiLetter(s[i]) && StripSingleLetters(s)[i] == ' '
    ensures i + 1 < |s| && IsWordChar(s[i + 1]) ==> StripSingleLetters(s)[i] == s[i]
    ensures i > 0 && IsWordChar(s[i - 1]) ==> StripSingleLetters(s)[i] == s[i]
  {
  }
}
