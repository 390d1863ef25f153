/**
 * `generateReferralCode` (server.js:88-90): the text of the name before its
 * first space, upper-cased, followed by "2025". Upper-casing is modelled for
 * ASCII letters only.
 */
module Referral {

  const CodeSuffix := "2025"

  /** `toUpperCase` on one character, restricted to ASCII: a-z become A-Z. */
  function UpperChar(c: char): (u: char)
    ensures 'a' <= c <= 'z' ==> u as int == c as int - 32
    ensures !('a' <= c <= 'z') ==> u == c
  {
    if 'a' <= c <= 'z' then (c as int - 32) as char else c
  }

  function ToUpper(s: string): (r: string)
    ensures |r| == |s|
    ensures forall i :: 0 <= i < |s| ==> r[i] == UpperChar(s[i])
  {
    if s == [] then [] else [UpperChar(s[0])] + ToUpper(s[1..])
  }

  /** `name.split(' ')[0]`: everything before the first space. */
  function FirstWord(name: string): (w: string)
    ensures w <= name
    ensures ' ' !in w
    ensures |w| < |name| ==> name[|w|] == ' '
  {
    if name == [] || name[0] == ' ' then [] else [name[0]] + FirstWord(name[1..])
  }

  function GenerateReferralCode(name: string): (code: string)
    ensures |code| == |FirstWord(name)| + |CodeSuffix|
    ensures code[|code| - |CodeSuffix|..] == CodeSuffix
  {
    ToUpper(FirstWord(name)) + CodeSuffix
  }

  /** The first word is determined by what stands before the first space. */
  lemma {:induction false} FirstWordOf(w: string, rest: string)
    requires ' ' !in w
    ensures FirstWord(w + rest) == w || (rest != [] && rest[0] != ' ')
    ensures rest == [] || rest[0] == ' ' ==> FirstWord(w + rest) == w
  {
    if w != [] {
      assert (w + rest)[0] == w[0] && (w + rest)[1..] == w[1..] + rest;
      FirstWordOf(w[1..], rest);
    } else {
      assert w + rest == rest;
    }
  }

  /** A name without a space is used whole. */
  lemma CodeOfSingleWord(name: string)
    requires ' ' !in name
    ensures GenerateReferralCode(name) == ToUpper(name) + CodeSuffix
  {
    FirstWordOf(name, []);
    assert name + [] == name;
  }

  /** Only the first word counts: "Alex Johnson" and "Alex Smith" share a code. */
  lemma CodeOfFirstWord(first: string, rest: string)
    requires ' ' !in first
    ensures GenerateReferralCode(first + " " + rest) == ToUpper(first) + CodeSuffix
  {
    FirstWordOf(first, " " + rest);
    assert first + " " + rest == first + (" " + rest);
  }

  /** The first seeded user's code is the one the generator gives that name. */
  lemma SeedCodeMatches()
    ensures GenerateReferralCode("Alex Johnson") == "ALEX2025"
  {
    CodeOfFirstWord("Alex", "Johnson");
    assert "Alex" + " " + "Johnson" == "Alex Johnson";
    var up := ToUpper("Alex");
    assert up[0] == UpperChar('A') == 'A';
    assert up[1] == UpperChar('l') == 'L';
    assert up[2] == UpperChar('e') == 'E';
    assert up[3] == UpperChar('x') == 'X';
    assert up == "ALEX";
  }
}
