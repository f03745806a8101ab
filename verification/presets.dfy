/** Preset names: the display name made of a file stem, and the file stem made of a display
    name. */
module Presets {
  import opened Text

  predicate LowerAlnum(c: char) {
    'a' <= c <= 'z' || '0' <= c <= '9'
  }

  predicate UpperLetter(c: char) {
    'A' <= c <= 'Z'
  }

  predicate Alnum(c: char) {
    LowerAlnum(c) || UpperLetter(c)
  }

  function AsciiLower(c: char): char {
    if UpperLetter(c) then 'a' + (c - 'A') else c
  }

  function AsciiUpper(c: char): char {
    if 'a' <= c <= 'z' then 'A' + (c - 'a') else c
  }

  /** The alphabets, letter by letter. */
  lemma LowerAlphabet(c: char)
    ensures LowerAlnum(c) <==> c in "abcdefghijklmnopqrstuvwxyz" || c in "0123456789"
  {
  }

  lemma UpperAlphabet(c: char)
    ensures UpperLetter(c) <==> c in "ABCDEFGHIJKLMNOPQRSTUVWXYZ"
  {
  }

  lemma AlphabetsMatch(k: nat)
    requires k < 26
    ensures var lower, upper := "abcdefghijklmnopqrstuvwxyz", "ABCDEFGHIJKLMNOPQRSTUVWXYZ";
            AsciiLower(upper[k]) == lower[k] && AsciiUpper(lower[k]) == upper[k]
  {
  }

  predicate Ascii(s: string) {
    forall i :: 0 <= i < |s| ==> s[i] < '\U{0080}'
  }

  /** What is relied on of lower-casing: it leaves no upper case letter of the Latin alphabet,
      and on ASCII text it works letter by letter. */
  ghost predicate Lowers(lower: string -> string) {
    && (forall s :: NoUpper(lower(s)))
    && (forall s :: Ascii(s) ==> lower(s) == seq(|s|, i requires 0 <= i < |s| => AsciiLower(s[i])))
  }

  predicate NoUpper(s: string) {
    forall i :: 0 <= i < |s| ==> !UpperLetter(s[i])
  }

  /** And of upper-casing one character. */
  ghost predicate Uppers(upper: char -> string) {
    forall c :: c < '\U{0080}' ==> upper(c) == [AsciiUpper(c)]
  }

  /** Where the first separator is, or the length. */
  function FirstOf(s: string, seps: set<char>): (i: nat)
    ensures i <= |s| && (i < |s| ==> s[i] in seps) && forall k :: 0 <= k < i ==> s[k] !in seps
  {
    if s == "" || s[0] in seps then 0 else 1 + FirstOf(s[1..], seps)
  }

  /** The pieces between separators, the empty ones left out. */
  function Words(s: string, seps: set<char>): seq<string> {
    var i := FirstOf(s, seps);
    (if i == 0 then [] else [s[..i]]) + (if i == |s| then [] else Words(s[i + 1..], seps))
  }

  function Join(words: seq<string>, glue: char): string {
    if words == [] then ""
    else if |words| == 1 then words[0]
    else words[0] + [glue] + Join(words[1..], glue)
  }

  function Dashed(s: string): string {
    seq(|s|, i requires 0 <= i < |s| => if Alnum(s[i]) then s[i] else '-')
  }

  function Slugify(name: string, lower: string -> string): string {
    Join(Words(Dashed(lower(Trim(name))), {'-'}), '-')
  }

  function Capitalized(words: seq<string>, upper: char -> string): seq<string> {
    seq(|words|, i requires 0 <= i < |words| =>
      if words[i] == "" then "" else upper(words[i][0]) + words[i][1..])
  }

  function Prettify(stem: string, upper: char -> string): string {
    Join(Capitalized(Words(stem, {'-', '_'}), upper), ' ')
  }

  /** Lower case letters and digits in words joined by single hyphens. */
  predicate IsSlug(s: string) {
    && (forall i :: 0 <= i < |s| ==> LowerAlnum(s[i]) || s[i] == '-')
    && (s != "" ==> s[0] != '-' && s[|s| - 1] != '-')
    && !Doubled(s)
  }

  predicate Doubled(s: string) {
    exists i :: 0 <= i < |s| - 1 && s[i] == s[i + 1] == '-'
  }

  predicate IsWord(w: string) {
    w != "" && forall i :: 0 <= i < |w| ==> LowerAlnum(w[i])
  }

  lemma {:induction false} WordsAreWords(s: string)
    requires forall i :: 0 <= i < |s| ==> LowerAlnum(s[i]) || s[i] == '-'
    ensures forall w :: w in Words(s, {'-'}) ==> IsWord(w)
    decreases |s|
  {
    var i := FirstOf(s, {'-'});
    if i < |s| {
      WordsAreWords(s[i + 1..]);
    }
  }

  /** A word in front of a slug, joined by a hyphen, is a slug. */
  lemma WordThenSlug(w: string, s: string)
    requires IsWord(w) && IsSlug(s) && s != ""
    ensures IsSlug(w + "-" + s)
  {
    var all := w + "-" + s;
    forall i | 0 <= i < |all| - 1
      ensures !(all[i] == all[i + 1] == '-')
    {
      if i > |w| {
        assert all[i] == s[i - |w| - 1] && all[i + 1] == s[i - |w|];
      }
    }
  }

  lemma {:induction false} JoinedWordsAreSlug(words: seq<string>)
    requires forall w :: w in words ==> IsWord(w)
    ensures IsSlug(Join(words, '-')) && (words != [] ==> Join(words, '-') != "")
  {
    if words != [] {
      assert IsWord(words[0]);
      if |words| > 1 {
        JoinedWordsAreSlug(words[1..]);
        WordThenSlug(words[0], Join(words[1..], '-'));
      }
    }
  }

  /** Whatever the name, what it is made into is a slug. */
  lemma SlugifyMakesSlugs(name: string, lower: string -> string)
    requires Lowers(lower)
    ensures IsSlug(Slugify(name, lower))
  {
    var s := lower(Trim(name));
    assert NoUpper(s);
    WordsAreWords(Dashed(s));
    JoinedWordsAreSlug(Words(Dashed(s), {'-'}));
  }

  lemma NotDoubledLater(s: string, i: nat)
    requires i <= |s| && !Doubled(s)
    ensures !Doubled(s[i..])
  {
  }

  lemma NextIsNoHyphen(s: string, i: nat)
    requires i + 1 < |s| && !Doubled(s) && s[i] == '-'
    ensures s[i + 1] != '-'
  {
  }

  lemma SlugAfterHyphen(s: string, i: nat)
    requires IsSlug(s) && i < |s| && s[i] == '-'
    ensures s[i + 1..] != "" && IsSlug(s[i + 1..])
  {
    assert i + 1 < |s|;
    NextIsNoHyphen(s, i);
    NotDoubledLater(s, i + 1);
    hide Doubled;
    var later := s[i + 1..];
    assert later[0] == s[i + 1] && later[|later| - 1] == s[|s| - 1];
    assert forall k :: 0 <= k < |later| ==> later[k] == s[i + 1 + k];
  }

  lemma HeadIsWord(s: string, i: nat)
    requires IsSlug(s) && 0 < i <= |s| && forall k :: 0 <= k < i ==> s[k] != '-'
    ensures IsWord(s[..i])
  {
  }

  lemma FirstHyphen(s: string)
    requires IsSlug(s) && s != ""
    ensures var i := FirstOf(s, {'-'});
            0 < i <= |s| && (i < |s| ==> s[i] == '-') && forall k :: 0 <= k < i ==> s[k] != '-'
  {
  }

  lemma CutAt(s: string, i: nat)
    requires i < |s|
    ensures s == s[..i] + [s[i]] + s[i + 1..]
  {
  }

  /** Cutting a slug at its first hyphen. */
  lemma SlugSplits(s: string)
    requires IsSlug(s) && s != ""
    ensures var i := FirstOf(s, {'-'});
            && IsWord(s[..i])
            && (i < |s| ==> s[i] == '-' && s[i + 1..] != "" && IsSlug(s[i + 1..]) && s == s[..i] + "-" + s[i + 1..])
  {
    hide *;
    var i := FirstOf(s, {'-'});
    FirstHyphen(s);
    HeadIsWord(s, i);
    if i < |s| {
      SlugAfterHyphen(s, i);
      CutAt(s, i);
    }
  }

  lemma {:induction false} JoinOfWords(s: string)
    requires IsSlug(s)
    ensures Join(Words(s, {'-'}), '-') == s && (s != "" ==> Words(s, {'-'}) != [])
    decreases |s|
  {
    if s != "" {
      SlugSplits(s);
      var i := FirstOf(s, {'-'});
      if i < |s| {
        JoinOfWords(s[i + 1..]);
        assert Words(s, {'-'})[1..] == Words(s[i + 1..], {'-'});
      }
    }
  }

  /** The same first separator, since a slug has no underscore. */
  lemma SameFirst(s: string)
    requires IsSlug(s)
    ensures FirstOf(s, {'-', '_'}) == FirstOf(s, {'-'})
  {
    var i, j := FirstOf(s, {'-', '_'}), FirstOf(s, {'-'});
    assert i < |s| ==> s[i] == '-';
    assert j < |s| ==> s[j] == '-';
  }

  /** What a slug is prettified into, with the case undone and the spaces made hyphens, is the
      slug. */
  predicate ReadsAs(pretty: string, s: string) {
    && Ascii(pretty) && |pretty| == |s|
    && (forall i :: 0 <= i < |s| ==>
          (pretty[i] == ' ' && s[i] == '-') || (Alnum(pretty[i]) && AsciiLower(pretty[i]) == s[i]))
  }

  lemma WordReadsAs(w: string, upper: char -> string)
    requires IsWord(w) && Uppers(upper)
    ensures ReadsAs(upper(w[0]) + w[1..], w)
  {
  }

  lemma ReadsAsJoined(p: string, s: string, q: string, t: string)
    requires ReadsAs(p, s) && ReadsAs(q, t)
    ensures ReadsAs(p + " " + q, s + "-" + t)
  {
  }

  lemma CapitalizedStep(w: string, words: seq<string>, upper: char -> string)
    requires w != ""
    ensures Capitalized([w] + words, upper) == [upper(w[0]) + w[1..]] + Capitalized(words, upper)
  {
  }

  /** The display name of a slug is its first word's, and then that of the rest. */
  lemma PrettifyStep(s: string, upper: char -> string)
    requires IsSlug(s) && s != ""
    ensures var i := FirstOf(s, {'-'}); var cap := upper(s[0]) + s[..i][1..];
            Prettify(s, upper) == if i < |s| then cap + " " + Prettify(s[i + 1..], upper) else cap
  {
    SameFirst(s);
    SlugSplits(s);
    var i := FirstOf(s, {'-'});
    var w, words := s[..i], Words(s, {'-', '_'});
    if i < |s| {
      var later := s[i + 1..];
      var laterWords := Words(later, {'-', '_'});
      NotNone(later);
      assert words == [w] + laterWords;
      hide IsSlug, Words, FirstOf, Capitalized;
      CapitalizedStep(w, laterWords, upper);
      assert |Capitalized(laterWords, upper)| > 0 by { SameLength(laterWords, upper); }
      assert Capitalized(words, upper)[1..] == Capitalized(laterWords, upper);
    } else {
      assert words == [w] + [];
      hide IsSlug, Words, FirstOf, Capitalized;
      CapitalizedStep(w, [], upper);
      SameLength([], upper);
    }
  }

  lemma SameLength(words: seq<string>, upper: char -> string)
    ensures |Capitalized(words, upper)| == |words|
  {
  }

  lemma {:induction false} PrettifyReadsAs(s: string, upper: char -> string)
    requires IsSlug(s) && Uppers(upper)
    ensures ReadsAs(Prettify(s, upper), s)
    decreases |s|
  {
    if s != "" {
      SlugSplits(s);
      PrettifyStep(s, upper);
      hide IsSlug, Prettify, ReadsAs, Uppers, IsWord;
      var i := FirstOf(s, {'-'});
      WordReadsAs(s[..i], upper);
      if i < |s| {
        PrettifyReadsAs(s[i + 1..], upper);
        ReadsAsJoined(upper(s[0]) + s[..i][1..], s[..i], Prettify(s[i + 1..], upper), s[i + 1..]);
      } else {
        assert s[..i] == s;
      }
    }
  }

  lemma NotNone(s: string)
    requires IsSlug(s) && s != ""
    ensures Words(s, {'-', '_'}) != []
  {
    SameFirst(s);
  }

  /** A name that reads as a slug is folded back to it. */
  lemma ReadsBack(pretty: string, s: string, lower: string -> string)
    requires ReadsAs(pretty, s) && IsSlug(s) && Lowers(lower)
    ensures Dashed(lower(Trim(pretty))) == s
  {
    TrimLeavesAlone(pretty);
    hide IsSlug, Trim;
    var lowered := lower(pretty);
    assert Dashed(lowered) == s;
  }

  /** Saving a preset, loading it and saving it again targets the same file, and this holds of
      a file stem exactly if it is a slug. */
  lemma PresetRoundTripIff(stem: string, lower: string -> string, upper: char -> string)
    requires Lowers(lower) && Uppers(upper)
    ensures Slugify(Prettify(stem, upper), lower) == stem <==> IsSlug(stem)
  {
    hide Prettify, Trim, Words, Join, Dashed, IsSlug, ReadsAs, Lowers, Uppers;
    if IsSlug(stem) {
      var pretty := Prettify(stem, upper);
      PrettifyReadsAs(stem, upper);
      ReadsBack(pretty, stem, lower);
      JoinOfWords(stem);
    } else {
      SlugifyMakesSlugs(Prettify(stem, upper), lower);
    }
  }

  /** A name is its own slug exactly if it has that form; so slugifying twice is slugifying
      once. */
  lemma SlugFixedIff(name: string, lower: string -> string)
    requires Lowers(lower)
    ensures Slugify(name, lower) == name <==> IsSlug(name)
    ensures Slugify(Slugify(name, lower), lower) == Slugify(name, lower)
  {
    SlugifyMakesSlugs(name, lower);
    SlugIsFixed(Slugify(name, lower), lower);
    if IsSlug(name) {
      SlugIsFixed(name, lower);
    }
  }

  lemma SlugIsFixed(s: string, lower: string -> string)
    requires Lowers(lower) && IsSlug(s)
    ensures Slugify(s, lower) == s
  {
    TrimLeavesAlone(s);
    assert Ascii(s);
    assert Dashed(lower(s)) == s;
    JoinOfWords(s);
  }
}
