/** Character matching for one question: case folding, the typed-prefix
    invariant, the space-skip rule, the keystroke filter and the per-position
    classification of the answer box (script.js:170-247). */
module Answer {
  import opened Wrappers

  /** An ASCII letter of either case. */
  predicate IsAsciiLetter(c: char) {
    'a' <= c <= 'z' || 'A' <= c <= 'Z'
  }

  /** `toLowerCase` on one character, restricted to ASCII: upper-case letters
      map to their lower-case partner, every other character is kept. */
  function Lower(c: char): (r: char)
    ensures IsAsciiLetter(c) <==> 'a' <= r <= 'z'
    ensures !IsAsciiLetter(c) ==> r == c
    ensures 'a' <= c <= 'z' ==> r == c
    ensures 'A' <= c <= 'Z' ==> r as int - c as int == 'a' as int - 'A' as int
  {
    if 'A' <= c <= 'Z' then (c as int - 'A' as int + 'a' as int) as char else c
  }

  /** Folding twice is folding once. */
  lemma LowerIdempotent(c: char)
    ensures Lower(Lower(c)) == Lower(c)
  {
  }

  /** `s` is a prefix of `t` up to ASCII case. */
  predicate CiPrefix(s: string, t: string) {
    |s| <= |t| && forall k :: 0 <= k < |s| ==> Lower(s[k]) == Lower(t[k])
  }

  /** The invariant the engine keeps for `userInput` against `currentWord.en`:
      a case-insensitive prefix that, once something has been typed, never
      stops right in front of a space of the target. */
  predicate Progress(s: string, t: string) {
    CiPrefix(s, t) && (0 < |s| < |t| ==> t[|s|] != ' ')
  }

  /** The space-skip rule (script.js:225-227, 274-276): extend `s` with a space
      for as long as the next position of the target holds a space. The result
      is `s` followed by exactly the run of spaces of `t` that starts at `|s|`. */
  function FillSpaces(s: string, t: string): (r: string)
    requires |s| <= |t|
    ensures |s| <= |r| <= |t| && r[..|s|] == s
    ensures forall k :: |s| <= k < |r| ==> r[k] == ' ' && t[k] == ' '
    ensures |r| < |t| ==> t[|r|] != ' '
    ensures CiPrefix(s, t) ==> CiPrefix(r, t)
    decreases |t| - |s|
  {
    if |s| < |t| && t[|s|] == ' ' then FillSpaces(s + [' '], t) else s
  }

  /** A matching keystroke keeps the typed text a case-insensitive prefix and
      the space-skip rule then restores the whole progress invariant. */
  lemma MatchKeepsProgress(s: string, t: string, c: char)
    requires CiPrefix(s, t) && |s| < |t|
    requires c == Lower(t[|s|])
    ensures Progress(FillSpaces(s + [c], t), t)
    ensures |FillSpaces(s + [c], t)| > |s|
  {
  }

  /** What a hint leaves in the input: the first character of the target
      followed by the spaces after it (script.js:272-277). */
  lemma HintProgress(t: string)
    requires |t| > 0
    ensures Progress(FillSpaces([t[0]], t), t)
    ensures FillSpaces([t[0]], t)[0] == t[0]
  {
  }

  /** A hint fills the whole answer exactly when everything after the first
      character is a space; a one-letter target is the simplest case. The
      engine does not mark such a question as answered. */
  lemma HintFillsWordIff(t: string)
    requires |t| > 0
    ensures |FillSpaces([t[0]], t)| == |t| <==> forall k :: 1 <= k < |t| ==> t[k] == ' '
  {
  }

  /** The keystroke filter of the input handler (script.js:207-213): the last
      character of the field, folded to lower case, if it is a letter. */
  function AcceptedChar(val: string): (r: Option<char>)
    ensures r.Some? <==> val != [] && IsAsciiLetter(val[|val| - 1])
    ensures r.Some? ==> 'a' <= r.value <= 'z' && r.value == Lower(val[|val| - 1])
  {
    if val == [] then None
    else
      var c := Lower(val[|val| - 1]);
      if 'a' <= c <= 'z' then Some(c) else None
  }

  /** No keystroke matches a target character that is not an ASCII letter:
      the filter passes only `a`-`z`, and folding keeps such a
      character as it is. A target like "X-ray" can thus only be given up. */
  lemma NonLetterNeverMatched(val: string, c: char)
    requires !IsAsciiLetter(c)
    ensures AcceptedChar(val).None? || AcceptedChar(val).value != Lower(c)
  {
  }

  /** The five looks of one box of the answer display. */
  datatype BoxClass = SpaceBox | CorrectBox | GiveUpBox | CurrentBox | BlankBox

  /** The class of the box at `idx` holding target character `c`, when `typed`
      characters have been entered (script.js:178-190). */
  function BoxAt(c: char, idx: nat, typed: nat, answered: bool): BoxClass {
    if c == ' ' then SpaceBox
    else if idx < typed then CorrectBox
    else if answered then GiveUpBox
    else if idx == typed then CurrentBox
    else BlankBox
  }

  /** The answer box for target `t` (script.js:174-193), one class per position. */
  function AnswerBoxes(t: string, typed: nat, answered: bool): (r: seq<BoxClass>)
    ensures |r| == |t|
    ensures forall k :: 0 <= k < |t| ==> (r[k] == SpaceBox <==> t[k] == ' ')
    ensures forall k :: 0 <= k < |t| ==> (r[k] == CorrectBox <==> t[k] != ' ' && k < typed)
    ensures forall k :: 0 <= k < |t| ==> (r[k] == GiveUpBox <==> t[k] != ' ' && typed <= k && answered)
    ensures forall k :: 0 <= k < |t| ==> (r[k] == CurrentBox <==> t[k] != ' ' && k == typed && !answered)
  {
    seq(|t|, k requires 0 <= k < |t| => BoxAt(t[k], k, typed, answered))
  }

  /** At most one box carries the cursor, and only while the question is open. */
  lemma AtMostOneCurrent(t: string, typed: nat, answered: bool, i: nat, j: nat)
    requires i < |t| && j < |t|
    requires AnswerBoxes(t, typed, answered)[i] == CurrentBox
    requires AnswerBoxes(t, typed, answered)[j] == CurrentBox
    ensures i == j == typed && !answered
  {
  }

  /** While a question is open and unfinished, the cursor box exists exactly
      at the next position to type, unless nothing has been typed yet and the
      target starts with a space. */
  lemma CursorWhileOpen(s: string, t: string)
    requires Progress(s, t) && |s| < |t|
    ensures var r := AnswerBoxes(t, |s|, false);
      (CurrentBox in r <==> t[|s|] != ' ') &&
      (|s| > 0 ==> r[|s|] == CurrentBox)
  {
    var r := AnswerBoxes(t, |s|, false);
    if t[|s|] != ' ' { assert r[|s|] == CurrentBox; }
  }

  /** Once answered, no box is blank or a cursor: every letter is shown, typed
      ones as correct and the rest as revealed. */
  lemma AnsweredShowsAll(t: string, typed: nat)
    ensures forall b :: b in AnswerBoxes(t, typed, true) ==> b == SpaceBox || b == CorrectBox || b == GiveUpBox
  {
  }
}
