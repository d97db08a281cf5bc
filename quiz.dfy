/** The quiz engine: the module-level state of script.js (lines 4-11) as one
    object, with one method per handler that changes it. */
module Quiz {
  import opened Wrappers
  import opened Answer
  import opened Registry
  import opened Session

  /** What became of one `input` event of the hidden text field. `Fault` is
      the case where the source throws a TypeError at script.js:219 (no
      current word, or nothing left to type) before changing anything. */
  datatype KeyResult = Ignored | Matched | Mismatched | Fault

  /** Points for a question answered by typing it out. */
  const Reward: int := 10

  /** Appended to the category label of a check-mode session. */
  const CheckSuffix: string := "(チェック)"

  /** In exactly these sessions `list` is the catalog's own array
      (script.js:107), so the shuffle reorders the catalog itself. */
  predicate Aliased(category: string, level: LevelFilter, checkMode: bool) {
    category != RandomCategory && level == AnyLevel && !checkMode
  }

  class Game {
    var catalog: seq<Category>   // medicalData
    var checked: set<string>     // checkedWords
    var queue: seq<Item>         // currentQueue
    var index: nat               // currentIndex
    var word: Option<Item>       // currentWord, null until the first question
    var input: string            // userInput
    var score: int
    var answered: bool           // isAnswered
    var categoryName: string     // currentCategoryName

    /** The catalog's names are distinct, as object keys are; the typed text
        never leaves the target; the score is a number of rewards. */
    ghost predicate Valid()
      reads this
    {
      && DistinctNames(catalog)
      && (word.Some? ==> Progress(input, word.value.en))
      && score >= 0 && score % Reward == 0
    }

    /** The state at page load, with the catalog and the stored checkmarks. */
    constructor (data: seq<Category>, saved: set<string>)
      requires DistinctNames(data)
      ensures Valid()
      ensures catalog == data && checked == saved
      ensures queue == [] && index == 0 && word == None && input == "" && score == 0
      ensures !answered && categoryName == ""
    {
      catalog, checked := data, saved;
      queue, index, word, input := [], 0, None, "";
      score, answered, categoryName := 0, false, "";
    }

    /** `toggleCheck` (script.js:30-35): flips the membership of `w` and
        returns the new membership. */
    method ToggleCheck(w: string) returns (now: bool)
      requires Valid()
      modifies this`checked
      ensures Valid()
      ensures checked == Toggled(old(checked), w)
      ensures now == (w in checked) && now == (w !in old(checked))
    {
      if w in checked {
        checked := checked - {w};
      } else {
        checked := checked + {w};
      }
      now := w in checked;
    }

    /** `toggleQuizCheck` (script.js:308-311): toggles the current word; with
        no current word the source throws before toggling. */
    method ToggleQuizCheck()
      requires Valid()
      modifies this`checked
      ensures Valid()
      ensures checked == if word.Some? then Toggled(old(checked), word.value.en) else old(checked)
    {
      if word.Some? {
        var _ := ToggleCheck(word.value.en);
      }
    }

    /** `startGame` (script.js:102-143). On an empty pool nothing changes and
        the result is false; otherwise the session of `BeginSession` starts. */
    method StartGame(category: string, level: LevelFilter, count: CountLimit, checkMode: bool,
                     rand: nat -> nat) returns (started: bool)
      requires Valid() && Startable(catalog, category) && Draws(rand)
      modifies this
      ensures Valid()
      ensures checked == old(checked)
      ensures started == (Pool(old(catalog), category, level, checkMode, old(checked)) != [])
      ensures !started ==> unchanged(this)
      ensures started ==>
        var shuffled := Shuffled(Pool(old(catalog), category, level, checkMode, old(checked)), rand);
        && queue == Take(shuffled, count)
        && index == 0 && score == 0
        && categoryName == category + (if checkMode then CheckSuffix else "")
        && catalog == (if Aliased(category, level, checkMode)
                       then old(catalog)[IndexOf(old(catalog), category) := Category(category, shuffled)]
                       else old(catalog))
        && (queue != [] ==> word == Some(queue[0]) && input == "" && !answered)
        && (queue == [] ==> word == old(word) && input == old(input) && answered == old(answered))
    {
      var list := BuildPool(catalog, category, level, checkMode, checked);
      if list == [] {
        // alert(...) and return
        started := false;
        return;
      }
      BeginSession(list, category, level, count, checkMode, rand);
      started := true;
    }

    /** The second half of `startGame` (script.js:127-142), on a non-empty
        pool: shuffle, write the shuffled list back into the catalog when it
        is the catalog's own array, cut to the count limit, reset the cursor
        and the score, and load the first question. */
    method BeginSession(list: seq<Item>, category: string, level: LevelFilter, count: CountLimit,
                        checkMode: bool, rand: nat -> nat)
      requires Valid() && Startable(catalog, category) && Draws(rand)
      modifies this`catalog, this`queue, this`index, this`score, this`categoryName,
               this`word, this`input, this`answered
      ensures Valid()
      ensures queue == Take(Shuffled(list, rand), count)
      ensures index == 0 && score == 0
      ensures categoryName == category + (if checkMode then CheckSuffix else "")
      ensures catalog == (if Aliased(category, level, checkMode)
                          then old(catalog)[IndexOf(old(catalog), category) := Category(category, Shuffled(list, rand))]
                          else old(catalog))
      ensures queue != [] ==> word == Some(queue[0]) && input == "" && !answered
      ensures queue == [] ==> word == old(word) && input == old(input) && answered == old(answered)
    {
      var shuffled := ShuffleList(list, rand);
      if Aliased(category, level, checkMode) {
        RenewKeepsDistinct(catalog, IndexOf(catalog, category), shuffled);
        catalog := catalog[IndexOf(catalog, category) := Category(category, shuffled)];
      }
      queue := Take(shuffled, count);
      index := 0;
      score := 0;
      categoryName := category + (if checkMode then CheckSuffix else "");
      var _ := LoadQuestion();
    }

    /** `loadQuestion` (script.js:146-168): ends the session when the queue is
        exhausted, otherwise opens the question at `index`. */
    method LoadQuestion() returns (over: bool)
      requires Valid()
      modifies this`word, this`input, this`answered
      ensures Valid()
      ensures over == (index >= |queue|)
      ensures over ==> word == old(word) && input == old(input) && answered == old(answered)
      ensures !over ==> word == Some(queue[index]) && input == "" && !answered
    {
      if index >= |queue| {
        // endGame()
        over := true;
        return;
      }
      over := false;
      word := Some(queue[index]);
      input := "";
      answered := false;
    }

    /** `finishQuestion` (script.js:249-267): closes the question, with the
        reward only on success. */
    method FinishQuestion(success: bool)
      requires Valid()
      modifies this`answered, this`score
      ensures Valid()
      ensures answered
      ensures score == old(score) + (if success then Reward else 0)
    {
      answered := true;
      if success {
        score := score + Reward;
      }
    }

    /** `checkInput` (script.js:218-247): a character equal to the folded next
        target character is appended together with the run of spaces after
        it, and completing the target finishes the question with the reward;
        any other character changes nothing. */
    method CheckInput(c: char) returns (matched: bool)
      requires Valid() && word.Some? && |input| < |word.value.en|
      modifies this`input, this`answered, this`score
      ensures Valid()
      ensures matched == (c == Lower(word.value.en[|old(input)|]))
      ensures matched ==>
        && input == FillSpaces(old(input) + [c], word.value.en)
        && |input| > |old(input)|
        && answered == (old(answered) || |input| == |word.value.en|)
        && score == old(score) + (if |input| == |word.value.en| then Reward else 0)
      ensures !matched ==> input == old(input) && answered == old(answered) && score == old(score)
    {
      var t := word.value.en;
      var s := input;
      if c == Lower(t[|s|]) {
        MatchKeepsProgress(s, t, c);
        var next := s + [c];
        while |next| < |t| && t[|next|] == ' '
          invariant |s| < |next| <= |t|
          invariant FillSpaces(next, t) == FillSpaces(s + [c], t)
          decreases |t| - |next|
        {
          next := next + [' '];
        }
        input := next;
        if |input| == |t| {
          FinishQuestion(true);
        }
        matched := true;
      } else {
        // shake animation only
        matched := false;
      }
    }

    /** The `input` listener of the hidden field (script.js:204-216) followed
        by `checkInput`. */
    method HandleInput(val: string) returns (r: KeyResult)
      requires Valid()
      modifies this`input, this`answered, this`score
      ensures Valid()
      ensures r == Ignored <==> old(answered) || AcceptedChar(val).None?
      ensures r == Fault <==>
        !old(answered) && AcceptedChar(val).Some? && (word.None? || |old(input)| >= |word.value.en|)
      ensures r != Matched ==> input == old(input) && answered == old(answered) && score == old(score)
      ensures (r == Matched || r == Mismatched) ==>
        && word.Some? && AcceptedChar(val).Some? && |old(input)| < |word.value.en|
        && (r == Matched <==> AcceptedChar(val).value == Lower(word.value.en[|old(input)|]))
      ensures r == Matched ==>
        && IsAsciiLetter(word.value.en[|old(input)|])
        && input == FillSpaces(old(input) + [AcceptedChar(val).value], word.value.en)
        && answered == (|input| == |word.value.en|)
        && score == old(score) + (if answered then Reward else 0)
    {
      if answered {
        return Ignored;
      }
      var ch := AcceptedChar(val);
      if ch.None? {
        return Ignored;
      }
      if word.None? || |input| >= |word.value.en| {
        // no word, or the input already spans the target: the source reads past it and throws a TypeError
        return Fault;
      }
      if !IsAsciiLetter(word.value.en[|input|]) {
        NonLetterNeverMatched(val, word.value.en[|input|]);
      }
      var m := CheckInput(ch.value);
      r := if m then Matched else Mismatched;
    }

    /** `handleHint` (script.js:270-280): replaces the typed text with the
        first target character and the spaces after it. It does not check for
        completion. With no current word or an empty target the source throws
        before assigning anything. */
    method HandleHint()
      requires Valid()
      modifies this`input
      ensures Valid()
      ensures if old(answered) || word.None? || word.value.en == []
              then input == old(input)
              else input == FillSpaces([word.value.en[0]], word.value.en)
    {
      if answered || word.None? || word.value.en == [] {
        return;
      }
      var t := word.value.en;
      HintProgress(t);
      var next := [t[0]];
      // the source loop stops at the end because `t[|t|]` is undefined
      while |next| < |t| && t[|next|] == ' '
        invariant 1 <= |next| <= |t|
        invariant FillSpaces(next, t) == FillSpaces([t[0]], t)
        decreases |t| - |next|
      {
        next := next + [' '];
      }
      input := next;
    }

    /** `handleGiveUp` (script.js:282-285): closes an open question without
        reward and without touching the typed text. */
    method HandleGiveUp()
      requires Valid()
      modifies this`answered, this`score
      ensures Valid()
      ensures answered && score == old(score)
      ensures old(answered) ==> unchanged(this)
    {
      if answered {
        return;
      }
      FinishQuestion(false);
    }

    /** `nextQuestion` (script.js:287-290): advances the cursor, answered or
        not, and loads the next question or ends the session. */
    method NextQuestion() returns (over: bool)
      requires Valid()
      modifies this`index, this`word, this`input, this`answered
      ensures Valid()
      ensures index == old(index) + 1
      ensures over == (index >= |queue|)
      ensures over ==> word == old(word) && input == old(input) && answered == old(answered)
      ensures !over ==> word == Some(queue[index]) && input == "" && !answered
    {
      index := index + 1;
      over := LoadQuestion();
    }
  }
}
