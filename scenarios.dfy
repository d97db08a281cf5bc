/** Client code that drives the engine through its contracts only: the
    "blood pressure" walk-through, split at the auto-filled space. */
module Scenarios {
  import opened Wrappers
  import opened Answer
  import opened Session
  import opened Quiz

  const BloodPressure: Item := Item("血圧", "blood pressure", 1)

  /** A one-item category starts a one-question session on that item. */
  method StartOneItem() returns (g: Game)
    ensures g.Valid() && g.word == Some(BloodPressure) && g.input == ""
    ensures !g.answered && g.score == 0
  {
    var catalog := [Category("循環器", [BloodPressure])];
    g := new Game(catalog, {});
    assert Pool(catalog, "循環器", AnyLevel, false, {}) == [BloodPressure];
    var started := g.StartGame("循環器", AnyLevel, AllWords, false, i => 0);
    assert started && g.queue == [BloodPressure];
  }

  /** The space-skip rule on the walk-through's target. */
  lemma SpaceAfterBlood()
    ensures FillSpaces("blood", BloodPressure.en) == "blood "
  {
  }

  /** Typing the "d" of "blood" reveals the following space in the same
      keystroke; a wrong letter then changes nothing. */
  method TypeD(g: Game)
    requires g.Valid() && g.word == Some(BloodPressure) && g.input == "bloo" && !g.answered
    modifies g
  {
    var s := g.score;
    assert "bloo" + ['d'] == "blood";
    SpaceAfterBlood();
    var r := g.HandleInput("d");
    assert r == Matched && g.input == "blood " && !g.answered;
    r := g.HandleInput("x");
    assert r == Mismatched && g.input == "blood " && g.score == s;
  }

  /** Finishing "pressure" closes the question with exactly one reward. */
  method TypePressure(g: Game)
    requires g.Valid() && g.word == Some(BloodPressure) && g.input == "blood pressur" && !g.answered
    modifies g
  {
    var s := g.score;
    var r := g.HandleInput("E");
    assert g.input == "blood pressure" && g.answered && g.score == s + 10;
    r := g.HandleInput("e");
    assert r == Ignored && g.score == s + 10;
  }

  /** Giving up at once closes the question without reward; keystrokes are
      then ignored. */
  method GiveUpAtOnce(g: Game)
    requires g.Valid() && g.word == Some(BloodPressure) && g.input == "" && !g.answered
    modifies g
  {
    var s := g.score;
    g.HandleGiveUp();
    assert g.answered && g.score == s && g.input == "";
    var r := g.HandleInput("b");
    assert r == Ignored && g.input == "";
    var boxes := AnswerBoxes(g.word.value.en, |g.input|, g.answered);
    assert boxes[0] == GiveUpBox && boxes[5] == SpaceBox;
  }

  /** A hint on a one-letter target fills the whole answer but leaves the
      question open; the next letter typed makes the source read past the
      end of the target. */
  method HintOnOneLetter(g: Game, ja: string, level: int)
    requires g.Valid() && g.word == Some(Item(ja, "a", level)) && !g.answered
    modifies g
  {
    var s := g.score;
    g.HandleHint();
    assert g.input == "a" && !g.answered && g.score == s;
    var r := g.HandleInput("a");
    assert r == Fault && g.input == "a" && !g.answered;
  }

  /** The hyphen of "X-ray" cannot be typed past: no keystroke matches it. */
  method StuckAtHyphen(g: Game, ja: string, level: int, val: string)
    requires g.Valid() && g.word == Some(Item(ja, "X-ray", level)) && g.input == "x" && !g.answered
    modifies g
  {
    var r := g.HandleInput(val);
    assert r != Matched && g.input == "x" && !g.answered;
  }

  /** A digit that leads the target is supplied by a hint, after which the
      rest can be typed and the question completes with the reward. */
  method HintPastDigit(g: Game, ja: string, level: int)
    requires g.Valid() && g.word == Some(Item(ja, "1a", level)) && !g.answered
    modifies g
  {
    var s := g.score;
    g.HandleHint();
    assert g.input == "1";
    var r := g.HandleInput("a");
    assert r == Matched && g.input == "1a" && g.answered && g.score == s + Reward;
  }
}
