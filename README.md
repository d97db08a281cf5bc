# Medical typing quiz: a verified model of its engine

The system is a browser flashcard quiz for medical vocabulary. Each catalog
item has a Japanese prompt (`ja`), an English spelling to type (`en`) and a
level. The user starts a session from a category (or from the random button
that uses every category) with a level filter, a question count and an
optional "checked words only" mode. The session is a shuffled queue of items.
For each item the user types the spelling letter by letter. Letters are
compared without regard to ASCII case, and spaces of the target are filled in
automatically. Hints, giving up and a score of 10 points per typed-out answer
complete the picture. A registry of checkmarked spellings selects the words
for check mode.

The model has six modules:

- `Wrappers`: the `Option` type.
- `Answer`: ASCII case folding, the typed-prefix invariant (`Progress`), the
  space-skip rule (`FillSpaces`), the keystroke filter and the five-way
  classification of the answer boxes.
- `Registry`: the toggle of the checkmark set.
- `Session`: the catalog (a sequence of named categories in object key
  order), the level and checkmark filters, the candidate pool, the
  Fisher-Yates shuffle (as a function and as an in-place loop over an array)
  and the count limit.
- `Quiz`: class `Game`, whose fields are the module-level variables of the
  script. It has one method per handler. `Valid()` holds after every method.
  It says that the typed text is a case-insensitive prefix of the target that
  never stops right before a space once something is typed, and that the
  score is a non-negative multiple of 10.
- `Scenarios`: client methods that drive `Game` through its contracts, among
  them the "blood pressure" walk-through and a hint on a one-letter word.

Behaviour that the model keeps as the code has it:

- The typed text holds the lower-case letters the user typed. A hint inserts
  the target's first character in its original case. So the invariant is a
  prefix up to ASCII case, not an exact prefix.
- `handleHint` throws away earlier progress. It never checks for completion.
  On a target whose characters after the first are all spaces, a hint fills
  the whole answer and leaves the question open (`Answer.HintFillsWordIff`).
  The next accepted letter then reads past the end of the target at
  script.js:219 and throws before changing anything. `HandleInput` reports
  this as `Fault` (`Scenarios.HintOnOneLetter`). Giving up still works.
- `nextQuestion` advances whether or not the question was answered.
- When the category is a real one, the level is "all" and check mode is off,
  the shuffled list is the catalog's own array (script.js:107). `StartGame`
  therefore writes the shuffled order back into that catalog entry.
- Every TypeError the script throws before it mutates anything is modelled as
  "nothing changes". This covers a null `currentWord` in `checkInput`,
  `handleHint` or `toggleQuizCheck`, and the first character of an empty
  target in `handleHint`. `handleGiveUp` with a null `currentWord` throws only
  in `renderAnswerBox`, after `isAnswered` was set. So the model sets
  `answered` there too.
- A count of 0 slices the list to nothing, and the session then ends at once
  in `loadQuestion`.
- A target character that is neither a letter nor a space (the hyphen of
  "X-ray", an apostrophe, a digit) matches no keystroke, because the filter
  passes only `a`-`z` and the space-skip rule fills in only spaces. Such a
  question can only be given up, unless every such character is the target's
  first, which a hint supplies (`Answer.NonLetterNeverMatched`,
  `Scenarios.StuckAtHyphen`, `Scenarios.HintPastDigit`).
- The catalog's category names are distinct, as the keys of an object are.
  `Game.Valid()` keeps this, and the lookup then finds the only category of
  that name.

## Model

| member | source | states |
|---|---|---|
| `Answer.Lower` | script.js:210 | folding yields a lower-case letter exactly for ASCII letters of either case; other characters are unchanged |
| `Answer.LowerIdempotent` | script.js:219-221 | folding an already folded character changes nothing, so typed letters compare like target letters |
| `Answer.FillSpaces` | script.js:225-227 | the result is the input followed by exactly the run of target spaces at its end; it never stops before a space, stays within the target and keeps a case-insensitive prefix a prefix |
| `Answer.MatchKeepsProgress` | script.js:221-229 | appending the matching character and then the spaces keeps the progress invariant and strictly grows the input |
| `Answer.HintProgress` | script.js:272-277 | the hint text starts with the target's first character and satisfies the progress invariant |
| `Answer.HintFillsWordIff` | script.js:270-277 | a hint fills the whole answer if and only if every character after the first is a space |
| `Answer.AcceptedChar` | script.js:207-213 | a character is passed on exactly when the field is non-empty and its last character is an ASCII letter; it is that letter in lower case |
| `Answer.NonLetterNeverMatched` | script.js:210-221 | no accepted keystroke equals the folded form of a target character that is not an ASCII letter |
| `Answer.AnswerBoxes` | script.js:174-191 | one class per target position: space exactly at spaces, correct exactly below the typed length, revealed exactly at or after it once answered, the cursor exactly at the typed length while open |
| `Answer.AtMostOneCurrent` | script.js:188-190 | at most one box carries the cursor, at the typed length, and only while the question is open |
| `Answer.CursorWhileOpen` | script.js:182-190 | under the progress invariant an open, unfinished question shows a cursor exactly when the next target character is not a space, and always once something is typed |
| `Answer.AnsweredShowsAll` | script.js:182-187 | once answered no box is blank or a cursor |
| `Registry.Toggled` | script.js:30-35 | the toggled key flips membership and every other key keeps its own |
| `Registry.ToggleTwice` | script.js:30-35 | toggling the same key twice restores the set |
| `Session.IndexOf` | script.js:107 | -1 exactly when no category has the name, otherwise the first category with that name |
| `Session.AllItems` | script.js:105 | an item is in the concatenation exactly when some category holds it |
| `Session.Concatenate` | script.js:105 | the push loop over every category builds the concatenation |
| `Session.IndexOfUnique` | script.js:107 | with distinct names the lookup of a category's name finds that category |
| `Session.RenewKeepsDistinct` | script.js:107 | rewriting one category's items in place keeps the names distinct |
| `Session.Gather` | script.js:103-108 | for the random button an item is in the list exactly when some category holds it, even if a category has the sentinel's name; for any other name the list is the items of the first (with distinct names, the only) category of that name |
| `Session.ByLevel` | script.js:115 | each item occurs as often as in the input when its level matches, otherwise not at all |
| `Session.ByChecked` | script.js:119 | each item occurs as often as in the input when its spelling is checked, otherwise not at all |
| `Session.Pool` | script.js:103-120 | each item occurs as often as in the gathered list when it passes the level filter and, in check mode, the checkmark filter; otherwise not at all |
| `Session.BuildPool` | script.js:103-120 | the list of `startGame` before the emptiness test is the pool |
| `Session.NoCheckedNoPool` | script.js:118-125 | check mode with no checked item in the gathered list leaves an empty pool |
| `Session.SwapPermutes` | script.js:129 | one swap keeps the length and the multiset of the list |
| `Session.ShuffleDown` | script.js:127-130 | the remaining loop iterations keep the list's length |
| `Session.ShuffleDownPermutes` | script.js:127-130 | for any draws with j in [0, i] the loop yields a permutation of its input |
| `Session.ShuffledPermutes` | script.js:127-130 | the full shuffle of the pool is a permutation of the pool |
| `Session.Shuffle` | script.js:127-130 | the in-place loop leaves the array holding the shuffle of its old contents |
| `Session.ShuffleList` | script.js:127-130 | shuffling a list through an array yields the shuffle of the list |
| `Session.Take` | script.js:132-134 | the result is a prefix of the list of length min(n, count), or the whole list for "all" |
| `Session.QueueFromPool` | script.js:127-134 | the queue has min(n, count) items (n for "all") and holds no item more often than the pool does |
| `Quiz.Game.constructor` | script.js:4-11 | the initial state: empty queue, index 0, no word, empty input, score 0, not answered, with the stored checkmarks and a catalog with distinct names |
| `Quiz.Game.ToggleCheck` | script.js:30-35 | the registry becomes the toggled set and the result is the new membership; nothing else changes |
| `Quiz.Game.ToggleQuizCheck` | script.js:308-311 | toggles the current word's spelling, and nothing when there is no current word |
| `Quiz.Game.StartGame` | script.js:102-143 | an empty pool changes nothing and reports false; otherwise the queue is the shuffled pool cut to the count, index and score are 0, the label carries the check-mode suffix, the catalog entry is rewritten exactly in the aliased case, and the first question is loaded |
| `Quiz.Game.BeginSession` | script.js:127-142 | shuffle, write-back in the aliased case, truncation, reset of index and score, label, then the first question if there is one |
| `Quiz.Game.LoadQuestion` | script.js:146-154 | ends the session exactly when the index is past the queue, changing nothing; otherwise opens the item at the index with empty input, not answered |
| `Quiz.Game.FinishQuestion` | script.js:249-254 | marks the question answered and adds 10 exactly on success |
| `Quiz.Game.CheckInput` | script.js:218-247 | a match appends the character and the following spaces and finishes with +10 exactly when the target is complete; a mismatch changes nothing |
| `Quiz.Game.HandleInput` | script.js:204-216 | ignored when answered or when the key is not a letter; a fault with no change when nothing is left to type; otherwise the result of CheckInput on the folded letter, which can match only an ASCII letter of the target |
| `Quiz.Game.HandleHint` | script.js:270-280 | no change when answered; otherwise the input becomes the first target character and its following spaces; answered and score are untouched |
| `Quiz.Game.HandleGiveUp` | script.js:282-285 | the question is answered afterwards, the score and the typed text are unchanged, and an answered question is left as it was |
| `Quiz.Game.NextQuestion` | script.js:287-290 | the index grows by one with no answered guard, then the next question loads or the session ends |
| `Scenarios.StartOneItem` | script.js:102-154 | a one-item category starts a session whose first question is that item, with empty input and score 0 |
| `Scenarios.SpaceAfterBlood` | script.js:225-227 | the space after "blood" in "blood pressure" is filled in by the space-skip rule |

## Left out

- DOM and screens: `showScreen`, `showMenu`, `renderMenu`, `showLearningMode`, `updateQuizCheckBtn`, `quitGame`, the display part of `endGame`, `focusInput` and `blur`, the shake animation, `alert`. They are presentation only. The row click of the learning screen is `ToggleCheck`.
- Persistence: `loadChecked` and `saveChecked` (localStorage and JSON) are foreign calls. The registry is an in-memory set, and the stored set is a constructor parameter. A corrupt stored value makes `JSON.parse` throw at load; the source does not catch it and the model does not model it.
- The registry is a plain object, not a set. A spelling that names an `Object.prototype` member (`constructor`, `toString`, `__proto__`, ...) reads as checked without being added, so `toggleCheck` never removes it and always returns true, and check mode keeps such an item. The model treats every spelling as an ordinary set member and does not capture this.
- `Math.random`: an injected oracle `rand` gives the index for each loop step, with `rand(i)` in [0, i].
- The contents of data.js are not part of this model. The catalog is a constructor parameter, as a sequence of categories in the key order of the object.
- The radio buttons and the checkbox: level, count and check mode are parameters. The loose `==` level test is integer equality.
- Count parsing: the count is a natural number, so counts that `parseInt` would read as negative or NaN are not modelled.
- Case mapping is ASCII only. Non-ASCII characters, whose `toLowerCase` may produce a letter, and strings as UTF-16 code units are not modelled.
- A category that the menu cannot produce (neither an existing key nor the random button) is excluded by `StartGame`'s precondition. The source throws on it.
- Session.ByLevel: the contract states contents with multiplicities, not that the filter keeps the order. The order is fixed by the definition.
- Session.ByChecked: the contract states contents with multiplicities, not that the filter keeps the order. The order is fixed by the definition.
- Session.Pool: the contract states contents with multiplicities, not the order, which the definition fixes.
