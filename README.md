# Brain-training games: a verified model of their rules

This project models the rule logic of the eight brain-training mini-games of
the mindmoy web app. Each game is a React component. Its `useState`
variables become the fields of a Dafny class, and its event handlers become
methods on that class:

- **Word Maker** (`wordmaker.dfy`). Fifty levels. Each level has letter tiles, three required words with clues, and bonus words. The player spells words by clicking tiles. Coins buy reshuffles, and hints show clues.
- **Advanced Colour Memory** (`colormemory.dfy`). Memorise a sequence of colours, then re-enter it from a shuffled palette before the countdown ends.
- **Wordle 5-Letter** (`wordle.dfy`). Guess a fixed five-letter word per level in six tries. Each guess gets per-letter marks, and a keyboard keeps the best mark seen for each letter.
- **Focus Challenge** (`focus.dfy`). Click the target colour among a growing number of options before time runs out.
- **Pattern Recognition** (`pattern.dfy`). Continue an arithmetic, geometric, repeating-shape or alphabet pattern.
- **Memory Cards** (`memorycards.dfy`). Turn cards over in pairs and match symbols.
- **Simon Pattern** (`simon.dfy`). Repeat a played-back sequence of cells on a 3x3 board.
- **Alphabet Order Challenge** (`alphabet.dfy`). Pick the round's letters in alphabetical order.

The games share two small modules:

- `selection.dfy` models picking elements through an index list. That covers both the tiles a player selected and the randomised reorderings `[...xs].sort(() => Math.random() - 0.5)`.
- `options.dfy` holds the `Option` type.

How the model is built:

- **Randomness.** Every random choice is an input. A comparator-sort shuffle is a permutation of indices. A Fisher-Yates pass is its list of drawn partners. A random pick is an index in range. Everything else is deterministic.
- **Effects.** An effect that re-initialises the round when `level` changes is folded into the `NextLevel` and `ResetGame` methods, which take the draws of the new round.
- **Timers.** Each deferred `setTimeout` body is a separate method that the environment may call later, for example `ResolveFlip`, `TimeOut` and `ResetAfterMistake`.

Several facts about the games are proved outright:

- **Word Maker, level 23.** Level 23 can never be completed. Its tiles hold no E, but it requires SUNSHINE. Only words spelled from the tiles are ever recorded, and the Next Level button only appears once the level is complete.
- **Colour Memory, repeated colours.** The generator may repeat a colour in the sequence, but the palette disables a colour once it has been picked. A round whose sequence repeats a colour can therefore never be won through the interface.

## Model

| member | source | states |
|---|---|---|
| Selection.Without | src/components/WordMaker.tsx:607 | filtering out `x` keeps exactly the other elements, and is the identity when `x` is absent |
| Selection.WithoutDistinct | src/components/WordMaker.tsx:607 | deselecting a tile keeps the selection free of repeated tiles |
| Selection.WithoutInRange | src/components/WordMaker.tsx:607 | deselecting a tile keeps every selected index on the board |
| Selection.PermutationKeepsElements | src/components/AlphabetOrderChallenge.tsx:20-22 | a randomised sort returns exactly the same elements (as a multiset) |
| Selection.SelectDistinct | src/components/FocusChallenge.tsx:53-54 | reordering or slicing a duplicate-free list of distinct positions gives a duplicate-free list |
| Selection.SelectWithin | src/components/WordMaker.tsx:609-614 | the word read off distinct selected tiles uses no tile letter more often than the tiles hold it |
| Selection.DropLast | src/components/WordMaker.tsx:609-614 | removing the largest index from a selection removes that tile's letter from the selected word (induction step of `SelectWithin`) |
| Selection.DistinctOnce | src/components/MemoryCards.tsx:39-40 | a symbol of a duplicate-free list occurs at most once in it |
| AlphabetOrder.LevelConfig | src/components/AlphabetOrderChallenge.tsx:10-18 | 5 to 15 round letters, always fewer than the pool; size `4 + level` and pool `8 + level` up to level 7; capped at 15 and 26 from level 18 |
| AlphabetOrder.LevelConfigMonotone | src/components/AlphabetOrderChallenge.tsx:10-18 | neither count shrinks as the level grows |
| AlphabetOrder.AlphabetLetters | src/components/AlphabetOrderChallenge.tsx:8 | the alphabet is the 26 distinct upper-case letters in increasing order |
| AlphabetOrder.InsertSorted | src/components/AlphabetOrderChallenge.tsx:55 | inserting into a sorted list keeps it sorted and adds exactly that letter |
| AlphabetOrder.ConsSorted | src/components/AlphabetOrderChallenge.tsx:55 | a letter no larger than a sorted list may lead it |
| AlphabetOrder.SortLetters | src/components/AlphabetOrderChallenge.tsx:55 | `[...letters].sort()` is sorted and a permutation of the letters |
| AlphabetOrder.SortedHeadLeast | src/components/AlphabetOrderChallenge.tsx:55 | the first letter of a sorted list is its least |
| AlphabetOrder.SortedUnique | src/components/AlphabetOrderChallenge.tsx:55-56 | two sorted arrangements of the same letters are equal, so the comparison with the sorted letters is well defined |
| AlphabetOrder.SortedDistinctIncreasing | src/components/AlphabetOrderChallenge.tsx:55-56 | distinct letters in sorted order are strictly increasing |
| AlphabetOrder.SuccessIff | src/components/AlphabetOrderChallenge.tsx:53-61 | the picks win exactly when they are strictly increasing and are the round letters (both directions) |
| AlphabetOrder.DoubleCount | src/components/AlphabetOrderChallenge.tsx:55 | a letter at two positions occurs at least twice |
| AlphabetOrder.ExampleRound | src/components/AlphabetOrderChallenge.tsx:55 | D, B, A, C sorts to A, B, C, D |
| AlphabetOrder.NewRound | src/components/AlphabetOrderChallenge.tsx:35-42 | the pool and the round letters have the level's sizes, are duplicate-free upper-case letters, and every round letter is in the pool |
| AlphabetOrder.Game.constructor | src/components/AlphabetOrderChallenge.tsx:25-30 | level 1, score 0, the first round, nothing picked |
| AlphabetOrder.Game.InitRound | src/components/AlphabetOrderChallenge.tsx:35-42 | new pool and letters for the level, picks and result cleared |
| AlphabetOrder.Game.HandleLetterPick | src/components/AlphabetOrderChallenge.tsx:48-63 | ignored once a result is shown or for a picked letter; otherwise appended, and the last pick gives success (100 + 5·level points) exactly when the picks are the sorted letters, failure otherwise |
| AlphabetOrder.Game.NextLevel | src/components/AlphabetOrderChallenge.tsx:44-69 | next level (wrapping from 20 to 1 with score 0) and a fresh round |
| AlphabetOrder.Game.ResetGame | src/components/AlphabetOrderChallenge.tsx:71-74 | level 1, score 0, fresh round |
| ColorMemory.AllColorsDistinct | src/components/AdvancedColorMemory.tsx:13-29 | fifteen distinct colour names |
| ColorMemory.GameConfig | src/components/AdvancedColorMemory.tsx:31-38 | sequence 3 to 9 long, palette 4 to 15 colours, at least 5 s to look and 10 s to answer; (3, 4, 6, 10) at level 1 |
| ColorMemory.GameConfigMonotone | src/components/AdvancedColorMemory.tsx:31-38 | sequence and palette never shrink as the level grows |
| ColorMemory.Palette | src/components/AdvancedColorMemory.tsx:59 | the palette has the configured size, is duplicate-free and drawn from the colours |
| ColorMemory.ShuffleKeepsColors | src/components/AdvancedColorMemory.tsx:67 | the shuffled choices are the palette's colours, each once |
| ColorMemory.NewRound | src/components/AdvancedColorMemory.tsx:56-73 | the sequence has the configured length and uses only colours offered as choices; the choices are the palette reordered |
| ColorMemory.Game.constructor | src/components/AdvancedColorMemory.tsx:45-105 | level 1, score 0, first round in the memorize phase, both timers at the level-1 lengths (6 s and 10 s) |
| ColorMemory.Game.StartNewRound | src/components/AdvancedColorMemory.tsx:56-73 | new round, empty input, no result, memorize phase, both timers full |
| ColorMemory.Game.MemorizeTick | src/components/AdvancedColorMemory.tsx:76-85 | the memorize countdown drops by one only in that phase and never below zero |
| ColorMemory.Game.EnterRecall | src/components/AdvancedColorMemory.tsx:81-83 | the deferred switch to recall |
| ColorMemory.Game.RecallTick | src/components/AdvancedColorMemory.tsx:88-100 | the recall countdown drops by one only in that phase and never below zero |
| ColorMemory.Game.TimeOut | src/components/AdvancedColorMemory.tsx:93-98 | the deferred timeout: result Timeout, result phase |
| ColorMemory.Game.HandleColorPick | src/components/AdvancedColorMemory.tsx:108-124 | ignored outside recall or with a full input; otherwise appended, and the filling pick succeeds exactly when the input equals the sequence (50 + 2 per second left) and fails otherwise; an enabled pick keeps the input repeat-free |
| ColorMemory.Game.ShowResult | src/components/AdvancedColorMemory.tsx:120 | the deferred switch to the result phase |
| ColorMemory.Game.NextLevel | src/components/AdvancedColorMemory.tsx:103-129 | next level (wrapping from 15 to 1 with score 0) and a fresh round: empty input, no result, memorize phase, both timers at the new level's lengths |
| ColorMemory.Game.ResetGame | src/components/AdvancedColorMemory.tsx:131-135 | level 1, score 0, fresh round with empty input, no result, memorize phase and both timers at the level-1 lengths |
| ColorMemory.EnabledPicksOnly | src/components/AdvancedColorMemory.tsx:230-234 | picking only through enabled buttons never wins a round whose sequence repeats a colour |
| FocusChallenge.AllColorsDistinct | src/components/FocusChallenge.tsx:24-41 | sixteen distinct colour names |
| FocusChallenge.GameConfig | src/components/FocusChallenge.tsx:43-47 | 4 to 16 options and 3 to 10 seconds; (4, 10) at level 1 |
| FocusChallenge.GameConfigMonotone | src/components/FocusChallenge.tsx:43-47 | more options and no more time as the level grows |
| FocusChallenge.Deduct | src/components/FocusChallenge.tsx:78-109 | a penalty never makes the score negative and takes the full amount when the score allows |
| FocusChallenge.Reward | src/components/FocusChallenge.tsx:74-75 | a correct pick earns at least 20·level + 10, and 20·level + 5·seconds left from two seconds up |
| FocusChallenge.NewRound | src/components/FocusChallenge.tsx:49-65 | the configured number of distinct colours, and the target is one of them |
| FocusChallenge.Game.constructor | src/components/FocusChallenge.tsx:15-22 | level 1, score 0, the first round active with full time and nothing selected |
| FocusChallenge.Game.InitializeGame | src/components/FocusChallenge.tsx:49-65 | new options and target, full time, round active and not complete |
| FocusChallenge.Game.HandleColorClick | src/components/FocusChallenge.tsx:67-80 | ignored unless active and not complete; otherwise ends the round, and the target completes it for `Reward` while any other colour costs 10 |
| FocusChallenge.Game.TimerStep | src/components/FocusChallenge.tsx:101-112 | an active round loses a second; at zero it ends and costs 20; an inactive one is unchanged |
| FocusChallenge.Game.NextLevel | src/components/FocusChallenge.tsx:82-99 | next level (wrapping from 20 to 1 with score 0) and a fresh round with full time and nothing selected |
| FocusChallenge.Game.ResetGame | src/components/FocusChallenge.tsx:91-95 | level 1, score 0, fresh round with full time and nothing selected |
| MemoryCards.SymbolsDistinct | src/components/MemoryCards.tsx:24 | twenty distinct symbols |
| MemoryCards.GridConfig | src/components/MemoryCards.tsx:26-32 | 2x2 up to level 4 and 4x5 from level 17 |
| MemoryCards.Area | src/components/MemoryCards.tsx:35-37 | 4, 6, 12, 16 or 20 cards, always even, never more pairs than symbols |
| MemoryCards.AreaMonotone | src/components/MemoryCards.tsx:26-32 | later levels never deal fewer cards |
| MemoryCards.Values | src/components/MemoryCards.tsx:8-13 | one symbol per card |
| MemoryCards.DeckValues | src/components/MemoryCards.tsx:39-45 | the unshuffled deck has one symbol per card |
| MemoryCards.Deal | src/components/MemoryCards.tsx:34-62 | cards numbered by position, all face down and unmatched, holding exactly the deck's symbols |
| MemoryCards.EachSymbolTwice | src/components/MemoryCards.tsx:39-55 | each of the first `n / 2` symbols is dealt exactly twice and no other symbol is dealt |
| MemoryCards.MatchedCount | src/components/MemoryCards.tsx:120-125 | the number of matched cards is at most the deck size |
| MemoryCards.CountUpdate | src/components/MemoryCards.tsx:83-85 | replacing one card changes the matched count by that card's difference |
| MemoryCards.CountAll | src/components/MemoryCards.tsx:120-125 | all cards are matched exactly when the count is the deck size |
| MemoryCards.CountZero | src/components/MemoryCards.tsx:50-55 | a deck none of whose cards is matched has a matched count of zero, as a fresh deal is |
| MemoryCards.ValuesUpdate | src/components/MemoryCards.tsx:72-74 | changing a card's flags keeps every symbol in place |
| MemoryCards.FlipUp | src/components/MemoryCards.tsx:72-74 | turning a card up keeps the deck size |
| MemoryCards.MarkMatched | src/components/MemoryCards.tsx:83-85 | marking the pair keeps the deck size |
| MemoryCards.TurnDown | src/components/MemoryCards.tsx:92-94 | turning the pair back keeps the deck size |
| MemoryCards.FlipUpEffect | src/components/MemoryCards.tsx:72-74 | turning one card up changes only that card, keeps the symbols and the matched count |
| MemoryCards.MarkMatchedIsUpdate | src/components/MemoryCards.tsx:83-85 | with ids equal to positions, the map updates exactly the two cards of the pair |
| MemoryCards.MarkMatchedEffect | src/components/MemoryCards.tsx:83-86 | matching two unmatched cards adds two to the count and keeps the symbols |
| MemoryCards.TurnDownIsUpdate | src/components/MemoryCards.tsx:92-94 | with ids equal to positions, the map updates exactly the two cards |
| MemoryCards.TurnDownEffect | src/components/MemoryCards.tsx:92-95 | turning a pair back changes neither symbols nor count |
| MemoryCards.TableAfterDeal | src/components/MemoryCards.tsx:57-61 | a fresh deal satisfies the table invariant with nothing turned over and no pairs |
| MemoryCards.TableUnfinished | src/components/MemoryCards.tsx:120-125 | while a card is turned over, not every pair is matched |
| MemoryCards.TableAfterFlip | src/components/MemoryCards.tsx:64-75 | an allowed click keeps the table invariant |
| MemoryCards.TableAfterMatch | src/components/MemoryCards.tsx:82-89 | matching keeps the invariant with one more pair |
| MemoryCards.TableAfterTurnDown | src/components/MemoryCards.tsx:91-96 | turning back keeps the invariant |
| MemoryCards.Game.constructor | src/components/MemoryCards.tsx:16-22 | level 1, score 0, the first deal, nothing turned over |
| MemoryCards.Game.InitializeGame | src/components/MemoryCards.tsx:34-62 | a new deal for the level, no turned-over cards, pairs or moves |
| MemoryCards.Game.HandleCardClick | src/components/MemoryCards.tsx:64-80 | ignored with two cards up or on a face-up or matched card; otherwise that card alone turns up, it joins the turned-over list, and a second card counts a move |
| MemoryCards.Game.ResolveFlip | src/components/MemoryCards.tsx:81-97 | equal symbols: both matched, one more pair, (21 - level)·10 points; unequal: both turned down; the turned-over list empties |
| MemoryCards.Game.CheckComplete | src/components/MemoryCards.tsx:120-125 | complete once every pair is matched, and complete exactly when every card is matched |
| MemoryCards.Game.NextLevel | src/components/MemoryCards.tsx:101-118 | next level (wrapping from 20 to 1 with score 0) and a fresh deal |
| MemoryCards.Game.ResetGame | src/components/MemoryCards.tsx:110-114 | level 1, score 0, fresh deal |
| PatternRecognition.KindOf | src/components/PatternRecognition.tsx:100-101 | arithmetic exactly for levels 1-5, geometric 6-10, shapes 11-15, letters from 16 |
| PatternRecognition.Take | src/components/PatternRecognition.tsx:35 | `slice(0, n)` is a prefix of length `min(n, length)` |
| PatternRecognition.Shuffled | src/components/PatternRecognition.tsx:35 | three distinct choices holding the answer, a permutation of answer and wrong choices |
| PatternRecognition.ArithmeticPattern | src/components/PatternRecognition.tsx:26-38 | well formed; the terms and the answer step by `step`; the answer is `start + 4·step` |
| PatternRecognition.DivExact | src/components/PatternRecognition.tsx:46 | `floor(x·r / r)` is `x` |
| PatternRecognition.MulGrows | src/components/PatternRecognition.tsx:44-46 | multiplying by a ratio of at least 2 grows a positive term, and dividing back recovers it |
| PatternRecognition.GeometricPattern | src/components/PatternRecognition.tsx:41-53 | well formed (the three candidate answers differ); the terms and the answer grow by `ratio`; the answer is `start·ratio⁴` |
| PatternRecognition.BlockLength | src/components/PatternRecognition.tsx:58 | a block of 3 or 4 shapes, 4 from level 5 |
| PatternRecognition.Repeat | src/components/PatternRecognition.tsx:61-64 | `n` copies of the block have `n` times its length |
| PatternRecognition.RepeatContinues | src/components/PatternRecognition.tsx:61-65 | the repeated blocks followed by the block's first shape are periodic with the block's length |
| PatternRecognition.ShapeAnswer | src/components/PatternRecognition.tsx:65 | the repeated sequence's length is a multiple of the block's |
| PatternRecognition.OtherShapes | src/components/PatternRecognition.tsx:66 | filtering out the first shape leaves the other four in order |
| PatternRecognition.ShapeContinues | src/components/PatternRecognition.tsx:61-70 | the answer is the first shape and continues the last four shown with the block's period |
| PatternRecognition.ShapePatternFrom | src/components/PatternRecognition.tsx:56-74 | well formed; the answer is ▲; the shown terms and answer are periodic |
| PatternRecognition.RepeatShapes | src/components/PatternRecognition.tsx:61-64 | the loop builds `repeats` copies of the block |
| PatternRecognition.LetterItem | src/components/PatternRecognition.tsx:78-83 | `letters[k % 26]` is one upper-case letter |
| PatternRecognition.BuildLetterRun | src/components/PatternRecognition.tsx:81-84 | the loop builds the four letters `start + i·step` |
| PatternRecognition.ShiftLetter | src/components/PatternRecognition.tsx:83-85 | stepping the letter at `k` by `step` gives the letter at `k + step`, wrapping Z to A |
| PatternRecognition.LetterSteps | src/components/PatternRecognition.tsx:81-85 | the four letters and the answer each step `step` letters on |
| PatternRecognition.LetterItemsDiffer | src/components/PatternRecognition.tsx:86-89 | letters at positions differing modulo 26 differ |
| PatternRecognition.LetterPatternFrom | src/components/PatternRecognition.tsx:77-97 | well formed; the shown letters and answer step through the alphabet; every choice is a letter |
| PatternRecognition.Generate | src/components/PatternRecognition.tsx:23-103 | every generated pattern is well formed: four terms and "?", three distinct choices including the answer, and the answer continues the pattern of its kind |
| PatternRecognition.GeneratePattern | src/components/PatternRecognition.tsx:23-103 | the component's generator, loops included, produces `Generate` |
| PatternRecognition.Game.constructor | src/components/PatternRecognition.tsx:16-21 | level 1, score 0, first pattern, nothing selected |
| PatternRecognition.Game.InitializeLevel | src/components/PatternRecognition.tsx:105-111 | new well-formed pattern for the level, selection and result cleared |
| PatternRecognition.Game.HandleSelect | src/components/PatternRecognition.tsx:113-123 | one selection per pattern; complete exactly when the choice is the answer, for 10·level points |
| PatternRecognition.Game.NextLevel | src/components/PatternRecognition.tsx:125-143 | next level (wrapping from 20 to 1 with score 0) and a fresh pattern |
| PatternRecognition.Game.ResetGame | src/components/PatternRecognition.tsx:135-139 | level 1, score 0, fresh pattern |
| SimonPattern.PatternLength | src/components/SimonPattern.tsx:10-15 | at least 4 cells, at most 20 up to level 20, `level + 3` below 5 and `level` from 10 |
| SimonPattern.PatternLengthMonotone | src/components/SimonPattern.tsx:10-15 | patterns never get shorter as the level grows |
| SimonPattern.NextLevelOf | src/components/SimonPattern.tsx:87-95 | the next level stays in 1..20 and is 1 exactly after the last |
| SimonPattern.Game.constructor | src/components/SimonPattern.tsx:18-31 | level 1, score 0, the drawn pattern, no mistake, playback started from the first cell with nothing lit |
| SimonPattern.Game.Initialize | src/components/SimonPattern.tsx:33-44 | new pattern for the level, progress and mistake cleared, playback from the start |
| SimonPattern.Game.ShowPattern | src/components/SimonPattern.tsx:46-50 | playback starts with nothing lit; nothing else changes |
| SimonPattern.Game.PlaybackTick | src/components/SimonPattern.tsx:51-53 | each tick lights the next cell of the pattern |
| SimonPattern.Game.PlaybackEnd | src/components/SimonPattern.tsx:54-60 | after the last cell, the light goes off and input is accepted |
| SimonPattern.Game.HandlePatternClick | src/components/SimonPattern.tsx:64-85 | ignored during playback or after completion; a wrong cell flags a mistake and keeps progress; the expected cell extends it and completes the level, for 10·level points, exactly when the whole pattern is repeated |
| SimonPattern.Game.ResetAfterMistake | src/components/SimonPattern.tsx:71-75 | all progress dropped and the same pattern replayed from its first step with nothing lit, score unchanged |
| SimonPattern.Game.NextLevel | src/components/SimonPattern.tsx:87-95 | next level (wrapping from 20 to 1 with score 0), not complete, no mistake, fresh pattern played back from the first cell with nothing lit |
| SimonPattern.Game.ResetGame | src/components/SimonPattern.tsx:97-102 | level 1, score 0, not complete, no mistake, fresh pattern played back from the first cell with nothing lit |
| SimonPattern.MistakeDiscardsProgress | src/components/SimonPattern.tsx:64-85 | repeating all but the last cell and then missing it leaves no progress and no points, and the pattern is replayed |
| Wordle.WordListWords | src/components/Wordle5Letter.tsx:9-20 | fifty words, each five upper-case letters |
| Wordle.TargetFor | src/components/Wordle5Letter.tsx:52 | each level's target is a valid guess; level 1's is ABOUT |
| Wordle.Classify | src/components/Wordle5Letter.tsx:61-105 | one mark per guess letter, carrying that letter |
| Wordle.AllCorrectIff | src/components/Wordle5Letter.tsx:61-111 | every letter is marked correct exactly when the guess is the target |
| Wordle.WaterAgainstWatch | src/components/Wordle5Letter.tsx:61-69 | WATER against WATCH marks W, A, T correct and E, R absent |
| Wordle.RepeatedLettersEachMarked | src/components/Wordle5Letter.tsx:61-69 | every copy of a repeated letter is marked on its own: EERIE against HEART gives present, correct, present, absent, present |
| Wordle.MergeKeepsBest | src/components/Wordle5Letter.tsx:74-82 | a key takes the better of its old and new mark; no other key changes |
| Wordle.KeyboardNeverDowngrades | src/components/Wordle5Letter.tsx:71-86 | after a row no key is downgraded, each row letter shows at least its mark, and no other key appears |
| Wordle.Letters | src/components/Wordle5Letter.tsx:102-105 | one letter per mark |
| Wordle.Game.constructor | src/components/Wordle5Letter.tsx:37-49 | level 1, score 0, target ABOUT, empty board and keyboard |
| Wordle.Game.StartNewGame | src/components/Wordle5Letter.tsx:51-59 | the level's target, no guesses, playing, empty keyboard, no shake |
| Wordle.Game.UpdateKeyboardState | src/components/Wordle5Letter.tsx:71-86 | the loop leaves the keyboard that folding `Merge` over the row gives |
| Wordle.Game.SubmitGuess | src/components/Wordle5Letter.tsx:88-130 | a short guess changes nothing; a non-word only shakes its row; a word adds its marked row, updates the keyboard and clears the guess, winning (7 - guesses)·100 + 10·level points on the target and losing on a sixth miss |
| Wordle.Game.ClearShake | src/components/Wordle5Letter.tsx:97 | the deferred end of the shake |
| Wordle.Game.HandleKeyPress | src/components/Wordle5Letter.tsx:132-142 | ignored unless playing; ENTER submits, with `SubmitGuess`'s outcome (new row, keyboard, win points, loss on a sixth miss); a non-word ENTER keeps the score and keyboard and shakes the current row only when it has five letters; BACK drops the last letter, and a single key is appended below five letters; keys other than ENTER never change the score, keyboard or shake |
| Wordle.Game.NextLevel | src/components/Wordle5Letter.tsx:144-151 | next level (wrapping from 50 to 1 with score 0) and a new game: the level's target, no guesses, empty guess, blank keyboard, no shake |
| Wordle.Game.ResetGame | src/components/Wordle5Letter.tsx:153-157 | level 1, score 0, new game with target ABOUT, no guesses, empty guess, blank keyboard, no shake |
| WordMaker.RequiredList | src/components/WordMaker.tsx:593 | the required words in table order |
| WordMaker.RowsWellShaped | src/components/WordMaker.tsx:9-565 | every level of each group of ten has three distinct required words; its five steps `Row0WellShaped` to `Row4WellShaped` state this for one group each |
| WordMaker.ConcatWellShaped | src/components/WordMaker.tsx:9-565 | joining well-shaped groups of levels keeps them well shaped |
| WordMaker.LevelTableShape | src/components/WordMaker.tsx:9-565 | fifty levels, each requiring three distinct words |
| WordMaker.LevelFor | src/components/WordMaker.tsx:581 | a level in range gets its own entry, and any later level gets the last one |
| WordMaker.Swap | src/components/WordMaker.tsx:587 | a swap keeps the length |
| WordMaker.PassDown | src/components/WordMaker.tsx:585-588 | the rest of a pass keeps the length |
| WordMaker.Pass | src/components/WordMaker.tsx:585-588 | a Fisher-Yates pass keeps the length |
| WordMaker.Shuffled | src/components/WordMaker.tsx:582-591 | the memoised shuffle keeps the length |
| WordMaker.SwapKeepsLetters | src/components/WordMaker.tsx:587 | a swap keeps the tiles' letters |
| WordMaker.PassDownKeepsLetters | src/components/WordMaker.tsx:585-588 | the rest of a pass keeps the tiles' letters |
| WordMaker.ShuffledKeepsLetters | src/components/WordMaker.tsx:582-591 | any number of passes keeps the tiles' letters |
| WordMaker.ShuffleLetters | src/components/WordMaker.tsx:582-591 | the nested in-place loop computes `Shuffled` |
| WordMaker.ShufflePass | src/components/WordMaker.tsx:585-588 | the inner in-place loop computes one `Pass` |
| WordMaker.DistinctCard | src/components/WordMaker.tsx:678 | a duplicate-free list has as many elements as its set |
| WordMaker.DistinctWithin | src/components/WordMaker.tsx:678 | a duplicate-free list inside another is no longer, and of equal length exactly when it covers it |
| WordMaker.Unfound | src/components/WordMaker.tsx:659-661 | empty exactly when all required words are found; otherwise its head is the first unfound word in table order |
| WordMaker.RecordedAppend | src/components/WordMaker.tsx:627-633 | recording a new, listed, spellable word keeps the record repeat-free |
| WordMaker.Game.constructor | src/components/WordMaker.tsx:571-579 | level 1, 100 coins, 3 hints, no score, tiles in table order |
| WordMaker.Game.HandleLetterClick | src/components/WordMaker.tsx:604-616 | a selected tile is filtered out of the selection, keeping the others' order, and any other tile is appended; the word is the selected tiles' letters in order |
| WordMaker.Game.SubmitWord | src/components/WordMaker.tsx:618-645 | fewer than 3 letters changes nothing; a new required word adds 10 per letter and 5 coins; failing that, a new bonus word adds 15 per letter and 10 coins; anything else earns nothing; the word and selection are cleared |
| WordMaker.Game.ClearWord | src/components/WordMaker.tsx:759 | the Clear button drops the word and the selection |
| WordMaker.Game.Shuffle | src/components/WordMaker.tsx:647-655 | with 10 coins or more, one more pass for 10 coins, the tiles reshuffled; otherwise nothing |
| WordMaker.Game.UseHint | src/components/WordMaker.tsx:657-668 | a clue is shown exactly when a hint is left and a required word is unfound; it is the clue of the first unfound word and costs one hint |
| WordMaker.Game.NextLevel | src/components/WordMaker.tsx:596-676 | below 50 the level goes up, words, selection and score reset, coins and hints carry over, the tiles reshuffled; at 50 nothing changes (level, word, selection, found and bonus words, score, coins, hints, shuffles) |
| WordMaker.Game.LevelChanged | src/components/WordMaker.tsx:581-602 | after a level change: empty records, no score, the new level's tiles shuffled by the passes bought |
| WordMaker.Game.CompleteIffAllFound | src/components/WordMaker.tsx:678 | `isLevelComplete` holds exactly when every required word is found |
| WordMaker.Game.LevelTwentyThreeUnwinnable | src/components/WordMaker.tsx:805-811 | at level 23 the level is never complete, so the next-level button never appears |
| WordMaker.TwentyThirdEntry | src/components/WordMaker.tsx:9-565 | level 23's entry is the third of the third group of ten |
| WordMaker.SunshineUnspellable | src/components/WordMaker.tsx:9-565 | SUNSHINE cannot be spelled from level 23's tiles |
| WordMaker.Mount | src/components/WordMaker.tsx:569-581 | mounting over the real table gives a valid game at level 1 |

## Left out

- Rendering, styling, icons, the crossword grid layout (`gridSize`, word positions) and toast messages are not modelled. A hint's clue is returned instead of shown in a toast.
- Timers are not scheduled. Each countdown step, interval tick and deferred body is a method the environment may call in any order its precondition allows. Cancelling a timer on unmount or on a change of dependencies is not modelled, and neither are races between stale timers and newer state.
- The distribution of random draws is not modelled. Draws are parameters constrained only to their ranges.
- React batching is not modelled. Setter calls in one handler are applied together. An effect that depends on `level` runs inside the method that changes the level.
- The other pages and components of the app are not part of this model.
- Wordle.TargetFor: the random fallback for a level past the word list is not modelled. Levels stay within 1 to 50, so it never runs.
- Wordle.Game.HandleKeyPress: the on-screen keys are disabled unless playing. The model takes the handler's own guard, which has the same effect.
- SimonPattern.Game.PlaybackTick: `patternStep` is never read by the game logic, so it is not modelled.
- MemoryCards.Game.HandleCardClick: cards are found by id through `map`. The model relies on the deal numbering ids by position, which the `Indexed` invariant keeps.
- WordMaker.Game.NextLevel: the button only appears when the level is complete. The model allows the call at any time, as the handler does.
- WordMaker.Game.constructor: `LEVEL_DATA` is a constructor argument with fifty well-shaped levels. `WordMaker.Mount` passes the real table. The facts about level 23 are stated for that table.
- WordMaker.ShuffleLetters: the passes' partners `k` are parameters in place of `Math.random()`.
- ColorMemory.EnabledPicksOnly and SimonPattern.MistakeDiscardsProgress: these are sequences of player clicks, written as loops over handler calls. The components have no such loop.
