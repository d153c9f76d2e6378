/** Wordle, five letters: the player has six guesses to find the level's
    word. Each guessed letter is marked correct (right place), present
    (elsewhere in the word) or absent, and the on-screen keyboard keeps the
    best mark seen for each letter. */
module Wordle {
  const MaxLevel := 50
  const MaxGuesses := 6

  /** The word of each level, level 1 first, written in rows of ten. */
  const WordList: seq<string> := Words0 + Words1 + Words2 + Words3 + Words4
  const Words0: seq<string> := ["ABOUT", "ABOVE", "AFTER", "AGAIN", "AMONG", "APPLE", "BEACH", "BREAD", "CHAIR", "CLEAN"]
  const Words1: seq<string> := ["DANCE", "DREAM", "EARLY", "EARTH", "FIELD", "FIRST", "GLASS", "GREAT", "GREEN", "HAPPY"]
  const Words2: seq<string> := ["HEART", "HOUSE", "LIGHT", "MONEY", "MUSIC", "NIGHT", "OCEAN", "PAPER", "PEACE", "PLANT"]
  const Words3: seq<string> := ["QUICK", "QUIET", "RIGHT", "ROUND", "SMALL", "SMILE", "SOUND", "SPACE", "START", "STORY"]
  const Words4: seq<string> := ["STUDY", "SWEET", "TABLE", "THANK", "THINK", "THREE", "TODAY", "TRAIN", "WATER", "WORLD"]

  /** Five upper-case letters: the `^[A-Z]{5}$` check. */
  predicate IsWord(s: string) {
    |s| == 5 && forall i :: 0 <= i < |s| ==> 'A' <= s[i] <= 'Z'
  }

  /** Every listed word is five upper-case letters, and there is one per level. */
  lemma WordListWords()
    ensures |WordList| == MaxLevel
    ensures forall i :: 0 <= i < |WordList| ==> IsWord(WordList[i])
  {
    assert forall i :: 0 <= i < 10 ==> IsWord(Words0[i]);
    assert forall i :: 0 <= i < 10 ==> IsWord(Words1[i]);
    assert forall i :: 0 <= i < 10 ==> IsWord(Words2[i]);
    assert forall i :: 0 <= i < 10 ==> IsWord(Words3[i]);
    assert forall i :: 0 <= i < 10 ==> IsWord(Words4[i]);
  }

  /** The word of a level. */
  function TargetFor(level: int): (w: string)
    requires 1 <= level <= MaxLevel
    ensures IsWord(w)
    ensures level == 1 ==> w == "ABOUT"
  {
    WordListWords();
    assert WordList[0] == "ABOUT";
    WordList[level - 1]
  }

  datatype LetterState = Correct | Present | Absent

  /** The order in which keyboard marks improve. */
  function Rank(s: LetterState): nat {
    match s
    case Absent => 0
    case Present => 1
    case Correct => 2
  }

  datatype GuessLetter = GuessLetter(letter: char, state: LetterState)

  /** `getLetterState`: each position is judged on its own, with no
      reconciliation of repeated letters. */
  function GetLetterState(target: string, letter: char, position: nat): (s: LetterState)
  {
    if position < |target| && target[position] == letter then Correct
    else if letter in target then Present
    else Absent
  }

  /** The marked row of a guess. */
  function Classify(guess: string, target: string): (row: seq<GuessLetter>)
    ensures |row| == |guess|
    ensures forall i :: 0 <= i < |row| ==> row[i].letter == guess[i]
  {
    seq(|guess|, i requires 0 <= i < |guess| => GuessLetter(guess[i], GetLetterState(target, guess[i], i)))
  }

  /** A guess of the word's length is marked all correct exactly when it is
      the word. */
  lemma AllCorrectIff(guess: string, target: string)
    requires |guess| == |target|
    ensures (forall i :: 0 <= i < |guess| ==> Classify(guess, target)[i].state == Correct)
            <==> guess == target
  {
    var row := Classify(guess, target);
    if forall i :: 0 <= i < |guess| ==> row[i].state == Correct {
      forall i | 0 <= i < |guess| ensures guess[i] == target[i] {
        assert row[i].state == Correct;
      }
    }
  }

  /** WATER against WATCH: three letters in place, E and R absent. */
  lemma WaterAgainstWatch()
    ensures Classify("WATER", "WATCH") == [GuessLetter('W', Correct), GuessLetter('A', Correct),
      GuessLetter('T', Correct), GuessLetter('E', Absent), GuessLetter('R', Absent)]
  {
    assert 'E' !in "WATCH" && 'R' !in "WATCH";
  }

  /** Repeated letters are not reconciled: against HEART, which has one E,
      all three Es of EERIE are marked, two of them present. */
  lemma RepeatedLettersEachMarked()
    ensures Classify("EERIE", "HEART") == [GuessLetter('E', Present), GuessLetter('E', Correct),
      GuessLetter('R', Present), GuessLetter('I', Absent), GuessLetter('E', Present)]
  {
    assert "HEART"[1] == 'E' && "HEART"[3] == 'R' && 'I' !in "HEART";
  }

  // ---- The keyboard ----

  /** Whether a mark replaces what the keyboard shows for its letter:
      correct always, present unless the letter is already correct, absent
      only for a letter with no mark yet. */
  predicate Replaces(kb: map<char, LetterState>, g: GuessLetter) {
    g.state == Correct ||
    (g.state == Present && (g.letter !in kb || kb[g.letter] != Correct)) ||
    (g.state == Absent && g.letter !in kb)
  }

  function Merge(kb: map<char, LetterState>, g: GuessLetter): map<char, LetterState> {
    if Replaces(kb, g) then kb[g.letter := g.state] else kb
  }

  /** The keyboard after the marks of `row` are applied in order. */
  function KeyboardAfter(kb: map<char, LetterState>, row: seq<GuessLetter>): map<char, LetterState>
  {
    if row == [] then kb else Merge(KeyboardAfter(kb, row[..|row| - 1]), row[|row| - 1])
  }

  /** One mark leaves the best of the old mark and the new one. */
  lemma MergeKeepsBest(kb: map<char, LetterState>, g: GuessLetter)
    ensures g.letter in Merge(kb, g)
    ensures g.letter in kb ==> Rank(Merge(kb, g)[g.letter]) == Max(Rank(kb[g.letter]), Rank(g.state))
    ensures g.letter !in kb ==> Merge(kb, g)[g.letter] == g.state
    ensures forall k :: k in kb && k != g.letter ==> k in Merge(kb, g) && Merge(kb, g)[k] == kb[k]
    ensures Merge(kb, g).Keys == kb.Keys + {g.letter}
  {
  }

  function Max(a: nat, b: nat): nat {
    if a < b then b else a
  }

  /** No key is ever downgraded, every letter of the row gets a mark at
      least as good as its own, and no other key appears. */
  lemma {:induction false} KeyboardNeverDowngrades(kb: map<char, LetterState>, row: seq<GuessLetter>)
    ensures forall k :: k in kb ==>
              k in KeyboardAfter(kb, row) && Rank(KeyboardAfter(kb, row)[k]) >= Rank(kb[k])
    ensures forall i :: 0 <= i < |row| ==>
              row[i].letter in KeyboardAfter(kb, row) &&
              Rank(KeyboardAfter(kb, row)[row[i].letter]) >= Rank(row[i].state)
    ensures forall k :: k in KeyboardAfter(kb, row) ==>
                          k in kb || exists i :: 0 <= i < |row| && row[i].letter == k
  {
    if row != [] {
      var init := row[..|row| - 1];
      var g := row[|row| - 1];
      KeyboardNeverDowngrades(kb, init);
      MergeKeepsBest(KeyboardAfter(kb, init), g);
      forall k | k in KeyboardAfter(kb, row)
        ensures k in kb || exists i :: 0 <= i < |row| && row[i].letter == k
      {
        if k != g.letter && k !in kb {
          var i :| 0 <= i < |init| && init[i].letter == k;
          assert row[i].letter == k;
        }
      }
      forall i | 0 <= i < |row|
        ensures row[i].letter in KeyboardAfter(kb, row)
        ensures Rank(KeyboardAfter(kb, row)[row[i].letter]) >= Rank(row[i].state)
      {
        if i < |init| {
          assert init[i] == row[i];
        }
      }
    }
  }

  datatype GameState = Playing | Won | Lost

  /** The letters of a marked row. */
  function Letters(row: seq<GuessLetter>): (s: string)
    ensures |s| == |row|
  {
    seq(|row|, i requires 0 <= i < |row| => row[i].letter)
  }

  class Game {
    var level: int
    var targetWord: string
    var guesses: seq<seq<GuessLetter>>
    var currentGuess: string
    var gameState: GameState
    var keyboardState: map<char, LetterState>
    var score: int
    var shakeRow: int

    ghost predicate Valid()
      reads this
    {
      1 <= level <= MaxLevel && targetWord == TargetFor(level) && score >= 0 &&
      |currentGuess| <= 5 &&
      |guesses| <= MaxGuesses &&
      (gameState == Playing ==> |guesses| < MaxGuesses) &&
      (gameState == Won ==> |guesses| > 0 && Letters(guesses[|guesses| - 1]) == targetWord)
    }

    /** Mounting: level 1, score 0 and the first game. */
    constructor ()
      ensures Valid() && level == 1 && score == 0
      ensures targetWord == "ABOUT" && guesses == [] && currentGuess == "" && gameState == Playing
      ensures keyboardState == map[] && shakeRow == -1
    {
      level := 1;
      score := 0;
      targetWord := TargetFor(1);
      guesses := [];
      currentGuess := "";
      gameState := Playing;
      keyboardState := map[];
      shakeRow := -1;
    }

    /** `startNewGame`: the level's word, no guesses and a blank keyboard. */
    method StartNewGame()
      requires 1 <= level <= MaxLevel && score >= 0
      modifies this`targetWord, this`guesses, this`currentGuess, this`gameState,
               this`keyboardState, this`shakeRow
      ensures Valid()
      ensures targetWord == TargetFor(level) && guesses == [] && currentGuess == ""
      ensures gameState == Playing && keyboardState == map[] && shakeRow == -1
    {
      targetWord := TargetFor(level);
      guesses := [];
      currentGuess := "";
      gameState := Playing;
      keyboardState := map[];
      shakeRow := -1;
    }

    /** `updateKeyboardState`: apply the marks of a row in order to a copy
        of the keyboard. */
    method UpdateKeyboardState(guess: seq<GuessLetter>)
      modifies this`keyboardState
      ensures keyboardState == KeyboardAfter(old(keyboardState), guess)
    {
      var newKeyboardState := keyboardState;
      var i := 0;
      while i < |guess|
        invariant 0 <= i <= |guess|
        invariant newKeyboardState == KeyboardAfter(keyboardState, guess[..i])
      {
        assert guess[..i + 1][..i] == guess[..i];
        var g := guess[i];
        if g.state == Correct ||
           (g.state == Present && (g.letter !in newKeyboardState || newKeyboardState[g.letter] != Correct)) ||
           (g.state == Absent && g.letter !in newKeyboardState) {
          newKeyboardState := newKeyboardState[g.letter := g.state];
        }
        i := i + 1;
      }
      assert guess[..i] == guess;
      keyboardState := newKeyboardState;
    }

    /** `submitGuess`, reached through ENTER while playing. A guess that is
        not five characters long changes nothing; one that is not five
        upper-case letters only shakes its row. Otherwise its marked row is
        recorded, the keyboard updated and the guess cleared; the word wins
        (7 - guesses) * 100 + 10 * level points, and a sixth miss loses. */
    method SubmitGuess()
      requires Valid() && gameState == Playing
      modifies this`guesses, this`keyboardState, this`gameState, this`score,
               this`currentGuess, this`shakeRow
      ensures Valid()
      ensures |old(currentGuess)| != 5 ==>
        guesses == old(guesses) && currentGuess == old(currentGuess) && gameState == Playing &&
        score == old(score) && keyboardState == old(keyboardState) && shakeRow == old(shakeRow)
      ensures |old(currentGuess)| == 5 && !IsWord(old(currentGuess)) ==>
        guesses == old(guesses) && currentGuess == old(currentGuess) && gameState == Playing &&
        score == old(score) && keyboardState == old(keyboardState) && shakeRow == |guesses|
      ensures IsWord(old(currentGuess)) ==>
        guesses == old(guesses) + [Classify(old(currentGuess), targetWord)] &&
        keyboardState == KeyboardAfter(old(keyboardState), guesses[|guesses| - 1]) &&
        currentGuess == "" && shakeRow == old(shakeRow) &&
        (old(currentGuess) == targetWord ==>
           gameState == Won && score == old(score) + (7 - |guesses|) * 100 + level * 10) &&
        (old(currentGuess) != targetWord ==>
           score == old(score) && (gameState == Lost <==> |guesses| == MaxGuesses))
    {
      if |currentGuess| != 5 {
        return;
      }
      if !IsWord(currentGuess) {
        shakeRow := |guesses|;
        return;
      }
      var newGuess := Classify(currentGuess, targetWord);
      var newGuesses := guesses + [newGuess];
      guesses := newGuesses;
      UpdateKeyboardState(newGuess);
      if currentGuess == targetWord {
        gameState := Won;
        var pointsEarned := (7 - |newGuesses|) * 100 + level * 10;
        score := score + pointsEarned;
      } else if |newGuesses| >= 6 {
        gameState := Lost;
      }
      assert Letters(newGuess) == currentGuess;
      currentGuess := "";
    }

    /** The deferred end of the shake animation. */
    method ClearShake()
      modifies this`shakeRow
      ensures shakeRow == -1
    {
      shakeRow := -1;
    }

    /** `handleKeyPress`. Ignored unless playing; ENTER submits, BACK
        removes the last character, and a one-character key is appended
        while the guess has fewer than five. */
    method HandleKeyPress(key: string)
      requires Valid()
      modifies this`guesses, this`keyboardState, this`gameState, this`score,
               this`currentGuess, this`shakeRow
      ensures Valid()
      ensures old(gameState) != Playing ==>
        guesses == old(guesses) && currentGuess == old(currentGuess) && score == old(score) &&
        gameState == old(gameState) && keyboardState == old(keyboardState) && shakeRow == old(shakeRow)
      ensures old(gameState) == Playing && key == "ENTER" && !IsWord(old(currentGuess)) ==>
        score == old(score) && keyboardState == old(keyboardState) &&
        shakeRow == (if |old(currentGuess)| == 5 then |guesses| else old(shakeRow))
      ensures old(gameState) == Playing && key != "ENTER" ==>
        score == old(score) && keyboardState == old(keyboardState) && shakeRow == old(shakeRow)
      ensures old(gameState) == Playing && key == "ENTER" ==>
        (IsWord(old(currentGuess)) ==>
           guesses == old(guesses) + [Classify(old(currentGuess), targetWord)] && currentGuess == "" &&
           keyboardState == KeyboardAfter(old(keyboardState), guesses[|guesses| - 1]) &&
           (old(currentGuess) == targetWord ==>
              gameState == Won && score == old(score) + (7 - |guesses|) * 100 + level * 10) &&
           (old(currentGuess) != targetWord ==>
              score == old(score) && (gameState == Lost <==> |guesses| == MaxGuesses))) &&
        (!IsWord(old(currentGuess)) ==>
           guesses == old(guesses) && currentGuess == old(currentGuess) && gameState == Playing)
      ensures old(gameState) == Playing && key == "BACK" ==>
        guesses == old(guesses) && gameState == Playing &&
        currentGuess == if old(currentGuess) == "" then "" else old(currentGuess)[..|old(currentGuess)| - 1]
      ensures old(gameState) == Playing && key != "ENTER" && key != "BACK" ==>
        guesses == old(guesses) && gameState == Playing &&
        currentGuess == if |key| == 1 && |old(currentGuess)| < 5 then old(currentGuess) + key
                        else old(currentGuess)
    {
      if gameState != Playing {
        return;
      }
      if key == "ENTER" {
        SubmitGuess();
      } else if key == "BACK" {
        if currentGuess != "" {
          currentGuess := currentGuess[..|currentGuess| - 1];
        }
      } else if |key| == 1 && |currentGuess| < 5 {
        currentGuess := currentGuess + key;
      }
    }

    /** `nextLevel`, followed by the game the level change starts. */
    method NextLevel()
      requires Valid()
      modifies this
      ensures Valid()
      ensures level == if old(level) < MaxLevel then old(level) + 1 else 1
      ensures score == if old(level) < MaxLevel then old(score) else 0
      ensures targetWord == TargetFor(level) && guesses == [] && gameState == Playing
      ensures currentGuess == "" && keyboardState == map[] && shakeRow == -1
    {
      if level < MaxLevel {
        level := level + 1;
      } else {
        level := 1;
        score := 0;
      }
      StartNewGame();
    }

    /** `resetGame`: level 1, score 0 and a new game. */
    method ResetGame()
      requires Valid()
      modifies this
      ensures Valid() && level == 1 && score == 0
      ensures targetWord == "ABOUT" && guesses == [] && gameState == Playing
      ensures currentGuess == "" && keyboardState == map[] && shakeRow == -1
    {
      level := 1;
      score := 0;
      StartNewGame();
    }
  }
}
