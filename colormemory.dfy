/** Advanced Colour Memory: a sequence of colours is shown for a few
    seconds (memorize), then the player re-enters it from a shuffled
    palette before a countdown runs out (recall), and the round ends with
    success, failure or a timeout (result). Colours are modelled by their
    names, which is what the game compares. */
module ColorMemory {
  import opened Options
  import opened Selection

  const MaxLevel := 15

  /** The fifteen colours palettes are drawn from. */
  const AllColors: seq<string> := [
    "Red", "Blue", "Green", "Yellow", "Purple", "Pink", "Orange", "Teal",
    "Indigo", "Cyan", "Lime", "Violet", "Amber", "Emerald", "Sky"
  ]

  lemma AllColorsDistinct()
    ensures |AllColors| == 15 && Distinct(AllColors)
  {
  }

  datatype Config = Config(sequenceLength: int, colorPalette: int, visualizeTime: int, timeLimit: int)

  /** `getGameConfig`: longer sequences, larger palettes and more time as
      the level grows. */
  function GameConfig(level: int): (c: Config)
    requires level >= 1
    ensures 3 <= c.sequenceLength <= 9
    ensures 4 <= c.colorPalette <= |AllColors|
    ensures c.visualizeTime >= 5 && c.timeLimit >= 10
    ensures level == 1 ==> c == Config(3, 4, 6, 10)
  {
    var sequenceLength := if 3 + (level - 1) / 2 < 9 then 3 + (level - 1) / 2 else 9;
    var colorPalette := if 4 + level / 2 < |AllColors| then 4 + level / 2 else |AllColors|;
    var visualizeTime := if 3 + sequenceLength > 5 then 3 + sequenceLength else 5;
    var timeLimit := if 7 + sequenceLength > 10 then 7 + sequenceLength else 10;
    Config(sequenceLength, colorPalette, visualizeTime, timeLimit)
  }

  /** Neither the sequence nor the palette shrinks as the level grows. */
  lemma GameConfigMonotone(a: int, b: int)
    requires 1 <= a <= b
    ensures GameConfig(a).sequenceLength <= GameConfig(b).sequenceLength
    ensures GameConfig(a).colorPalette <= GameConfig(b).colorPalette
  {
  }

  /** The random draws of one round: the shuffle of all colours (`order`),
      one palette index per sequence position (`picks`) and the shuffle of
      the palette shown as choices (`choiceOrder`). */
  datatype Draws = Draws(order: seq<nat>, picks: seq<nat>, choiceOrder: seq<nat>)

  predicate ValidDraws(level: int, d: Draws)
    requires level >= 1
  {
    IsPermutation(d.order, |AllColors|) &&
    |d.picks| == GameConfig(level).sequenceLength &&
    InRange(d.picks, GameConfig(level).colorPalette) &&
    IsPermutation(d.choiceOrder, GameConfig(level).colorPalette)
  }

  datatype Round = Round(sequence: seq<string>, choices: seq<string>)

  /** The palette of a round: the first colours of the shuffled list. */
  function Palette(level: int, d: Draws): (palette: seq<string>)
    requires level >= 1 && ValidDraws(level, d)
    ensures |palette| == GameConfig(level).colorPalette && Distinct(palette)
    ensures forall c :: c in palette ==> c in AllColors
  {
    AllColorsDistinct();
    SelectDistinct(AllColors, d.order);
    Select(AllColors, d.order)[..GameConfig(level).colorPalette]
  }

  /** Shuffling a palette keeps its colours, each once. */
  lemma ShuffleKeepsColors(palette: seq<string>, order: seq<nat>)
    requires Distinct(palette) && IsPermutation(order, |palette|)
    ensures Distinct(Select(palette, order))
    ensures multiset(Select(palette, order)) == multiset(palette)
    ensures forall c :: c in palette ==> c in Select(palette, order)
  {
    PermutationKeepsElements(palette, order);
    SelectDistinct(palette, order);
    assert forall c :: c in palette ==> c in multiset(Select(palette, order));
  }

  /** `startNewRound`'s sequence and choices. */
  function NewRound(level: int, d: Draws): (r: Round)
    requires level >= 1 && ValidDraws(level, d)
    ensures |r.sequence| == GameConfig(level).sequenceLength
    ensures |r.choices| == GameConfig(level).colorPalette && Distinct(r.choices)
    ensures multiset(r.choices) == multiset(Palette(level, d))
    ensures forall c :: c in r.choices ==> c in AllColors
    ensures forall i :: 0 <= i < |r.sequence| ==> r.sequence[i] in r.choices
  {
    var palette := Palette(level, d);
    ShuffleKeepsColors(palette, d.choiceOrder);
    Round(Select(palette, d.picks), Select(palette, d.choiceOrder))
  }

  datatype Phase = Memorize | Recall | ShowingResult
  datatype Outcome = Success | Fail | Timeout

  class Game {
    var level: int
    var score: int
    var sequence: seq<string>
    var choices: seq<string>
    var userInput: seq<string>
    var gamePhase: Phase
    var visualizeTimer: int
    var recallTimer: int
    var result: Option<Outcome>

    ghost predicate Valid()
      reads this
    {
      1 <= level <= MaxLevel && score >= 0 &&
      |sequence| == GameConfig(level).sequenceLength &&
      |choices| == GameConfig(level).colorPalette && Distinct(choices) &&
      (forall c :: c in choices ==> c in AllColors) &&
      (forall i :: 0 <= i < |sequence| ==> sequence[i] in choices) &&
      |userInput| <= |sequence| &&
      (|userInput| == |sequence| ==> result.Some?) &&
      (result == Some(Success) ==> userInput == sequence) &&
      (result == Some(Fail) ==> |userInput| == |sequence| && userInput != sequence) &&
      visualizeTimer >= 0 && recallTimer >= 0
    }

    /** Whether the choice button of `color` is enabled: the colour is not
        picked yet, the input is not full and the phase is recall. */
    predicate Enabled(color: string)
      reads this
    {
      color !in userInput && |userInput| < |sequence| && gamePhase == Recall
    }

    /** Mounting: level 1, score 0 and the first round. */
    constructor (d: Draws)
      requires ValidDraws(1, d)
      ensures Valid() && level == 1 && score == 0
      ensures Round(sequence, choices) == NewRound(1, d)
      ensures userInput == [] && result == None && gamePhase == Memorize
      ensures visualizeTimer == GameConfig(1).visualizeTime && recallTimer == GameConfig(1).timeLimit
    {
      level := 1;
      score := 0;
      var r := NewRound(1, d);
      sequence, choices := r.sequence, r.choices;
      userInput := [];
      visualizeTimer := GameConfig(1).visualizeTime;
      recallTimer := GameConfig(1).timeLimit;
      result := None;
      gamePhase := Memorize;
    }

    /** `startNewRound`: a new sequence and palette, empty input, no
        result, the memorize phase and both timers at their full length. */
    method StartNewRound(d: Draws)
      requires 1 <= level <= MaxLevel && score >= 0 && ValidDraws(level, d)
      modifies this`sequence, this`choices, this`userInput, this`visualizeTimer,
               this`recallTimer, this`result, this`gamePhase
      ensures Valid()
      ensures Round(sequence, choices) == NewRound(level, d)
      ensures userInput == [] && result == None && gamePhase == Memorize
      ensures visualizeTimer == GameConfig(level).visualizeTime
      ensures recallTimer == GameConfig(level).timeLimit
    {
      var r := NewRound(level, d);
      sequence, choices := r.sequence, r.choices;
      userInput := [];
      visualizeTimer := GameConfig(level).visualizeTime;
      recallTimer := GameConfig(level).timeLimit;
      result := None;
      gamePhase := Memorize;
    }

    /** One second of the memorize countdown; it only runs in that phase
        and stops at zero. */
    method MemorizeTick()
      requires Valid()
      modifies this`visualizeTimer
      ensures Valid()
      ensures visualizeTimer ==
        if old(gamePhase) == Memorize && old(visualizeTimer) > 0 then old(visualizeTimer) - 1
        else old(visualizeTimer)
    {
      if gamePhase == Memorize && visualizeTimer != 0 {
        visualizeTimer := visualizeTimer - 1;
      }
    }

    /** The deferred switch to recall, scheduled when the memorize
        countdown reaches its last second. */
    method EnterRecall()
      requires Valid()
      modifies this`gamePhase
      ensures Valid() && gamePhase == Recall
    {
      gamePhase := Recall;
    }

    /** One second of the recall countdown; it only runs in that phase and
        stops at zero. */
    method RecallTick()
      requires Valid()
      modifies this`recallTimer
      ensures Valid()
      ensures recallTimer ==
        if old(gamePhase) == Recall && old(recallTimer) > 0 then old(recallTimer) - 1
        else old(recallTimer)
    {
      if gamePhase == Recall && recallTimer != 0 {
        recallTimer := recallTimer - 1;
      }
    }

    /** The deferred timeout, scheduled when the recall countdown reaches
        its last second. */
    method TimeOut()
      requires Valid()
      modifies this`result, this`gamePhase
      ensures Valid() && result == Some(Timeout) && gamePhase == ShowingResult
    {
      result := Some(Timeout);
      gamePhase := ShowingResult;
    }

    /** `handleColorPick`. Ignored outside recall and once the input is
        full; otherwise the colour is appended, and the pick that fills the
        input decides the round: success exactly when the input equals the
        sequence, for 50 points plus two per second left. A pick the
        interface enables keeps the input free of repeated colours. */
    method HandleColorPick(color: string)
      requires Valid()
      modifies this`userInput, this`result, this`score
      ensures Valid()
      ensures old(gamePhase != Recall || |userInput| >= |sequence|) ==>
        userInput == old(userInput) && result == old(result) && score == old(score)
      ensures old(gamePhase == Recall && |userInput| < |sequence|) ==>
        userInput == old(userInput) + [color] &&
        (|userInput| < |sequence| ==> result == old(result) && score == old(score)) &&
        (|userInput| == |sequence| ==>
           (result == Some(Success) <==> userInput == sequence) &&
           (result == Some(Fail) <==> userInput != sequence) &&
           score == old(score) + (if userInput == sequence then 50 + recallTimer * 2 else 0))
      ensures old(Enabled(color)) && Distinct(old(userInput)) ==> Distinct(userInput)
    {
      if gamePhase != Recall || |userInput| >= |sequence| {
        return;
      }
      var next := userInput + [color];
      if |next| == |sequence| {
        var correct := forall idx :: 0 <= idx < |next| ==> next[idx] == sequence[idx];
        assert correct <==> next == sequence;
        if correct {
          result := Some(Success);
          score := score + 50 + recallTimer * 2;
        } else {
          result := Some(Fail);
        }
      }
      userInput := next;
    }

    /** The deferred switch to the result phase after the last pick. */
    method ShowResult()
      requires Valid()
      modifies this`gamePhase
      ensures Valid() && gamePhase == ShowingResult
    {
      gamePhase := ShowingResult;
    }

    /** `nextLevel`, followed by the round the level change starts. */
    method NextLevel(d: Draws)
      requires Valid() && ValidDraws(if level < MaxLevel then level + 1 else 1, d)
      modifies this
      ensures Valid()
      ensures level == if old(level) < MaxLevel then old(level) + 1 else 1
      ensures score == if old(level) < MaxLevel then old(score) else 0
      ensures Round(sequence, choices) == NewRound(level, d)
      ensures userInput == [] && result == None && gamePhase == Memorize
      ensures visualizeTimer == GameConfig(level).visualizeTime && recallTimer == GameConfig(level).timeLimit
    {
      if level < MaxLevel {
        level := level + 1;
      } else {
        level := 1;
        score := 0;
      }
      StartNewRound(d);
    }

    /** `resetGame`: level 1, score 0 and a new round. */
    method ResetGame(d: Draws)
      requires Valid() && ValidDraws(1, d)
      modifies this
      ensures Valid() && level == 1 && score == 0
      ensures Round(sequence, choices) == NewRound(1, d)
      ensures userInput == [] && result == None && gamePhase == Memorize
      ensures visualizeTimer == GameConfig(1).visualizeTime && recallTimer == GameConfig(1).timeLimit
    {
      level := 1;
      score := 0;
      StartNewRound(d);
    }
  }

  /** A recall played only through enabled buttons, from an empty input,
      can never succeed on a sequence that repeats a colour: the interface
      disables a colour once it is picked, while the generator may repeat
      colours. */
  method EnabledPicksOnly(g: Game, picks: seq<string>)
    requires g.Valid() && g.userInput == [] && !Distinct(g.sequence)
    modifies g
    ensures g.Valid() && g.sequence == old(g.sequence) && g.result != Some(Success)
  {
    var i := 0;
    while i < |picks|
      invariant 0 <= i <= |picks|
      invariant g.Valid() && g.sequence == old(g.sequence) && Distinct(g.userInput)
      invariant g.result != Some(Success)
    {
      if g.Enabled(picks[i]) {
        g.HandleColorPick(picks[i]);
      }
      i := i + 1;
    }
  }
}
