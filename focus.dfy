/** Focus Challenge: a grid of colour names with one target colour; the
    player must click the target before a countdown runs out. Colours are
    modelled by their names, which is what the game compares. */
module FocusChallenge {
  import opened Options
  import opened Selection

  const MaxLevel := 20

  /** The sixteen colours the options are drawn from. */
  const AllColors: seq<string> := [
    "Red", "Blue", "Green", "Yellow", "Purple", "Pink", "Orange", "Teal",
    "Indigo", "Cyan", "Lime", "Rose", "Violet", "Amber", "Emerald", "Sky"
  ]

  lemma AllColorsDistinct()
    ensures |AllColors| == 16 && Distinct(AllColors)
  {
  }

  /** How many colours are offered and how many seconds the player has. */
  datatype Config = Config(optionCount: int, timeLimit: int)

  function GameConfig(level: int): (c: Config)
    requires level >= 1
    ensures 4 <= c.optionCount <= |AllColors|
    ensures 3 <= c.timeLimit <= 10
    ensures level == 1 ==> c == Config(4, 10)
  {
    var optionCount := if 4 + (level - 1) / 2 < 16 then 4 + (level - 1) / 2 else 16;
    var timeLimit := if 10 - (level - 1) / 3 > 3 then 10 - (level - 1) / 3 else 3;
    Config(optionCount, timeLimit)
  }

  /** More options and less time as the level grows. */
  lemma GameConfigMonotone(a: int, b: int)
    requires 1 <= a <= b
    ensures GameConfig(a).optionCount <= GameConfig(b).optionCount
    ensures GameConfig(a).timeLimit >= GameConfig(b).timeLimit
  {
  }

  /** `max(0, score - amount)`: a deduction that never leaves a negative score. */
  function Deduct(score: int, amount: nat): (r: int)
    requires score >= 0
    ensures r >= 0 && r <= score
    ensures score >= amount ==> r + amount == score
    ensures score < amount ==> r == 0
  {
    if score - amount > 0 then score - amount else 0
  }

  /** The points of a correct pick: twenty per level plus a time bonus of
      five per second left, at least ten. */
  function Reward(level: int, timeLeft: int): (r: int)
    requires level >= 1 && timeLeft >= 0
    ensures r >= 20 * level + 10
    ensures timeLeft >= 2 ==> r == 20 * level + 5 * timeLeft
  {
    level * 20 + (if timeLeft * 5 > 10 then timeLeft * 5 else 10)
  }

  /** The randomised sort of the colours gave the order `order`; `pick`
      is the random index of the target among the options. */
  predicate ValidDraws(level: int, order: seq<nat>, pick: nat)
    requires level >= 1
  {
    IsPermutation(order, |AllColors|) && pick < GameConfig(level).optionCount
  }

  datatype Round = Round(options: seq<string>, target: string)

  /** `initializeGame`'s choice of options and target. */
  function NewRound(level: int, order: seq<nat>, pick: nat): (r: Round)
    requires level >= 1 && ValidDraws(level, order, pick)
    ensures |r.options| == GameConfig(level).optionCount
    ensures Distinct(r.options)
    ensures forall c :: c in r.options ==> c in AllColors
    ensures r.target in r.options
  {
    AllColorsDistinct();
    SelectDistinct(AllColors, order);
    var options := Select(AllColors, order)[..GameConfig(level).optionCount];
    Round(options, options[pick])
  }

  class Game {
    var level: int
    var targetColor: Option<string>
    var options: seq<string>
    var score: int
    var gameComplete: bool
    var timeLeft: int
    var gameActive: bool
    var selectedOption: Option<string>

    ghost predicate Valid()
      reads this
    {
      1 <= level <= MaxLevel &&
      |options| == GameConfig(level).optionCount && Distinct(options) &&
      targetColor.Some? && targetColor.value in options &&
      0 <= timeLeft <= GameConfig(level).timeLimit &&
      (gameComplete ==> !gameActive) &&
      score >= 0
    }

    /** Mounting: level 1, score 0 and the first round. */
    constructor (order: seq<nat>, pick: nat)
      requires ValidDraws(1, order, pick)
      ensures Valid() && level == 1 && score == 0
      ensures Round(options, targetColor.value) == NewRound(1, order, pick)
      ensures gameActive && !gameComplete && timeLeft == GameConfig(1).timeLimit
      ensures selectedOption == None
    {
      level := 1;
      score := 0;
      var r := NewRound(1, order, pick);
      options, targetColor := r.options, Some(r.target);
      timeLeft := GameConfig(1).timeLimit;
      gameActive, gameComplete := true, false;
      selectedOption := None;
    }

    /** `initializeGame`: new options and target, full time, round active. */
    method InitializeGame(order: seq<nat>, pick: nat)
      requires 1 <= level <= MaxLevel && score >= 0 && ValidDraws(level, order, pick)
      modifies this`options, this`targetColor, this`timeLeft, this`gameActive,
               this`gameComplete, this`selectedOption
      ensures Valid()
      ensures Round(options, targetColor.value) == NewRound(level, order, pick)
      ensures timeLeft == GameConfig(level).timeLimit && gameActive && !gameComplete
      ensures selectedOption == None
    {
      var r := NewRound(level, order, pick);
      options, targetColor := r.options, Some(r.target);
      timeLeft := GameConfig(level).timeLimit;
      gameActive := true;
      gameComplete := false;
      selectedOption := None;
    }

    /** `handleColorClick`. Ignored unless the round is active and not
        complete; otherwise the round ends, and the target colour completes
        the level for `Reward` points while any other colour costs ten. */
    method HandleColorClick(option: string)
      requires Valid()
      modifies this`selectedOption, this`gameActive, this`score, this`gameComplete
      ensures Valid()
      ensures !old(gameActive) || old(gameComplete) ==>
        selectedOption == old(selectedOption) && gameActive == old(gameActive) &&
        score == old(score) && gameComplete == old(gameComplete)
      ensures old(gameActive) && !old(gameComplete) ==>
        selectedOption == Some(option) && !gameActive &&
        (option == targetColor.value ==> gameComplete && score == old(score) + Reward(level, timeLeft)) &&
        (option != targetColor.value ==> !gameComplete && score == Deduct(old(score), 10))
    {
      if !gameActive || gameComplete {
        return;
      }
      selectedOption := Some(option);
      gameActive := false;
      if option == targetColor.value {
        var timeBonus := if timeLeft * 5 > 10 then timeLeft * 5 else 10;
        score := score + level * 20 + timeBonus;
        gameComplete := true;
      } else {
        score := if score - 10 > 0 then score - 10 else 0;
      }
    }

    /** What the countdown effect does next: while the round is active, a
        second passes; when it is active with no time left, the round ends
        and twenty points are lost, never going below zero. */
    method TimerStep()
      requires Valid()
      modifies this`timeLeft, this`gameActive, this`score
      ensures Valid()
      ensures old(gameActive) && old(timeLeft) > 0 ==>
        timeLeft == old(timeLeft) - 1 && gameActive && score == old(score)
      ensures old(gameActive) && old(timeLeft) == 0 ==>
        timeLeft == 0 && !gameActive && score == Deduct(old(score), 20)
      ensures !old(gameActive) ==>
        timeLeft == old(timeLeft) && !gameActive && score == old(score)
    {
      if gameActive && timeLeft > 0 {
        timeLeft := timeLeft - 1;
      } else if gameActive && timeLeft == 0 {
        gameActive := false;
        score := if score - 20 > 0 then score - 20 else 0;
      }
    }

    /** `nextLevel`, followed by the round the level change starts. */
    method NextLevel(order: seq<nat>, pick: nat)
      requires Valid() && ValidDraws(if level < MaxLevel then level + 1 else 1, order, pick)
      modifies this
      ensures Valid()
      ensures level == if old(level) < MaxLevel then old(level) + 1 else 1
      ensures score == if old(level) < MaxLevel then old(score) else 0
      ensures Round(options, targetColor.value) == NewRound(level, order, pick)
      ensures gameActive && !gameComplete && timeLeft == GameConfig(level).timeLimit
      ensures selectedOption == None
    {
      if level < MaxLevel {
        level := level + 1;
      } else {
        level := 1;
        score := 0;
      }
      InitializeGame(order, pick);
    }

    /** `resetGame`: level 1, score 0 and a new round. */
    method ResetGame(order: seq<nat>, pick: nat)
      requires Valid() && ValidDraws(1, order, pick)
      modifies this
      ensures Valid() && level == 1 && score == 0
      ensures Round(options, targetColor.value) == NewRound(1, order, pick)
      ensures gameActive && !gameComplete && timeLeft == GameConfig(1).timeLimit
      ensures selectedOption == None
    {
      level := 1;
      score := 0;
      InitializeGame(order, pick);
    }
  }
}
