/** Simon Pattern: a pattern of cells (of a 3x3 board) is played back, then
    the player repeats it cell by cell. A wrong cell discards all progress
    and replays the pattern; repeating all of it completes the level. */
module SimonPattern {
  import opened Options

  const MaxLevel := 20
  /** The board has nine cells, numbered 0 to 8. */
  const Cells := 9

  /** How many cells the pattern has at a level. */
  function PatternLength(level: int): (n: int)
    requires level >= 1
    ensures 4 <= n
    ensures level <= MaxLevel ==> n <= 20
    ensures level >= 10 ==> n == level
    ensures level < 5 ==> n == level + 3
  {
    if level < 5 then 3 + level
    else if level < 10 then 7 + (level - 5) / 2
    else if level < 15 then 10 + level - 10
    else 15 + (level - 15)
  }

  /** Later levels never have shorter patterns. */
  lemma PatternLengthMonotone(a: int, b: int)
    requires 1 <= a <= b
    ensures PatternLength(a) <= PatternLength(b)
  {
  }

  /** The level that follows `level`: after the last one, play restarts at 1. */
  function NextLevelOf(level: int): (r: int)
    requires 1 <= level <= MaxLevel
    ensures 1 <= r <= MaxLevel
    ensures r == 1 <==> level == MaxLevel
  {
    if level < MaxLevel then level + 1 else 1
  }

  /** A fresh pattern for `level` from one random cell draw per position. */
  predicate ValidDraws(level: int, draws: seq<nat>)
    requires level >= 1
  {
    |draws| == PatternLength(level) && forall i :: 0 <= i < |draws| ==> draws[i] < Cells
  }

  class Game {
    var level: int
    var pattern: seq<nat>
    var userPattern: seq<nat>
    var showingPattern: bool
    /** The cell lit during playback (`patternHighlight`). */
    var highlight: Option<nat>
    /** How far the current playback has got (the interval's local `idx`). */
    var playIndex: nat
    var score: int
    var gameComplete: bool
    var mistake: bool

    ghost predicate Valid()
      reads this
    {
      Consistent() && playIndex <= |pattern|
    }

    /** Everything `Valid` asks except where playback stands. */
    ghost predicate Consistent()
      reads this
    {
      1 <= level <= MaxLevel &&
      |pattern| == PatternLength(level) &&
      (forall i :: 0 <= i < |pattern| ==> pattern[i] < Cells) &&
      userPattern <= pattern &&
      (|userPattern| == |pattern| ==> gameComplete) &&
      score >= 0
    }

    /** Mounting the component: level 1, score 0, and the first round. */
    constructor (draws: seq<nat>)
      requires ValidDraws(1, draws)
      ensures Valid()
      ensures level == 1 && score == 0 && !gameComplete
      ensures pattern == draws && userPattern == [] && showingPattern && !mistake
      ensures playIndex == 0 && highlight == None
    {
      level := 1;
      score := 0;
      gameComplete := false;
      pattern := draws;
      userPattern := [];
      mistake := false;
      showingPattern := true;
      highlight := None;
      playIndex := 0;
    }

    /** `initializePatternGame`: a new pattern for the current level, then playback. */
    method Initialize(draws: seq<nat>)
      requires Valid() && ValidDraws(level, draws)
      modifies this
      ensures Valid()
      ensures pattern == draws && userPattern == [] && !mistake
      ensures showingPattern && highlight == None && playIndex == 0
      ensures level == old(level) && score == old(score) && gameComplete == old(gameComplete)
    {
      pattern := draws;
      userPattern := [];
      mistake := false;
      ShowPattern();
    }

    /** `showPattern`: start playing the pattern back. */
    method ShowPattern()
      requires Consistent()
      modifies this
      ensures Valid()
      ensures showingPattern && highlight == None && playIndex == 0
      ensures level == old(level) && pattern == old(pattern) && userPattern == old(userPattern)
      ensures score == old(score) && gameComplete == old(gameComplete) && mistake == old(mistake)
    {
      showingPattern := true;
      highlight := None;
      playIndex := 0;
    }

    /** One 700 ms tick of the playback interval: light the next cell. */
    method PlaybackTick()
      requires Valid() && playIndex < |pattern|
      modifies this`highlight, this`playIndex
      ensures Valid()
      ensures highlight == Some(old(pattern[playIndex])) && playIndex == old(playIndex) + 1
    {
      highlight := Some(pattern[playIndex]);
      playIndex := playIndex + 1;
    }

    /** The deferred end of playback, scheduled after the last cell was lit. */
    method PlaybackEnd()
      requires Valid() && playIndex == |pattern|
      modifies this`highlight, this`showingPattern
      ensures Valid()
      ensures highlight == None && !showingPattern
    {
      highlight := None;
      showingPattern := false;
    }

    /** `handlePatternClick`. Clicks are ignored during playback and after
        completion; a cell other than the next one expected flags a mistake
        and keeps the progress until the deferred reset; the expected cell
        extends the progress and, if it was the last one, completes the
        level once, for ten points per level. */
    method HandlePatternClick(index: nat)
      requires Valid() && index < Cells
      modifies this`userPattern, this`mistake, this`score, this`gameComplete
      ensures Valid()
      ensures old(showingPattern || gameComplete) ==>
        userPattern == old(userPattern) && mistake == old(mistake) &&
        score == old(score) && gameComplete == old(gameComplete)
      ensures !old(showingPattern || gameComplete) && old(pattern[|userPattern|]) != index ==>
        mistake && userPattern == old(userPattern) && score == old(score) && !gameComplete
      ensures !old(showingPattern || gameComplete) && old(pattern[|userPattern|]) == index ==>
        userPattern == old(userPattern) + [index] && mistake == old(mistake) &&
        gameComplete == (userPattern == pattern) &&
        score == old(score) + (if gameComplete then 10 * level else 0)
    {
      if showingPattern || gameComplete {
        return;
      }
      var current := |userPattern|;
      if current >= |pattern| || pattern[current] != index {
        mistake := true;
        return;
      }
      userPattern := userPattern + [index];
      if |userPattern| == |pattern| {
        score := score + level * 10;
        gameComplete := true;
      }
    }

    /** The deferred body scheduled by a mistake: drop all progress and
        play the same pattern again. */
    method ResetAfterMistake()
      requires Valid()
      modifies this
      ensures Valid()
      ensures userPattern == [] && !mistake && showingPattern && playIndex == 0 && highlight == None
      ensures pattern == old(pattern) && level == old(level) && score == old(score)
      ensures gameComplete == old(gameComplete)
    {
      userPattern := [];
      mistake := false;
      ShowPattern();
    }

    /** `nextLevel`, followed by the round the level change starts. */
    method NextLevel(draws: seq<nat>)
      requires Valid() && ValidDraws(NextLevelOf(level), draws)
      modifies this
      ensures Valid()
      ensures level == NextLevelOf(old(level))
      ensures score == if old(level) < MaxLevel then old(score) else 0
      ensures !gameComplete && pattern == draws && userPattern == [] && showingPattern
      ensures !mistake && playIndex == 0 && highlight == None
    {
      if level < MaxLevel {
        level := level + 1;
      } else {
        level := 1;
        score := 0;
      }
      gameComplete := false;
      pattern := draws;
      userPattern := [];
      mistake := false;
      ShowPattern();
    }

    /** `resetGame`: back to level 1 with no score and a new round. */
    method ResetGame(draws: seq<nat>)
      requires Valid() && ValidDraws(1, draws)
      modifies this
      ensures Valid()
      ensures level == 1 && score == 0 && !gameComplete
      ensures pattern == draws && userPattern == [] && showingPattern
      ensures !mistake && playIndex == 0 && highlight == None
    {
      level := 1;
      score := 0;
      gameComplete := false;
      pattern := draws;
      userPattern := [];
      mistake := false;
      ShowPattern();
    }
  }

  /** A run of the game: after the first n-1 cells are repeated correctly,
      a wrong last cell and the deferred reset leave no progress and no
      points, and the full pattern is played back again. */
  method MistakeDiscardsProgress(g: Game, wrong: nat)
    requires g.Valid() && !g.showingPattern && !g.gameComplete && g.userPattern == []
    requires wrong < Cells && wrong != g.pattern[|g.pattern| - 1]
    modifies g
    ensures g.Valid() && g.userPattern == [] && g.showingPattern && g.playIndex == 0
    ensures g.score == old(g.score) && g.pattern == old(g.pattern)
  {
    var i := 0;
    while i < |g.pattern| - 1
      invariant g.Valid() && 0 <= i <= |g.pattern| - 1
      invariant g.userPattern == g.pattern[..i] && !g.showingPattern && !g.gameComplete
      invariant g.score == old(g.score) && g.pattern == old(g.pattern)
    {
      g.HandlePatternClick(g.pattern[i]);
      assert g.pattern[..i + 1] == g.pattern[..i] + [g.pattern[i]];
      i := i + 1;
    }
    g.HandlePatternClick(wrong);
    g.ResetAfterMistake();
  }
}
