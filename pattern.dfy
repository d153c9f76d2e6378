/** Pattern Recognition: a sequence of four terms and a "?" is shown, and
    the player picks its continuation among three choices. Levels 1-5 use
    arithmetic sequences, 6-10 geometric ones, 11-15 repeating shapes and
    16-20 letters stepping through the alphabet. */
module PatternRecognition {
  import opened Options
  import opened Selection

  const MaxLevel := 20

  /** A term or a choice: the game mixes numbers and strings. */
  datatype Item = Num(n: int) | Sym(s: string)

  datatype Pattern = Pattern(prompt: string, sequence: seq<Item>, choices: seq<Item>, answer: Item)

  /** Four shown terms followed by "?", and three distinct choices of
      which one is the answer. */
  predicate WellFormed(p: Pattern) {
    |p.sequence| == 5 && p.sequence[4] == Sym("?") &&
    |p.choices| == 3 && Distinct(p.choices) && p.answer in p.choices
  }

  datatype Kind = Arithmetic | Geometric | Shapes | Letters

  /** Which generator a level uses: `min((level - 1) div 5, 3)`. */
  function KindOf(level: int): (k: Kind)
    requires level >= 1
    ensures k == Arithmetic <==> level <= 5
    ensures k == Geometric <==> 6 <= level <= 10
    ensures k == Shapes <==> 11 <= level <= 15
    ensures k == Letters <==> level >= 16
  {
    var t := (level - 1) / 5;
    var index := if t < 3 then t else 3;
    if index == 0 then Arithmetic
    else if index == 1 then Geometric
    else if index == 2 then Shapes
    else Letters
  }

  /** The random draws of one generator call: two integers (start and
      step or ratio; for shapes `first` is the number of repeats) and the
      order the randomised sort gives the three choices. */
  datatype Draws = Draws(first: int, second: int, order: seq<nat>)

  predicate ValidDraws(k: Kind, d: Draws) {
    IsPermutation(d.order, 3) &&
    match k
    case Arithmetic => 1 <= d.first <= 10 && 1 <= d.second <= 5
    case Geometric => 2 <= d.first <= 6 && 2 <= d.second <= 4
    case Shapes => 2 <= d.first <= 3
    case Letters => 0 <= d.first <= 19 && 1 <= d.second <= 3
  }

  /** `xs.slice(0, n)`. */
  function Take(xs: seq<Item>, n: nat): (r: seq<Item>)
    ensures |r| == if |xs| < n then |xs| else n
    ensures r <= xs
  {
    if |xs| < n then xs else xs[..n]
  }

  /** `[answer, ...wrong].sort(() => Math.random() - 0.5)`. */
  function Shuffled(answer: Item, wrong: seq<Item>, order: seq<nat>): (r: seq<Item>)
    requires |wrong| == 2 && answer !in wrong && wrong[0] != wrong[1]
    requires IsPermutation(order, 3)
    ensures |r| == 3 && Distinct(r) && answer in r
    ensures multiset(r) == multiset([answer] + wrong)
  {
    var all := [answer] + wrong;
    PermutationKeepsElements(all, order);
    SelectDistinct(all, order);
    var r := Select(all, order);
    assert answer in multiset(r);
    r
  }

  // ---- Arithmetic sequences (levels 1-5) ----

  /** Consecutive terms are all numbers differing by `step`. */
  predicate IsArithmetic(xs: seq<Item>, step: int) {
    (forall i :: 0 <= i < |xs| ==> xs[i].Num?) &&
    forall i :: 0 <= i < |xs| - 1 ==> xs[i + 1].n == xs[i].n + step
  }

  function ArithmeticPattern(start: int, step: int, order: seq<nat>): (p: Pattern)
    requires step >= 1 && IsPermutation(order, 3)
    ensures WellFormed(p)
    ensures IsArithmetic(p.sequence[..4] + [p.answer], step)
    ensures p.sequence[0] == Num(start) && p.answer == Num(start + 4 * step)
  {
    var answer := start + 4 * step;
    var wrong := Without([Num(answer + step), Num(answer - step), Num(answer + 2 * step)], Num(answer));
    Pattern("What comes next in the arithmetic sequence?",
            [Num(start), Num(start + step), Num(start + 2 * step), Num(start + 3 * step), Sym("?")],
            Shuffled(Num(answer), Take(wrong, 2), order),
            Num(answer))
  }

  // ---- Geometric sequences (levels 6-10) ----

  /** Consecutive terms are all numbers, each `ratio` times the one before. */
  predicate IsGeometric(xs: seq<Item>, ratio: int) {
    (forall i :: 0 <= i < |xs| ==> xs[i].Num?) &&
    forall i :: 0 <= i < |xs| - 1 ==> xs[i + 1].n == xs[i].n * ratio
  }

  lemma {:induction false} MulAtLeast(a: int, r: int)
    requires a >= 1 && r >= 1
    ensures a * r >= r
  {
    if a > 1 {
      MulAtLeast(a - 1, r);
      assert a * r == (a - 1) * r + r;
    }
  }

  lemma Distrib(a: int, b: int, r: int)
    ensures (a - b) * r == a * r - b * r
  {
  }

  /** Dividing a multiple of `r` by `r` is exact. */
  lemma DivExact(x: int, r: int)
    requires r >= 1
    ensures (x * r) / r == x
  {
    var q, m := (x * r) / r, (x * r) % r;
    assert q * r + m == x * r && 0 <= m < r;
    Distrib(q, x, r);
    Distrib(x, q, r);
    if q > x {
      MulAtLeast(q - x, r);
    } else if q < x {
      MulAtLeast(x - q, r);
    }
  }

  /** A positive number times a ratio of at least 2 grows, and dividing
      back by the ratio recovers it. */
  lemma MulGrows(x: int, r: int)
    requires x > 0 && r >= 2
    ensures x * r > x && (x * r) / r == x
  {
    MulAtLeast(x, r - 1);
    Distrib(r, 1, x);
    assert (r - 1) * x == x * (r - 1);
    DivExact(x, r);
  }

  function GeometricPattern(start: int, ratio: int, order: seq<nat>): (p: Pattern)
    requires start >= 1 && ratio >= 2 && IsPermutation(order, 3)
    ensures WellFormed(p)
    ensures IsGeometric(p.sequence[..4] + [p.answer], ratio)
    ensures p.sequence[0] == Num(start) && p.answer == Num(start * ratio * ratio * ratio * ratio)
  {
    var cube := start * ratio * ratio * ratio;
    var answer := start * ratio * ratio * ratio * ratio;
    MulGrows(start, ratio);
    MulGrows(start * ratio, ratio);
    MulGrows(start * ratio * ratio, ratio);
    MulGrows(cube, ratio);
    MulGrows(answer, ratio);
    var wrong := [Num(answer * ratio), Num(answer / ratio), Num(answer + start)];
    Pattern("What comes next in the geometric sequence?",
            [Num(start), Num(start * ratio), Num(start * ratio * ratio), Num(cube), Sym("?")],
            Shuffled(Num(answer), Take(wrong, 2), order),
            Num(answer))
  }

  // ---- Repeating shapes (levels 11-15) ----

  const ShapeItems: seq<Item> := [Sym("▲"), Sym("■"), Sym("●"), Sym("◆"), Sym("★")]

  /** How many shapes the repeated block has: `min(3 + level div 5, 4)`. */
  function BlockLength(level: int): (n: nat)
    requires level >= 1
    ensures 3 <= n <= 4 && (level >= 5 ==> n == 4)
  {
    if 3 + level / 5 < 4 then 3 + level / 5 else 4
  }

  /** `n` copies of `block`, one after the other. */
  function Repeat(block: seq<Item>, n: nat): (r: seq<Item>)
    ensures |r| == n * |block|
  {
    if n == 0 then [] else Repeat(block, n - 1) + block
  }

  /** Every term equals the one `period` places later. */
  predicate Periodic(xs: seq<Item>, period: nat) {
    forall i :: 0 <= i < |xs| - period ==> xs[i] == xs[i + period]
  }

  /** Repeated blocks are periodic with the block's length, and the block's
      first element continues them. */
  lemma {:induction false} RepeatContinues(block: seq<Item>, n: nat)
    requires |block| > 0 && n > 0
    ensures Periodic(Repeat(block, n) + [block[0]], |block|)
  {
    var L := |block|;
    var q := Repeat(block, n - 1);
    var xs := q + block + [block[0]];
    assert Repeat(block, n) + [block[0]] == xs;
    if n > 1 {
      RepeatContinues(block, n - 1);
      var p := Repeat(block, n - 2);
      assert q == p + block;
      forall i | 0 <= i < |xs| - L ensures xs[i] == xs[i + L] {
        if i + L < |q| {
          assert xs[i] == (q + [block[0]])[i] == (q + [block[0]])[i + L] == xs[i + L];
        } else if i < |q| {
          assert xs[i] == block[i - |p|] == xs[i + L];
        }
      }
    }
  }

  /** The answer of the shape generator is the block's first shape: the
      repeated sequence's length is a multiple of the block's. */
  lemma ShapeAnswer(level: int, repeats: nat)
    requires level >= 1
    ensures |Repeat(ShapeItems[..BlockLength(level)], repeats)| % BlockLength(level) == 0
  {
    var full := Repeat(ShapeItems[..BlockLength(level)], repeats);
    if BlockLength(level) == 3 {
      assert |full| == repeats * 3;
    } else {
      assert |full| == repeats * 4;
    }
  }

  /** Leaving out the first shape keeps the other four, in order. */
  lemma OtherShapes()
    ensures Without(ShapeItems, Sym("▲")) == ShapeItems[1..]
  {
    assert Sym("▲") !in ShapeItems[1..];
    assert ShapeItems == [Sym("▲")] + ShapeItems[1..];
  }

  /** The shape generator's answer is the block's first shape, and it
      continues the last four shapes shown with the block's period. */
  lemma ShapeContinues(level: int, repeats: nat)
    requires level >= 1 && repeats >= 2
    ensures var block := ShapeItems[..BlockLength(level)];
            var full := Repeat(block, repeats);
            |full| >= 6 && block[|full| % |block|] == Sym("▲") &&
            Periodic(full[|full| - 4..] + [Sym("▲")], |block|)
  {
    var block := ShapeItems[..BlockLength(level)];
    var full := Repeat(block, repeats);
    ShapeAnswer(level, repeats);
    RepeatContinues(block, repeats);
    var xs := full + [block[0]];
    var ys := full[|full| - 4..] + [Sym("▲")];
    assert ys == xs[|full| - 4..];
    forall i | 0 <= i < |ys| - |block| ensures ys[i] == ys[i + |block|] {
      assert ys[i] == xs[|full| - 4 + i] && ys[i + |block|] == xs[|full| - 4 + i + |block|];
    }
  }

  /** The shape pattern made from the repeated block `full`. */
  function ShapePatternFrom(level: int, repeats: nat, full: seq<Item>, order: seq<nat>): (p: Pattern)
    requires level >= 1 && repeats >= 2 && IsPermutation(order, 3)
    requires full == Repeat(ShapeItems[..BlockLength(level)], repeats)
    ensures WellFormed(p)
    ensures p.answer == Sym("▲")
    ensures Periodic(p.sequence[..4] + [p.answer], BlockLength(level))
  {
    var block := ShapeItems[..BlockLength(level)];
    ShapeContinues(level, repeats);
    var next := block[|full| % |block|];
    var tail := full[|full| - 4..];
    assert (tail + [Sym("?")])[..4] == tail;
    OtherShapes();
    var wrong := Take(Without(ShapeItems, next), 2);
    Pattern("What shape comes next in the pattern?",
            tail + [Sym("?")],
            Shuffled(next, wrong, order),
            next)
  }

  /** The repetition loop of the shape generator. */
  method RepeatShapes(block: seq<Item>, repeats: nat) returns (full: seq<Item>)
    ensures full == Repeat(block, repeats)
  {
    full := [];
    var i := 0;
    while i < repeats
      invariant 0 <= i <= repeats && full == Repeat(block, i)
    {
      full := full + block;
      i := i + 1;
    }
  }

  // ---- Letters (levels 16-20) ----

  /** `letters[k % 26]` of the upper-case alphabet, as a one-letter string. */
  function LetterItem(k: int): (r: Item)
    requires k >= 0
    ensures r.Sym? && |r.s| == 1 && 'A' <= r.s[0] <= 'Z'
  {
    Sym([(65 + k % 26) as char])
  }

  /** The letter `step` places after a one-letter term, wrapping from Z to A. */
  function Shift(x: Item, step: nat): Item
    requires x.Sym? && |x.s| == 1 && 'A' <= x.s[0] <= 'Z'
  {
    LetterItem(x.s[0] as int - 65 + step)
  }

  /** All terms are upper-case letters, each `step` letters after the last. */
  predicate Steps(xs: seq<Item>, step: nat) {
    (forall i :: 0 <= i < |xs| ==> xs[i].Sym? && |xs[i].s| == 1 && 'A' <= xs[i].s[0] <= 'Z') &&
    forall i :: 0 <= i < |xs| - 1 ==> xs[i + 1] == Shift(xs[i], step)
  }

  /** The four letters the loop of the letter generator pushes. */
  function LetterRun(start: nat, step: nat): (r: seq<Item>)
  {
    seq(4, i requires 0 <= i < 4 => LetterItem(start + i * step))
  }

  method BuildLetterRun(start: nat, step: nat) returns (run: seq<Item>)
    ensures run == LetterRun(start, step)
  {
    run := [];
    var i := 0;
    while i < 4
      invariant 0 <= i <= 4 && run == LetterRun(start, step)[..i]
    {
      run := run + [LetterItem(start + i * step)];
      i := i + 1;
    }
  }

  /** Shifting the letter at position `k` by `step` gives the letter at `k + step`. */
  lemma ShiftLetter(k: nat, step: nat)
    ensures Shift(LetterItem(k), step) == LetterItem(k + step)
  {
    assert LetterItem(k).s[0] as int - 65 == k % 26;
  }

  /** The letter generator's run and its answer step through the alphabet. */
  lemma LetterSteps(start: nat, step: nat)
    ensures Steps(LetterRun(start, step) + [LetterItem(start + 4 * step)], step)
  {
    var xs := LetterRun(start, step) + [LetterItem(start + 4 * step)];
    assert xs == [LetterItem(start), LetterItem(start + step), LetterItem(start + 2 * step),
                  LetterItem(start + 3 * step), LetterItem(start + 4 * step)];
    ShiftLetter(start, step);
    ShiftLetter(start + step, step);
    ShiftLetter(start + 2 * step, step);
    ShiftLetter(start + 3 * step, step);
  }

  /** Letters at positions that differ modulo 26 differ. */
  lemma LetterItemsDiffer(a: nat, b: nat)
    requires a % 26 != b % 26
    ensures LetterItem(a) != LetterItem(b)
  {
    assert LetterItem(a).s[0] != LetterItem(b).s[0];
  }

  function LetterPatternFrom(start: nat, step: nat, run: seq<Item>, order: seq<nat>): (p: Pattern)
    requires start <= 19 && 1 <= step <= 3 && IsPermutation(order, 3)
    requires run == LetterRun(start, step)
    ensures WellFormed(p)
    ensures Steps(p.sequence[..4] + [p.answer], step)
    ensures forall c :: c in p.choices ==> c.Sym? && |c.s| == 1 && 'A' <= c.s[0] <= 'Z'
  {
    var answer := LetterItem(start + 4 * step);
    LetterItemsDiffer(start + 5 * step, start + 4 * step);
    LetterItemsDiffer(start + 3 * step, start + 4 * step);
    LetterItemsDiffer(start + 5 * step, start + 3 * step);
    var wrong := Without([LetterItem(start + 5 * step), LetterItem(start + 3 * step)], answer);
    LetterSteps(start, step);
    assert (run + [Sym("?")])[..4] == run;
    var choices := Shuffled(answer, Take(wrong, 2), order);
    assert forall c :: c in choices ==> c in [answer] + Take(wrong, 2) by {
      forall c | c in choices ensures c in [answer] + Take(wrong, 2) {
        assert c in multiset(choices);
      }
    }
    Pattern("What letter comes next in the alphabetical pattern?",
            run + [Sym("?")],
            choices,
            answer)
  }

  // ---- Generator selection ----

  /** `generatePattern(level)` with the random draws `d`. */
  function Generate(level: int, d: Draws): (p: Pattern)
    requires level >= 1 && ValidDraws(KindOf(level), d)
    ensures WellFormed(p)
    ensures KindOf(level) == Arithmetic ==> IsArithmetic(p.sequence[..4] + [p.answer], d.second)
    ensures KindOf(level) == Geometric ==> IsGeometric(p.sequence[..4] + [p.answer], d.second)
    ensures KindOf(level) == Shapes ==>
      p.answer == Sym("▲") && Periodic(p.sequence[..4] + [p.answer], 4)
    ensures KindOf(level) == Letters ==> Steps(p.sequence[..4] + [p.answer], d.second)
  {
    match KindOf(level)
    case Arithmetic => ArithmeticPattern(d.first, d.second, d.order)
    case Geometric => GeometricPattern(d.first, d.second, d.order)
    case Shapes =>
      ShapePatternFrom(level, d.first, Repeat(ShapeItems[..BlockLength(level)], d.first), d.order)
    case Letters =>
      LetterPatternFrom(d.first, d.second, LetterRun(d.first, d.second), d.order)
  }

  /** `generatePattern` as the component runs it, loops included. */
  method GeneratePattern(level: int, d: Draws) returns (p: Pattern)
    requires level >= 1 && ValidDraws(KindOf(level), d)
    ensures p == Generate(level, d)
  {
    match KindOf(level)
    case Arithmetic =>
      p := ArithmeticPattern(d.first, d.second, d.order);
    case Geometric =>
      p := GeometricPattern(d.first, d.second, d.order);
    case Shapes =>
      var full := RepeatShapes(ShapeItems[..BlockLength(level)], d.first);
      p := ShapePatternFrom(level, d.first, full, d.order);
    case Letters =>
      var run := BuildLetterRun(d.first, d.second);
      p := LetterPatternFrom(d.first, d.second, run, d.order);
  }

  class Game {
    var level: int
    var currentPattern: Pattern
    var selected: Option<Item>
    var showResult: bool
    var score: int
    var gameComplete: bool

    ghost predicate Valid()
      reads this
    {
      1 <= level <= MaxLevel && WellFormed(currentPattern) && score >= 0 &&
      (showResult <==> selected.Some?) &&
      (gameComplete <==> showResult && selected.value == currentPattern.answer)
    }

    /** Mounting: level 1, score 0 and the first pattern. */
    constructor (d: Draws)
      requires ValidDraws(KindOf(1), d)
      ensures Valid() && level == 1 && score == 0
      ensures currentPattern == Generate(1, d) && !showResult
    {
      level := 1;
      score := 0;
      currentPattern := Generate(1, d);
      selected := None;
      showResult := false;
      gameComplete := false;
    }

    /** `initializeLevel`: a new pattern for the level, no selection. */
    method InitializeLevel(d: Draws)
      requires 1 <= level <= MaxLevel && score >= 0 && ValidDraws(KindOf(level), d)
      modifies this`currentPattern, this`selected, this`showResult, this`gameComplete
      ensures Valid()
      ensures currentPattern == Generate(level, d)
      ensures selected == None && !showResult && !gameComplete
    {
      var p := GeneratePattern(level, d);
      assert WellFormed(p);
      currentPattern := p;
      selected := None;
      showResult := false;
      gameComplete := false;
    }

    /** `handleSelect`: one selection per pattern; only the answer
        completes the level, for ten points per level. */
    method HandleSelect(choice: Item)
      requires Valid()
      modifies this`selected, this`showResult, this`score, this`gameComplete
      ensures Valid()
      ensures old(showResult) ==>
        selected == old(selected) && score == old(score) && gameComplete == old(gameComplete)
      ensures !old(showResult) ==>
        selected == Some(choice) && showResult &&
        (gameComplete <==> choice == currentPattern.answer) &&
        score == old(score) + (if gameComplete then 10 * level else 0)
    {
      if showResult {
        return;
      }
      selected := Some(choice);
      showResult := true;
      if choice == currentPattern.answer {
        score := score + level * 10;
        gameComplete := true;
      }
    }

    /** `nextLevel`, followed by the pattern the level change generates. */
    method NextLevel(d: Draws)
      requires Valid() && ValidDraws(KindOf(if level < MaxLevel then level + 1 else 1), d)
      modifies this
      ensures Valid()
      ensures level == if old(level) < MaxLevel then old(level) + 1 else 1
      ensures score == if old(level) < MaxLevel then old(score) else 0
      ensures currentPattern == Generate(level, d) && !showResult
    {
      if level < MaxLevel {
        level := level + 1;
      } else {
        level := 1;
        score := 0;
      }
      InitializeLevel(d);
    }

    /** `resetGame`: level 1, score 0 and a new pattern. */
    method ResetGame(d: Draws)
      requires Valid() && ValidDraws(KindOf(1), d)
      modifies this
      ensures Valid() && level == 1 && score == 0
      ensures currentPattern == Generate(1, d) && !showResult
    {
      level := 1;
      score := 0;
      InitializeLevel(d);
    }
  }
}
