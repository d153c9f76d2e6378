/** Alphabet Order Challenge: a round shows a pool of distinct letters and
    hides a smaller set of round letters among them; the player picks
    letters, and once as many picks as round letters are made the round
    succeeds exactly when the picks spell the round letters in
    alphabetical order. */
module AlphabetOrder {
  import opened Options
  import opened Selection

  const MaxLevel := 20

  /** The 26 upper-case letters A to Z, in order. */
  const Alphabet: seq<char> := "ABCDEFGHIJKLMNOPQRSTUVWXYZ"

  predicate IsUpper(c: char) { 'A' <= c <= 'Z' }

  /** How many round letters there are and how large the pool is. */
  datatype Config = Config(size: int, pool: int)

  function LevelConfig(level: int): (c: Config)
    requires level >= 1
    ensures 5 <= c.size <= 15 && c.size < c.pool <= |Alphabet|
    ensures level <= 7 ==> c.size == 4 + level && c.pool == 8 + level
    ensures level >= 18 ==> c == Config(15, 26)
  {
    var size := if 4 + level < 15 then 4 + level else 15;
    var pool := if 8 + level < 26 then 8 + level else 26;
    Config(size, pool)
  }

  /** Both counts grow with the level until they reach their caps. */
  lemma LevelConfigMonotone(a: int, b: int)
    requires 1 <= a <= b
    ensures LevelConfig(a).size <= LevelConfig(b).size
    ensures LevelConfig(a).pool <= LevelConfig(b).pool
  {
  }

  lemma AlphabetLetters()
    ensures Distinct(Alphabet)
    ensures forall i :: 0 <= i < |Alphabet| ==> IsUpper(Alphabet[i])
    ensures forall i, j :: 0 <= i < j < |Alphabet| ==> Alphabet[i] < Alphabet[j]
  {
    assert forall i :: 0 <= i < |Alphabet| ==> Alphabet[i] as int == 'A' as int + i;
  }

  /** Letters in non-decreasing order. */
  predicate Sorted(s: seq<char>) {
    forall i, j :: 0 <= i < j < |s| ==> s[i] <= s[j]
  }

  /** Letters in strictly increasing order. */
  predicate Increasing(s: seq<char>) {
    forall i, j :: 0 <= i < j < |s| ==> s[i] < s[j]
  }

  /** `c` inserted into `s` before the first letter not smaller than it. */
  function Insert(c: char, s: seq<char>): seq<char> {
    if s == [] || c <= s[0] then [c] + s else [s[0]] + Insert(c, s[1..])
  }

  /** Inserting into a sorted sequence keeps it sorted and adds just `c`. */
  lemma {:induction false} InsertSorted(c: char, s: seq<char>)
    requires Sorted(s)
    ensures Sorted(Insert(c, s)) && multiset(Insert(c, s)) == multiset(s) + multiset{c}
    ensures |Insert(c, s)| == |s| + 1
  {
    if s == [] || c <= s[0] {
      ConsSorted(c, s);
    } else {
      var t := Insert(c, s[1..]);
      InsertSorted(c, s[1..]);
      assert s == [s[0]] + s[1..];
      forall k | 0 <= k < |t| ensures s[0] <= t[k] {
        assert t[k] in multiset(t);
        if t[k] != c {
          assert t[k] in multiset(s[1..]);
          var m :| 0 <= m < |s[1..]| && s[1..][m] == t[k];
          assert s[1 + m] == t[k];
        }
      }
      ConsSorted(s[0], t);
      calc {
        multiset(Insert(c, s));
        multiset{s[0]} + multiset(t);
        multiset{s[0]} + multiset(s[1..]) + multiset{c};
        multiset(s) + multiset{c};
      }
    }
  }

  /** A letter no larger than any of a sorted sequence may lead it. */
  lemma ConsSorted(x: char, t: seq<char>)
    requires Sorted(t) && forall k :: 0 <= k < |t| ==> x <= t[k]
    ensures Sorted([x] + t)
  {
    var r := [x] + t;
    forall i, j | 0 <= i < j < |r| ensures r[i] <= r[j] {
      if i == 0 {
        assert r[j] == t[j - 1];
      } else {
        assert r[i] == t[i - 1] && r[j] == t[j - 1];
      }
    }
  }

  /** `[...letters].sort()`: the letters in alphabetical order. */
  function SortLetters(s: seq<char>): (r: seq<char>)
    ensures Sorted(r) && multiset(r) == multiset(s)
    ensures |r| == |s|
  {
    if s == [] then []
    else
      assert s == [s[0]] + s[1..];
      InsertSorted(s[0], SortLetters(s[1..]));
      Insert(s[0], SortLetters(s[1..]))
  }

  /** The first letter of a sorted sequence is its smallest. */
  lemma SortedHeadLeast(s: seq<char>, c: char)
    requires Sorted(s) && c in multiset(s)
    ensures s[0] <= c
  {
    var i :| 0 <= i < |s| && s[i] == c;
  }

  /** Two sorted arrangements of the same letters are the same sequence. */
  lemma {:induction false} SortedUnique(a: seq<char>, b: seq<char>)
    requires Sorted(a) && Sorted(b) && multiset(a) == multiset(b)
    ensures a == b
  {
    if a == [] {
      assert |b| == |multiset(b)| == 0;
    } else {
      assert |b| == |multiset(b)| == |a|;
      assert a[0] in multiset(a) && b[0] in multiset(b);
      SortedHeadLeast(a, b[0]);
      SortedHeadLeast(b, a[0]);
      assert a == [a[0]] + a[1..] && b == [b[0]] + b[1..];
      calc {
        multiset(a[1..]);
        multiset(a) - multiset{a[0]};
        multiset(b) - multiset{b[0]};
        multiset(b[1..]);
      }
      SortedUnique(a[1..], b[1..]);
    }
  }

  /** Distinct letters in sorted order are strictly increasing. */
  lemma SortedDistinctIncreasing(s: seq<char>)
    requires Sorted(s) && Distinct(s)
    ensures Increasing(s)
  {
  }

  /** The round is won exactly by picking the round letters, each once,
      from A towards Z: picks equal the sorted round letters if and only if
      they are strictly increasing and hold the same letters. */
  lemma {:induction false} SuccessIff(picks: seq<char>, letters: seq<char>)
    requires Distinct(letters)
    ensures picks == SortLetters(letters) <==>
            Increasing(picks) && multiset(picks) == multiset(letters)
  {
    var sorted := SortLetters(letters);
    if picks == sorted {
      assert multiset(sorted) == multiset(letters);
      forall i, j | 0 <= i < j < |sorted| ensures sorted[i] != sorted[j] {
        if sorted[i] == sorted[j] {
          DoubleCount(sorted, i, j);
          DistinctOnce(letters, sorted[i]);
          assert false;
        }
      }
      SortedDistinctIncreasing(sorted);
    }
    if Increasing(picks) && multiset(picks) == multiset(letters) {
      SortedUnique(picks, sorted);
    }
  }

  /** A letter found at two positions occurs at least twice. */
  lemma {:induction false} DoubleCount(s: seq<char>, i: nat, j: nat)
    requires i < j < |s| && s[i] == s[j]
    ensures multiset(s)[s[i]] >= 2
  {
    assert s == s[..i] + [s[i]] + s[i + 1..j] + [s[j]] + s[j + 1..];
  }

  /** The example round: letters D, B, A, C are won by the picks A, B, C, D. */
  lemma ExampleRound()
    ensures SortLetters("DBAC") == "ABCD"
  {
    assert Sorted("ABCD") && multiset("ABCD") == multiset("DBAC");
    SortedUnique(SortLetters("DBAC"), "ABCD");
  }

  /** A round: the pool (a shuffled prefix of the alphabet's letters) and
      the round letters (a shuffled prefix of the pool). `first` and `second`
      are the orders the two randomised sorts produced. */
  datatype Round = Round(pool: seq<char>, letters: seq<char>)

  predicate ValidShuffles(level: int, first: seq<nat>, second: seq<nat>)
    requires level >= 1
  {
    IsPermutation(first, |Alphabet|) && IsPermutation(second, LevelConfig(level).pool)
  }

  /** `initRound`'s choice of letters. */
  function NewRound(level: int, first: seq<nat>, second: seq<nat>): (r: Round)
    requires level >= 1 && ValidShuffles(level, first, second)
    ensures |r.pool| == LevelConfig(level).pool && |r.letters| == LevelConfig(level).size
    ensures Distinct(r.pool) && Distinct(r.letters)
    ensures forall c :: c in r.pool ==> IsUpper(c)
    ensures forall c :: c in r.letters ==> c in r.pool
  {
    AlphabetLetters();
    var config := LevelConfig(level);
    var shuffled := Select(Alphabet, first);
    SelectDistinct(Alphabet, first);
    var pool := shuffled[..config.pool];
    var reordered := Select(pool, second);
    SelectDistinct(pool, second);
    Round(pool, reordered[..config.size])
  }

  datatype Outcome = Success | Fail

  class Game {
    var level: int
    var score: int
    var letters: seq<char>
    var pool: seq<char>
    var selected: seq<char>
    var result: Option<Outcome>

    ghost predicate Valid()
      reads this
    {
      1 <= level <= MaxLevel &&
      |pool| == LevelConfig(level).pool && |letters| == LevelConfig(level).size &&
      Distinct(pool) && Distinct(letters) && (forall c :: c in letters ==> c in pool) &&
      Distinct(selected) &&
      |selected| <= |letters| &&
      (result.Some? <==> |selected| == |letters|) &&
      (result == Some(Success) <==> result.Some? && selected == SortLetters(letters)) &&
      score >= 0
    }

    /** Mounting: level 1, score 0 and the first round. */
    constructor (first: seq<nat>, second: seq<nat>)
      requires ValidShuffles(1, first, second)
      ensures Valid() && level == 1 && score == 0
      ensures Round(pool, letters) == NewRound(1, first, second)
      ensures selected == [] && result == None
    {
      level := 1;
      score := 0;
      var r := NewRound(1, first, second);
      pool, letters := r.pool, r.letters;
      selected, result := [], None;
    }

    /** `initRound`: new letters for the current level, nothing picked. */
    method InitRound(first: seq<nat>, second: seq<nat>)
      requires 1 <= level <= MaxLevel && score >= 0 && ValidShuffles(level, first, second)
      modifies this`pool, this`letters, this`selected, this`result
      ensures Valid()
      ensures Round(pool, letters) == NewRound(level, first, second)
      ensures selected == [] && result == None
    {
      var r := NewRound(level, first, second);
      pool, letters := r.pool, r.letters;
      selected, result := [], None;
    }

    /** `handleLetterPick`. Ignored once a result is shown or when the letter
        was already picked; otherwise the letter is appended, and the pick
        that makes as many picks as round letters decides the round:
        success, worth 100 + 5 * level, exactly when the picks are the round
        letters in alphabetical order. */
    method HandleLetterPick(letter: char)
      requires Valid()
      modifies this`selected, this`result, this`score
      ensures Valid()
      ensures old(result.Some?) || letter in old(selected) ==>
        selected == old(selected) && result == old(result) && score == old(score)
      ensures old(result.None?) && letter !in old(selected) ==>
        selected == old(selected) + [letter] &&
        (|selected| < |letters| ==> result == None && score == old(score)) &&
        (|selected| == |letters| && selected == SortLetters(letters) ==>
           result == Some(Success) && score == old(score) + 100 + 5 * level) &&
        (|selected| == |letters| && selected != SortLetters(letters) ==>
           result == Some(Fail) && score == old(score))
    {
      if result.Some? {
        return;
      }
      if letter in selected {
        return;
      }
      var next := selected + [letter];
      selected := next;
      if |next| == |letters| {
        var correctOrder := SortLetters(letters);
        if next == correctOrder {
          result := Some(Success);
          score := score + 100 + level * 5;
        } else {
          result := Some(Fail);
        }
      }
    }

    /** `nextLevel`, followed by the round the level change starts. */
    method NextLevel(first: seq<nat>, second: seq<nat>)
      requires Valid()
      requires ValidShuffles(if level < MaxLevel then level + 1 else 1, first, second)
      modifies this
      ensures Valid()
      ensures level == if old(level) < MaxLevel then old(level) + 1 else 1
      ensures score == if old(level) < MaxLevel then old(score) else 0
      ensures Round(pool, letters) == NewRound(level, first, second)
      ensures selected == [] && result == None
    {
      if level < MaxLevel {
        level := level + 1;
      } else {
        level := 1;
        score := 0;
      }
      result := None;
      InitRound(first, second);
    }

    /** `resetGame`: level 1, score 0 and a new round. */
    method ResetGame(first: seq<nat>, second: seq<nat>)
      requires Valid() && ValidShuffles(1, first, second)
      modifies this
      ensures Valid() && level == 1 && score == 0
      ensures Round(pool, letters) == NewRound(1, first, second)
      ensures selected == [] && result == None
    {
      level := 1;
      score := 0;
      InitRound(first, second);
    }
  }
}
