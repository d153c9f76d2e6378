/** Word Maker: each of fifty levels offers a handful of letter tiles, three
    required words (each with a clue) and some bonus words. The player
    spells words by clicking tiles, earns score and coins for new words,
    and spends coins on reshuffling the tiles and hints on clues. */
module WordMaker {
  import opened Options
  import opened Selection

  const MaxLevel := 50

  /** A word the level requires and the clue a hint shows for it; the
      crossword placement of the word is layout and not modelled. */
  datatype Required = Required(word: string, clue: string)

  datatype LevelData = LevelData(letters: string, requiredWords: seq<Required>, bonusWords: seq<string>)

  /** The fifty levels, level 1 first, written in rows of ten. */
  function LevelTable(): seq<LevelData> { Levels0() + Levels1() + Levels2() + Levels3() + Levels4() }
  function Levels0(): seq<LevelData> { [
    LevelData("CATRES",
      [Required("CAT", "Feline pet"), Required("ART", "Creative work"), Required("CAR", "Vehicle")],
      ["RATE", "TEAR", "CARE", "RACE", "SCARE"]),
    LevelData("HOUSEMT",
      [Required("HOUSE", "Place to live"), Required("MOUSE", "Small rodent"), Required("HOME", "Where heart is")],
      ["SOME", "THEM", "MOST", "HOST", "SHOT"]),
    LevelData("WATERSN",
      [Required("WATER", "H2O liquid"), Required("STAR", "Celestial body"), Required("WEST", "Direction")],
      ["SWEAT", "WASTE", "STARE", "TEARS", "WEARS"]),
    LevelData("FIRESTN",
      [Required("FIRE", "Flame"), Required("FIRST", "Number one"), Required("REST", "Relax")],
      ["STERN", "FERNS", "RENTS", "NESTS", "TIRES"]),
    LevelData("GREENST",
      [Required("GREEN", "Color of grass"), Required("STERN", "Strict"), Required("NEST", "Bird home")],
      ["TEENS", "GENRE", "ENTER", "TREES", "GREET"]),
    LevelData("BLUESKY",
      [Required("BLUE", "Ocean color"), Required("SKY", "Above clouds"), Required("KEY", "Opens locks")],
      ["YELL", "BULK", "SULK", "YULE", "BYES"]),
    LevelData("MONEYTI",
      [Required("MONEY", "Currency"), Required("TIME", "Clock shows this"), Required("TOY", "Plaything")],
      ["ENEMY", "ITEM", "EMIT", "MINE", "TONE"]),
    LevelData("SPACERT",
      [Required("SPACE", "Outer void"), Required("TRACE", "Follow path"), Required("CARE", "Show concern")],
      ["SPARE", "CREST", "REACT", "CATER", "ACRES"]),
    LevelData("LIGHTSN",
      [Required("LIGHT", "Illumination"), Required("NIGHT", "Dark time"), Required("SIGHT", "Vision")],
      ["HINTS", "SLING", "THING", "SLING", "SLING"]),
    LevelData("DREAMST",
      [Required("DREAM", "Sleep vision"), Required("STEAM", "Hot vapor"), Required("TEAM", "Group working together")],
      ["SMART", "TERMS", "DARTS", "MATED", "READS"])
  ] }
  function Levels1(): seq<LevelData> { [
    LevelData("FLOWERS",
      [Required("FLOWER", "Garden bloom"), Required("LOWER", "Reduce height"), Required("SLOW", "Not fast")],
      ["FLOWS", "OWLER", "FOWLS", "ROWEL", "SWORE"]),
    LevelData("BRIGHTS",
      [Required("BRIGHT", "Very light"), Required("RIGHT", "Correct"), Required("SIGHT", "Vision")],
      ["SHIRT", "GRIST", "BIRTH", "GRITS", "THROB"]),
    LevelData("CLOUDSY",
      [Required("CLOUDY", "Overcast sky"), Required("COULD", "Past tense of can"), Required("LOUD", "High volume")],
      ["SCOLD", "DOLUS", "YODEL", "CLODS", "COYPU"]),
    LevelData("STRONGE",
      [Required("STRONG", "Powerful"), Required("STONE", "Rock"), Required("STORE", "Shop")],
      ["TONGS", "GORSE", "ERGOT", "NEGRO", "OGRES"]),
    LevelData("PLANETS",
      [Required("PLANET", "Celestial body"), Required("PLANT", "Growing organism"), Required("PLANE", "Aircraft")],
      ["PANEL", "STEAL", "TALES", "LEAST", "SLATE"]),
    LevelData("WINTERS",
      [Required("WINTER", "Cold season"), Required("WRITE", "Put words on paper"), Required("STERN", "Ship back")],
      ["TWINS", "WRIST", "SWINE", "INERT", "REINS"]),
    LevelData("GARDENS",
      [Required("GARDEN", "Plant growing area"), Required("DANGER", "Risk"), Required("GRAND", "Magnificent")],
      ["GRADES", "RANGES", "ANGERS", "SANDER", "SNARED"]),
    LevelData("OCEANST",
      [Required("OCEAN", "Large body of water"), Required("COAST", "Shore line"), Required("STONE", "Rock")],
      ["CANOE", "SCANT", "NOTES", "ONSET", "CANES"]),
    LevelData("MAGICST",
      [Required("MAGIC", "Supernatural power"), Required("MASTIC", "Tree resin"), Required("CAST", "Throw")],
      ["MIST", "CATS", "ACTS", "SCAT", "MACS"]),
    LevelData("FRIENDS",
      [Required("FRIEND", "Close companion"), Required("FINDER", "One who locates"), Required("FRIES", "Potato strips")],
      ["FIRES", "RIDES", "DINER", "REINS", "SNIDE"])
  ] }
  function Levels2(): seq<LevelData> { [
    LevelData("THUNDER",
      [Required("THUNDER", "Storm sound"), Required("UNDER", "Below"), Required("HUNT", "Search for")],
      ["TURNED", "HURDEN", "NURTURE", "HUNTED", "ENDURE"]),
    LevelData("RAINBOW",
      [Required("RAINBOW", "Colorful arc"), Required("BROWN", "Earth color"), Required("RAIN", "Water drops")],
      ["BRAWL", "BRAWN", "ARROW", "ROWAN", "BARON"]),
    LevelData("SUNSHIN",
      [Required("SUNSHINE", "Bright daylight"), Required("SHINE", "Emit light"), Required("HUNS", "Ancient warriors")],
      ["SHINS", "NUNS", "SUNS", "INNS", "HISS"]),
    LevelData("MOUNTAI",
      [Required("MOUNTAIN", "High peak"), Required("AMOUNT", "Quantity"), Required("MOUNT", "Climb up")],
      ["NATION", "MOTION", "MANIA", "AMINO", "TUNA"]),
    LevelData("CHANGES",
      [Required("CHANGES", "Alterations"), Required("CHANGE", "Modify"), Required("CAGE", "Animal enclosure")],
      ["CHASE", "SAGE", "AGES", "GENES", "SCENE"]),
    LevelData("BEAUTIF",
      [Required("BEAUTIFUL", "Very attractive"), Required("BEAT", "Rhythm"), Required("FIT", "In good shape")],
      ["FABLE", "TABLE", "FETAL", "BLEAT", "FLUTE"]),
    LevelData("ADVENTU",
      [Required("ADVENTURE", "Exciting journey"), Required("ADVENT", "Arrival"), Required("TUNE", "Melody")],
      ["VENUE", "NUDE", "DUNE", "VEND", "TEND"]),
    LevelData("PERFECT",
      [Required("PERFECT", "Flawless"), Required("EFFECT", "Result"), Required("PET", "Domestic animal")],
      ["CREEP", "ERECT", "TREE", "FEET", "REEF"]),
    LevelData("WONDERF",
      [Required("WONDERFUL", "Amazing"), Required("WONDER", "Think about"), Required("FORD", "River crossing")],
      ["FROWN", "DROWN", "OWNER", "LOWER", "FLOWER"]),
    LevelData("HAPPINE",
      [Required("HAPPINESS", "Joy"), Required("HAPPEN", "Occur"), Required("PINE", "Evergreen tree")],
      ["NAPE", "HEAP", "PANE", "PAIN", "NINE"])
  ] }
  function Levels3(): seq<LevelData> { [
    LevelData("IMPORTA",
      [Required("IMPORTANT", "Significant"), Required("IMPORT", "Bring in goods"), Required("PORT", "Harbor")],
      ["RATIO", "PATIO", "APORT", "TRAMP", "PRIMO"]),
    LevelData("EDUCATI",
      [Required("EDUCATION", "Learning process"), Required("EDUCATE", "Teach"), Required("CUTE", "Adorable")],
      ["CADET", "ACUTE", "CITED", "ACTED", "DUCAT"]),
    LevelData("CREATIV",
      [Required("CREATIVE", "Imaginative"), Required("CREATE", "Make something"), Required("CARE", "Show concern")],
      ["ACTIVE", "REACT", "TRACE", "CRAVE", "CARVE"]),
    LevelData("DIFFERN",
      [Required("DIFFERENT", "Not the same"), Required("DIFFER", "Be unlike"), Required("FIRE", "Flame")],
      ["FRIEND", "FINDER", "REFINED", "FENDER", "RENDER"]),
    LevelData("POSSIBL",
      [Required("POSSIBLE", "Can be done"), Required("BOSS", "Manager"), Required("SLIP", "Slide")],
      ["BLISS", "SPILL", "BILLS", "PILLS", "SPOOL"]),
    LevelData("MEMORYS",
      [Required("MEMORY", "Recollection"), Required("MORE", "Additional"), Required("SOME", "A few")],
      ["MORSE", "ROSY", "YORE", "RYES", "SORE"]),
    LevelData("SUCCESS",
      [Required("SUCCESS", "Achievement"), Required("EXCESS", "Too much"), Required("CUE", "Signal")],
      ["CUES", "SUES", "USES", "SEES", "CESS"]),
    LevelData("CHALLEN",
      [Required("CHALLENGE", "Difficult task"), Required("CHANCE", "Opportunity"), Required("LANE", "Narrow road")],
      ["LANCE", "CLEAN", "ANGEL", "GLEAN", "CANOE"]),
    LevelData("AMAZING",
      [Required("AMAZING", "Incredible"), Required("MAGIC", "Supernatural"), Required("GAIN", "Acquire")],
      ["MANGA", "AGING", "ZING", "MAIN", "MAGI"]),
    LevelData("FANTAST",
      [Required("FANTASTIC", "Wonderful"), Required("FAST", "Quick"), Required("ANTS", "Insects")],
      ["FANS", "TANS", "SAFT", "FATS", "STAT"])
  ] }
  function Levels4(): seq<LevelData> { [
    LevelData("EXCELLE",
      [Required("EXCELLENT", "Outstanding"), Required("EXCEL", "Be superior"), Required("CELL", "Basic unit")],
      ["LENT", "TELL", "WELL", "FELL", "HELL"]),
    LevelData("INCREDI",
      [Required("INCREDIBLE", "Unbelievable"), Required("CREDIT", "Recognition"), Required("DICE", "Gaming cubes")],
      ["CRIED", "BRIDE", "RIDER", "CIDER", "RICED"]),
    LevelData("MAGNIFI",
      [Required("MAGNIFICENT", "Splendid"), Required("MAGIC", "Supernatural"), Required("GAIN", "Obtain")],
      ["FANG", "MAIN", "MAGI", "FAIN", "GAMIN"]),
    LevelData("SPECTAC",
      [Required("SPECTACULAR", "Impressive show"), Required("ASPECT", "Feature"), Required("PACE", "Speed")],
      ["SPACE", "PLACE", "TRACE", "CASTE", "PASTE"]),
    LevelData("EXTRAOR",
      [Required("EXTRAORDINARY", "Remarkable"), Required("EXTRA", "Additional"), Required("RATE", "Speed")],
      ["ROAR", "RARE", "TEAR", "REAR", "AREA"]),
    LevelData("UNBELIE",
      [Required("UNBELIEVABLE", "Hard to believe"), Required("BELIEVE", "Have faith"), Required("BLUE", "Sky color")],
      ["BIBLE", "NOBLE", "BILE", "VEIL", "LIVE"]),
    LevelData("PHENOME",
      [Required("PHENOMENAL", "Exceptional"), Required("PHONE", "Communication device"), Required("HOME", "Residence")],
      ["POEM", "HOPE", "MOPE", "HEMP", "NOME"]),
    LevelData("OUTSTAN",
      [Required("OUTSTANDING", "Excellent"), Required("STAND", "Be upright"), Required("NUTS", "Tree seeds")],
      ["STOUT", "SNOUT", "TAUNT", "DAUNT", "GAUNT"]),
    LevelData("REMARKA",
      [Required("REMARKABLE", "Notable"), Required("REMARK", "Comment"), Required("MARK", "Sign")],
      ["MAKER", "BRAKE", "RAKE", "MARE", "RARE"]),
    LevelData("MASTERP",
      [Required("MASTERPIECE", "Greatest work"), Required("MASTER", "Expert"), Required("STEAM", "Water vapor")],
      ["STREAM", "TAMPER", "TEMPER", "REPEAT", "CARPET"])
  ] }

  /** The required words of a level, in table order. */
  function RequiredList(d: LevelData): (ws: seq<string>)
    ensures |ws| == |d.requiredWords|
    ensures forall i :: 0 <= i < |ws| ==> ws[i] == d.requiredWords[i].word
  {
    seq(|d.requiredWords|, i requires 0 <= i < |d.requiredWords| => d.requiredWords[i].word)
  }

  /** Three different required words. */
  predicate WellShaped(d: LevelData) {
    |d.requiredWords| == 3 && Distinct(RequiredList(d))
  }

  predicate AllWellShaped(levels: seq<LevelData>) {
    forall i :: 0 <= i < |levels| ==> WellShaped(levels[i])
  }

  lemma RowsWellShaped()
    ensures AllWellShaped(Levels0()) && AllWellShaped(Levels1()) && AllWellShaped(Levels2())
    ensures AllWellShaped(Levels3()) && AllWellShaped(Levels4())
  {
    Row0WellShaped();
    Row1WellShaped();
    Row2WellShaped();
    Row3WellShaped();
    Row4WellShaped();
  }

  lemma Row0WellShaped() ensures AllWellShaped(Levels0()) {}
  lemma Row1WellShaped() ensures AllWellShaped(Levels1()) {}
  lemma Row2WellShaped() ensures AllWellShaped(Levels2()) {}
  lemma Row3WellShaped() ensures AllWellShaped(Levels3()) {}
  lemma Row4WellShaped() ensures AllWellShaped(Levels4()) {}

  lemma ConcatWellShaped(a: seq<LevelData>, b: seq<LevelData>)
    requires AllWellShaped(a) && AllWellShaped(b)
    ensures AllWellShaped(a + b)
  {
    forall i | 0 <= i < |a + b| ensures WellShaped((a + b)[i]) {
      if i >= |a| {
        assert (a + b)[i] == b[i - |a|];
      }
    }
  }

  /** Fifty levels, each requiring three different words. */
  lemma LevelTableShape()
    ensures |LevelTable()| == MaxLevel && AllWellShaped(LevelTable())
  {
    RowsWellShaped();
    ConcatWellShaped(Levels0(), Levels1());
    ConcatWellShaped(Levels0() + Levels1(), Levels2());
    ConcatWellShaped(Levels0() + Levels1() + Levels2(), Levels3());
    ConcatWellShaped(Levels0() + Levels1() + Levels2() + Levels3(), Levels4());
  }

  /** `LEVEL_DATA[Math.min(level - 1, LEVEL_DATA.length - 1)]`: a level
      within the table gets its own entry and every level past the last
      reuses the last one. */
  function LevelFor(levels: seq<LevelData>, level: int): (d: LevelData)
    requires |levels| == MaxLevel && level >= 1
    ensures level <= MaxLevel ==> d == levels[level - 1]
    ensures level > MaxLevel ==> d == levels[MaxLevel - 1]
  {
    levels[if level - 1 < |levels| - 1 then level - 1 else |levels| - 1]
  }

  /** A word can be spelled from tiles when it uses no letter more often
      than the tiles hold it. */
  predicate Spellable(w: string, letters: string) {
    multiset(w) <= multiset(letters)
  }

  // ---- Shuffling the tiles ----

  /** One Fisher-Yates pass over `n` tiles draws, for each position `j`
      from the last down to 1, a partner `ks[j]` in 0..j (`ks[0]` is 0). */
  predicate ValidPass(ks: seq<nat>, n: nat) {
    |ks| == n && forall j :: 0 <= j < n ==> ks[j] <= j
  }

  /** The draws of all passes. */
  predicate ValidPasses(draws: seq<seq<nat>>, n: nat) {
    forall i :: 0 <= i < |draws| ==> ValidPass(draws[i], n)
  }

  /** `[letters[j], letters[k]] = [letters[k], letters[j]]`. */
  function Swap(s: string, j: nat, k: nat): (r: string)
    requires j < |s| && k < |s|
    ensures |r| == |s|
  {
    s[j := s[k]][k := s[j]]
  }

  /** The rest of a pass, at positions `j` down to 1. */
  function PassDown(s: string, ks: seq<nat>, j: nat): (r: string)
    requires j < |s| && ValidPass(ks, |s|)
    ensures |r| == |s|
    decreases j
  {
    if j == 0 then s else PassDown(Swap(s, j, ks[j]), ks, j - 1)
  }

  /** One whole pass. */
  function Pass(s: string, ks: seq<nat>): (r: string)
    requires ValidPass(ks, |s|)
    ensures |r| == |s|
  {
    if |s| == 0 then s else PassDown(s, ks, |s| - 1)
  }

  /** The `shuffledLetters` memo: the level's letters after one pass per
      shuffle bought so far. */
  function Shuffled(s: string, draws: seq<seq<nat>>): (r: string)
    requires ValidPasses(draws, |s|)
    ensures |r| == |s|
  {
    if draws == [] then s else Pass(Shuffled(s, draws[..|draws| - 1]), draws[|draws| - 1])
  }

  /** A swap exchanges two tiles and keeps the rest. */
  lemma SwapKeepsLetters(s: string, j: nat, k: nat)
    requires j < |s| && k < |s|
    ensures multiset(Swap(s, j, k)) == multiset(s)
  {
    var t := s[j := s[k]];
    assert multiset(t) == multiset(s) - multiset{s[j]} + multiset{s[k]};
  }

  /** However many passes, the tiles are the level's letters: the same
      letters, each as often. */
  lemma {:induction false} ShuffledKeepsLetters(s: string, draws: seq<seq<nat>>)
    requires ValidPasses(draws, |s|)
    ensures multiset(Shuffled(s, draws)) == multiset(s)
  {
    if draws != [] {
      var prev := Shuffled(s, draws[..|draws| - 1]);
      ShuffledKeepsLetters(s, draws[..|draws| - 1]);
      if |prev| > 0 {
        PassDownKeepsLetters(prev, draws[|draws| - 1], |prev| - 1);
      }
    }
  }

  lemma {:induction false} PassDownKeepsLetters(s: string, ks: seq<nat>, j: nat)
    requires j < |s| && ValidPass(ks, |s|)
    ensures multiset(PassDown(s, ks, j)) == multiset(s)
    decreases j
  {
    if j > 0 {
      SwapKeepsLetters(s, j, ks[j]);
      PassDownKeepsLetters(Swap(s, j, ks[j]), ks, j - 1);
    }
  }

  /** The memo's computation: a copy of the letters shuffled in place,
      one pass per shuffle bought. */
  method ShuffleLetters(base: string, draws: seq<seq<nat>>) returns (letters: array<char>)
    requires ValidPasses(draws, |base|)
    ensures letters[..] == Shuffled(base, draws)
  {
    letters := new char[|base|](i requires 0 <= i < |base| => base[i]);
    var i := 0;
    while i < |draws|
      invariant 0 <= i <= |draws|
      invariant letters.Length == |base|
      invariant letters[..] == Shuffled(base, draws[..i])
    {
      assert draws[..i + 1][..i] == draws[..i];
      ShufflePass(letters, draws[i]);
      i := i + 1;
    }
    assert draws[..i] == draws;
  }

  /** The inner loop: swap each position from the last down to 1 with the
      drawn partner. */
  method ShufflePass(letters: array<char>, ks: seq<nat>)
    requires ValidPass(ks, letters.Length)
    modifies letters
    ensures letters[..] == Pass(old(letters[..]), ks)
  {
    var j := letters.Length - 1;
    while j > 0
      invariant (letters.Length == 0 && j == -1) || 0 <= j < letters.Length
      invariant letters.Length > 0 ==> PassDown(letters[..], ks, j) == Pass(old(letters[..]), ks)
      invariant letters.Length == 0 ==> letters[..] == old(letters[..])
    {
      ghost var prev := letters[..];
      var k := ks[j];
      letters[j], letters[k] := letters[k], letters[j];
      assert letters[..] == Swap(prev, j, k);
      j := j - 1;
    }
  }

  // ---- Counting words ----

  lemma {:induction false} DistinctCard<T>(s: seq<T>)
    requires Distinct(s)
    ensures |set x | x in s| == |s|
  {
    if s != [] {
      DistinctCard(s[1..]);
      assert (set x | x in s) == {s[0]} + (set x | x in s[1..]);
      assert s[0] !in s[1..];
    }
  }

  /** A duplicate-free list drawn from another is no longer, and when it is
      as long it holds all of it. */
  lemma DistinctWithin<T>(a: seq<T>, b: seq<T>)
    requires Distinct(a) && Distinct(b) && forall x :: x in a ==> x in b
    ensures |a| <= |b|
    ensures |a| == |b| ==> forall x :: x in b ==> x in a
  {
    var sa, sb := set x | x in a, set x | x in b;
    DistinctCard(a);
    DistinctCard(b);
    assert sb == sa + (sb - sa);
    assert |sb| == |sa| + |sb - sa|;
    if |a| == |b| {
      assert sb - sa == {};
      forall x | x in b ensures x in a {
        assert x in sb;
      }
    }
  }

  /** `requiredWords.filter(w => !foundWords.includes(w.word))`. The first
      entry, if any, is the first required word in table order not yet
      found. */
  function Unfound(reqs: seq<Required>, found: seq<string>): (r: seq<Required>)
    ensures r == [] <==> forall j :: 0 <= j < |reqs| ==> reqs[j].word in found
    ensures r != [] ==> exists i :: 0 <= i < |reqs| && r[0] == reqs[i] && reqs[i].word !in found &&
                                   forall j :: 0 <= j < i ==> reqs[j].word in found
  {
    if reqs == [] then []
    else if reqs[0].word !in found then [reqs[0]] + Unfound(reqs[1..], found)
    else
      var rest := Unfound(reqs[1..], found);
      assert rest != [] ==> exists i :: 1 <= i < |reqs| && rest[0] == reqs[i] && reqs[i].word !in found &&
                                      forall j :: 0 <= j < i ==> reqs[j].word in found by {
        if rest != [] {
          var i :| 0 <= i < |reqs| - 1 && rest[0] == reqs[1..][i] && reqs[1..][i].word !in found &&
                   forall j :: 0 <= j < i ==> reqs[1..][j].word in found;
          assert forall j :: 1 <= j < i + 1 ==> reqs[j] == reqs[1..][j - 1];
        }
      }
      rest
  }

  /** A list of found words: no repeats, each from the level's list and
      spelled from its tiles. */
  predicate Recorded(words: seq<string>, pool: seq<string>, letters: string) {
    Distinct(words) && forall w :: w in words ==> w in pool && Spellable(w, letters)
  }

  /** Recording a new word from the list that the tiles spell keeps the
      list well formed. */
  lemma RecordedAppend(words: seq<string>, pool: seq<string>, letters: string, w: string)
    requires Recorded(words, pool, letters) && w !in words && w in pool && Spellable(w, letters)
    ensures Recorded(words + [w], pool, letters)
  {
    var r := words + [w];
    forall i, j | 0 <= i < j < |r| ensures r[i] != r[j] {
      if j == |words| {
        assert r[i] in words;
      }
    }
  }

  class Game {
    var level: int
    var currentWord: string
    var foundWords: seq<string>
    var bonusWords: seq<string>
    var selectedLetters: seq<nat>
    var coins: int
    var hints: int
    var score: int
    var shuffleCount: nat
    /** The memoised shuffle of the current level's letters. */
    var shuffledLetters: string
    /** `LEVEL_DATA`, fixed when the component is mounted. */
    const levels: seq<LevelData>

    /** The level can be looked up in the table. */
    predicate Mounted()
      reads this
    {
      |levels| == MaxLevel && level >= 1
    }

    /** `currentLevelData`, looked up afresh from the level on every render. */
    function CurrentData(): LevelData
      reads this
      requires Mounted()
    {
      LevelFor(levels, level)
    }

    /** The letters of the current level. */
    function Letters(): string
      reads this
      requires Mounted()
    {
      CurrentData().letters
    }

    ghost predicate Valid()
      reads this
    {
      Mounted() && AllWellShaped(levels) && level <= MaxLevel &&
      coins >= 0 && hints >= 0 && score >= 0 &&
      multiset(shuffledLetters) == multiset(Letters()) &&
      InRange(selectedLetters, |shuffledLetters|) && Distinct(selectedLetters) &&
      |currentWord| == |selectedLetters| && Spellable(currentWord, Letters()) &&
      Recorded(foundWords, RequiredList(CurrentData()), Letters()) &&
      Recorded(bonusWords, CurrentData().bonusWords, Letters())
    }

    /** `isLevelComplete`: as many words found as the level requires. */
    predicate IsLevelComplete()
      reads this
      requires Mounted()
    {
      |foundWords| == |CurrentData().requiredWords|
    }

    /** Mounting with a table of fifty well-shaped levels: level 1 with
        100 coins, 3 hints, no score and the tiles in table order. */
    constructor (table: seq<LevelData>)
      requires |table| == MaxLevel && AllWellShaped(table)
      ensures levels == table && Valid() && level == 1 && coins == 100 && hints == 3 && score == 0
      ensures currentWord == "" && foundWords == [] && bonusWords == [] && selectedLetters == []
      ensures shuffleCount == 0 && shuffledLetters == table[0].letters
    {
      levels := table;
      level := 1;
      coins := 100;
      hints := 3;
      shuffleCount := 0;
      new;
      LevelChanged([]);
    }

    /** `handleLetterClick`: a selected tile is deselected and any other is
        added at the end; the current word is then the selected tiles'
        letters in selection order. */
    method HandleLetterClick(index: nat)
      requires Valid() && index < |shuffledLetters|
      modifies this`selectedLetters, this`currentWord
      ensures Valid()
      ensures index in selectedLetters <==> index !in old(selectedLetters)
      ensures forall i :: i != index ==> (i in selectedLetters <==> i in old(selectedLetters))
      ensures index !in old(selectedLetters) ==> selectedLetters == old(selectedLetters) + [index]
      ensures index in old(selectedLetters) ==> selectedLetters == Without(old(selectedLetters), index)
      ensures currentWord == Select(shuffledLetters, selectedLetters)
    {
      var newSelected;
      if index in selectedLetters {
        newSelected := Without(selectedLetters, index);
        WithoutDistinct(selectedLetters, index);
        WithoutInRange(selectedLetters, index, |shuffledLetters|);
      } else {
        newSelected := selectedLetters + [index];
      }
      selectedLetters := newSelected;
      currentWord := Select(shuffledLetters, newSelected);
      SelectWithin(shuffledLetters, newSelected);
    }

    /** `submitWord`. Fewer than three letters changes nothing at all.
        Otherwise a required word not yet found is recorded for 10 points a
        letter and 5 coins; failing that, a bonus word not yet found is
        recorded for 15 points a letter and 10 coins; anything else earns
        nothing. Either way the word and the selection are cleared. */
    method SubmitWord()
      requires Valid()
      modifies this`foundWords, this`bonusWords, this`score, this`coins,
               this`currentWord, this`selectedLetters
      ensures Valid()
      ensures |old(currentWord)| < 3 ==>
        foundWords == old(foundWords) && bonusWords == old(bonusWords) && score == old(score) &&
        coins == old(coins) && currentWord == old(currentWord) && selectedLetters == old(selectedLetters)
      ensures |old(currentWord)| >= 3 ==> currentWord == "" && selectedLetters == []
      ensures |old(currentWord)| >= 3 && NewRequired(old(currentWord), old(foundWords)) ==>
        foundWords == old(foundWords) + [old(currentWord)] && bonusWords == old(bonusWords) &&
        score == old(score) + 10 * |old(currentWord)| && coins == old(coins) + 5
      ensures |old(currentWord)| >= 3 && !NewRequired(old(currentWord), old(foundWords)) &&
              NewBonus(old(currentWord), old(bonusWords)) ==>
        bonusWords == old(bonusWords) + [old(currentWord)] && foundWords == old(foundWords) &&
        score == old(score) + 15 * |old(currentWord)| && coins == old(coins) + 10
      ensures !NewRequired(old(currentWord), old(foundWords)) && !NewBonus(old(currentWord), old(bonusWords)) ==>
        foundWords == old(foundWords) && bonusWords == old(bonusWords) &&
        score == old(score) && coins == old(coins)
    {
      if |currentWord| < 3 {
        return;
      }
      var data := CurrentData();
      if currentWord in RequiredList(data) && currentWord !in foundWords {
        RecordedAppend(foundWords, RequiredList(data), Letters(), currentWord);
        foundWords := foundWords + [currentWord];
        score := score + |currentWord| * 10;
        coins := coins + 5;
      } else if currentWord in data.bonusWords && currentWord !in bonusWords {
        RecordedAppend(bonusWords, data.bonusWords, Letters(), currentWord);
        bonusWords := bonusWords + [currentWord];
        score := score + |currentWord| * 15;
        coins := coins + 10;
      }
      currentWord := "";
      selectedLetters := [];
    }

    /** The Clear button: the word and the selection are dropped. */
    method ClearWord()
      requires Valid()
      modifies this`currentWord, this`selectedLetters
      ensures Valid() && currentWord == "" && selectedLetters == []
    {
      currentWord := "";
      selectedLetters := [];
    }

    /** The word is one of the level's required words, not yet found. */
    predicate NewRequired(w: string, found: seq<string>)
      reads this
      requires Mounted()
    {
      w in RequiredList(CurrentData()) && w !in found
    }

    /** The word is one of the level's bonus words, not yet found. */
    predicate NewBonus(w: string, bonus: seq<string>)
      reads this
      requires Mounted()
    {
      w in CurrentData().bonusWords && w !in bonus
    }

    /** `shuffleLetters`: with at least 10 coins, spend 10 for one more
        shuffle pass (the memo is recomputed with fresh draws for every
        pass); otherwise nothing changes. The selection is kept. */
    method Shuffle(draws: seq<seq<nat>>)
      requires Valid() && ValidPasses(draws, |Letters()|) && |draws| == shuffleCount + 1
      modifies this`shuffleCount, this`coins, this`shuffledLetters
      ensures Valid()
      ensures old(coins) >= 10 ==>
        shuffleCount == old(shuffleCount) + 1 && coins == old(coins) - 10 &&
        shuffledLetters == Shuffled(Letters(), draws)
      ensures old(coins) < 10 ==>
        shuffleCount == old(shuffleCount) && coins == old(coins) && shuffledLetters == old(shuffledLetters)
    {
      if coins >= 10 {
        shuffleCount := shuffleCount + 1;
        coins := coins - 10;
        var letters := ShuffleLetters(Letters(), draws);
        shuffledLetters := letters[..];
        ShuffledKeepsLetters(Letters(), draws);
      }
    }

    /** `useHint`: with a hint left and a required word still unfound, the
        clue of the first such word is shown and a hint is spent. */
    method UseHint() returns (clue: Option<string>)
      requires Valid()
      modifies this`hints
      ensures Valid()
      ensures clue.Some? <==> old(hints) > 0 && exists w :: w in RequiredList(CurrentData()) && w !in foundWords
      ensures clue.Some? ==> hints == old(hints) - 1
      ensures clue.Some? ==>
        exists i :: 0 <= i < 3 && clue.value == CurrentData().requiredWords[i].clue &&
          CurrentData().requiredWords[i].word !in foundWords &&
          forall j :: 0 <= j < i ==> CurrentData().requiredWords[j].word in foundWords
      ensures clue.None? ==> hints == old(hints)
    {
      clue := None;
      if hints > 0 {
        var unFoundRequired := Unfound(CurrentData().requiredWords, foundWords);
        if |unFoundRequired| > 0 {
          clue := Some(unFoundRequired[0].clue);
          hints := hints - 1;
        }
      }
    }

    /** `nextLevel` below level 50, with the level-change reset: found
        words, bonus words, the current word, the selection and the score
        start afresh, and the memo shuffles the new letters with as many
        passes as bought so far. Coins and hints carry over. At level 50
        nothing changes. */
    method NextLevel(draws: seq<seq<nat>>)
      requires Valid()
      requires level < MaxLevel ==>
        ValidPasses(draws, |LevelFor(levels, level + 1).letters|) && |draws| == shuffleCount
      modifies this
      ensures Valid()
      ensures old(level) < MaxLevel ==>
        level == old(level) + 1 && foundWords == [] && bonusWords == [] && currentWord == "" &&
        selectedLetters == [] && score == 0 && coins == old(coins) && hints == old(hints) &&
        shuffleCount == old(shuffleCount) && shuffledLetters == Shuffled(Letters(), draws)
      ensures old(level) == MaxLevel ==>
        level == MaxLevel && currentWord == old(currentWord) && selectedLetters == old(selectedLetters) &&
        foundWords == old(foundWords) && score == old(score) && shuffledLetters == old(shuffledLetters) &&
        bonusWords == old(bonusWords) && coins == old(coins) && hints == old(hints) &&
        shuffleCount == old(shuffleCount)
    {
      if level < MaxLevel {
        level := level + 1;
        LevelChanged(draws);
      }
    }

    /** What follows a change of level: the render looks up the level's
        data, the reset effect clears the found words, bonus words, current
        word, selection and score, and the memo shuffles the new level's
        letters. */
    method LevelChanged(draws: seq<seq<nat>>)
      requires Mounted() && AllWellShaped(levels) && level <= MaxLevel && coins >= 0 && hints >= 0
      requires ValidPasses(draws, |Letters()|)
      modifies this`foundWords, this`bonusWords, this`currentWord,
               this`selectedLetters, this`score, this`shuffledLetters
      ensures Valid()
      ensures foundWords == [] && bonusWords == [] && currentWord == "" && selectedLetters == []
      ensures score == 0 && shuffledLetters == Shuffled(Letters(), draws)
    {
      var data := CurrentData();
      foundWords := [];
      bonusWords := [];
      currentWord := "";
      selectedLetters := [];
      score := 0;
      var letters := ShuffleLetters(data.letters, draws);
      ShuffledKeepsLetters(data.letters, draws);
      shuffledLetters := letters[..];
    }

    /** The level is complete exactly when every required word is found. */
    lemma CompleteIffAllFound()
      requires Valid()
      ensures IsLevelComplete() <==> forall w :: w in RequiredList(CurrentData()) ==> w in foundWords
    {
      var required := RequiredList(CurrentData());
      DistinctWithin(foundWords, required);
      if forall w :: w in required ==> w in foundWords {
        DistinctWithin(required, foundWords);
      }
    }

    /** Level 23 can never be completed: its tiles S, U, N, S, H, I, N hold
        no E, so SUNSHINE cannot be spelled, and only spelled words are
        ever found. */
    lemma LevelTwentyThreeUnwinnable()
      requires Valid() && levels == LevelTable() && level == 23
      ensures !IsLevelComplete()
    {
      TwentyThirdEntry();
      SunshineUnspellable();
      CompleteIffAllFound();
      assert RequiredList(CurrentData())[0] in RequiredList(CurrentData());
    }
  }

  /** The 23rd entry of the table is the third of its third row. */
  lemma TwentyThirdEntry()
    ensures |LevelTable()| == MaxLevel && LevelTable()[22] == Levels2()[2]
  {
  }

  /** The first required word of that entry needs an E its tiles lack. */
  lemma SunshineUnspellable()
    ensures |Levels2()[2].requiredWords| > 0
    ensures !Spellable(RequiredList(Levels2()[2])[0], Levels2()[2].letters)
  {
    assert RequiredList(Levels2()[2])[0] == "SUNSHINE";
    assert multiset("SUNSHINE")['E'] == 1 && multiset(Levels2()[2].letters)['E'] == 0;
  }

  /** The game as the app mounts it, over the fifty levels above. */
  method Mount() returns (g: Game)
    ensures fresh(g) && g.levels == LevelTable() && g.Valid() && g.level == 1
  {
    LevelTableShape();
    g := new Game(LevelTable());
  }
}
