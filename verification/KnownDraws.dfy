/** The seeded stream by example: words, draws, the first entries of a wild table and the shuffle of a small board. */
module KnownDraws {
  import opened Geometry
  import opened Engine
  import opened Masks
  import opened BoardScan
  import opened StartPositions
  import opened VariantRounds

  lemma AfterZero()
    ensures XorShift(0x0) == 0xdc1b77ae0bf34dad
  {
    var a: bv64 := 0x9e3779b97f4a7c15;
    assert a ^ (a << 13) == 0x7100565030c8dc15;
    var b: bv64 := 0x7100565030c8dc15;
    assert b ^ (b >> 7) == 0x71e256fc90a94dad;
    var d: bv64 := 0x71e256fc90a94dad;
    assert d ^ (d << 17) == 0xdc1b77ae0bf34dad;
  }

  lemma AfterOne()
    ensures XorShift(0x1) == 0x40822041
  {
    var a: bv64 := 0x1;
    assert a ^ (a << 13) == 0x2001;
    var b: bv64 := 0x2001;
    assert b ^ (b >> 7) == 0x2041;
    var d: bv64 := 0x2041;
    assert d ^ (d << 17) == 0x40822041;
  }

  lemma AfterMixed()
    ensures XorShift(0x4000c0005) == 0x20b971cf986b945
  {
    var a: bv64 := 0x4000c0005;
    assert a ^ (a << 13) == 0x8005800ca005;
    var b: bv64 := 0x8005800ca005;
    assert b ^ (b >> 7) == 0x81058b0cb945;
    var d: bv64 := 0x81058b0cb945;
    assert d ^ (d << 17) == 0x20b971cf986b945;
  }

  lemma AfterTwo()
    ensures XorShift(0x40822041) == 0x100041060c011441
  {
    var a: bv64 := 0x40822041;
    assert a ^ (a << 13) == 0x810048a0041;
    var b: bv64 := 0x810048a0041;
    assert b ^ (b >> 7) == 0x80024831441;
    var d: bv64 := 0x80024831441;
    assert d ^ (d << 17) == 0x100041060c011441;
  }

  lemma AfterThree()
    ensures XorShift(0x100041060c011441) == 0x9b1e842f6e862629
  {
    var a: bv64 := 0x100041060c011441;
    assert a ^ (a << 13) == 0x182080862e893441;
    var b: bv64 := 0x182080862e893441;
    assert b ^ (b >> 7) == 0x1810c18722d42629;
    var d: bv64 := 0x1810c18722d42629;
    assert d ^ (d << 17) == 0x9b1e842f6e862629;
  }

  lemma FirstOfFour()
    ensures Below(0x40822041, 4) == 1
  {
    var w: bv64 := 0x40822041;
    assert w as nat == 1082269761;
  }

  lemma SecondOfThree()
    ensures Below(0x100041060c011441, 3) == 2
  {
    var w: bv64 := 0x100041060c011441;
    assert w as nat == 1152992998833853505;
  }

  lemma ThirdOfTwo()
    ensures Below(0x9b1e842f6e862629, 2) == 1
  {
    var w: bv64 := 0x9b1e842f6e862629;
    assert w as nat == 11177516664432764457;
  }

  lemma FirstOfSix()
    ensures Below(0x40822041, 6) == 3
  {
    var w: bv64 := 0x40822041;
    assert w as nat == 1082269761;
  }

  lemma ZeroOfFive()
    ensures Below(0xdc1b77ae0bf34dad, 5) == 4
  {
    var w: bv64 := 0xdc1b77ae0bf34dad;
    assert w as nat == 15860402102123842989;
  }

  lemma SmallBoard()
    ensures RowMajor(Board(2, 2, Bounded, ModernRules)) == [Point(0, 0), Point(1, 0), Point(0, 1), Point(1, 1)]
  {
    var b := Board(2, 2, Bounded, ModernRules);
    assert RowUpTo(0, 0, 2) == [Point(0, 0), Point(1, 0)] && RowUpTo(0, 1, 2) == [Point(0, 1), Point(1, 1)];
    assert RowsUpTo(b, 1) == [Point(0, 0), Point(1, 0)];
  }

  /** On a two by two board the seed 1 draws its starts in this order. */
  lemma KnownShuffle()
    ensures DrawnStarts(Board(2, 2, Bounded, ModernRules), 1)
         == [Point(0, 0), Point(1, 1), Point(0, 1), Point(1, 0)]
  {
    hide XorShift, Below, RowMajor;
    SmallBoard();
    AfterOne();
    AfterTwo();
    AfterThree();
    FirstOfFour();
    SecondOfThree();
    ThirdOfTwo();
    var a: seq<Point> := [Point(0, 0), Point(1, 0), Point(0, 1), Point(1, 1)];
    var b: seq<Point> := [Point(0, 0), Point(1, 1), Point(0, 1), Point(1, 0)];
    var c: seq<Point> := [Point(0, 0), Point(1, 1), Point(0, 1), Point(1, 0)];
    var d: seq<Point> := [Point(0, 0), Point(1, 1), Point(0, 1), Point(1, 0)];
    assert Swapped(a, 3, 1) == b && Swapped(b, 2, 2) == c && Swapped(c, 1, 1) == d;
    assert Shuffled(d, 0, 0x9b1e842f6e862629) == d;
    assert Shuffled(c, 1, 0x100041060c011441) == d;
    assert Shuffled(b, 2, 0x40822041) == d;
  }

  lemma EmptyMask()
    ensures MaskOf(0) == {}
  {
  }

  lemma {:induction false} AllExits(dirs: seq<Direction>)
    ensures ExitsAmong({}, dirs) == dirs
    decreases |dirs|
  {
    if dirs == [] {
    } else {
      AllExits(dirs[1..]);
    }
  }

  /** With seed 1 a wild worm leaves an untouched cell to the West. */
  lemma KnownWildEntry()
    ensures WildUpTo(1, 1).0 == map[{} := Go(West)]
  {
    hide XorShift, Below, MaskOf, ExitsAmong, WildUpTo;
    AfterOne();
    FirstOfSix();
    EmptyMask();
    AllExits(DIRECTIONS);
    FirstEntry(1);
  }

  lemma FirstEntry(x: bv64)
    requires Exits(MaskOf(0)) != []
    ensures var exits := Exits(MaskOf(0));
      WildUpTo(x, 1).0 == map[MaskOf(0) := Go(exits[Below(XorShift(x), |exits|)])]
  {
    hide XorShift, Below, MaskOf, Exits;
    assert WildUpTo(x, 0) == (map[], x);
  }

  lemma SmallWords()
    ensures Word(7) == 7 && Word(4) == 4 && Word(12) == 12 && Word(2) == 2
  {
    assert 7 % 0x1_0000_0000_0000_0000 == 7;
  }

  lemma MixedWord()
    ensures (7 as bv64) ^ ((4 as bv64) << 32) ^ ((12 as bv64) << 16) ^ 2 == 0x4000c0005
  {
  }

  lemma MixedRemainder()
    ensures Below(0x20b971cf986b945, 5) == 4
  {
    var w: bv64 := 0x20b971cf986b945;
    assert w as nat == 147377563520907589;
  }

  /** The word mixed from seed 7, round 3, tick 11 and slot 1 draws the last of five. */
  lemma MixedDraw()
    ensures DrawAt(7, 3, 11, 1, 5) == 4 && Pick64(7, 3, 11, 1, 5) == 4
  {
    hide XorShift, Below, Word;
    SmallWords();
    MixedWord();
    AfterMixed();
    MixedRemainder();
  }

  /** Where the mixed word is zero the engine replaces it and the extension does not. */
  lemma ZeroDraws(seed: nat, round: nat, tick: nat, slot: nat)
    requires Word(seed) ^ (Word(round + 1) << 32) ^ (Word(tick + 1) << 16) ^ Word(slot + 1) == 0
    ensures DrawAt(seed, round, tick, slot, 5) == 4 && Pick64(seed, round, tick, slot, 5) == 0
  {
    hide XorShift, Below, Word;
    AfterZero();
    ZeroOfFive();
  }
}
