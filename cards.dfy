/**
 * Card generation and the card-data string of main.py: five columns B, I, N, G, O
 * sampled from disjoint 15-number bands, written as "B:..|I:..|N:..|G:..|O:.." and
 * read back by the renderer with split('|'), split(':') and split(',').
 */
module Cards {
  import opened Wrappers
  import opened Text

  /** One entry of the card dict, in insertion order: a column key and its numbers. */
  datatype Column = Column(letter: string, numbers: seq<int>)

  /** The parsed form the renderer builds: a dict from column key to numbers. */
  type CardMap = map<string, seq<int>>

  const Letters: seq<string> := ["B", "I", "N", "G", "O"]

  /** Band k (k = 0 for B .. 4 for O) is 15k + 1 through 15k + 15. */
  predicate InBand(n: int, k: nat)
  {
    15 * k + 1 <= n <= 15 * k + 15
  }

  predicate Distinct(s: seq<int>)
  {
    forall a, b :: 0 <= a < b < |s| ==> s[a] != s[b]
  }

  /** What sampling `count` distinct numbers from band k without replacement may return. */
  predicate IsSample(s: seq<int>, k: nat, count: nat)
  {
    |s| == count && Distinct(s) && forall x :: 0 <= x < |s| ==> InBand(s[x], k)
  }

  /** How many numbers column k holds: four in N (the free cell takes the fifth), five elsewhere. */
  function ColumnSize(k: nat): nat
  {
    if k == 2 then 4 else 5
  }

  /** The band invariant of a generated card, on the dict's items in order. */
  predicate BandValid(card: seq<Column>)
  {
    |card| == 5 &&
    forall k :: 0 <= k < 5 ==> card[k].letter == Letters[k] && IsSample(card[k].numbers, k, ColumnSize(k))
  }

  /** The same invariant on a parsed card dict. */
  predicate BandValidMap(m: CardMap)
  {
    forall k :: 0 <= k < 5 ==> Letters[k] in m && IsSample(m[Letters[k]], k, ColumnSize(k))
  }

  /** Card data that the renderer parses into a band-valid card. */
  predicate IsCardData(data: string)
  {
    ParseCard(data).Some? && BandValidMap(ParseCard(data).value)
  }

  // ---------------------------------------------------------------- serialiser

  function NumberStrings(ns: seq<int>): (r: seq<string>)
  {
    seq(|ns|, i requires 0 <= i < |ns| => IntToStr(ns[i]))
  }

  /** One item: the column key, a colon, then the numbers in decimal separated by commas. */
  function ItemText(c: Column): string
  {
    c.letter + ":" + Join(NumberStrings(c.numbers), ',')
  }

  function ItemTexts(card: seq<Column>): seq<string>
  {
    seq(|card|, i requires 0 <= i < |card| => ItemText(card[i]))
  }

  /** The items separated by bars: the card-data string stored for a player. */
  function Serialise(card: seq<Column>): string
  {
    Join(ItemTexts(card), '|')
  }

  /** The dict the items make, later keys overwriting earlier ones. */
  function ToMap(card: seq<Column>): CardMap
  {
    if card == [] then map[]
    else ToMap(card[..|card| - 1])[card[|card| - 1].letter := card[|card| - 1].numbers]
  }

  // ---------------------------------------------------------------- parser

  /** Every piece read as an integer, in order; None when one of them does not parse. */
  function ParseInts(parts: seq<string>): Option<seq<int>>
  {
    if parts == [] then Some([])
    else
      match ParseInts(parts[..|parts| - 1])
      case None => None
      case Some(ns) =>
        match ParseInt(parts[|parts| - 1])
        case None => None
        case Some(n) => Some(ns + [n])
  }

  /** An item must split on ':' into exactly a key and a number list; None when it does not or a number does not parse. */
  function ParseItem(item: string): Option<Column>
  {
    var halves := Split(item, ':');
    if |halves| != 2 then None
    else
      match ParseInts(Split(halves[1], ','))
      case None => None
      case Some(ns) => Some(Column(halves[0], ns))
  }

  /** The dict filled by the parse loop over a list of items. */
  function ParseItems(items: seq<string>): Option<CardMap>
  {
    if items == [] then Some(map[])
    else
      match ParseItems(items[..|items| - 1])
      case None => None
      case Some(m) =>
        match ParseItem(items[|items| - 1])
        case None => None
        case Some(c) => Some(m[c.letter := c.numbers])
  }

  /** The renderer's parse of a card-data string. */
  function ParseCard(data: string): Option<CardMap>
  {
    ParseItems(Split(data, '|'))
  }

  // ---------------------------------------------------------------- round trip

  lemma {:induction false} ParseNumbers(ns: seq<int>)
    ensures ParseInts(NumberStrings(ns)) == Some(ns)
    decreases |ns|
  {
    if ns != [] {
      var front := ns[..|ns| - 1];
      assert NumberStrings(ns)[..|ns| - 1] == NumberStrings(front);
      ParseNumbers(front);
      IntRoundTrip(ns[|ns| - 1]);
      assert front + [ns[|ns| - 1]] == ns;
    }
  }

  lemma NumbersTextAvoids(ns: seq<int>, c: char)
    requires c == ':' || c == '|'
    ensures c !in Join(NumberStrings(ns), ',')
  {
    var parts := NumberStrings(ns);
    forall k | 0 <= k < |parts| ensures c !in parts[k] {
      assert parts[k] == IntToStr(ns[k]);
    }
    JoinAvoids(parts, ',', c);
  }

  predicate WellKeyed(c: Column)
  {
    '|' !in c.letter && ':' !in c.letter && |c.numbers| >= 1
  }

  lemma ParseItemText(c: Column)
    requires WellKeyed(c)
    ensures ParseItem(ItemText(c)) == Some(c)
  {
    var parts := NumberStrings(c.numbers);
    var nums := Join(parts, ',');
    NumbersTextAvoids(c.numbers, ':');
    forall k | 0 <= k < |parts| ensures ',' !in parts[k] {
      assert parts[k] == IntToStr(c.numbers[k]);
    }
    assert ItemText(c) == c.letter + [':'] + nums;
    SplitCons(c.letter, nums, ':');
    SplitWithoutSep(nums, ':');
    SplitJoin(parts, ',');
    ParseNumbers(c.numbers);
  }

  lemma {:induction false} ParseItemTexts(card: seq<Column>)
    requires forall k :: 0 <= k < |card| ==> WellKeyed(card[k])
    ensures ParseItems(ItemTexts(card)) == Some(ToMap(card))
    decreases |card|
  {
    if card != [] {
      var front := card[..|card| - 1];
      assert ItemTexts(card)[..|card| - 1] == ItemTexts(front);
      ParseItemTexts(front);
      ParseItemText(card[|card| - 1]);
    }
  }

  /** The renderer reads back exactly the dict the generator wrote. */
  lemma ParseSerialise(card: seq<Column>)
    requires |card| >= 1
    requires forall k :: 0 <= k < |card| ==> WellKeyed(card[k])
    ensures ParseCard(Serialise(card)) == Some(ToMap(card))
  {
    var items := ItemTexts(card);
    forall k | 0 <= k < |items| ensures '|' !in items[k] {
      NumbersTextAvoids(card[k].numbers, '|');
      assert items[k] == card[k].letter + ":" + Join(NumberStrings(card[k].numbers), ',');
    }
    SplitJoin(items, '|');
    ParseItemTexts(card);
  }

  /** Looking a letter up in the dict of a band-valid card finds that column's numbers. */
  lemma ToMapOfBandValid(card: seq<Column>)
    requires BandValid(card)
    ensures BandValidMap(ToMap(card))
    ensures forall k :: 0 <= k < 5 ==> ToMap(card)[Letters[k]] == card[k].numbers
  {
    assert ToMap(card[..1]) == map["B" := card[0].numbers] by {
      assert card[..1][..0] == [];
    }
    assert ToMap(card[..2]) == ToMap(card[..1])["I" := card[1].numbers] by {
      assert card[..2][..1] == card[..1];
    }
    assert ToMap(card[..3]) == ToMap(card[..2])["N" := card[2].numbers] by {
      assert card[..3][..2] == card[..2];
    }
    assert ToMap(card[..4]) == ToMap(card[..3])["G" := card[3].numbers] by {
      assert card[..4][..3] == card[..3];
    }
    assert ToMap(card) == ToMap(card[..4])["O" := card[4].numbers] by {
      assert card[..4] == card[..|card| - 1];
    }
  }

  // ---------------------------------------------------------------- generator

  /**
   * generate_bingo_card_numbers: each column an arbitrary sample of its band
   * (the choice stands for random.sample), and the serialised card data.
   */
  method GenerateCardNumbers() returns (card: seq<Column>, data: string)
    ensures BandValid(card)
    ensures data == Serialise(card)
    ensures ParseCard(data) == Some(ToMap(card)) && IsCardData(data)
  {
    assert IsSample([1, 2, 3, 4, 5], 0, 5);
    var b :| IsSample(b, 0, 5);
    assert IsSample([16, 17, 18, 19, 20], 1, 5);
    var i :| IsSample(i, 1, 5);
    assert IsSample([31, 32, 33, 34], 2, 4);
    var n :| IsSample(n, 2, 4);
    assert IsSample([46, 47, 48, 49, 50], 3, 5);
    var g :| IsSample(g, 3, 5);
    assert IsSample([61, 62, 63, 64, 65], 4, 5);
    var o :| IsSample(o, 4, 5);
    card := [Column("B", b), Column("I", i), Column("N", n), Column("G", g), Column("O", o)];
    data := Serialise(card);
    assert BandValid(card);
    forall k | 0 <= k < 5 ensures WellKeyed(card[k]) {
      assert card[k].letter == Letters[k] && |card[k].numbers| == ColumnSize(k);
    }
    ParseSerialise(card);
    ToMapOfBandValid(card);
  }
}
