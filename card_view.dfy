/**
 * The decisions inside render_bingo_card_image: how the card-data string and the drawn
 * entries are read, and what each of the 25 cells shows (a number, FREE or nothing) and
 * whether a number is highlighted. Drawing, fonts and PNG encoding are not modelled.
 */
module CardView {
  import opened Wrappers
  import opened Text
  import opened Cards
  import Draws

  /** A cell: "FREE", a number (green when highlighted) or an empty string. */
  datatype Label = Free | Number(value: int, highlighted: bool) | Blank

  /** The KeyError a missing column raises, or the ValueError of a malformed item. */
  datatype RenderError = BadCardData | MissingColumn(letter: string)

  /** The label of row `row` of the column keyed `letter` holding `numbers`. */
  function CellLabel(letter: string, numbers: seq<int>, row: nat, drawn: set<int>): Label
  {
    if letter == "N" && row == 2 then Free
    else if row < |numbers| then Number(numbers[row], numbers[row] in drawn)
    else Blank
  }

  /** The highlight set: the number of every entry whose second dash-separated piece parses; the rest are skipped. */
  function DrawnSet(entries: seq<string>): (s: set<int>)
    ensures forall n :: n in s <==> exists k :: 0 <= k < |entries| && Draws.EntryValue(entries[k]) == Some(n)
  {
    if entries == [] then {}
    else
      var front := entries[..|entries| - 1];
      var rest := DrawnSet(front);
      assert forall k :: 0 <= k < |front| ==> front[k] == entries[k];
      match Draws.EntryValue(entries[|entries| - 1])
      case None => rest
      case Some(v) => rest + {v}
  }

  /** The first of the columns B, I, N, G, O from index k on that the dict lacks. */
  function FirstMissing(card: CardMap, k: nat): (r: Option<nat>)
    ensures r.None? <==> forall x :: k <= x < 5 ==> Letters[x] in card
    ensures r.Some? ==> k <= r.value < 5 && Letters[r.value] !in card &&
                        forall x :: k <= x < r.value ==> Letters[x] in card
    decreases 5 - k
  {
    if k >= 5 then None
    else if Letters[k] !in card then Some(k)
    else FirstMissing(card, k + 1)
  }

  /** The labels column by column: Grid(..)[i][j] is row j of column Letters[i]. */
  function Grid(card: CardMap, drawn: set<int>): seq<seq<Label>>
    requires forall x :: 0 <= x < 5 ==> Letters[x] in card
  {
    seq(5, i requires 0 <= i < 5 => ColumnLabels(Letters[i], card[Letters[i]], drawn))
  }

  function ColumnLabels(letter: string, numbers: seq<int>, drawn: set<int>): seq<Label>
  {
    seq(5, j requires 0 <= j < 5 => CellLabel(letter, numbers, j, drawn))
  }

  /** What render_bingo_card_image decides for a card-data string and a drawn list. */
  function Render(data: string, entries: seq<string>): Result<seq<seq<Label>>, RenderError>
  {
    match ParseCard(data)
    case None => Err(BadCardData)
    case Some(card) =>
      match FirstMissing(card, 0)
      case Some(k) => Err(MissingColumn(Letters[k]))
      case None => Ok(Grid(card, DrawnSet(entries)))
  }

  lemma {:induction false} ParseItemsStuck(items: seq<string>, i: nat)
    requires i <= |items| && ParseItems(items[..i]).None?
    ensures ParseItems(items).None?
    decreases |items| - i
  {
    if i < |items| {
      assert items[..i + 1][..i] == items[..i];
      ParseItemsStuck(items, i + 1);
    } else {
      assert items[..i] == items;
    }
  }

  /** The first loop of render_bingo_card_image: fill the card dict item by item. */
  method ParseCardData(data: string) returns (card: Option<CardMap>)
    ensures card == ParseCard(data)
  {
    var items := Split(data, '|');
    var filled: CardMap := map[];
    var i := 0;
    while i < |items|
      invariant 0 <= i <= |items|
      invariant ParseItems(items[..i]) == Some(filled)
    {
      assert items[..i + 1][..i] == items[..i];
      var item := ParseItem(items[i]);
      if item.None? {
        ParseItemsStuck(items, i + 1);
        return None;
      }
      filled := filled[item.value.letter := item.value.numbers];
      i := i + 1;
    }
    assert items[..i] == items;
    card := Some(filled);
  }

  /** The second loop: add each entry's number to drawn_nums_set, skipping those that raise. */
  method CollectDrawn(drawnEntries: seq<string>) returns (drawnSet: set<int>)
    ensures drawnSet == DrawnSet(drawnEntries)
  {
    drawnSet := {};
    var k := 0;
    while k < |drawnEntries|
      invariant 0 <= k <= |drawnEntries|
      invariant drawnSet == DrawnSet(drawnEntries[..k])
    {
      assert drawnEntries[..k + 1][..k] == drawnEntries[..k];
      var v := Draws.EntryValue(drawnEntries[k]);
      if v.Some? {
        drawnSet := drawnSet + {v.value};
      }
      k := k + 1;
    }
    assert drawnEntries[..k] == drawnEntries;
  }

  /** The 5 x 5 drawing loop: column by column, row by row, the label of each cell. */
  method LabelCells(card: CardMap, drawnSet: set<int>) returns (r: Result<seq<seq<Label>>, RenderError>)
    ensures FirstMissing(card, 0).Some? ==> r == Err(MissingColumn(Letters[FirstMissing(card, 0).value]))
    ensures FirstMissing(card, 0).None? ==> r == Ok(Grid(card, drawnSet))
  {
    var grid: seq<seq<Label>> := [];
    var c := 0;
    while c < 5
      invariant 0 <= c <= 5 && |grid| == c
      invariant forall x :: 0 <= x < c ==> Letters[x] in card
      invariant forall x :: 0 <= x < c ==> grid[x] == ColumnLabels(Letters[x], card[Letters[x]], drawnSet)
    {
      if Letters[c] !in card {
        return Err(MissingColumn(Letters[c]));
      }
      var numbers := card[Letters[c]];
      var column: seq<Label> := [];
      var row := 0;
      while row < 5
        invariant 0 <= row <= 5 && |column| == row
        invariant forall y :: 0 <= y < row ==> column[y] == CellLabel(Letters[c], numbers, y, drawnSet)
      {
        var cell: Label;
        if Letters[c] == "N" && row == 2 {
          cell := Free;
        } else if row < |numbers| {
          cell := Number(numbers[row], numbers[row] in drawnSet);
        } else {
          cell := Blank;
        }
        column := column + [cell];
        row := row + 1;
      }
      assert column == ColumnLabels(Letters[c], numbers, drawnSet);
      grid := grid + [column];
      c := c + 1;
    }
    assert grid == Grid(card, drawnSet);
    r := Ok(grid);
  }

  /** render_bingo_card_image, without the drawing: the labels, or the exception it raises. */
  method RenderCard(data: string, drawnEntries: seq<string>) returns (r: Result<seq<seq<Label>>, RenderError>)
    ensures r == Render(data, drawnEntries)
  {
    var card := ParseCardData(data);
    if card.None? {
      return Err(BadCardData);
    }
    var drawnSet := CollectDrawn(drawnEntries);
    r := LabelCells(card.value, drawnSet);
  }

  // ---------------------------------------------------------------- properties

  /**
   * A generated card renders without error. B, I, G and O show their five numbers top to
   * bottom; N shows FREE in row 2, its entries 0, 1 and 3 in rows 0, 1 and 3, and nothing in
   * row 4. A number is highlighted exactly when it is in the drawn set.
   */
  lemma RenderGenerated(card: seq<Column>, entries: seq<string>)
    requires BandValid(card)
    ensures Render(Serialise(card), entries).Ok?
    ensures var g, d := Render(Serialise(card), entries).value, DrawnSet(entries);
      && |g| == 5 && (forall i :: 0 <= i < 5 ==> |g[i]| == 5)
      && (forall i, j :: 0 <= i < 5 && i != 2 && 0 <= j < 5 ==>
            g[i][j] == Number(card[i].numbers[j], card[i].numbers[j] in d))
      && g[2][0] == Number(card[2].numbers[0], card[2].numbers[0] in d)
      && g[2][1] == Number(card[2].numbers[1], card[2].numbers[1] in d)
      && g[2][2] == Free
      && g[2][3] == Number(card[2].numbers[3], card[2].numbers[3] in d)
      && g[2][4] == Blank
  {
    forall k | 0 <= k < 5 ensures WellKeyed(card[k]) {
      assert card[k].letter == Letters[k] && |card[k].numbers| == ColumnSize(k);
    }
    ParseSerialise(card);
    ToMapOfBandValid(card);
    var m := ToMap(card);
    assert FirstMissing(m, 0).None?;
    forall i | 0 <= i < 5 ensures m[Letters[i]] == card[i].numbers {
    }
  }

  /** The third number sampled for N is never shown: FREE covers row 2 and row 4 stays blank. */
  lemma ThirdNumberHidden(card: seq<Column>, entries: seq<string>)
    requires BandValid(card)
    ensures Render(Serialise(card), entries).Ok?
    ensures var g := Render(Serialise(card), entries).value;
      forall i, j :: 0 <= i < 5 && 0 <= j < 5 ==> !(g[i][j].Number? && g[i][j].value == card[2].numbers[2])
  {
    RenderGenerated(card, entries);
    var g: seq<seq<Label>> := Render(Serialise(card), entries).value;
    var hidden := card[2].numbers[2];
    assert InBand(hidden, 2);
    forall i, j | 0 <= i < 5 && 0 <= j < 5 ensures !(g[i][j].Number? && g[i][j].value == hidden) {
      if i != 2 {
        assert InBand(card[i].numbers[j], i);
      }
    }
  }

  /**
   * For a history that decodes, the renderer's highlight set is exactly the set of numbers
   * the engine's decoding of the same entries gives.
   */
  lemma {:induction false} HighlightMatchesHistory(entries: seq<string>)
    requires Draws.ParseDrawn(entries).Some?
    ensures DrawnSet(entries) == set x | x in Draws.ParseDrawn(entries).value
    decreases |entries|
  {
    if entries != [] {
      var front := entries[..|entries| - 1];
      var e := entries[|entries| - 1];
      HighlightMatchesHistory(front);
      if e == "" {
        assert Draws.EntryValue(e).None?;
      } else if '-' !in e {
        SplitWithoutSep(e, '-');
      }
    }
  }
}
