/**
 * The drawn-number history of main.py: a comma-joined string of "col-n" entries,
 * its decoding, and get_next_bingo_number, which picks a number not yet drawn.
 */
module Draws {
  import opened Wrappers
  import opened Text
  import Cards

  /** The letter get_next_bingo_number gives a number: by 15-number band, "O" for anything outside 1..60. */
  function ColumnOf(n: int): string
  {
    if 1 <= n <= 15 then "B"
    else if 16 <= n <= 30 then "I"
    else if 31 <= n <= 45 then "N"
    else if 46 <= n <= 60 then "G"
    else "O"
  }

  /** On 1..75 the letter is exactly the card column whose band holds the number. */
  lemma ColumnOfBand(n: int, k: nat)
    requires 1 <= n <= 75 && k < 5
    ensures ColumnOf(n) == Cards.Letters[k] <==> Cards.InBand(n, k)
  {
  }

  /** The entry recorded for a call: column letter, a dash, the number in decimal. */
  function Entry(n: int): string
  {
    ColumnOf(n) + "-" + IntToStr(n)
  }

  /** The number after the first dash of an entry; None when there is no dash or the piece does not parse. */
  function EntryValue(entry: string): Option<int>
  {
    var parts := Split(entry, '-');
    if |parts| < 2 then None else ParseInt(parts[1])
  }

  lemma EntryText(n: int)
    requires n >= 0
    ensures ',' !in Entry(n) && '-' in Entry(n) && Entry(n) != ""
    ensures EntryValue(Entry(n)) == Some(n)
  {
    var digits := IntToStr(n);
    assert '-' !in digits && ',' !in digits by {
      assert forall k :: 0 <= k < |digits| ==> IsDigit(digits[k]);
    }
    assert Entry(n) == ColumnOf(n) + ['-'] + digits;
    assert Entry(n)[|ColumnOf(n)|] == '-';
    SplitCons(ColumnOf(n), digits, '-');
    SplitWithoutSep(digits, '-');
    IntRoundTrip(n);
  }

  /**
   * The number after the first dash of every entry that is non-empty and holds a dash, in
   * order; entries that are empty or lack a dash are skipped. None when one of the
   * numbers does not parse.
   */
  function ParseDrawn(entries: seq<string>): Option<seq<int>>
  {
    if entries == [] then Some([])
    else
      match ParseDrawn(entries[..|entries| - 1])
      case None => None
      case Some(d) =>
        var e := entries[|entries| - 1];
        if e == "" || '-' !in e then Some(d)
        else
          match EntryValue(e)
          case None => None
          case Some(v) => Some(d + [v])
  }

  /** The numbers recorded in a drawn_numbers string. */
  function DrawnList(drawnNumbers: string): Option<seq<int>>
  {
    ParseDrawn(Split(drawnNumbers, ','))
  }

  /** Recording an entry: a comma before it only when the history is non-empty. */
  function AppendEntry(s: string, e: string): string
  {
    if s == "" then e else s + "," + e
  }

  /** Appending the entry for n adds exactly n to the end of the decoded history. */
  lemma DrawnListAppend(s: string, n: int)
    requires n >= 0 && DrawnList(s).Some?
    ensures DrawnList(AppendEntry(s, Entry(n))) == Some(DrawnList(s).value + [n])
  {
    var e := Entry(n);
    EntryText(n);
    if s == "" {
      SplitWithoutSep(e, ',');
      assert [e][..0] == [];
    } else {
      assert AppendEntry(s, e) == s + [','] + e;
      SplitSnoc(s, e, ',');
      var parts := Split(s, ',') + [e];
      assert parts[..|parts| - 1] == Split(s, ',');
    }
  }

  /** The numbers lo..75 that are not in the drawn list. */
  function AvailableFrom(lo: int, drawn: seq<int>): (r: seq<int>)
    requires lo >= 1
    ensures forall x :: x in r <==> lo <= x <= 75 && x !in drawn
    decreases 76 - lo
  {
    if lo > 75 then []
    else (if lo in drawn then [] else [lo]) + AvailableFrom(lo + 1, drawn)
  }

  /** The numbers 1..75 not yet drawn. */
  function Available(drawn: seq<int>): seq<int>
  {
    AvailableFrom(1, drawn)
  }

  predicate AllDrawn(drawn: seq<int>)
  {
    forall n :: 1 <= n <= 75 ==> n in drawn
  }

  /** The two answers of get_next_bingo_number: game over, or the entry of the next call. */
  datatype Draw = GameOver | Next(entry: string, number: int)

  /** The error raised by an entry whose number does not parse, such as "B-x". */
  datatype DrawError = MalformedEntry

  /**
   * get_next_bingo_number. The pick among the remaining numbers stands for
   * random.choice: any remaining number may come out.
   */
  method NextNumber(drawnNumbers: string) returns (r: Result<Draw, DrawError>)
    ensures r.Err? <==> DrawnList(drawnNumbers).None?
    ensures r.Ok? ==> (r.value.GameOver? <==> AllDrawn(DrawnList(drawnNumbers).value))
    ensures r.Ok? && r.value.Next? ==>
      && 1 <= r.value.number <= 75
      && r.value.number !in DrawnList(drawnNumbers).value
      && r.value.entry == Entry(r.value.number)
  {
    var drawn := DrawnList(drawnNumbers);
    if drawn.None? {
      return Err(MalformedEntry);
    }
    var available := Available(drawn.value);
    if |available| == 0 {
      return Ok(GameOver);
    }
    assert available[0] in available;
    var n :| n in available;
    r := Ok(Next(Entry(n), n));
  }

  // ---------------------------------------------------------------- the drawn history as a set

  /** A well-formed history: it decodes, has no repeats and stays inside 1..75. */
  predicate DrawnInvariant(drawnNumbers: string)
  {
    DrawnList(drawnNumbers).Some? &&
    Cards.Distinct(DrawnList(drawnNumbers).value) &&
    forall k :: 0 <= k < |DrawnList(drawnNumbers).value| ==> 1 <= DrawnList(drawnNumbers).value[k] <= 75
  }

  /** Recording a number not drawn before keeps the history well formed and one longer. */
  lemma DrawKeepsInvariant(s: string, n: int)
    requires DrawnInvariant(s)
    requires 1 <= n <= 75 && n !in DrawnList(s).value
    ensures DrawnInvariant(AppendEntry(s, Entry(n)))
    ensures |DrawnList(AppendEntry(s, Entry(n))).value| == |DrawnList(s).value| + 1
  {
    DrawnListAppend(s, n);
  }

  /** The set {1, .., hi}. */
  function RangeSet(hi: nat): (r: set<int>)
    ensures forall x :: x in r <==> 1 <= x <= hi
  {
    if hi == 0 then {} else RangeSet(hi - 1) + {hi}
  }

  lemma {:induction false} RangeSetSize(hi: nat)
    ensures |RangeSet(hi)| == hi
  {
    if hi > 0 {
      RangeSetSize(hi - 1);
    }
  }

  lemma {:induction false} DistinctSetSize(d: seq<int>)
    requires Cards.Distinct(d)
    ensures |set x | x in d| == |d|
  {
    if d != [] {
      var front := d[..|d| - 1];
      DistinctSetSize(front);
      assert (set x | x in d) == (set x | x in front) + {d[|d| - 1]};
    }
  }

  /**
   * Pigeonhole on a repeat-free list drawn from 1..hi: at most hi entries, and every
   * number of 1..hi is present exactly when there are hi of them.
   */
  lemma {:induction false} DistinctInRange(d: seq<int>, hi: nat)
    requires Cards.Distinct(d)
    requires forall k :: 0 <= k < |d| ==> 1 <= d[k] <= hi
    ensures |d| <= hi
    ensures (forall n :: 1 <= n <= hi ==> n in d) <==> |d| == hi
  {
    var seen := set x | x in d;
    DistinctSetSize(d);
    RangeSetSize(hi);
    var all := RangeSet(hi);
    var missing := all - seen;
    assert all == seen + missing && seen !! missing;
    if forall n :: 1 <= n <= hi ==> n in d {
      assert missing == {};
    }
    if |d| == hi {
      assert missing == {};
      forall n | 1 <= n <= hi ensures n in d {
        assert n in all;
      }
    }
  }

  /**
   * A well-formed history has at most 75 entries, and get_next_bingo_number reports the
   * game over exactly when it has 75.
   */
  lemma HistoryBound(s: string)
    requires DrawnInvariant(s)
    ensures |DrawnList(s).value| <= 75
    ensures AllDrawn(DrawnList(s).value) <==> |DrawnList(s).value| == 75
  {
    DistinctInRange(DrawnList(s).value, 75);
  }
}
