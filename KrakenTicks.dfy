/**
  The Kraken bracketing scan: page the daily OHLC series of one pair until a
  row strictly after the target time shows up, and return the last row at or
  before the target together with that row.
 */
module KrakenTicks {
  import opened Market

  /** The candle interval, in minutes, of every OHLC request. */
  const Interval := 1440

  /** The two samples around the target. */
  datatype Bracket = Bracket(before: Sample, after: Sample)

  /** The scan's mutable slots: the `since` cursor of the next request, the
      latest row at or before the target and the row found after it. */
  datatype Scan = Scan(since: int, first: Option<Sample>, last: Option<Sample>)

  const Start := Scan(0, None, None)

  /** Scanning one entry's rows: a row after the target fills `last` and stops
      the scan of this entry; any other row fills `first` and moves the
      cursor to its time. */
  function ScanRows(target: int, rows: seq<Sample>, s: Scan): Scan
    decreases |rows|
  {
    if rows == [] then s
    else if rows[0].time > target then s.(last := Some(rows[0]))
    else ScanRows(target, rows[1..], Scan(rows[0].time, Some(rows[0]), s.last))
  }

  /** Scanning every entry of one page in turn; the stop in one entry does not
      stop the scan of the next. */
  function ScanEntries(target: int, entries: seq<seq<Sample>>, s: Scan): Scan
    decreases |entries|
  {
    if entries == [] then s
    else ScanEntries(target, entries[1..], ScanRows(target, entries[0], s))
  }

  /** The outcome of the polling loop from scan state `s`, with at most `fuel`
      more requests. */
  function Ticks(pair: string, target: int, ohlc: OhlcFeed, s: Scan, fuel: nat): Result<Bracket>
    decreases fuel
  {
    if fuel == 0 then Err(RequestLimit)
    else match ohlc(pair, Interval, s.since)
      case None => Err(MissingResult)
      case Some(entries) =>
        var s' := ScanEntries(target, entries, s);
        if s'.last.None? then Ticks(pair, target, ohlc, s', fuel - 1)
        else if s'.first.None? then Err(NoSampleBefore)
        else Ok(Bracket(s'.first.value, s'.last.value))
  }

  /** The bracket of `pair` around `target`, starting from cursor 0. */
  function GetTicks(pair: string, target: int, ohlc: OhlcFeed, fuel: nat): Result<Bracket>
  {
    Ticks(pair, target, ohlc, Start, fuel)
  }

  /** The polling loop itself, with its three mutable slots; each request
      asks for `Interval`-minute candles from the current cursor. */
  method GetKrakenTicks(pair: string, target: int, ohlc: OhlcFeed, fuel: nat) returns (r: Result<Bracket>)
    ensures r == GetTicks(pair, target, ohlc, fuel)
  {
    var since := 0;
    var first: Option<Sample> := None;
    var last: Option<Sample> := None;
    var left := fuel;
    while left > 0
      invariant last.None?
      invariant Ticks(pair, target, ohlc, Scan(since, first, last), left) == GetTicks(pair, target, ohlc, fuel)
      decreases left
    {
      var page := ohlc(pair, Interval, since);
      if page.None? {
        return Err(MissingResult);
      }
      var entries := page.value;
      ghost var s0 := Scan(since, first, last);
      var i := 0;
      while i < |entries|
        invariant 0 <= i <= |entries|
        invariant ScanEntries(target, entries[i..], Scan(since, first, last)) == ScanEntries(target, entries, s0)
      {
        var entry := entries[i];
        ghost var e0 := Scan(since, first, last);
        var j := 0;
        while j < |entry|
          invariant 0 <= j <= |entry|
          invariant ScanRows(target, entry[j..], Scan(since, first, last)) == ScanRows(target, entry, e0)
        {
          if entry[j].time > target {
            last := Some(entry[j]);
            break;
          }
          first := Some(entry[j]);
          since := entry[j].time;
          j := j + 1;
        }
        assert Scan(since, first, last) == ScanRows(target, entry, e0);
        assert entries[i..][1..] == entries[i + 1..];
        i := i + 1;
      }
      if last.Some? {
        if first.None? {
          return Err(NoSampleBefore);
        }
        return Ok(Bracket(first.value, last.value));
      }
      left := left - 1;
    }
    r := Err(RequestLimit);
  }

  /** Index of the first row strictly after the target (the row the scan of
      an entry stops at), or the number of rows when there is none. */
  function FirstAfter(target: int, rows: seq<Sample>): (k: nat)
    ensures k <= |rows|
    ensures forall i :: 0 <= i < k ==> rows[i].time <= target
    ensures k < |rows| ==> rows[k].time > target
    decreases |rows|
  {
    if rows == [] || rows[0].time > target then 0
    else 1 + FirstAfter(target, rows[1..])
  }

  /** What the scan of one entry leaves in the slots: `last` is the first row
      after the target, `first` and the cursor are the row just before it; a
      slot no row of the entry reaches keeps its value. */
  lemma {:induction false} ScanRowsStopsAtFirstAfter(target: int, rows: seq<Sample>, s: Scan)
    ensures var k := FirstAfter(target, rows);
      var r := ScanRows(target, rows, s);
      && r.last == (if k < |rows| then Some(rows[k]) else s.last)
      && r.first == (if k > 0 then Some(rows[k - 1]) else s.first)
      && r.since == (if k > 0 then rows[k - 1].time else s.since)
    decreases |rows|
  {
    if rows != [] && rows[0].time <= target {
      ScanRowsStopsAtFirstAfter(target, rows[1..], Scan(rows[0].time, Some(rows[0]), s.last));
    }
  }

  /** Rows of an entry after the first row past the target are never looked at. */
  lemma {:induction false} RowsAfterStopIgnored(target: int, rows: seq<Sample>, rest: seq<Sample>, s: Scan)
    requires exists i :: 0 <= i < |rows| && rows[i].time > target
    ensures ScanRows(target, rows + rest, s) == ScanRows(target, rows, s)
    decreases |rows|
  {
    assert rows != [];
    if rows[0].time <= target {
      assert (rows + rest)[1..] == rows[1..] + rest;
      var i :| 0 <= i < |rows| && rows[i].time > target;
      assert rows[1..][i - 1].time > target;
      RowsAfterStopIgnored(target, rows[1..], rest, Scan(rows[0].time, Some(rows[0]), s.last));
    }
  }

  /** The slots only ever hold a row at or before the target in `first` and a
      row after it in `last`. */
  ghost predicate Ordered(target: int, s: Scan)
  {
    && (s.first.Some? ==> s.first.value.time <= target)
    && (s.last.Some? ==> s.last.value.time > target)
  }

  /** The cursor is 0 until a row at or before the target is seen, and then
      the time of the latest such row. */
  ghost predicate CursorAtFirst(s: Scan)
  {
    if s.first.None? then s.since == 0 else s.since == s.first.value.time
  }

  lemma {:induction false} ScanRowsKeeps(target: int, rows: seq<Sample>, s: Scan)
    requires Ordered(target, s) && CursorAtFirst(s)
    ensures Ordered(target, ScanRows(target, rows, s)) && CursorAtFirst(ScanRows(target, rows, s))
    decreases |rows|
  {
    if rows != [] && rows[0].time <= target {
      ScanRowsKeeps(target, rows[1..], Scan(rows[0].time, Some(rows[0]), s.last));
    }
  }

  lemma {:induction false} ScanEntriesKeeps(target: int, entries: seq<seq<Sample>>, s: Scan)
    requires Ordered(target, s) && CursorAtFirst(s)
    ensures Ordered(target, ScanEntries(target, entries, s)) && CursorAtFirst(ScanEntries(target, entries, s))
    decreases |entries|
  {
    if entries != [] {
      ScanRowsKeeps(target, entries[0], s);
      ScanEntriesKeeps(target, entries[1..], ScanRows(target, entries[0], s));
    }
  }

  lemma {:induction false} TicksOrdered(pair: string, target: int, ohlc: OhlcFeed, s: Scan, fuel: nat)
    requires Ordered(target, s) && CursorAtFirst(s)
    ensures Ticks(pair, target, ohlc, s, fuel).Ok? ==>
      var b := Ticks(pair, target, ohlc, s, fuel).value;
      b.before.time <= target < b.after.time
    decreases fuel
  {
    if fuel > 0 && ohlc(pair, Interval, s.since).Some? {
      var entries := ohlc(pair, Interval, s.since).value;
      ScanEntriesKeeps(target, entries, s);
      TicksOrdered(pair, target, ohlc, ScanEntries(target, entries, s), fuel - 1);
    }
  }

  /** A bracket is two samples, the first at or before the target (a row
      exactly at the target counts as before) and the second strictly after. */
  lemma BracketOrdered(pair: string, target: int, ohlc: OhlcFeed, fuel: nat)
    ensures GetTicks(pair, target, ohlc, fuel).Ok? ==>
      var b := GetTicks(pair, target, ohlc, fuel).value;
      b.before.time <= target < b.after.time
  {
    TicksOrdered(pair, target, ohlc, Start, fuel);
  }

  /** A page with no row past the target leads to another request, from the
      advanced cursor and with both slots kept: the cursor is then the time
      of the latest row at or before the target. */
  lemma RefetchFromCursor(pair: string, target: int, ohlc: OhlcFeed, s: Scan, fuel: nat)
    requires Ordered(target, s) && CursorAtFirst(s)
    requires fuel > 0 && ohlc(pair, Interval, s.since).Some?
    requires ScanEntries(target, ohlc(pair, Interval, s.since).value, s).last.None?
    ensures var s' := ScanEntries(target, ohlc(pair, Interval, s.since).value, s);
      && Ticks(pair, target, ohlc, s, fuel) == Ticks(pair, target, ohlc, s', fuel - 1)
      && CursorAtFirst(s')
  {
    ScanEntriesKeeps(target, ohlc(pair, Interval, s.since).value, s);
  }

  /** Every row of the page lies after the target (or the page is null). */
  ghost predicate AllAfter(target: int, page: Option<seq<seq<Sample>>>)
  {
    page.Some? ==>
      forall i, j :: 0 <= i < |page.value| && 0 <= j < |page.value[i]| ==> page.value[i][j].time > target
  }

  lemma {:induction false} ScanEntriesAllAfter(target: int, entries: seq<seq<Sample>>, s: Scan)
    requires AllAfter(target, Some(entries))
    ensures ScanEntries(target, entries, s).first == s.first
    decreases |entries|
  {
    if entries != [] {
      assert AllAfter(target, Some(entries[1..])) by {
        forall i, j | 0 <= i < |entries[1..]| && 0 <= j < |entries[1..][i]|
          ensures entries[1..][i][j].time > target
        {
          assert entries[1..][i] == entries[i + 1];
        }
      }
      if entries[0] != [] {
        assert entries[0][0].time > target;
      }
      ScanEntriesAllAfter(target, entries[1..], ScanRows(target, entries[0], s));
    }
  }

  /** When the series has no row at or before the target, no bracket is ever
      returned: the scan fails (or polls on) rather than return half a bracket. */
  lemma {:induction false} NoEarlierRowNoBracket(pair: string, target: int, ohlc: OhlcFeed, s: Scan, fuel: nat)
    requires s.first.None?
    requires forall c :: AllAfter(target, ohlc(pair, Interval, c))
    ensures !Ticks(pair, target, ohlc, s, fuel).Ok?
    decreases fuel
  {
    if fuel > 0 && ohlc(pair, Interval, s.since).Some? {
      var entries := ohlc(pair, Interval, s.since).value;
      ScanEntriesAllAfter(target, entries, s);
      NoEarlierRowNoBracket(pair, target, ohlc, ScanEntries(target, entries, s), fuel - 1);
    }
  }

  /** A null page fails the scan, whichever request of the polling loop it
      answers. */
  lemma NullPageFails(pair: string, target: int, ohlc: OhlcFeed, s: Scan, fuel: nat)
    requires fuel > 0 && ohlc(pair, Interval, s.since).None?
    ensures Ticks(pair, target, ohlc, s, fuel) == Err(MissingResult)
  {
  }

  /** The request budget only ever cuts the polling short: an outcome other
      than running out of requests is the same with any larger budget. */
  lemma {:induction false} TicksFuelMonotone(pair: string, target: int, ohlc: OhlcFeed, s: Scan, fuel: nat, more: nat)
    requires Ticks(pair, target, ohlc, s, fuel) != Err(RequestLimit)
    ensures Ticks(pair, target, ohlc, s, fuel + more) == Ticks(pair, target, ohlc, s, fuel)
    decreases fuel
  {
    var page := ohlc(pair, Interval, s.since);
    if page.Some? {
      var s' := ScanEntries(target, page.value, s);
      if s'.last.None? {
        TicksFuelMonotone(pair, target, ohlc, s', fuel - 1, more);
        assert fuel + more - 1 == fuel - 1 + more;
      }
    }
  }

  /** Rows at 100, 200 and 300 with the target at 250: the bracket is the
      rows at 200 and 300. */
  lemma ThreeRowExample(pair: string, ohlc: OhlcFeed, a: Sample, b: Sample, c: Sample, fuel: nat)
    requires a.time == 100 && b.time == 200 && c.time == 300
    requires fuel > 0 && ohlc(pair, Interval, 0) == Some([[a, b, c]])
    ensures GetTicks(pair, 250, ohlc, fuel) == Ok(Bracket(b, c))
  {
    var rows := [a, b, c];
    assert rows[1..] == [b, c] && rows[1..][1..] == [c];
    var afterB := Scan(200, Some(b), None);
    assert ScanRows(250, [c], afterB) == afterB.(last := Some(c));
    assert ScanRows(250, rows, Start) == Scan(200, Some(b), Some(c));
    assert [rows][1..] == [];
    assert ScanEntries(250, [rows], Start) == Scan(200, Some(b), Some(c));
  }
}
