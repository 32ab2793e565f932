/** MarketDataFreeService: per-ticker daily closes from Stooq behind a cache
    keyed by the normalised ticker, their conversion to daily returns, and
    the filtering of the CSV rows.  The HTTP exchange, the line split
    `csv.split("\\R")` and `Double.parseDouble` are parameters. */
module MarketDataFree {
  import opened Common
  import opened JavaStrings

  // ---------------------------------------------------------------------
  // Daily returns

  /** Both prices of the pair ending at index `i` are positive. */
  predicate PositivePair(c: seq<real>, i: int)
    requires 1 <= i < |c|
  {
    c[i - 1] > 0.0 && c[i] > 0.0
  }

  /** `cur / prev - 1` for each consecutive pair, skipping any pair with a
      non-positive price. */
  function PairReturns(c: seq<real>): (r: seq<real>)
    ensures |c| < 2 ==> r == []
    ensures |c| >= 1 ==> |r| <= |c| - 1
  {
    if |c| < 2 then []
    else
      var n := |c| - 1;
      PairReturns(c[..n]) + (if PositivePair(c, n) then [c[n] / c[n - 1] - 1.0] else [])
  }

  /** The index `i` of each pair `(c[i-1], c[i])` that `PairReturns` keeps. */
  function KeptPairs(c: seq<real>): seq<int>
  {
    if |c| < 2 then []
    else
      var n := |c| - 1;
      KeptPairs(c[..n]) + (if PositivePair(c, n) then [n] else [])
  }

  /** `KeptPairs` and `PairReturns` line up: entry k of the returns is the
      return of the pair ending at index `KeptPairs(c)[k]`, whose prices are
      both positive. */
  lemma {:induction false} KeptPairsValues(c: seq<real>)
    ensures var idx := KeptPairs(c);
      && |idx| == |PairReturns(c)|
      && (forall k :: 0 <= k < |idx| ==>
            (1 <= idx[k] < |c| && PositivePair(c, idx[k]) && PairReturns(c)[k] == c[idx[k]] / c[idx[k] - 1] - 1.0))
  {
    if |c| >= 2 {
      var n := |c| - 1;
      var p := c[..n];
      KeptPairsValues(p);
      var pidx := KeptPairs(p);
      forall k | 0 <= k < |pidx| ensures PositivePair(c, pidx[k]) && p[pidx[k]] == c[pidx[k]] && p[pidx[k] - 1] == c[pidx[k] - 1] {
        assert PositivePair(p, pidx[k]);
      }
    }
  }

  /** The kept indices are pair indices, in increasing order. */
  lemma {:induction false} KeptPairsOrdered(c: seq<real>)
    ensures forall k :: 0 <= k < |KeptPairs(c)| ==> 1 <= KeptPairs(c)[k] < |c|
    ensures forall k, l :: 0 <= k < l < |KeptPairs(c)| ==> KeptPairs(c)[k] < KeptPairs(c)[l]
  {
    if |c| >= 2 {
      KeptPairsOrdered(c[..|c| - 1]);
    }
  }

  /** Every pair whose prices are both positive is kept. */
  lemma {:induction false} KeptPairsComplete(c: seq<real>)
    ensures forall i :: 1 <= i < |c| && PositivePair(c, i) ==> i in KeptPairs(c)
  {
    if |c| >= 2 {
      var n := |c| - 1;
      var p := c[..n];
      KeptPairsComplete(p);
      forall i | 1 <= i < n && PositivePair(c, i) ensures i in KeptPairs(c) {
        assert PositivePair(p, i);
      }
    }
  }

  /** With every close positive no pair is skipped: one return per pair. */
  lemma {:induction false} AllPositiveReturns(c: seq<real>)
    requires |c| >= 1 && forall i :: 0 <= i < |c| ==> c[i] > 0.0
    ensures |PairReturns(c)| == |c| - 1
    ensures forall i :: 0 <= i < |c| - 1 ==> PairReturns(c)[i] == c[i + 1] / c[i] - 1.0
  {
    if |c| >= 2 {
      var n := |c| - 1;
      AllPositiveReturns(c[..n]);
    }
  }

  /** The loop of `closesToDailyReturns` (and of `MetricsService.compute`). */
  method DailyReturns(closes: seq<real>) returns (rets: seq<real>)
    ensures rets == PairReturns(closes)
  {
    rets := [];
    if |closes| < 2 { return; }
    for i := 1 to |closes|
      invariant rets == PairReturns(closes[..i])
    {
      assert closes[..i + 1][..i] == closes[..i];
      var prev := closes[i - 1];
      var cur := closes[i];
      if prev <= 0.0 || cur <= 0.0 { continue; }
      rets := rets + [(cur / prev) - 1.0];
    }
    assert closes[..|closes|] == closes;
  }

  /** `closesToDailyReturns`: a null list or fewer than two closes gives no
      returns. */
  method ClosesToDailyReturns(closes: Option<seq<real>>) returns (rets: seq<real>)
    ensures closes.None? ==> rets == []
    ensures closes.Some? ==> rets == PairReturns(closes.value)
  {
    if closes.None? || |closes.value| < 2 { return []; }
    rets := DailyReturns(closes.value);
  }

  /** `hasEnoughData`. */
  predicate HasEnoughData(closes: Option<seq<real>>, minPoints: Int32)
  {
    closes.Some? && |closes.value| >= minPoints
  }

  /** Enough data for a threshold is enough for any lower one, and a null
      list never has enough. */
  lemma HasEnoughDataMonotone(closes: Option<seq<real>>, lower: Int32, higher: Int32)
    requires lower <= higher
    ensures HasEnoughData(closes, higher) ==> HasEnoughData(closes, lower)
    ensures closes.None? ==> !HasEnoughData(closes, lower)
    ensures closes.Some? && lower <= 0 ==> HasEnoughData(closes, lower)
  {
  }

  // ---------------------------------------------------------------------
  // CSV rows

  /** The Stooq symbol of an upper-case ticker. */
  function StooqSymbol(tickerUpper: string): string
  {
    ToLower(tickerUpper) + ".us"
  }

  /** The close a data row contributes: its fifth comma field, trimmed, when
      the row is not blank, the field is neither empty nor "null" in any
      case, it parses, and it is positive. */
  function RowClose(line: string, parse: string -> Option<real>): (r: Option<real>)
    ensures r.Some? ==> r.value > 0.0
  {
    var l := Trim(line);
    if l == [] then None
    else
      var cols := SplitComma(l);
      if |cols| < 5 then None
      else
        var closeStr := Trim(cols[4]);
        if closeStr == [] || EqualsIgnoreCase(closeStr, "null") then None
        else
          match parse(closeStr)
          case None => None
          case Some(v) => if v > 0.0 then Some(v) else None
  }

  /** What one row adds to the list: its close, or nothing. */
  function RowContribution(line: string, parse: string -> Option<real>): (r: seq<real>)
    ensures |r| <= 1 && forall k :: 0 <= k < |r| ==> r[k] > 0.0
  {
    match RowClose(line, parse)
    case None => []
    case Some(v) => [v]
  }

  function RowContributions(parse: string -> Option<real>): string -> seq<real>
  {
    line => RowContribution(line, parse)
  }

  /** The contributions of a run of rows, concatenated in row order. */
  function Collect(rows: seq<string>, contribution: string -> seq<real>): seq<real>
  {
    if |rows| == 0 then []
    else
      var n := |rows| - 1;
      Collect(rows[..n], contribution) + contribution(rows[n])
  }

  /** The closes of a run of data rows, in row order. */
  function RowCloses(rows: seq<string>, parse: string -> Option<real>): seq<real>
  {
    Collect(rows, RowContributions(parse))
  }

  /** The row loop, skipping the header line. */
  function ParsedCloses(lines: seq<string>, parse: string -> Option<real>): seq<real>
  {
    if |lines| <= 1 then [] else RowCloses(lines[1..], parse)
  }

  /** `fetchStooqDailyCloses`.  `body` is the response body of the request
      for the ticker's symbol, or None for a non-2xx status or any
      exception; every problem yields an empty list. */
  function FetchStooqDailyCloses(tickerUpper: string, body: string -> Option<string>,
                                 splitLines: string -> seq<string>, parse: string -> Option<real>): seq<real>
  {
    match body(StooqSymbol(tickerUpper))
    case None => []
    case Some(csv) => if Trim(csv) == [] then [] else ParsedCloses(splitLines(csv), parse)
  }

  /** Every close kept is positive. */
  lemma RowClosesPositive(rows: seq<string>, parse: string -> Option<real>)
    ensures forall k :: 0 <= k < |RowCloses(rows, parse)| ==> RowCloses(rows, parse)[k] > 0.0
  {
    CollectPositive(rows, RowContributions(parse));
  }

  lemma {:induction false} CollectPositive(rows: seq<string>, contribution: string -> seq<real>)
    requires forall l: string :: forall k :: 0 <= k < |contribution(l)| ==> contribution(l)[k] > 0.0
    ensures forall k :: 0 <= k < |Collect(rows, contribution)| ==> Collect(rows, contribution)[k] > 0.0
  {
    if |rows| > 0 {
      CollectPositive(rows[..|rows| - 1], contribution);
    }
  }

  /** Rows contribute independently and in file order. */
  lemma RowClosesAppend(a: seq<string>, b: seq<string>, parse: string -> Option<real>)
    ensures RowCloses(a + b, parse) == RowCloses(a, parse) + RowCloses(b, parse)
  {
    CollectAppend(a, b, RowContributions(parse));
  }

  lemma {:induction false} CollectAppend(a: seq<string>, b: seq<string>, contribution: string -> seq<real>)
    ensures Collect(a + b, contribution) == Collect(a, contribution) + Collect(b, contribution)
    decreases |b|
  {
    if |b| == 0 {
      assert a + b == a;
    } else {
      var n := |b| - 1;
      var ab := a + b;
      assert ab[..|ab| - 1] == a + b[..n];
      assert ab[|ab| - 1] == b[n];
      CollectAppend(a, b[..n], contribution);
    }
  }

  /** A blank row, a row of fewer than five fields, and a row whose close
      field is empty or "null" contribute nothing; a row contributes at
      most one close, and only a positive one. */
  lemma RowCloseSkips(line: string, parse: string -> Option<real>)
    ensures Trim(line) == [] ==> RowClose(line, parse).None?
    ensures |SplitComma(Trim(line))| < 5 ==> RowClose(line, parse).None?
    ensures |SplitComma(Trim(line))| >= 5 && Trim(SplitComma(Trim(line))[4]) == [] ==> RowClose(line, parse).None?
    ensures |SplitComma(Trim(line))| >= 5 && EqualsIgnoreCase(Trim(SplitComma(Trim(line))[4]), "null")
      ==> RowClose(line, parse).None?
    ensures RowClose(line, parse).Some? ==> RowClose(line, parse).value > 0.0
    ensures RowCloses([line], parse) == RowContribution(line, parse)
  {
    assert [line][..0] == [];
    assert Collect([line], RowContributions(parse)) == RowContributions(parse)(line);
  }

  /** The first line is the header and never contributes, whatever it
      holds. */
  lemma HeaderIgnored(header: string, other: string, rows: seq<string>, parse: string -> Option<real>)
    ensures ParsedCloses([header] + rows, parse) == RowCloses(rows, parse)
    ensures ParsedCloses([header] + rows, parse) == ParsedCloses([other] + rows, parse)
  {
    assert ([header] + rows)[1..] == rows;
    assert ([other] + rows)[1..] == rows;
  }

  /** The loop over `lines[1..]`. */
  method ParseCloses(lines: seq<string>, parse: string -> Option<real>) returns (closes: seq<real>)
    ensures closes == ParsedCloses(lines, parse)
  {
    closes := [];
    if |lines| <= 1 { return; }
    var rows := lines[1..];
    for i := 0 to |rows|
      invariant closes == RowCloses(rows[..i], parse)
    {
      assert rows[..i + 1][..i] == rows[..i];
      var c := RowClose(rows[i], parse);
      if c.Some? { closes := closes + [c.value]; }
      assert RowContributions(parse)(rows[i]) == if c.Some? then [c.value] else [];
    }
    assert rows[..|rows|] == rows;
  }

  // ---------------------------------------------------------------------
  // The cache

  /** What `loadDailyClosesUS` returns, and the cache after it, for the
      download-and-parse function `fetch` of an upper-case ticker. */
  function CachedLoad(cache: map<string, seq<real>>, ticker: Option<string>, fetch: string -> seq<real>)
    : (seq<real>, map<string, seq<real>>)
  {
    if ticker.None? then ([], cache)
    else
      var t := Canon(ticker.value);
      if t == [] then ([], cache)
      else if t in cache then (cache[t], cache)
      else (fetch(t), cache[t := fetch(t)])
  }

  /** A null or blank ticker leaves the cache alone; any other ticker ends up
      cached under its normalised form with the list returned, whether the
      list was fetched or already there, and empty lists are cached too. */
  lemma CachedLoadEffect(cache: map<string, seq<real>>, ticker: Option<string>, fetch: string -> seq<real>)
    ensures var (closes, after) := CachedLoad(cache, ticker, fetch);
      && (ticker.None? || Canon(ticker.value) == [] ==> closes == [] && after == cache)
      && (ticker.Some? && Canon(ticker.value) != [] ==>
            Canon(ticker.value) in after && after[Canon(ticker.value)] == closes
            && (Canon(ticker.value) in cache ==> closes == cache[Canon(ticker.value)] && after == cache)
            && (forall k :: k in cache ==> k in after && after[k] == cache[k]))
  {
  }

  /** A second request for a ticker with the same normalised form returns the
      same list and leaves the cache as the first request left it. */
  lemma {:induction false} CachedLoadTwice(cache: map<string, seq<real>>, t1: string, t2: string, fetch: string -> seq<real>)
    requires Canon(t1) == Canon(t2)
    ensures var (first, after) := CachedLoad(cache, Some(t1), fetch);
      CachedLoad(after, Some(t2), fetch) == (first, after)
  {
    CachedLoadEffect(cache, Some(t1), fetch);
  }

  /** `after` keeps every entry of `before` and adds only fetched lists. */
  predicate CacheExtends(before: map<string, seq<real>>, after: map<string, seq<real>>, fetch: string -> seq<real>)
  {
    && (forall k :: k in before ==> k in after && after[k] == before[k])
    && (forall k :: k in after && k !in before ==> after[k] == fetch(k))
  }

  /** Over a run of loads the cache only grows by fetched lists, so every
      load returns what a load on the starting cache would have returned. */
  lemma CachedLoadConsistent(before: map<string, seq<real>>, cur: map<string, seq<real>>, ticker: Option<string>, fetch: string -> seq<real>)
    requires CacheExtends(before, cur, fetch)
    ensures CachedLoad(cur, ticker, fetch).0 == CachedLoad(before, ticker, fetch).0
    ensures CacheExtends(before, CachedLoad(cur, ticker, fetch).1, fetch)
  {
    if ticker.Some? && Canon(ticker.value) != [] {
      var t := Canon(ticker.value);
      if t in cur {
        CachedEntry(before, cur, t, fetch);
      } else {
        CacheExtendsPut(before, cur, t, fetch);
      }
    }
  }

  /** An entry of the grown cache is the starting cache's or a fetched list. */
  lemma CachedEntry(before: map<string, seq<real>>, cur: map<string, seq<real>>, t: string, fetch: string -> seq<real>)
    requires CacheExtends(before, cur, fetch) && t in cur
    ensures cur[t] == (if t in before then before[t] else fetch(t))
  {
  }

  /** Caching one more fetched list keeps the cache an extension. */
  lemma CacheExtendsPut(before: map<string, seq<real>>, cur: map<string, seq<real>>, t: string, fetch: string -> seq<real>)
    requires CacheExtends(before, cur, fetch) && t !in cur
    ensures t !in before && CacheExtends(before, cur[t := fetch(t)], fetch)
  {
  }

  /** The service's mutable cache field. */
  class StooqCache {
    var closeCache: map<string, seq<real>>

    constructor()
      ensures closeCache == map[]
    {
      closeCache := map[];
    }

    /** `loadDailyClosesUS`. */
    method LoadDailyClosesUS(ticker: Option<string>, fetch: string -> seq<real>) returns (closes: seq<real>)
      modifies this
      ensures (closes, closeCache) == CachedLoad(old(closeCache), ticker, fetch)
    {
      if ticker.None? { return []; }
      var t := Canon(ticker.value);
      if t == [] { return []; }
      if t in closeCache { return closeCache[t]; }
      closes := fetch(t);
      closeCache := closeCache[t := closes];
    }
  }
}
