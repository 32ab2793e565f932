/** UniverseService: the custom sector lists and the S&P 500 list, cleaned
    when loaded, the set of allowed tickers built from both, and the tag of
    each ticker.  Reading the resources is left to the caller: the sector
    file arrives as its parsed JSON entries and the S&P 500 file as its
    lines, each None when the resource is missing, blank or unreadable.

    The recursions over lines, entries and tickers take the per-item
    cleaning as a function parameter, so that their lemmas reason about the
    loop structure alone; the cleaning itself is stated separately. */
module Universe {
  import opened Common
  import opened JavaStrings

  // ---------------------------------------------------------------------
  // Sector map

  /** One entry of the sector map.  The map is a sequence of entries with
      distinct names; its order stands for the HashMap's iteration order. */
  datatype Sector = Sector(name: string, tickers: seq<string>)
  type SectorMap = seq<Sector>

  /** One entry of the JSON object: the key and the list may be null, and so
      may every element of the list. */
  datatype RawSector = RawSector(key: Option<string>, values: Option<seq<Option<string>>>)

  /** Position of the sector named `k`, or -1. */
  function SectorIndex(m: SectorMap, k: string): (i: int)
    ensures -1 <= i < |m|
    ensures i >= 0 ==> m[i].name == k
    ensures i == -1 ==> forall j :: 0 <= j < |m| ==> m[j].name != k
  {
    if |m| == 0 then -1
    else if m[|m| - 1].name == k then |m| - 1
    else SectorIndex(m[..|m| - 1], k)
  }

  /** `out.put(key, cleaned)`. */
  function PutSector(m: SectorMap, k: string, v: seq<string>): SectorMap
  {
    var i := SectorIndex(m, k);
    if i < 0 then m + [Sector(k, v)] else m[i := Sector(k, v)]
  }

  predicate DistinctNames(m: SectorMap)
  {
    forall i, j :: 0 <= i < j < |m| ==> m[i].name != m[j].name
  }

  lemma SectorIndexAt(m: SectorMap, k: string, i: int)
    requires 0 <= i < |m| && m[i].name == k && DistinctNames(m)
    ensures SectorIndex(m, k) == i
  {
  }

  predicate NoDuplicates(s: seq<string>)
  {
    forall i, j :: 0 <= i < j < |s| ==> s[i] != s[j]
  }

  /** A ticker already in canonical form: trimmed, upper case, non-empty. */
  predicate Canonical(t: string)
  {
    t != [] && Canon(t) == t
  }

  /** `Stream.distinct()`: the first occurrence of each element, in order. */
  function Distinct(s: seq<string>): (r: seq<string>)
    ensures NoDuplicates(r)
    ensures forall x :: x in r <==> x in s
  {
    if |s| == 0 then []
    else
      var n := |s| - 1;
      assert forall x :: x in s <==> x in s[..n] || x == s[n] by {
        assert s == s[..n] + [s[n]];
      }
      var d := Distinct(s[..n]);
      if s[n] in d then d else d + [s[n]]
  }

  /** Index of the first occurrence of `x` in `s`. */
  function FirstIndex(s: seq<string>, x: string): (i: int)
    requires x in s
    ensures 0 <= i < |s| && s[i] == x
    ensures forall j :: 0 <= j < i ==> s[j] != x
  {
    if s[0] == x then 0 else 1 + FirstIndex(s[1..], x)
  }

  lemma FirstIndexAt(s: seq<string>, x: string, i: int)
    requires 0 <= i < |s| && s[i] == x && forall j :: 0 <= j < i ==> s[j] != x
    ensures FirstIndex(s, x) == i
  {
  }

  /** `distinct` keeps elements in the order of their first occurrence. */
  lemma {:induction false} DistinctOrder(s: seq<string>)
    ensures forall i, j :: 0 <= i < j < |Distinct(s)| ==> FirstIndex(s, Distinct(s)[i]) < FirstIndex(s, Distinct(s)[j])
  {
    if |s| > 0 {
      var n := |s| - 1;
      var p := s[..n];
      DistinctOrder(p);
      var dp := Distinct(p);
      var d := Distinct(s);
      forall y | y in p ensures FirstIndex(s, y) == FirstIndex(p, y) {
        FirstIndexAt(s, y, FirstIndex(p, y));
      }
      if s[n] !in dp {
        FirstIndexAt(s, s[n], n);
      }
      forall i, j | 0 <= i < j < |d| ensures FirstIndex(s, d[i]) < FirstIndex(s, d[j]) {
        assert d[i] == dp[i] && dp[i] in p;
        var a := FirstIndex(p, dp[i]);
        assert FirstIndex(s, d[i]) == a;
        if j < |dp| {
          assert d[j] == dp[j] && dp[j] in p;
          assert FirstIndex(s, d[j]) == FirstIndex(p, dp[j]);
          assert a < FirstIndex(p, dp[j]);
        } else {
          assert d[j] == s[n] && FirstIndex(s, d[j]) == n;
          assert a < n;
        }
      }
    }
  }

  /** Null elements dropped, the rest trimmed, blank ones dropped, and
      upper-cased; in list order. */
  function CanonList(vs: seq<Option<string>>): (r: seq<string>)
    ensures forall x :: x in r ==> Canonical(x)
  {
    if |vs| == 0 then []
    else
      var n := |vs| - 1;
      var rest := CanonList(vs[..n]);
      match vs[n]
      case None => rest
      case Some(v) =>
        if Trim(v) == [] then rest
        else
          CanonIdempotent(v);
          rest + [Canon(v)]
  }

  /** The cleaned list of one sector: canonical tickers, no duplicates. */
  function CleanTickers(values: Option<seq<Option<string>>>): (r: seq<string>)
    ensures NoDuplicates(r) && forall x :: x in r ==> Canonical(x)
  {
    match values
    case None => []
    case Some(vs) => Distinct(CanonList(vs))
  }

  /** A null key becomes "", which is then dropped. */
  function CleanKey(key: Option<string>): string
  {
    match key
    case None => []
    case Some(k) => ToLower(Trim(k))
  }

  function SectorKey(): RawSector -> string { (r: RawSector) => CleanKey(r.key) }
  function SectorValues(): RawSector -> seq<string> { (r: RawSector) => CleanTickers(r.values) }

  /** The loop over the JSON entries, given the key and list cleaning. */
  function SectorsBy(raw: seq<RawSector>, key: RawSector -> string, val: RawSector -> seq<string>): SectorMap
  {
    if |raw| == 0 then []
    else
      var n := |raw| - 1;
      var out := SectorsBy(raw[..n], key, val);
      if key(raw[n]) == [] then out else PutSector(out, key(raw[n]), val(raw[n]))
  }

  /** `loadCustomSectorsSafe`. */
  function LoadedSectors(raw: Option<seq<RawSector>>): SectorMap
  {
    match raw
    case None => []
    case Some(entries) => SectorsBy(entries, SectorKey(), SectorValues())
  }

  /** One `put`: the names stay distinct, the key now holds the new list,
      and every other key is where it was. */
  lemma PutSectorLookup(m: SectorMap, k: string, v: seq<string>, q: string)
    requires DistinctNames(m)
    ensures DistinctNames(PutSector(m, k, v))
    ensures SectorIndex(PutSector(m, k, v), k) >= 0
    ensures PutSector(m, k, v)[SectorIndex(PutSector(m, k, v), k)] == Sector(k, v)
    ensures q != k ==> SectorIndex(PutSector(m, k, v), q) == SectorIndex(m, q)
    ensures q != k && SectorIndex(m, q) >= 0 ==> PutSector(m, k, v)[SectorIndex(m, q)] == m[SectorIndex(m, q)]
  {
    var r := PutSector(m, k, v);
    var i := SectorIndex(m, k);
    if i < 0 {
      assert r[..|m|] == m;
      SectorIndexAt(r, k, |m|);
    } else {
      SectorIndexAt(r, k, i);
      if q != k {
        var j := SectorIndex(m, q);
        if j >= 0 {
          SectorIndexAt(r, q, j);
        }
      }
    }
  }

  /** A `put` under a non-empty name keeps every name non-empty. */
  lemma PutSectorNamed(m: SectorMap, k: string, v: seq<string>)
    requires k != [] && forall i :: 0 <= i < |m| ==> m[i].name != []
    ensures forall i :: 0 <= i < |PutSector(m, k, v)| ==> PutSector(m, k, v)[i].name != []
  {
  }

  /** The map the loop builds has distinct, non-empty names. */
  lemma {:induction false} SectorsByNames(raw: seq<RawSector>, key: RawSector -> string, val: RawSector -> seq<string>)
    ensures DistinctNames(SectorsBy(raw, key, val))
    ensures forall i :: 0 <= i < |SectorsBy(raw, key, val)| ==> SectorsBy(raw, key, val)[i].name != []
  {
    if |raw| > 0 {
      var n := |raw| - 1;
      SectorsByNames(raw[..n], key, val);
      if key(raw[n]) != [] {
        PutSectorLookup(SectorsBy(raw[..n], key, val), key(raw[n]), val(raw[n]), key(raw[n]));
        PutSectorNamed(SectorsBy(raw[..n], key, val), key(raw[n]), val(raw[n]));
      }
    }
  }

  /** Each sector of `m` is the cleaned key and list of some entry. */
  predicate FromEntries(m: SectorMap, raw: seq<RawSector>, key: RawSector -> string, val: RawSector -> seq<string>)
  {
    forall i :: 0 <= i < |m| ==>
      exists k :: 0 <= k < |raw| && key(raw[k]) == m[i].name && val(raw[k]) == m[i].tickers
  }

  lemma {:induction false} SectorsBySource(raw: seq<RawSector>, key: RawSector -> string, val: RawSector -> seq<string>)
    ensures FromEntries(SectorsBy(raw, key, val), raw, key, val)
  {
    if |raw| > 0 {
      var n := |raw| - 1;
      var p := raw[..n];
      SectorsBySource(p, key, val);
      var out := SectorsBy(p, key, val);
      var m := SectorsBy(raw, key, val);
      forall j | 0 <= j < |m|
        ensures exists k :: 0 <= k < |raw| && key(raw[k]) == m[j].name && val(raw[k]) == m[j].tickers
      {
        if key(raw[n]) != [] && m[j] == Sector(key(raw[n]), val(raw[n])) {
          assert key(raw[n]) == m[j].name && val(raw[n]) == m[j].tickers;
        } else {
          assert j < |out| && m[j] == out[j];
          var k :| 0 <= k < |p| && key(p[k]) == out[j].name && val(p[k]) == out[j].tickers;
          assert raw[k] == p[k];
        }
      }
    }
  }

  /** Every entry with a non-empty cleaned key has its sector. */
  lemma {:induction false} SectorsByPresent(raw: seq<RawSector>, key: RawSector -> string, val: RawSector -> seq<string>, k: int)
    requires 0 <= k < |raw| && key(raw[k]) != []
    ensures SectorIndex(SectorsBy(raw, key, val), key(raw[k])) >= 0
  {
    var n := |raw| - 1;
    var p := raw[..n];
    var out := SectorsBy(p, key, val);
    SectorsByNames(p, key, val);
    if k < n {
      assert p[k] == raw[k];
      SectorsByPresent(p, key, val, k);
    }
    if key(raw[n]) != [] {
      PutSectorLookup(out, key(raw[n]), val(raw[n]), key(raw[k]));
    }
  }

  /** A key that no later entry repeats holds that entry's list
      (HashMap.put overwrites). */
  lemma {:induction false} SectorsByLast(raw: seq<RawSector>, key: RawSector -> string, val: RawSector -> seq<string>, k: int)
    requires 0 <= k < |raw| && key(raw[k]) != []
    requires forall l :: k < l < |raw| ==> key(raw[l]) != key(raw[k])
    ensures SectorIndex(SectorsBy(raw, key, val), key(raw[k])) >= 0
    ensures SectorsBy(raw, key, val)[SectorIndex(SectorsBy(raw, key, val), key(raw[k]))].tickers == val(raw[k])
  {
    var n := |raw| - 1;
    var p := raw[..n];
    var out := SectorsBy(p, key, val);
    var q := key(raw[k]);
    assert SectorsBy(raw, key, val) == if key(raw[n]) == [] then out else PutSector(out, key(raw[n]), val(raw[n]));
    SectorsByNames(p, key, val);
    if k == n {
      PutSectorLookup(out, q, val(raw[n]), q);
    } else {
      assert p[k] == raw[k];
      assert forall l :: k < l < |p| ==> p[l] == raw[l];
      SectorsByLast(p, key, val, k);
      if key(raw[n]) != [] {
        assert key(raw[n]) != q;
        PutSectorLookup(out, key(raw[n]), val(raw[n]), q);
      }
    }
  }

  /** The loaded map: distinct non-empty names, each the trimmed lower-cased
      key of some entry whose cleaned list it holds; every list canonical
      and free of duplicates. */
  lemma {:induction false} LoadedSectorsShape(raw: seq<RawSector>)
    ensures var m := LoadedSectors(Some(raw));
      && DistinctNames(m)
      && (forall i :: 0 <= i < |m| ==>
            (m[i].name != [] && NoDuplicates(m[i].tickers) && forall x :: x in m[i].tickers ==> Canonical(x)))
      && (forall i :: 0 <= i < |m| ==>
            exists k :: 0 <= k < |raw| && CleanKey(raw[k].key) == m[i].name && CleanTickers(raw[k].values) == m[i].tickers)
  {
    var m := LoadedSectors(Some(raw));
    SectorsByNames(raw, SectorKey(), SectorValues());
    SectorsBySource(raw, SectorKey(), SectorValues());
    forall i | 0 <= i < |m|
      ensures exists k :: 0 <= k < |raw| && CleanKey(raw[k].key) == m[i].name && CleanTickers(raw[k].values) == m[i].tickers
    {
      var k :| 0 <= k < |raw| && SectorKey()(raw[k]) == m[i].name && SectorValues()(raw[k]) == m[i].tickers;
    }
  }

  /** Every entry with a non-blank key is present, and a repeated key holds
      the cleaned list of its last entry. */
  lemma {:induction false} LoadedSectorsLast(raw: seq<RawSector>, k: int)
    requires 0 <= k < |raw|
    ensures CleanKey(raw[k].key) != [] ==> SectorIndex(LoadedSectors(Some(raw)), CleanKey(raw[k].key)) >= 0
    ensures CleanKey(raw[k].key) != [] && (forall l :: k < l < |raw| ==> CleanKey(raw[l].key) != CleanKey(raw[k].key)) ==>
      LoadedSectors(Some(raw))[SectorIndex(LoadedSectors(Some(raw)), CleanKey(raw[k].key))].tickers == CleanTickers(raw[k].values)
  {
    assert SectorKey()(raw[k]) == CleanKey(raw[k].key);
    if CleanKey(raw[k].key) != [] {
      SectorsByPresent(raw, SectorKey(), SectorValues(), k);
      if forall l :: k < l < |raw| ==> CleanKey(raw[l].key) != CleanKey(raw[k].key) {
        assert forall l :: k < l < |raw| ==> SectorKey()(raw[l]) != SectorKey()(raw[k]);
        SectorsByLast(raw, SectorKey(), SectorValues(), k);
      }
    }
  }

  /** The loader's loop over the JSON entries. */
  method LoadCustomSectors(raw: Option<seq<RawSector>>) returns (out: SectorMap)
    ensures out == LoadedSectors(raw)
  {
    out := [];
    if raw.None? { return; }
    var entries := raw.value;
    for i := 0 to |entries|
      invariant out == SectorsBy(entries[..i], SectorKey(), SectorValues())
    {
      assert entries[..i + 1][..i] == entries[..i];
      var key := CleanKey(entries[i].key);
      var cleaned := CleanTickers(entries[i].values);
      assert SectorKey()(entries[i]) == key && SectorValues()(entries[i]) == cleaned;
      if key != [] { out := PutSector(out, key, cleaned); }
    }
    assert entries[..|entries|] == entries;
  }

  // ---------------------------------------------------------------------
  // S&P 500 list

  /** One line of the CSV: nothing for a blank line or a "ticker" header, else
      the first comma field, trimmed and upper-cased, when not empty.  A line
      made only of commas has no first field, and indexing it throws. */
  function Sp500Line(line: string): Result<Option<string>>
  {
    var s := Trim(line);
    if s == [] || EqualsIgnoreCase(s, "ticker") then Success(None)
    else
      var fields := SplitComma(s);
      if |fields| == 0 then Failure(IndexOutOfBounds)
      else
        var first := Canon(fields[0]);
        if first == [] then Success(None) else Success(Some(first))
  }

  function Sp500Parser(): string -> Result<Option<string>> { line => Sp500Line(line) }

  /** The loop over the lines, given the per-line step; the first exception
      ends it. */
  function Scan(lines: seq<string>, step: string -> Result<Option<string>>): Result<set<string>>
  {
    if |lines| == 0 then Success({})
    else
      var n := |lines| - 1;
      match Scan(lines[..n], step)
      case Failure(e) => Failure(e)
      case Success(out) =>
        match step(lines[n])
        case Failure(e) => Failure(e)
        case Success(None) => Success(out)
        case Success(Some(t)) => Success(out + {t})
  }

  /** `loadSp500Safe`: a missing, unreadable or empty file, or any exception
      in the loop, gives the empty set. */
  function Sp500Tickers(lines: Option<seq<string>>): set<string>
  {
    match lines
    case None => {}
    case Some(ls) =>
      match Scan(ls, Sp500Parser())
      case Failure(_) => {}
      case Success(out) => out
  }

  /** Every ticker a line yields is canonical. */
  lemma Sp500LineCanonical(line: string)
    ensures Sp500Line(line).Success? && Sp500Line(line).value.Some? ==> Canonical(Sp500Line(line).value.value)
  {
    var s := Trim(line);
    var fields := SplitComma(s);
    if |fields| > 0 {
      CanonIdempotent(fields[0]);
    }
  }

  /** Without an exception, the set holds exactly the tickers the lines
      yield. */
  lemma {:induction false} ScanContents(lines: seq<string>, step: string -> Result<Option<string>>)
    requires Scan(lines, step).Success?
    ensures forall t :: t in Scan(lines, step).value <==>
      exists k :: 0 <= k < |lines| && step(lines[k]) == Success(Some(t))
  {
    if |lines| > 0 {
      var n := |lines| - 1;
      var p := lines[..n];
      ScanContents(p, step);
      forall t ensures t in Scan(lines, step).value <==>
        exists k :: 0 <= k < |lines| && step(lines[k]) == Success(Some(t))
      {
        if t in Scan(lines, step).value && t in Scan(p, step).value {
          var k :| 0 <= k < |p| && step(p[k]) == Success(Some(t));
          assert lines[k] == p[k];
        }
        if exists k :: 0 <= k < |lines| && step(lines[k]) == Success(Some(t)) {
          var k :| 0 <= k < |lines| && step(lines[k]) == Success(Some(t));
          if k < n { assert lines[k] == p[k]; }
        }
      }
    }
  }

  /** One more line that does not throw. */
  lemma ScanStep(lines: seq<string>, step: string -> Result<Option<string>>, i: int)
    requires 0 <= i < |lines| && Scan(lines[..i], step).Success? && step(lines[i]).Success?
    ensures Scan(lines[..i + 1], step) == Success(
      if step(lines[i]).value.Some? then Scan(lines[..i], step).value + {step(lines[i]).value.value}
      else Scan(lines[..i], step).value)
  {
    assert lines[..i + 1][..i] == lines[..i];
    assert lines[..i + 1][i] == lines[i];
  }

  /** One failing line makes the whole scan fail. */
  lemma {:induction false} ScanFails(lines: seq<string>, step: string -> Result<Option<string>>, k: int)
    requires 0 <= k < |lines| && step(lines[k]).Failure?
    ensures Scan(lines, step).Failure?
    decreases |lines|
  {
    var n := |lines| - 1;
    if k < n {
      assert lines[..n][k] == lines[k];
      ScanFails(lines[..n], step, k);
    }
  }

  /** A failing scan has a failing line. */
  lemma {:induction false} ScanFailsWitness(lines: seq<string>, step: string -> Result<Option<string>>)
    requires Scan(lines, step).Failure?
    ensures exists k :: 0 <= k < |lines| && step(lines[k]).Failure?
  {
    var n := |lines| - 1;
    if Scan(lines[..n], step).Failure? {
      ScanFailsWitness(lines[..n], step);
      var k :| 0 <= k < n && step(lines[..n][k]).Failure?;
      assert lines[..n][k] == lines[k];
    } else {
      assert step(lines[n]).Failure?;
    }
  }

  /** When no line throws, the S&P 500 set holds exactly the tickers its
      lines yield, all of them canonical. */
  lemma {:induction false} Sp500Contents(lines: seq<string>)
    requires forall k :: 0 <= k < |lines| ==> Sp500Line(lines[k]).Success?
    ensures forall t :: t in Sp500Tickers(Some(lines)) <==>
      exists k :: 0 <= k < |lines| && Sp500Line(lines[k]) == Success(Some(t))
    ensures forall t :: t in Sp500Tickers(Some(lines)) ==> Canonical(t)
  {
    var f := Sp500Parser();
    assert forall k :: 0 <= k < |lines| ==> f(lines[k]) == Sp500Line(lines[k]);
    if Scan(lines, f).Failure? {
      ScanFailsWitness(lines, f);
    }
    ScanContents(lines, f);
    forall t | t in Sp500Tickers(Some(lines)) ensures Canonical(t) {
      var k :| 0 <= k < |lines| && f(lines[k]) == Success(Some(t));
      Sp500LineCanonical(lines[k]);
    }
  }

  /** A single line made only of commas empties the whole list. */
  lemma CommaLineEmptiesList(lines: seq<string>, k: int)
    requires 0 <= k < |lines|
    requires |Trim(lines[k])| > 0 && forall c :: 0 <= c < |Trim(lines[k])| ==> Trim(lines[k])[c] == ','
    ensures Sp500Tickers(Some(lines)) == {}
  {
    var s := Trim(lines[k]);
    SplitOnlyCommas(s);
    assert s[0] == ',';
    assert !EqualsIgnoreCase(s, "ticker");
    assert Sp500Parser()(lines[k]).Failure?;
    ScanFails(lines, Sp500Parser(), k);
  }

  /** The loader's loop over the lines; an exception in it is caught and
      the empty set returned. */
  method LoadSp500(lines: Option<seq<string>>) returns (out: set<string>)
    ensures out == Sp500Tickers(lines)
  {
    out := {};
    if lines.None? { return; }
    var ls := lines.value;
    for i := 0 to |ls|
      invariant Scan(ls[..i], Sp500Parser()) == Success(out)
    {
      var r := Sp500Line(ls[i]);
      assert Sp500Parser()(ls[i]) == r;
      if r.Failure? {
        ScanFails(ls, Sp500Parser(), i);
        return {};
      }
      ScanStep(ls, Sp500Parser(), i);
      if r.value.Some? { out := out + {r.value.value}; }
    }
    assert ls[..|ls|] == ls;
  }

  // ---------------------------------------------------------------------
  // Allowed set and lookups

  /** Every ticker of every sector list. */
  function SectorTickers(m: SectorMap): set<string>
  {
    set i, j | 0 <= i < |m| && 0 <= j < |m[i].tickers| :: m[i].tickers[j]
  }

  /** The constructor's stream pipeline over `sp500 ∪ all sector lists`:
      trim, drop empty strings, upper-case. */
  function AllowedTickers(sp500: set<string>, m: SectorMap): set<string>
  {
    set t | t in sp500 + SectorTickers(m) && Trim(t) != [] :: Canon(t)
  }

  /** Every allowed ticker is canonical, and when both inputs are already
      canonical (as the loaders make them) the pipeline is the plain union. */
  lemma AllowedIsUnion(sp500: set<string>, m: SectorMap)
    ensures forall t :: t in AllowedTickers(sp500, m) ==> Canonical(t)
    ensures (forall t :: t in sp500 + SectorTickers(m) ==> Canonical(t))
      ==> AllowedTickers(sp500, m) == sp500 + SectorTickers(m)
  {
    forall t | t in sp500 + SectorTickers(m) && Trim(t) != [] ensures Canonical(Canon(t)) {
      CanonIdempotent(t);
    }
    if forall t :: t in sp500 + SectorTickers(m) ==> Canonical(t) {
      forall t | t in sp500 + SectorTickers(m) ensures t in AllowedTickers(sp500, m) {
        assert |Canon(t)| == |Trim(t)| by { CanonIdempotent(t); }
      }
    }
  }

  /** `isAllowed`. */
  predicate IsAllowed(allowed: set<string>, ticker: Option<string>)
  {
    ticker.Some? && Canon(ticker.value) in allowed
  }

  /** Membership ignores surrounding whitespace and letter case: a ticker is
      allowed exactly when its canonical form is; null never is. */
  lemma IsAllowedCanonical(allowed: set<string>, ticker: string)
    ensures IsAllowed(allowed, Some(ticker)) == IsAllowed(allowed, Some(Canon(ticker)))
    ensures !IsAllowed(allowed, None)
  {
    CanonIdempotent(ticker);
  }

  /** `getTickersForSector`: null gives the empty list, otherwise the list
      under the lower-cased name, or the empty list. */
  function TickersForSector(m: SectorMap, sector: Option<string>): seq<string>
  {
    match sector
    case None => []
    case Some(s) =>
      var i := SectorIndex(m, ToLower(s));
      if i < 0 then [] else m[i].tickers
  }

  /** The lookup does not depend on the letter case of the name. */
  lemma {:induction false} TickersForSectorAnyCase(m: SectorMap, sector: string)
    ensures TickersForSector(m, Some(ToUpper(sector))) == TickersForSector(m, Some(sector))
    ensures TickersForSector(m, Some(ToLower(sector))) == TickersForSector(m, Some(sector))
  {
    assert ToLower(ToUpper(sector)) == ToLower(sector);
    assert ToLower(ToLower(sector)) == ToLower(sector);
  }

  // ---------------------------------------------------------------------
  // Tags

  /** The key a ticker is tagged under: none for a blank one, else its
      canonical form. */
  function TagKey(t: string): Option<string>
  {
    if IsBlank(t) then None else Some(Canon(t))
  }

  function TagKeys(): string -> Option<string> { t => TagKey(t) }

  /** The first loop, given the key function: every keyed S&P 500 ticker
      tagged "sp500". */
  function KeyedSp500(sp500: set<string>, key: string -> Option<string>): map<string, string>
  {
    map t | t in sp500 && key(t).Some? :: key(t).value := "sp500"
  }

  /** The inner loop: the tickers of one list tagged with its name. */
  function TagList(tags: map<string, string>, ts: seq<string>, name: string, key: string -> Option<string>): map<string, string>
  {
    if |ts| == 0 then tags
    else
      var n := |ts| - 1;
      var t := TagList(tags, ts[..n], name, key);
      if key(ts[n]).None? then t else t[key(ts[n]).value := name]
  }

  /** The outer loop over the sectors, in map order. */
  function Overlay(tags: map<string, string>, m: SectorMap, key: string -> Option<string>): map<string, string>
  {
    if |m| == 0 then tags
    else
      var n := |m| - 1;
      TagList(Overlay(tags, m[..n], key), m[n].tickers, m[n].name, key)
  }

  /** `getTickerTags`. */
  function TickerTags(sp500: set<string>, m: SectorMap): map<string, string>
  {
    Overlay(KeyedSp500(sp500, TagKeys()), m, TagKeys())
  }

  /** Some ticker of list `ts` is keyed `k`. */
  predicate InList(ts: seq<string>, k: string, key: string -> Option<string>)
  {
    exists j :: 0 <= j < |ts| && key(ts[j]) == Some(k)
  }

  /** Some ticker of some sector list is keyed `k`. */
  predicate InSector(m: SectorMap, k: string, key: string -> Option<string>)
  {
    exists i :: 0 <= i < |m| && InList(m[i].tickers, k, key)
  }

  lemma {:induction false} TagListEffect(tags: map<string, string>, ts: seq<string>, name: string, key: string -> Option<string>, k: string)
    ensures InList(ts, k, key) ==> (k in TagList(tags, ts, name, key) && TagList(tags, ts, name, key)[k] == name)
    ensures !InList(ts, k, key) ==> ((k in TagList(tags, ts, name, key) <==> k in tags)
      && (k in tags ==> TagList(tags, ts, name, key)[k] == tags[k]))
  {
    if |ts| > 0 {
      var n := |ts| - 1;
      var p := ts[..n];
      TagListEffect(tags, p, name, key, k);
      if InList(p, k, key) {
        var j :| 0 <= j < |p| && key(p[j]) == Some(k);
        assert ts[j] == p[j];
      }
      if InList(ts, k, key) && !InList(p, k, key) {
        var j :| 0 <= j < |ts| && key(ts[j]) == Some(k);
      }
      if !InList(ts, k, key) {
        assert key(ts[n]) != Some(k);
      }
    }
  }

  /** A key from some sector list is tagged with the name of a sector whose
      list holds it; any other key keeps its earlier tag. */
  lemma {:induction false} OverlayEffect(tags: map<string, string>, m: SectorMap, key: string -> Option<string>, k: string)
    ensures InSector(m, k, key) ==> (k in Overlay(tags, m, key)
      && exists i :: 0 <= i < |m| && InList(m[i].tickers, k, key) && Overlay(tags, m, key)[k] == m[i].name)
    ensures !InSector(m, k, key) ==> ((k in Overlay(tags, m, key) <==> k in tags)
      && (k in tags ==> Overlay(tags, m, key)[k] == tags[k]))
  {
    if |m| > 0 {
      var n := |m| - 1;
      var p := m[..n];
      OverlayEffect(tags, p, key, k);
      TagListEffect(Overlay(tags, p, key), m[n].tickers, m[n].name, key, k);
      if InList(m[n].tickers, k, key) {
        assert InList(m[n].tickers, k, key) && Overlay(tags, m, key)[k] == m[n].name;
      } else if InSector(p, k, key) {
        var i :| 0 <= i < |p| && InList(p[i].tickers, k, key) && Overlay(tags, p, key)[k] == p[i].name;
        assert m[i] == p[i];
      }
      if InSector(m, k, key) && !InSector(p, k, key) {
        var i :| 0 <= i < |m| && InList(m[i].tickers, k, key);
      }
    }
  }

  /** The tags: a non-blank S&P 500 or sector ticker has one under its
      canonical form and nothing else has; a ticker of some sector list
      carries the name of a sector holding it, whatever the map's order; any
      other carries "sp500". */
  lemma {:induction false} TickerTagsRule(sp500: set<string>, m: SectorMap, k: string)
    ensures var tags := TickerTags(sp500, m);
      && (k in tags <==> InSector(m, k, TagKeys()) || exists t :: t in sp500 && TagKey(t) == Some(k))
      && (InSector(m, k, TagKeys()) ==>
            exists i :: 0 <= i < |m| && InList(m[i].tickers, k, TagKeys()) && tags[k] == m[i].name)
      && (!InSector(m, k, TagKeys()) && k in tags ==> tags[k] == "sp500")
  {
    var base := KeyedSp500(sp500, TagKeys());
    OverlayEffect(base, m, TagKeys(), k);
    if k in base {
      var t :| t in sp500 && TagKeys()(t).Some? && TagKeys()(t).value == k;
      assert TagKey(t) == Some(k);
    }
    if exists t :: t in sp500 && TagKey(t) == Some(k) {
      var t :| t in sp500 && TagKey(t) == Some(k);
      assert TagKeys()(t) == Some(k);
    }
  }

  lemma KeyedSp500Add(done: set<string>, t: string, key: string -> Option<string>)
    ensures KeyedSp500(done + {t}, key) ==
      if key(t).None? then KeyedSp500(done, key) else KeyedSp500(done, key)[key(t).value := "sp500"]
  {
  }

  /** One more ticker of a sector list. */
  lemma TagListStep(tags: map<string, string>, ts: seq<string>, j: int, name: string)
    requires 0 <= j < |ts|
    ensures TagList(tags, ts[..j + 1], name, TagKeys()) ==
      if IsBlank(ts[j]) then TagList(tags, ts[..j], name, TagKeys())
      else TagList(tags, ts[..j], name, TagKeys())[Canon(ts[j]) := name]
  {
    assert ts[..j + 1][..j] == ts[..j];
    assert ts[..j + 1][j] == ts[j];
    assert TagKeys()(ts[j]) == TagKey(ts[j]);
  }

  /** One more sector. */
  lemma OverlayStep(tags: map<string, string>, m: SectorMap, i: int, key: string -> Option<string>)
    requires 0 <= i < |m|
    ensures Overlay(tags, m[..i + 1], key) == TagList(Overlay(tags, m[..i], key), m[i].tickers, m[i].name, key)
  {
    assert m[..i + 1][..i] == m[..i];
    assert m[..i + 1][i] == m[i];
  }

  /** The two loops of `getTickerTags`. */
  method GetTickerTags(sp500: set<string>, m: SectorMap) returns (tagByTicker: map<string, string>)
    ensures tagByTicker == TickerTags(sp500, m)
  {
    tagByTicker := map[];
    var rest := sp500;
    while rest != {}
      invariant rest <= sp500
      invariant tagByTicker == KeyedSp500(sp500 - rest, TagKeys())
      decreases |rest|
    {
      var t :| t in rest;
      KeyedSp500Add(sp500 - rest, t, TagKeys());
      assert sp500 - (rest - {t}) == (sp500 - rest) + {t};
      if !IsBlank(t) { tagByTicker := tagByTicker[Canon(t) := "sp500"]; }
      rest := rest - {t};
    }
    assert sp500 - rest == sp500;
    for i := 0 to |m|
      invariant tagByTicker == Overlay(KeyedSp500(sp500, TagKeys()), m[..i], TagKeys())
    {
      OverlayStep(KeyedSp500(sp500, TagKeys()), m, i, TagKeys());
      var ts := m[i].tickers;
      var before := tagByTicker;
      for j := 0 to |ts|
        invariant tagByTicker == TagList(before, ts[..j], m[i].name, TagKeys())
      {
        TagListStep(before, ts, j, m[i].name);
        if !IsBlank(ts[j]) { tagByTicker := tagByTicker[Canon(ts[j]) := m[i].name]; }
      }
      assert ts[..|ts|] == ts;
    }
    assert m[..|m|] == m;
  }

  // ---------------------------------------------------------------------
  // The service

  /** The service's three final fields. */
  datatype UniverseState = UniverseState(sectorMap: SectorMap, sp500Tickers: set<string>, allowedTickers: set<string>)

  /** What the constructor sets up. */
  function UniverseOf(raw: Option<seq<RawSector>>, lines: Option<seq<string>>): UniverseState
  {
    var m := LoadedSectors(raw);
    var sp := Sp500Tickers(lines);
    UniverseState(m, sp, AllowedTickers(sp, m))
  }

  /** Every S&P 500 ticker and every sector ticker the loaders keep is
      canonical. */
  lemma {:induction false} LoadedCanonical(raw: Option<seq<RawSector>>, lines: Option<seq<string>>)
    ensures forall t :: t in Sp500Tickers(lines) ==> Canonical(t)
    ensures forall t :: t in SectorTickers(LoadedSectors(raw)) ==> Canonical(t)
  {
    if raw.Some? { LoadedSectorsShape(raw.value); }
    var m := LoadedSectors(raw);
    forall t | t in SectorTickers(m) ensures Canonical(t) {
      var i, j :| 0 <= i < |m| && 0 <= j < |m[i].tickers| && m[i].tickers[j] == t;
      assert t in m[i].tickers;
    }
    if lines.Some? && Scan(lines.value, Sp500Parser()).Success? {
      var ls := lines.value;
      var f := Sp500Parser();
      ScanContents(ls, f);
      forall t | t in Sp500Tickers(lines) ensures Canonical(t) {
        var k :| 0 <= k < |ls| && f(ls[k]) == Success(Some(t));
        Sp500LineCanonical(ls[k]);
      }
    }
  }

  /** The allowed set is the union of the S&P 500 set and every sector list,
      all of it canonical. */
  lemma {:induction false} UniverseAllowed(raw: Option<seq<RawSector>>, lines: Option<seq<string>>)
    ensures var u := UniverseOf(raw, lines);
      && u.allowedTickers == u.sp500Tickers + SectorTickers(u.sectorMap)
      && forall t :: t in u.allowedTickers ==> Canonical(t)
  {
    LoadedCanonical(raw, lines);
    AllowedIsUnion(Sp500Tickers(lines), LoadedSectors(raw));
  }

  /** The constructor. */
  method NewUniverse(raw: Option<seq<RawSector>>, lines: Option<seq<string>>) returns (u: UniverseState)
    ensures u == UniverseOf(raw, lines)
  {
    var m := LoadCustomSectors(raw);
    var sp := LoadSp500(lines);
    u := UniverseState(m, sp, AllowedTickers(sp, m));
  }
}
