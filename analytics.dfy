/** The figures of the analytics dashboard
    (components/dashboard/AnalyticsDashboard.tsx), computed over the stored
    leads: the four-entry status distribution, the per-industry and
    per-country tallies, the totals of the fixed weekly series, the response
    rate, the average relevance and the best industry. Rates and averages are
    kept as integer quotients; their `toFixed(1)` rendering is not modelled. */
module Analytics {
  import opened Wrappers
  import opened Collections
  import opened Leads
  import opened LeadManagement

  // ---------------------------------------------------------------------
  // Status distribution
  // ---------------------------------------------------------------------

  /** One slice of the status chart. */
  datatype Slice = Slice(name: string, value: nat)

  /** `statusData`: one slice per status, in the fixed order, each counting
      the leads with that status; the four counts add up to the number of
      leads. */
  function StatusData(leads: seq<Lead>): (r: seq<Slice>)
    ensures |r| == 4
    ensures r[0] == Slice(StatusName(New), multiset(StatusesOf(leads))[New])
    ensures r[1] == Slice(StatusName(HighPotential), multiset(StatusesOf(leads))[HighPotential])
    ensures r[2] == Slice(StatusName(FollowUp), multiset(StatusesOf(leads))[FollowUp])
    ensures r[3] == Slice(StatusName(NotConnected), multiset(StatusesOf(leads))[NotConnected])
    ensures r[0].value + r[1].value + r[2].value + r[3].value == |leads|
  {
    var counts := GetStatusCounts(leads);
    [Slice(StatusName(New), counts.newLeads),
     Slice(StatusName(HighPotential), counts.highPotential),
     Slice(StatusName(FollowUp), counts.followUp),
     Slice(StatusName(NotConnected), counts.notConnected)]
  }

  // ---------------------------------------------------------------------
  // Industry and country tallies
  // ---------------------------------------------------------------------

  /** One row of a tally chart: a key and the number of leads carrying it. */
  datatype Tally = Tally(key: string, count: nat)

  function KeysOf(rows: seq<Tally>): (r: seq<string>)
    ensures |r| == |rows| && forall j :: 0 <= j < |rows| ==> r[j] == rows[j].key
  {
    if rows == [] then [] else [rows[0].key] + KeysOf(rows[1..])
  }

  function TotalCount(rows: seq<Tally>): nat
  {
    if rows == [] then 0 else rows[0].count + TotalCount(rows[1..])
  }

  lemma {:induction false} TotalCountSnoc(rows: seq<Tally>, t: Tally)
    ensures TotalCount(rows + [t]) == TotalCount(rows) + t.count
  {
    if rows != [] {
      assert (rows + [t])[1..] == rows[1..] + [t];
      TotalCountSnoc(rows[1..], t);
    }
  }

  lemma {:induction false} TotalCountUpdate(rows: seq<Tally>, j: nat, t: Tally)
    requires j < |rows|
    ensures TotalCount(rows[j := t]) == TotalCount(rows) - rows[j].count + t.count
  {
    if j > 0 {
      assert rows[j := t][1..] == rows[1..][j - 1 := t];
      TotalCountUpdate(rows[1..], j - 1, t);
    } else {
      assert rows[j := t][1..] == rows[1..];
    }
  }

  /** `acc.find(item => item.key === key)`: the index of the first row with
      the key, or `|rows|` when there is none. */
  function FindKey(rows: seq<Tally>, key: string): (j: nat)
    ensures j <= |rows|
    ensures j < |rows| ==> rows[j].key == key
    ensures forall i :: 0 <= i < j ==> rows[i].key != key
  {
    if rows == [] then 0
    else if rows[0].key == key then 0
    else 1 + FindKey(rows[1..], key)
  }

  /** One step of the `reduce`: a row whose key was seen has its count
      bumped in place, an unseen key gets a new row with count 1 at the end. */
  function Step(rows: seq<Tally>, key: string): seq<Tally>
  {
    var found := FindKey(rows, key);
    if found < |rows| then rows[found := Tally(key, rows[found].count + 1)]
    else rows + [Tally(key, 1)]
  }

  /** The accumulator after the `reduce` has seen `keys`. */
  function Tallied(keys: seq<string>): seq<Tally>
  {
    if keys == [] then [] else Step(Tallied(keys[..|keys| - 1]), keys[|keys| - 1])
  }

  /** One more key is one more step. */
  lemma TalliedSnoc(keys: seq<string>, i: nat)
    requires i < |keys|
    ensures Tallied(keys[..i + 1]) == Step(Tallied(keys[..i]), keys[i])
  {
    assert keys[..i + 1][..i] == keys[..i];
  }

  /** `rows` tallies `keys`: its keys are the distinct keys in order of
      first appearance, and each row counts how often its key occurs. */
  ghost predicate TallyOf(rows: seq<Tally>, keys: seq<string>)
  {
    KeysOf(rows) == Distinct(keys) && CountsOf(rows, keys)
  }

  /** Each row counts how often its key occurs, at least once. */
  ghost predicate CountsOf(rows: seq<Tally>, keys: seq<string>)
  {
    forall j :: 0 <= j < |rows| ==> rows[j].count == multiset(keys)[rows[j].key] >= 1
  }

  /** A key already tallied: bumping its row tallies the longer input. */
  lemma TallyBump(rows: seq<Tally>, keys: seq<string>, key: string, found: nat)
    requires TallyOf(rows, keys)
    requires found < |rows| && rows[found].key == key
    ensures TallyOf(rows[found := Tally(key, rows[found].count + 1)], keys + [key])
    ensures TotalCount(rows[found := Tally(key, rows[found].count + 1)]) == TotalCount(rows) + 1
  {
    BumpedKeys(rows, keys, key, found);
    BumpedCounts(rows, keys, key, found);
    TotalCountUpdate(rows, found, Tally(key, rows[found].count + 1));
  }

  /** The bumped key was seen, so the distinct keys stay as they are, and
      no other row carries it. */
  lemma BumpedKeys(rows: seq<Tally>, keys: seq<string>, key: string, found: nat)
    requires KeysOf(rows) == Distinct(keys)
    requires found < |rows| && rows[found].key == key
    ensures KeysOf(rows[found := Tally(key, rows[found].count + 1)]) == Distinct(keys + [key])
    ensures forall j :: 0 <= j < |rows| && j != found ==> rows[j].key != key
  {
    assert KeysOf(rows)[found] == key;
    DistinctSnoc(keys, key);
    DistinctHasNoDuplicates(keys);
    assert KeysOf(rows[found := Tally(key, rows[found].count + 1)]) == KeysOf(rows);
    forall j | 0 <= j < |rows| && j != found
      ensures rows[j].key != key
    {
      assert KeysOf(rows)[j] != KeysOf(rows)[found];
    }
  }

  /** The bumped row gains the new occurrence; the others keep theirs. */
  lemma BumpedCounts(rows: seq<Tally>, keys: seq<string>, key: string, found: nat)
    requires CountsOf(rows, keys)
    requires found < |rows| && rows[found].key == key
    requires forall j :: 0 <= j < |rows| && j != found ==> rows[j].key != key
    ensures CountsOf(rows[found := Tally(key, rows[found].count + 1)], keys + [key])
  {
    var bumped := rows[found := Tally(key, rows[found].count + 1)];
    assert multiset(keys + [key]) == multiset(keys) + multiset{key};
    forall j | 0 <= j < |bumped|
      ensures bumped[j].count == multiset(keys + [key])[bumped[j].key] >= 1
    {
      if j != found {
        assert bumped[j] == rows[j];
      }
    }
  }

  /** A key not yet tallied: a new row with count 1 tallies the longer
      input. */
  lemma TallyAdd(rows: seq<Tally>, keys: seq<string>, key: string)
    requires TallyOf(rows, keys)
    requires forall j :: 0 <= j < |rows| ==> rows[j].key != key
    ensures TallyOf(rows + [Tally(key, 1)], keys + [key])
    ensures TotalCount(rows + [Tally(key, 1)]) == TotalCount(rows) + 1
  {
    AddedKeys(rows, keys, key);
    AddedCounts(rows, keys, key);
    TotalCountSnoc(rows, Tally(key, 1));
  }

  /** The new row's key is the next distinct key. */
  lemma AddedKeys(rows: seq<Tally>, keys: seq<string>, key: string)
    requires KeysOf(rows) == Distinct(keys)
    requires forall j :: 0 <= j < |rows| ==> rows[j].key != key
    ensures key !in keys
    ensures KeysOf(rows + [Tally(key, 1)]) == Distinct(keys + [key])
  {
    assert key !in KeysOf(rows);
    assert key !in Distinct(keys);
    DistinctSnoc(keys, key);
    assert Distinct(keys + [key]) == KeysOf(rows) + [key];
    KeysOfSnoc(rows, Tally(key, 1));
  }

  /** Appending a row appends its key. */
  lemma KeysOfSnoc(rows: seq<Tally>, t: Tally)
    ensures KeysOf(rows + [t]) == KeysOf(rows) + [t.key]
  {
  }

  /** The old rows keep their counts and the new key occurs once. */
  lemma AddedCounts(rows: seq<Tally>, keys: seq<string>, key: string)
    requires CountsOf(rows, keys)
    requires forall j :: 0 <= j < |rows| ==> rows[j].key != key
    requires key !in keys
    ensures CountsOf(rows + [Tally(key, 1)], keys + [key])
  {
    var added := rows + [Tally(key, 1)];
    assert multiset(keys + [key]) == multiset(keys) + multiset{key};
    forall j | 0 <= j < |added|
      ensures added[j].count == multiset(keys + [key])[added[j].key] >= 1
    {
      if j < |rows| {
        assert added[j] == rows[j];
      }
    }
  }

  /** The accumulator tallies its input, and its counts add up to the
      input's length. */
  lemma {:induction false} TalliedIsTally(keys: seq<string>)
    ensures TallyOf(Tallied(keys), keys)
    ensures TotalCount(Tallied(keys)) == |keys|
  {
    if keys != [] {
      var init, key := keys[..|keys| - 1], keys[|keys| - 1];
      assert keys == init + [key];
      TalliedIsTally(init);
      var rows := Tallied(init);
      var found := FindKey(rows, key);
      if found < |rows| {
        TallyBump(rows, init, key, found);
      } else {
        TallyAdd(rows, init, key);
      }
    }
  }

  /** What a tally promises: each key present once, in order of first
      appearance, with a positive count. */
  lemma TallyProperties(rows: seq<Tally>, keys: seq<string>)
    requires TallyOf(rows, keys)
    ensures forall x :: x in KeysOf(rows) <==> x in keys
    ensures forall a, b :: 0 <= a < b < |rows| ==> rows[a].key != rows[b].key
    ensures forall a, b :: 0 <= a < b < |rows| ==> FirstIndex(keys, rows[a].key) < FirstIndex(keys, rows[b].key)
  {
    DistinctHasNoDuplicates(keys);
    forall a, b | 0 <= a < b < |rows|
      ensures rows[a].key != rows[b].key
      ensures FirstIndex(keys, rows[a].key) < FirstIndex(keys, rows[b].key)
    {
      assert KeysOf(rows)[a] == rows[a].key && KeysOf(rows)[b] == rows[b].key;
      DistinctFirstAppearanceOrder(keys, a, b);
    }
  }

  /** Everything `CountByKey` promises, about the reference accumulator. */
  lemma TalliedProperties(keys: seq<string>, acc: seq<Tally>)
    requires acc == Tallied(keys)
    ensures KeysOf(acc) == Distinct(keys)
    ensures forall x :: x in KeysOf(acc) <==> x in keys
    ensures forall a, b :: 0 <= a < b < |acc| ==> acc[a].key != acc[b].key
    ensures forall a, b :: 0 <= a < b < |acc| ==> FirstIndex(keys, acc[a].key) < FirstIndex(keys, acc[b].key)
    ensures forall j :: 0 <= j < |acc| ==> acc[j].count == multiset(keys)[acc[j].key] >= 1
    ensures TotalCount(acc) == |keys|
  {
    TalliedIsTally(keys);
    TallyProperties(acc, keys);
  }

  /** The `reduce` behind `industryData` and `locationData`, with the
      accumulator updated in place. The rows are the distinct keys in order
      of first appearance, each counting its occurrences, so every count is
      at least 1 and the counts add up to the number of keys. */
  method CountByKey(keys: seq<string>) returns (acc: seq<Tally>)
    ensures acc == Tallied(keys)
    ensures KeysOf(acc) == Distinct(keys)
    ensures forall x :: x in KeysOf(acc) <==> x in keys
    ensures forall a, b :: 0 <= a < b < |acc| ==> acc[a].key != acc[b].key
    ensures forall a, b :: 0 <= a < b < |acc| ==> FirstIndex(keys, acc[a].key) < FirstIndex(keys, acc[b].key)
    ensures forall j :: 0 <= j < |acc| ==> acc[j].count == multiset(keys)[acc[j].key] >= 1
    ensures TotalCount(acc) == |keys|
  {
    acc := [];
    var i := 0;
    while i < |keys|
      invariant 0 <= i <= |keys|
      invariant acc == Tallied(keys[..i])
    {
      var key := keys[i];
      TalliedSnoc(keys, i);
      var found := FindKey(acc, key);
      if found < |acc| {
        acc := acc[found := Tally(key, acc[found].count + 1)];
      } else {
        acc := acc + [Tally(key, 1)];
      }
      i := i + 1;
    }
    assert keys[..|keys|] == keys;
    TalliedProperties(keys, acc);
  }

  /** `lead.location.country` of every lead, in order. */
  function CountriesOf(leads: seq<Lead>): (r: seq<string>)
    ensures |r| == |leads| && forall i :: 0 <= i < |leads| ==> r[i] == leads[i].location.country
  {
    if leads == [] then [] else [leads[0].location.country] + CountriesOf(leads[1..])
  }

  /** `industryData`: one row per industry present. */
  method IndustryData(leads: seq<Lead>) returns (rows: seq<Tally>)
    ensures KeysOf(rows) == Distinct(IndustriesOf(leads))
    ensures forall j :: 0 <= j < |rows| ==> rows[j].count == multiset(IndustriesOf(leads))[rows[j].key] >= 1
    ensures TotalCount(rows) == |leads|
  {
    rows := CountByKey(IndustriesOf(leads));
  }

  /** `locationData`: one row per country present. */
  method LocationData(leads: seq<Lead>) returns (rows: seq<Tally>)
    ensures KeysOf(rows) == Distinct(CountriesOf(leads))
    ensures forall j :: 0 <= j < |rows| ==> rows[j].count == multiset(CountriesOf(leads))[rows[j].key] >= 1
    ensures TotalCount(rows) == |leads|
  {
    rows := CountByKey(CountriesOf(leads));
  }

  // ---------------------------------------------------------------------
  // Best industry
  // ---------------------------------------------------------------------

  /** `rows.reduce((max, item) => item.count > max.count ? item : max, ...)`
      from position `i` on, with `best` the row kept so far: the result is a
      row of maximal count, and no earlier row reaches that count, since the
      strict `>` keeps the earlier of two equal rows. */
  function ReduceMax(rows: seq<Tally>, i: nat, best: nat): (r: nat)
    requires best < |rows| && best <= i <= |rows|
    requires forall j :: 0 <= j < i ==> rows[j].count <= rows[best].count
    requires forall j :: 0 <= j < best ==> rows[j].count < rows[best].count
    ensures r < |rows|
    ensures forall j :: 0 <= j < |rows| ==> rows[j].count <= rows[r].count
    ensures forall j :: 0 <= j < r ==> rows[j].count < rows[r].count
    decreases |rows| - i
  {
    if i == |rows| then best
    else ReduceMax(rows, i + 1, if rows[i].count > rows[best].count then i else best)
  }

  /** The best-performing industry: none for no data, otherwise the key of
      the first row with the largest count. */
  function BestIndustry(rows: seq<Tally>): (r: Option<string>)
    ensures r.None? <==> rows == []
    ensures r.Some? ==>
      exists b :: && 0 <= b < |rows| && rows[b].key == r.value
                  && (forall j :: 0 <= j < |rows| ==> rows[j].count <= rows[b].count)
                  && (forall j :: 0 <= j < b ==> rows[j].count < rows[b].count)
  {
    if rows == [] then None else Some(rows[ReduceMax(rows, 0, 0)].key)
  }

  // ---------------------------------------------------------------------
  // Weekly series, rates and averages
  // ---------------------------------------------------------------------

  /** One day of the simulated weekly series. */
  datatype DayStats = DayStats(day: string, discovered: nat, contacted: nat, responded: nat)

  const WeeklyData: seq<DayStats> := [
    DayStats("Mon", 12, 8, 3),
    DayStats("Tue", 15, 11, 5),
    DayStats("Wed", 18, 13, 7),
    DayStats("Thu", 14, 9, 4),
    DayStats("Fri", 20, 15, 8),
    DayStats("Sat", 8, 5, 2),
    DayStats("Sun", 5, 3, 1)]

  /** The three summed columns of the series. */
  datatype Column = Discovered | Contacted | Responded

  function Value(d: DayStats, c: Column): nat
  {
    match c
    case Discovered => d.discovered
    case Contacted => d.contacted
    case Responded => d.responded
  }

  /** `weeklyData.reduce((sum, day) => sum + day.<column>, 0)`. */
  function Total(rows: seq<DayStats>, c: Column): nat
  {
    if rows == [] then 0 else Value(rows[0], c) + Total(rows[1..], c)
  }

  /** The fixed series totals 92 discovered, 64 contacted, 30 responded. */
  lemma WeeklyTotals()
    ensures Total(WeeklyData, Discovered) == 92
    ensures Total(WeeklyData, Contacted) == 64
    ensures Total(WeeklyData, Responded) == 30
  {
  }

  /** A column that is at most another on every row is at most it in total. */
  lemma {:induction false} TotalMonotone(rows: seq<DayStats>, lo: Column, hi: Column)
    requires forall i :: 0 <= i < |rows| ==> Value(rows[i], lo) <= Value(rows[i], hi)
    ensures Total(rows, lo) <= Total(rows, hi)
  {
    if rows != [] {
      TotalMonotone(rows[1..], lo, hi);
    }
  }

  /** A guarded quotient: `'0'` when the denominator would be zero, else
      `num / den`. */
  datatype Figure = ZeroFigure | Quotient(num: int, den: nat)

  /** `responseRate`: responses times 100 over contacts, or `'0'` when no
      one was contacted. */
  function ResponseRate(rows: seq<DayStats>): (f: Figure)
    ensures f.Quotient? <==> Total(rows, Contacted) > 0
    ensures f.Quotient? ==> f.den == Total(rows, Contacted) && f.num == 100 * Total(rows, Responded)
  {
    var contacted := Total(rows, Contacted);
    if contacted > 0 then Quotient(100 * Total(rows, Responded), contacted) else ZeroFigure
  }

  /** When nobody responds more than was contacted, the rate is at most 100%. */
  lemma ResponseRateAtMost100(rows: seq<DayStats>)
    requires forall i :: 0 <= i < |rows| ==> rows[i].responded <= rows[i].contacted
    ensures ResponseRate(rows).Quotient? ==> 0 <= ResponseRate(rows).num <= 100 * ResponseRate(rows).den
  {
    TotalMonotone(rows, Responded, Contacted);
  }

  /** For the fixed series the rate is 3000/64, shown as 46.9%. */
  lemma WeeklyResponseRate()
    ensures ResponseRate(WeeklyData) == Quotient(3000, 64)
  {
    WeeklyTotals();
  }

  /** The sum of the relevance scores. */
  function ScoreSum(leads: seq<Lead>): int
  {
    if leads == [] then 0 else leads[0].relevanceScore + ScoreSum(leads[1..])
  }

  /** `avgRelevanceScore`: the score sum over the number of leads, or `'0'`
      for no leads. */
  function AvgRelevance(leads: seq<Lead>): (f: Figure)
    ensures f.Quotient? <==> |leads| > 0
    ensures f.Quotient? ==> f.den == |leads| && f.num == ScoreSum(leads)
  {
    if |leads| > 0 then Quotient(ScoreSum(leads), |leads|) else ZeroFigure
  }

  /** Scores within [lo, hi] sum to between lo and hi times the count. */
  lemma {:induction false} ScoreSumBounds(leads: seq<Lead>, lo: int, hi: int)
    requires forall i :: 0 <= i < |leads| ==> lo <= leads[i].relevanceScore <= hi
    ensures lo * |leads| <= ScoreSum(leads) <= hi * |leads|
  {
    if leads != [] {
      ScoreSumBounds(leads[1..], lo, hi);
    }
  }

  /** Generated scores lie in [60, 99], so the average does too. */
  lemma AvgRelevanceInRange(leads: seq<Lead>)
    requires forall i :: 0 <= i < |leads| ==> 60 <= leads[i].relevanceScore <= 99
    ensures AvgRelevance(leads).Quotient? ==>
      60 * AvgRelevance(leads).den <= AvgRelevance(leads).num <= 99 * AvgRelevance(leads).den
  {
    ScoreSumBounds(leads, 60, 99);
  }

  /** The percentage beside a status slice: `value * 100 / total`, or 0 when
      there are no leads. */
  function StatusShare(value: nat, total: nat): (f: Figure)
    ensures f.Quotient? <==> total > 0
    ensures f.Quotient? ==> f.den == total && f.num == 100 * value
  {
    if total > 0 then Quotient(100 * value, total) else ZeroFigure
  }

  /** Each status share is at most 100%, and the four shares add up to
      exactly 100%. */
  lemma StatusSharesSum(leads: seq<Lead>)
    requires |leads| > 0
    ensures var d := StatusData(leads);
      forall k :: 0 <= k < 4 ==> StatusShare(d[k].value, |leads|).num <= 100 * |leads|
    ensures var d := StatusData(leads);
      StatusShare(d[0].value, |leads|).num + StatusShare(d[1].value, |leads|).num
      + StatusShare(d[2].value, |leads|).num + StatusShare(d[3].value, |leads|).num == 100 * |leads|
  {
    SharesOfFour(StatusData(leads), |leads|);
  }

  /** Four slices summing to `total` have shares of at most 100% each,
      adding up to 100%. */
  lemma SharesOfFour(d: seq<Slice>, total: nat)
    requires |d| == 4 && total > 0
    requires d[0].value + d[1].value + d[2].value + d[3].value == total
    ensures forall k :: 0 <= k < 4 ==> StatusShare(d[k].value, total).num <= 100 * total
    ensures StatusShare(d[0].value, total).num + StatusShare(d[1].value, total).num
      + StatusShare(d[2].value, total).num + StatusShare(d[3].value, total).num == 100 * total
  {
    assert forall k :: 0 <= k < 4 ==> d[k].value <= total;
  }
}
