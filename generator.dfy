/** Synthetic lead generation (lib/leadGenerator.ts): one lead from the
    constant tables and the filter form, and a batch of leads ranked by
    relevance, highest first.

    `Math.random()` is a caller-supplied stream of draws. A draw `k` stands
    for the value k / 2^53 in [0, 1), so `Math.floor(Math.random() * n)` is
    `(k * n) / 2^53`. The draws are taken from the stream in the order the
    source evaluates its `Math.random()` calls. */
module LeadGenerator {
  import opened Wrappers
  import opened Text
  import opened Leads
  import opened Sorting
  import opened Collections

  const CompanyNames: seq<string> := [
    "TechFlow Solutions", "DataVault Corp", "CloudMaster Inc", "InnovateTech",
    "NextGen AI", "CyberShield Pro", "QuantumLeap Labs", "SmartBridge Co",
    "FutureTech Systems", "AlphaByte Solutions", "MetaCore Industries",
    "DigiTransform Ltd", "NanoTech Innovations", "HyperScale Corp",
    "EliteCode Systems", "VisionTech Group", "ProActive Solutions",
    "DynamicFlow Inc", "TechPioneer Labs", "CodeCraft Studios"]

  /** The `cities` object, its entries in key order. */
  const CityTable: seq<(string, seq<string>)> := [
    ("United States", ["New York", "San Francisco", "Los Angeles", "Chicago", "Austin", "Seattle"]),
    ("United Kingdom", ["London", "Manchester", "Birmingham", "Edinburgh", "Bristol"]),
    ("Germany", ["Berlin", "Munich", "Hamburg", "Frankfurt", "Cologne"]),
    ("Canada", ["Toronto", "Vancouver", "Montreal", "Calgary", "Ottawa"]),
    ("Australia", ["Sydney", "Melbourne", "Brisbane", "Perth", "Adelaide"])]

  /** `Object.keys(cities)`. */
  const CountryNames: seq<string> :=
    ["United States", "United Kingdom", "Germany", "Canada", "Australia"]

  const Industries: seq<string> := [
    "Technology", "Healthcare", "Finance", "Manufacturing", "Retail",
    "Education", "Real Estate", "Consulting", "Marketing", "Legal"]

  const EmployeeCounts: seq<string> := ["1-10", "11-50", "51-200", "201-500", "501-1000", "1000+"]

  const Revenues: seq<string> := ["<$1M", "$1M-$10M", "$10M-$50M", "$50M-$100M", "$100M+"]

  const UnknownCity: string := "Unknown City"

  /** The tables a lead is drawn from. The proofs hold for any tables with
      no empty list; `Shipped` holds the ones the generator ships with. */
  datatype Catalogue = Catalogue(
    companies: seq<string>,
    cities: seq<(string, seq<string>)>,
    industries: seq<string>,
    employeeCounts: seq<string>,
    revenues: seq<string>)


  /** `Object.keys(cities)`: the countries of the city table, in key order. */
  function Countries(cat: Catalogue): (ks: seq<string>)
    ensures |ks| == |cat.cities|
    ensures forall i :: 0 <= i < |ks| ==> ks[i] == cat.cities[i].0
  {
    seq(|cat.cities|, i requires 0 <= i < |cat.cities| => cat.cities[i].0)
  }

  /** Every table a draw indexes into is non-empty. */
  predicate ValidCatalogue(cat: Catalogue)
  {
    && |cat.companies| > 0 && |cat.cities| > 0 && |cat.industries| > 0
    && |cat.employeeCounts| > 0 && |cat.revenues| > 0
    && forall i :: 0 <= i < |cat.cities| ==> |cat.cities[i].1| > 0
  }

  /** Tables a lead can be drawn from. */
  type Tables = cat: Catalogue | ValidCatalogue(cat)
    witness Catalogue(["c"], [("k", ["c"])], ["i"], ["e"], ["r"])

  const Shipped: Tables := Catalogue(CompanyNames, CityTable, Industries, EmployeeCounts, Revenues)

  /** The keys of the shipped city table are the country list. */
  lemma ShippedCountries()
    ensures Countries(Shipped) == CountryNames
  {
  }

  /** Resolution of `Math.random()`: it returns multiples of 2^-53. */
  const RandomScale: nat := 0x20_0000_0000_0000

  /** One value of `Math.random()`, as its numerator over `RandomScale`. */
  type Draw = k: nat | k < RandomScale

  /** The stream of values successive `Math.random()` calls return. */
  type RandomSource = nat -> Draw

  /** `Math.floor(Math.random() * n)`. */
  function Pick(d: Draw, n: nat): (i: nat)
    ensures n > 0 ==> i < n
  {
    if n > 0 then
      MulMono(d, RandomScale - 1, n);
      DivBelow(d * n, RandomScale, n);
      (d * n) / RandomScale
    else 0
  }

  /** `xs[Math.floor(Math.random() * xs.length)]`. */
  function PickFrom(xs: seq<string>, d: Draw): (x: string)
    requires |xs| > 0
    ensures Listed(x, xs)
  {
    xs[Pick(d, |xs|)]
  }

  /** `x` is an entry of the table `xs`. */
  predicate Listed(x: string, xs: seq<string>)
  {
    exists j :: 0 <= j < |xs| && xs[j] == x
  }

  /** Being listed is membership. */
  lemma ListedIsMembership(x: string, xs: seq<string>)
    ensures Listed(x, xs) <==> x in xs
  {
  }

  lemma MulMono(a: int, b: int, m: nat)
    ensures a <= b ==> a * m <= b * m
  {
  }

  lemma DivBelow(x: nat, m: nat, n: nat)
    requires m > 0 && x < m * n
    ensures x / m < n
  {
    var q := x / m;
    assert m * q <= x;
    MulMono(n, q, m);
  }

  lemma DivRange(x: nat, m: nat, i: nat)
    requires m > 0 && i * m <= x < (i + 1) * m
    ensures x / m == i
  {
    var q := x / m;
    assert q * m <= x < q * m + m;
    MulMono(q + 1, i, m);
    MulMono(i + 1, q, m);
  }

  /** Every index below `n` is picked by some draw, so no table entry is
      unreachable. */
  lemma PickReachesEvery(i: nat, n: nat)
    requires i < n <= RandomScale
    ensures exists d: Draw :: Pick(d, n) == i
  {
    var q := i * RandomScale + n - 1;
    var d := q / n;
    MulMono(i + 1, n, RandomScale);
    DivBelow(q, n, RandomScale);
    assert n * d <= q < n * d + n;
    assert i * RandomScale <= d * n;
    assert d * n < (i + 1) * RandomScale;
    DivRange(d * n, RandomScale, i);
    assert Pick(d, n) == i;
  }

  /** `cities[country]`, when the table lists the country. */
  function LookupCities(table: seq<(string, seq<string>)>, country: string): (r: Option<seq<string>>)
    ensures r.Some? <==> exists i :: 0 <= i < |table| && table[i].0 == country
    ensures r.Some? ==> exists i :: 0 <= i < |table| && table[i].0 == country && table[i].1 == r.value
  {
    if table == [] then None
    else if table[0].0 == country then Some(table[0].1)
    else
      var r := LookupCities(table[1..], country);
      assert forall i :: 1 <= i < |table| ==> table[i] == table[1..][i - 1];
      r
  }

  /** `cities[country] || ['Unknown City']`. */
  function AvailableCities(cat: Tables, country: string): (cs: seq<string>)
    ensures |cs| >= 1
    ensures country !in Countries(cat) ==> cs == [UnknownCity]
    ensures country in Countries(cat) ==> exists i :: 0 <= i < |cat.cities| && cat.cities[i] == (country, cs)
  {
    match LookupCities(cat.cities, country)
    case Some(cs) => cs
    case None => [UnknownCity]
  }

  /** A country outside the table, France for one, gets the single city
      "Unknown City". */
  lemma FranceHasUnknownCity()
    ensures AvailableCities(Shipped, "France") == [UnknownCity]
  {
  }

  /** The contact domain: the company name lower-cased, everything outside
      [a-z0-9] removed, then ".com". */
  function DomainOf(company: string): (d: string)
    ensures |d| >= 4 && d[|d| - 4..] == ".com"
    ensures forall i :: 0 <= i < |d| - 4 ==> IsLowerAlnum(d[i])
    ensures forall c :: multiset(d[..|d| - 4])[c] == (if IsLowerAlnum(c) then multiset(ToLower(company))[c] else 0)
  {
    var stem := KeepLowerAlnum(ToLower(company));
    assert (stem + ".com")[..|stem|] == stem;
    stem + ".com"
  }

  /** The stem keeps the name's admissible characters in their order: the
      stem of the first part of a name comes before the rest's domain. */
  lemma DomainOfAppend(a: string, b: string)
    ensures DomainOf(a + b) == KeepLowerAlnum(ToLower(a)) + DomainOf(b)
  {
    ToLowerAppend(a, b);
    KeepLowerAlnumAppend(ToLower(a), ToLower(b));
  }

  /** A name that is already lower-case alphanumeric is its own domain
      stem; every other name loses or changes some character. */
  lemma DomainOfPlainName(company: string)
    ensures (forall i :: 0 <= i < |company| ==> IsLowerAlnum(company[i]))
            <==> DomainOf(company) == company + ".com"
  {
    var stem := KeepLowerAlnum(ToLower(company));
    if forall i :: 0 <= i < |company| ==> IsLowerAlnum(company[i]) {
      assert ToLower(company) == company;
      KeepLowerAlnumIdentity(company);
    }
    if DomainOf(company) == company + ".com" {
      assert stem == company;
    }
  }

  /** The fixed parts of the description template. */
  const DescriptionOpening: string := "A leading "
  const DescriptionMiddle: string := " company based in "
  const DescriptionClosing: string :=
    ". Specializing in innovative solutions and cutting-edge technology to drive business growth."

  /** The description template filled with the lower-cased industry, the
      city and the country. */
  function Description(industry: string, city: string, country: string): string
  {
    DescriptionOpening + (ToLower(industry) + (DescriptionMiddle + (city + (", " + (country + DescriptionClosing)))))
  }

  /** The description names the lower-cased industry, the city and the
      country. */
  lemma DescriptionMentions(industry: string, city: string, country: string)
    ensures Contains(Description(industry, city, country), ToLower(industry))
    ensures Contains(Description(industry, city, country), city)
    ensures Contains(Description(industry, city, country), country)
  {
    var lower, tail := ToLower(industry), country + DescriptionClosing;
    var fromCity := city + (", " + tail);
    var fromLower := lower + (DescriptionMiddle + fromCity);
    ContainsPrefix(lower, DescriptionMiddle + fromCity);
    ContainsExtend(DescriptionOpening, fromLower, lower);
    ContainsPrefix(city, ", " + tail);
    ContainsExtend(DescriptionMiddle, fromCity, city);
    ContainsExtend(lower, DescriptionMiddle + fromCity, city);
    ContainsExtend(DescriptionOpening, fromLower, city);
    ContainsPrefix(country, DescriptionClosing);
    ContainsExtend(", ", tail, country);
    ContainsExtend(city, ", " + tail, country);
    ContainsExtend(DescriptionMiddle, fromCity, country);
    ContainsExtend(lower, DescriptionMiddle + fromCity, country);
    ContainsExtend(DescriptionOpening, fromLower, country);
  }

  /** The phone template `+1-XXX-XXX-XXXX`. */
  function Phone(a: Draw, b: Draw, c: Draw): (p: string)
    ensures |p| == 15 && p[..3] == "+1-" && p[6] == '-' && p[10] == '-'
    ensures forall i :: 3 <= i < 15 && i != 6 && i != 10 ==> '0' <= p[i] <= '9'
  {
    var x, y, z := Pick(a, 900) + 100, Pick(b, 900) + 100, Pick(c, 9000) + 1000;
    DecimalLength(x);
    DecimalLength(y);
    DecimalLength(z);
    "+1-" + Decimal(x) + "-" + Decimal(y) + "-" + Decimal(z)
  }

  /** How many draws one lead consumes: one per empty filter field it fills
      (industry, country), then city, company, the id suffix, three phone
      groups, employee count, founding year, revenue and relevance. */
  function DrawsPerLead(filters: FilterOptions): (n: nat)
    ensures 10 <= n <= 12
  {
    10 + (if filters.industry == "" then 1 else 0) + (if filters.country == "" then 1 else 0)
  }

  /** The lead honours the filter form: a filled-in industry or country is
      copied, an empty one is drawn from its table. */
  ghost predicate Honours(l: Lead, filters: FilterOptions, cat: Tables)
  {
    && (filters.industry != "" ==> l.industry == filters.industry)
    && (filters.industry == "" ==> Listed(l.industry, cat.industries))
    && (filters.country != "" ==> l.location.country == filters.country)
    && (filters.country == "" ==> Listed(l.location.country, Countries(cat)))
  }

  /** The fields every generated lead takes from the tables and templates,
      whatever the filters. */
  ghost predicate FromTables(l: Lead, cat: Tables)
  {
    && Listed(l.location.city, AvailableCities(cat, l.location.country))
    && (l.location.country !in Countries(cat) ==> l.location.city == UnknownCity)
    && Listed(l.company, cat.companies)
    && l.website == "https://" + DomainOf(l.company)
    && l.email == "contact@" + DomainOf(l.company)
    && |l.phone| == 15 && l.phone[..3] == "+1-" && l.phone[6] == '-' && l.phone[10] == '-'
    && (forall i :: 3 <= i < 15 && i != 6 && i != 10 ==> '0' <= l.phone[i] <= '9')
    && Listed(l.employeeCount, cat.employeeCounts)
    && Listed(l.revenue, cat.revenues)
    && 2000 <= l.founded <= 2023
    && 60 <= l.relevanceScore <= 99
    && l.description == Description(l.industry, l.location.city, l.location.country)
    && l.status == New
    && l.notes == ""
  }

  /** What every generated lead satisfies. */
  ghost predicate WellFormed(l: Lead, filters: FilterOptions, cat: Tables)
  {
    Honours(l, filters, cat) && FromTables(l, cat)
  }

  /** The part of `generateRandomLead` after industry and country are known:
      ten draws from `rand(at)` on, for city, company, the random suffix of
      the id (drawn, but the id itself is `id`), three phone groups, employee
      count, founding year, revenue and relevance. */
  function LeadFrom(cat: Tables, id: string, industry: string, country: string, rand: RandomSource, at: nat): (l: Lead)
    ensures FromTables(l, cat)
    ensures l.id == id && l.industry == industry && l.location.country == country
  {
    var available := AvailableCities(cat, country);
    var city := PickFrom(available, rand(at));
    var company := PickFrom(cat.companies, rand(at + 1));
    var domain := DomainOf(company);
    Lead(
      id := id,
      company := company,
      industry := industry,
      location := Location(city, country),
      website := "https://" + domain,
      email := "contact@" + domain,
      phone := Phone(rand(at + 3), rand(at + 4), rand(at + 5)),
      employeeCount := PickFrom(cat.employeeCounts, rand(at + 6)),
      founded := 2000 + Pick(rand(at + 7), 24),
      revenue := PickFrom(cat.revenues, rand(at + 8)),
      description := Description(industry, city, country),
      status := New,
      relevanceScore := Pick(rand(at + 9), 40) + 60,
      notes := "")
  }

  /** The industry `generateRandomLead` uses: the filter's, or draw `at`. */
  function DrawnIndustry(cat: Tables, filters: FilterOptions, rand: RandomSource, at: nat): (industry: string)
    ensures filters.industry != "" ==> industry == filters.industry
    ensures filters.industry == "" ==> Listed(industry, cat.industries)
  {
    if filters.industry != "" then filters.industry else PickFrom(cat.industries, rand(at))
  }

  /** Where the country is drawn: after the industry's draw, if any. */
  function CountryDraw(filters: FilterOptions, at: nat): nat
  {
    if filters.industry != "" then at else at + 1
  }

  /** The country `generateRandomLead` uses: the filter's, or the next draw. */
  function DrawnCountry(cat: Tables, filters: FilterOptions, rand: RandomSource, at: nat): (country: string)
    ensures filters.country != "" ==> country == filters.country
    ensures filters.country == "" ==> Listed(country, Countries(cat))
  {
    if filters.country != "" then filters.country else PickFrom(Countries(cat), rand(CountryDraw(filters, at)))
  }

  /** Where the ten draws of `LeadFrom` start: after the industry and
      country draws that were made. */
  function RestDraw(filters: FilterOptions, at: nat): (k: nat)
    ensures k + 10 == at + DrawsPerLead(filters)
  {
    if filters.country != "" then CountryDraw(filters, at) else CountryDraw(filters, at) + 1
  }

  /** `generateRandomLead(filters)`: the lead built from the draws
      `rand(at)`, `rand(at + 1)`, ...; `id` is the id the caller issues. */
  function RandomLead(cat: Tables, filters: FilterOptions, id: string, rand: RandomSource, at: nat): (l: Lead)
    ensures WellFormed(l, filters, cat)
    ensures l.id == id
  {
    LeadFrom(cat, id, DrawnIndustry(cat, filters, rand, at), DrawnCountry(cat, filters, rand, at),
      rand, RestDraw(filters, at))
  }

  /** The rest of a lead reads only the ten draws from `at` on. */
  lemma LeadFromFrame(cat: Tables, id: string, industry: string, country: string, r1: RandomSource, r2: RandomSource, at: nat)
    requires forall k :: at <= k < at + 10 ==> r1(k) == r2(k)
    ensures LeadFrom(cat, id, industry, country, r1, at) == LeadFrom(cat, id, industry, country, r2, at)
  {
    assert r1(at) == r2(at) && r1(at + 1) == r2(at + 1) && r1(at + 3) == r2(at + 3);
    assert r1(at + 4) == r2(at + 4) && r1(at + 5) == r2(at + 5) && r1(at + 6) == r2(at + 6);
    assert r1(at + 7) == r2(at + 7) && r1(at + 8) == r2(at + 8) && r1(at + 9) == r2(at + 9);
  }

  /** A lead reads exactly its own `DrawsPerLead(filters)` draws: two streams
      that agree there give the same lead. */
  lemma RandomLeadFrame(cat: Tables, filters: FilterOptions, id: string, r1: RandomSource, r2: RandomSource, at: nat)
    requires forall k :: at <= k < at + DrawsPerLead(filters) ==> r1(k) == r2(k)
    ensures RandomLead(cat, filters, id, r1, at) == RandomLead(cat, filters, id, r2, at)
  {
    if filters.industry == "" {
      assert r1(at) == r2(at);
    }
    if filters.country == "" {
      assert r1(CountryDraw(filters, at)) == r2(CountryDraw(filters, at));
    }
    var industry, country := DrawnIndustry(cat, filters, r1, at), DrawnCountry(cat, filters, r1, at);
    assert DrawnIndustry(cat, filters, r2, at) == industry && DrawnCountry(cat, filters, r2, at) == country;
    LeadFromFrame(cat, id, industry, country, r1, r2, RestDraw(filters, at));
  }

  /** Where lead number `i` (from 0) of a batch starts drawing: after the
      draws of the leads before it. */
  function FirstDraw(filters: FilterOptions, i: nat): nat
  {
    if i == 0 then 0 else FirstDraw(filters, i - 1) + DrawsPerLead(filters)
  }

  /** Every lead takes the same number of draws, so lead `i` starts at
      `i * DrawsPerLead(filters)`. */
  lemma {:induction false} FirstDrawIsProduct(filters: FilterOptions, i: nat)
    ensures FirstDraw(filters, i) == i * DrawsPerLead(filters)
  {
    if i > 0 {
      FirstDrawIsProduct(filters, i - 1);
    }
  }

  /** The leads of a batch draw from disjoint stretches of the stream: an
      earlier lead's draws all come before a later lead's first draw. */
  lemma DrawsDisjoint(filters: FilterOptions, i: nat, j: nat)
    requires i < j
    ensures FirstDraw(filters, i) + DrawsPerLead(filters) <= FirstDraw(filters, j)
  {
    FirstDrawIsProduct(filters, i);
    FirstDrawIsProduct(filters, j);
    assert (j - i) * DrawsPerLead(filters) >= DrawsPerLead(filters);
    assert j * DrawsPerLead(filters) == i * DrawsPerLead(filters) + (j - i) * DrawsPerLead(filters);
  }

  /** Lead number `i` (from 0) of a batch: it takes id `ids(i)` and the
      draws from `FirstDraw(filters, i)` on. */
  function NthLead(cat: Tables, filters: FilterOptions, ids: nat -> string, rand: RandomSource, i: nat): (l: Lead)
    ensures WellFormed(l, filters, cat) && l.id == ids(i)
  {
    RandomLead(cat, filters, ids(i), rand, FirstDraw(filters, i))
  }

  /** The `i`-th call of `generateRandomLead(filters)` in a batch, as a
      function of `i`. */
  function NextLead(cat: Tables, filters: FilterOptions, ids: nat -> string, rand: RandomSource): (next: nat -> Lead)
    ensures forall i: nat :: next(i) == NthLead(cat, filters, ids, rand, i)
  {
    (i: nat) => NthLead(cat, filters, ids, rand, i)
  }

  /** The leads the loop of `generateLeadBatch` pushes, before sorting. */
  function Generated(n: nat, cat: Tables, filters: FilterOptions, ids: nat -> string, rand: RandomSource): (r: seq<Lead>)
    ensures |r| == n
  {
    Tabulate(n, NextLead(cat, filters, ids, rand))
  }

  /** Lead `i` of the pushed sequence is the `i`-th generated lead. */
  lemma GeneratedAt(n: nat, cat: Tables, filters: FilterOptions, ids: nat -> string, rand: RandomSource)
    ensures forall i :: 0 <= i < n ==> Generated(n, cat, filters, ids, rand)[i] == NthLead(cat, filters, ids, rand, i)
  {
    TabulateAt(n, NextLead(cat, filters, ids, rand));
  }

  /** The comparator `(a, b) => b.relevanceScore - a.relevanceScore`. */
  function RelevanceComparator(a: Lead, b: Lead): int
  {
    b.relevanceScore - a.relevanceScore
  }

  /** `a` may precede `b` under the comparator (it is not positive) exactly
      when it is in descending relevance order; ties compare as 0. */
  lemma RelevanceComparatorOrder(a: Lead, b: Lead)
    ensures RelevanceComparator(a, b) <= 0 <==> InOrder(a, b, ByRelevance, Descending)
    ensures RelevanceComparator(a, b) == 0 <==> KeyOf(a, ByRelevance) == KeyOf(b, ByRelevance)
  {
  }

  /** The batch of `n` leads `generateLeadBatch` returns: the generated
      leads sorted by the relevance comparator, which `Array.prototype.sort`
      applies stably. */
  function LeadBatch(n: nat, cat: Tables, filters: FilterOptions, ids: nat -> string, rand: RandomSource): (r: seq<Lead>)
    ensures |r| == n
  {
    SortLeads(Generated(n, cat, filters, ids, rand), ByRelevance, Descending)
  }

  /** `generateLeadBatch(count, filters)` over the tables `cat`: `count`
      leads (none for a count of zero or less), ranked by relevance. */
  method GenerateLeadBatch(count: int, cat: Tables, filters: FilterOptions, ids: nat -> string, rand: RandomSource)
    returns (leads: seq<Lead>)
    ensures |leads| == if count > 0 then count else 0
    ensures leads == LeadBatch(|leads|, cat, filters, ids, rand)
  {
    leads := PushAndRank(count, NextLead(cat, filters, ids, rand));
  }

  /** The body of `generateLeadBatch` with the `i`-th `generateRandomLead`
      call written `generate(i)`: push `count` leads, then sort them by the
      relevance comparator. */
  method PushAndRank(count: int, generate: nat -> Lead) returns (leads: seq<Lead>)
    ensures |leads| == if count > 0 then count else 0
    ensures leads == SortLeads(Tabulate(|leads|, generate), ByRelevance, Descending)
  {
    var pushed: seq<Lead> := [];
    var i: nat := 0;
    while i < count
      invariant count > 0 ==> i <= count
      invariant count <= 0 ==> i == 0
      invariant pushed == Tabulate(i, generate)
    {
      pushed := pushed + [generate(i)];
      i := i + 1;
    }
    leads := SortLeads(pushed, ByRelevance, Descending);
  }

  /** The batch is ordered by relevance, highest first; it is a
      rearrangement of the generated leads that keeps leads of equal
      relevance in generation order; every lead in it is well formed. */
  lemma LeadBatchProperties(n: nat, cat: Tables, filters: FilterOptions, ids: nat -> string, rand: RandomSource)
    ensures var leads := LeadBatch(n, cat, filters, ids, rand);
            var raw := Generated(n, cat, filters, ids, rand);
            && Sorted(leads, ByRelevance, Descending)
            && (forall i :: 0 <= i < |leads| - 1 ==> leads[i].relevanceScore >= leads[i + 1].relevanceScore)
            && multiset(leads) == multiset(raw)
            && (forall v :: WithKey(leads, ByRelevance, v) == WithKey(raw, ByRelevance, v))
            && (forall i :: 0 <= i < |leads| ==> WellFormed(leads[i], filters, cat))
  {
    GeneratedWellFormed(n, cat, filters, ids, rand);
    RelevanceSortProperties(Generated(n, cat, filters, ids, rand), filters, cat);
  }

  /** Sorting well-formed leads by the relevance comparator. */
  lemma RelevanceSortProperties(raw: seq<Lead>, filters: FilterOptions, cat: Tables)
    requires forall l :: l in raw ==> WellFormed(l, filters, cat)
    ensures var leads := SortLeads(raw, ByRelevance, Descending);
            && Sorted(leads, ByRelevance, Descending)
            && (forall i :: 0 <= i < |leads| - 1 ==> leads[i].relevanceScore >= leads[i + 1].relevanceScore)
            && multiset(leads) == multiset(raw)
            && (forall v :: WithKey(leads, ByRelevance, v) == WithKey(raw, ByRelevance, v))
            && (forall i :: 0 <= i < |leads| ==> WellFormed(leads[i], filters, cat))
  {
    var leads := SortLeads(raw, ByRelevance, Descending);
    SortLeadsSorted(raw, ByRelevance, Descending);
    SortLeadsPermutation(raw, ByRelevance, Descending);
    forall v ensures WithKey(leads, ByRelevance, v) == WithKey(raw, ByRelevance, v) {
      SortLeadsStable(raw, ByRelevance, Descending, v);
    }
    forall k | 0 <= k < |leads| - 1
      ensures leads[k].relevanceScore >= leads[k + 1].relevanceScore
    {
      assert InOrder(leads[k], leads[k + 1], ByRelevance, Descending);
    }
    MultisetSameMembers(leads, raw);
    forall k | 0 <= k < |leads| ensures WellFormed(leads[k], filters, cat) {
      assert leads[k] in raw;
    }
  }

  /** Every generated lead is well formed. */
  lemma GeneratedWellFormed(n: nat, cat: Tables, filters: FilterOptions, ids: nat -> string, rand: RandomSource)
    ensures forall l :: l in Generated(n, cat, filters, ids, rand) ==> WellFormed(l, filters, cat)
  {
    GeneratedAt(n, cat, filters, ids, rand);
  }
}
