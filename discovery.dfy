/** The lead discovery panel (components/dashboard/LeadDiscoveryEngine.tsx):
    the hierarchical filter form, and the discover action that spends the
    daily quota on a batch of generated leads and appends the batch to the
    stored collection. The stored collection (`truleadai_leads`) is a field;
    ids and `Math.random()` are caller-supplied, as in the generator. */
module Discovery {
  import opened Leads
  import opened Account
  import opened LeadGenerator

  /** `keyof FilterOptions`. */
  datatype FilterKey = Continent | Country | Region | City | Industry

  function Field(f: FilterOptions, k: FilterKey): string
  {
    match k
    case Continent => f.continent
    case Country => f.country
    case Region => f.region
    case City => f.city
    case Industry => f.industry
  }

  /** Position in the location hierarchy continent > country > region >
      city; the industry stands outside it. */
  function Level(k: FilterKey): (n: nat)
    ensures n <= 4
  {
    match k
    case Continent => 0
    case Country => 1
    case Region => 2
    case City => 3
    case Industry => 4
  }

  /** `k` is a location field below `parent` in the hierarchy. */
  predicate Below(parent: FilterKey, k: FilterKey)
  {
    parent != Industry && k != Industry && Level(parent) < Level(k)
  }

  /** The updater `handleFilterChange(key, value)` passes to `setFilters`:
      the field is set, then the fields depending on it are cleared. The
      result sets the changed field, empties every location field below it
      and keeps every other field. */
  function ChangeFilter(f: FilterOptions, key: FilterKey, value: string): (r: FilterOptions)
    ensures forall k :: Field(r, k) == if k == key then value else if Below(key, k) then "" else Field(f, k)
  {
    var g := match key
      case Continent => f.(continent := value)
      case Country => f.(country := value)
      case Region => f.(region := value)
      case City => f.(city := value)
      case Industry => f.(industry := value);
    if key == Continent then g.(country := "", region := "", city := "")
    else if key == Country then g.(region := "", city := "")
    else if key == Region then g.(city := "")
    else g
  }

  /** Changing the city or the industry clears nothing. */
  lemma LeafChangesClearNothing(f: FilterOptions, key: FilterKey, value: string)
    requires key == City || key == Industry
    ensures forall k :: k != key ==> Field(ChangeFilter(f, key, value), k) == Field(f, k)
  {
  }

  /** `Math.min(8, dailyQuota - usedQuota)`. */
  function BatchSize(dailyQuota: int, usedQuota: int): (b: int)
    ensures b <= 8 && b <= dailyQuota - usedQuota
    ensures b == 8 || b == dailyQuota - usedQuota
  {
    if 8 < dailyQuota - usedQuota then 8 else dailyQuota - usedQuota
  }

  /** Past the quota guard the batch holds 1 to 8 leads and fits in what is
      left of the quota. */
  lemma BatchSizeBounds(dailyQuota: int, usedQuota: int)
    requires usedQuota < dailyQuota
    ensures 1 <= BatchSize(dailyQuota, usedQuota) <= 8
    ensures usedQuota + BatchSize(dailyQuota, usedQuota) <= dailyQuota
  {
  }

  class DiscoveryEngine {
    /** The signed-in user's quota, as the panel receives it. */
    var dailyQuota: int
    var usedQuota: int
    const tables: Tables
    var filters: FilterOptions
    var discovered: seq<Lead>
    /** The stored lead collection. */
    var stored: seq<Lead>

    /** The used quota is within the daily quota. */
    predicate QuotaValid()
      reads this
    {
      0 <= usedQuota <= dailyQuota
    }

    /** The panel opens for the user's quota on the shipped tables, with an
        empty form and no discovered leads. */
    constructor (u: User, saved: seq<Lead>)
      ensures dailyQuota == u.dailyQuota && usedQuota == u.usedQuota
      ensures tables == Shipped
      ensures filters == NoFilters && discovered == [] && stored == saved
    {
      dailyQuota := u.dailyQuota;
      usedQuota := u.usedQuota;
      tables := Shipped;
      filters := NoFilters;
      discovered := [];
      stored := saved;
    }

    /** `handleFilterChange(key, value)`. */
    method HandleFilterChange(key: FilterKey, value: string)
      modifies this
      ensures filters == ChangeFilter(old(filters), key, value)
      ensures unchanged(`dailyQuota, `usedQuota, `discovered, `stored)
    {
      var newFilters := filters;
      match key {
        case Continent => newFilters := newFilters.(continent := value);
        case Country => newFilters := newFilters.(country := value);
        case Region => newFilters := newFilters.(region := value);
        case City => newFilters := newFilters.(city := value);
        case Industry => newFilters := newFilters.(industry := value);
      }
      if key == Continent {
        newFilters := newFilters.(country := "");
        newFilters := newFilters.(region := "");
        newFilters := newFilters.(city := "");
      } else if key == Country {
        newFilters := newFilters.(region := "");
        newFilters := newFilters.(city := "");
      } else if key == Region {
        newFilters := newFilters.(city := "");
      }
      filters := newFilters;
    }

    /** `clearFilters`: every field of the form back to empty. */
    method ClearFilters()
      modifies this
      ensures filters == NoFilters
      ensures forall k :: Field(filters, k) == ""
      ensures unchanged(`dailyQuota, `usedQuota, `discovered, `stored)
    {
      filters := NoFilters;
    }

    /** `remainingQuota`. */
    function RemainingQuota(): int
      reads this
    {
      dailyQuota - usedQuota
    }

    /** The discover button is enabled when no discovery is running and
        some quota remains. */
    predicate DiscoverEnabled(isDiscovering: bool)
      reads this
    {
      !isDiscovering && RemainingQuota() > 0
    }

    /** An enabled button means the quota guard of `discoverLeads` lets the
        call through. */
    lemma EnabledPassesGuard(isDiscovering: bool)
      ensures DiscoverEnabled(isDiscovering) <==> !isDiscovering && usedQuota < dailyQuota
    {
    }

    /** `discoverLeads()`: refused without a trace when the quota is spent;
        otherwise a batch of `min(8, dailyQuota - usedQuota)` leads is
        generated, shown, debited from the quota and appended to the stored
        leads. */
    method DiscoverLeads(ids: nat -> string, rand: RandomSource)
      modifies this
      ensures old(usedQuota) >= old(dailyQuota) ==>
        usedQuota == old(usedQuota) && discovered == old(discovered) && stored == old(stored)
      ensures old(usedQuota) < old(dailyQuota) ==>
        var b := BatchSize(old(dailyQuota), old(usedQuota));
        && |discovered| == b
        && discovered == LeadBatch(b, tables, old(filters), ids, rand)
        && usedQuota == old(usedQuota) + b
        && stored == old(stored) + discovered
      ensures old(QuotaValid()) ==> QuotaValid()
      ensures filters == old(filters) && dailyQuota == old(dailyQuota)
    {
      if usedQuota >= dailyQuota {
        return;
      }
      var batchSize := BatchSize(dailyQuota, usedQuota);
      BatchSizeBounds(dailyQuota, usedQuota);
      var newLeads := GenerateLeadBatch(batchSize, tables, filters, ids, rand);
      Accept(newLeads);
    }

    /** The three state updates of a successful discovery: the batch is
        shown, debited from the quota and appended to the stored leads. */
    method Accept(newLeads: seq<Lead>)
      modifies this
      ensures discovered == newLeads
      ensures usedQuota == old(usedQuota) + |newLeads|
      ensures stored == old(stored) + newLeads
      ensures filters == old(filters) && dailyQuota == old(dailyQuota)
    {
      discovered := newLeads;
      usedQuota := usedQuota + |newLeads|;
      stored := stored + newLeads;
    }
  }

  /** A user with 96 of 100 leads used gets 4 leads, reaching 100 of 100;
      the next discovery is refused and adds nothing. */
  method QuotaScenario(ids: nat -> string, rand: RandomSource) returns (first: int, second: int, used: int)
    ensures first == 4 && second == 0 && used == 100
  {
    var u := new User.SignIn(UserRole, "Mon Oct 12 2026");
    u.usedQuota := 96;
    var engine := new DiscoveryEngine(u, []);
    engine.DiscoverLeads(ids, rand);
    first := |engine.stored|;
    engine.DiscoverLeads(ids, rand);
    second := |engine.stored| - first;
    used := engine.usedQuota;
  }
}
