/** The data model shared by the lead pipeline: the `Lead` record of
    lib/leadGenerator.ts (also declared in LeadCard.tsx), its four statuses,
    the discovery filter form, and the per-status count that both the lead
    manager and the analytics dashboard show. */
module Leads {

  /** The `status` union type of a lead. */
  datatype Status = New | HighPotential | FollowUp | NotConnected

  /** The four statuses in the order every status list shows them. */
  const AllStatuses: seq<Status> := [New, HighPotential, FollowUp, NotConnected]

  /** The string each status stands for. */
  function StatusName(s: Status): string
  {
    match s
    case New => "New"
    case HighPotential => "High Potential"
    case FollowUp => "Follow-up"
    case NotConnected => "Not Connected"
  }

  /** Distinct statuses have distinct names, so comparing names (as the
      source does) is comparing statuses. */
  lemma StatusNameInjective(s: Status, t: Status)
    ensures StatusName(s) == StatusName(t) <==> s == t
  {
  }

  datatype Location = Location(city: string, country: string)

  /** One discovered prospect. The never-read `tasks` field is not kept. */
  datatype Lead = Lead(
    id: string,
    company: string,
    industry: string,
    location: Location,
    website: string,
    email: string,
    phone: string,
    employeeCount: string,
    founded: int,
    revenue: string,
    description: string,
    status: Status,
    relevanceScore: int,
    notes: string)

  /** The discovery filter form; an empty string means "not set". */
  datatype FilterOptions = FilterOptions(
    continent: string,
    country: string,
    region: string,
    city: string,
    industry: string)

  /** The form's initial (and cleared) value. */
  const NoFilters: FilterOptions := FilterOptions("", "", "", "", "")

  /** `leads.filter(l => l.status === s).length`. */
  function CountStatus(leads: seq<Lead>, s: Status): (n: nat)
    ensures n <= |leads|
  {
    if leads == [] then 0
    else (if leads[0].status == s then 1 else 0) + CountStatus(leads[1..], s)
  }

  /** The statuses of the leads, in order. */
  function StatusesOf(leads: seq<Lead>): (r: seq<Status>)
    ensures |r| == |leads| && forall i :: 0 <= i < |leads| ==> r[i] == leads[i].status
  {
    if leads == [] then [] else [leads[0].status] + StatusesOf(leads[1..])
  }

  /** The count of a status is its multiplicity among the leads' statuses. */
  lemma {:induction false} CountStatusIsMultiplicity(leads: seq<Lead>, s: Status)
    ensures CountStatus(leads, s) == multiset(StatusesOf(leads))[s]
  {
    if leads != [] {
      CountStatusIsMultiplicity(leads[1..], s);
      assert StatusesOf(leads) == [leads[0].status] + StatusesOf(leads[1..]);
    }
  }

  /** Every lead has one of the four statuses, so the four counts add up to
      the number of leads. */
  lemma {:induction false} StatusCountsSum(leads: seq<Lead>)
    ensures CountStatus(leads, New) + CountStatus(leads, HighPotential)
          + CountStatus(leads, FollowUp) + CountStatus(leads, NotConnected) == |leads|
  {
    if leads != [] {
      StatusCountsSum(leads[1..]);
    }
  }
}
