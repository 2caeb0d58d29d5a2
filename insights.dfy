/** The sales insight of lib/aiInsights.ts: up to five sections chosen by
    substring tests on the size and revenue brackets, table lookups on the
    industry and the country and a company-age window, then the
    conversation starters, joined by blank lines. Each fixed section is a tag
    rendered by its heading; the current year is a parameter. */
module Insights {
  import opened Text
  import opened Leads

  /** The sections an insight can hold. */
  datatype Section =
    | Startup | Enterprise
    | TechSavvy | Compliance | RiskAverse | OperationalEfficiency | CustomerExperience
    | BudgetConscious | HighValue
    | USMarket | UKMarket | GermanMarket | JapaneseMarket
    | GrowthPhase | EstablishedPlayer
    | ConversationStarters(starters: seq<string>)

  /** The block a section belongs to, in the order the blocks are tried. */
  function Category(s: Section): (c: nat)
    ensures c <= 5
  {
    match s
    case Startup | Enterprise => 0
    case TechSavvy | Compliance | RiskAverse | OperationalEfficiency | CustomerExperience => 1
    case BudgetConscious | HighValue => 2
    case USMarket | UKMarket | GermanMarket | JapaneseMarket => 3
    case GrowthPhase | EstablishedPlayer => 4
    case ConversationStarters(_) => 5
  }

  /** `industryInsights`. */
  const IndustrySections: map<string, Section> := map[
    "Technology" := TechSavvy,
    "Healthcare" := Compliance,
    "Finance" := RiskAverse,
    "Manufacturing" := OperationalEfficiency,
    "Retail" := CustomerExperience]

  /** `locationInsights`. */
  const LocationSections: map<string, Section> := map[
    "United States" := USMarket,
    "United Kingdom" := UKMarket,
    "Germany" := GermanMarket,
    "Japan" := JapaneseMarket]

  /** The fixed parts of the three conversation starters. */
  const NoticedOpening: string := "\"I noticed "
  const NoticedMiddle: string := " has been expanding in the "
  const NoticedSector: string := " sector. We've helped similar companies in "
  const NoticedClosing: string := " achieve...\""
  const GivenOpening: string := "\"Given "
  const GivenMiddle: string := "'s focus on "
  const GivenClosing: string := ", I thought you might be interested in how we've helped companies of your size...\""
  const FoundedOpening: string := "\"I saw that "
  const FoundedMiddle: string := " was founded in "
  const FoundedClosing: string := ". Companies at your stage often face challenges with...\""

  /** The three conversation starters, naming the company, the lower-cased
      industry, the city and the founding year. */
  function Starters(lead: Lead): (r: seq<string>)
    ensures |r| == 3
    ensures Contains(r[0], lead.company) && Contains(r[0], ToLower(lead.industry)) && Contains(r[0], lead.location.city)
    ensures Contains(r[1], lead.company) && Contains(r[1], ToLower(lead.industry))
    ensures Contains(r[2], lead.company) && Contains(r[2], IntDecimal(lead.founded))
  {
    var company, industry, city := lead.company, ToLower(lead.industry), lead.location.city;
    var year := IntDecimal(lead.founded);
    var fromCity := city + NoticedClosing;
    var fromIndustry := industry + (NoticedSector + fromCity);
    var fromCompany := company + (NoticedMiddle + fromIndustry);
    ContainsInside(NoticedOpening, company, NoticedMiddle + fromIndustry);
    ContainsInside(NoticedMiddle, industry, NoticedSector + fromCity);
    ContainsExtend(company, NoticedMiddle + fromIndustry, industry);
    ContainsExtend(NoticedOpening, fromCompany, industry);
    ContainsInside(NoticedSector, city, NoticedClosing);
    ContainsExtend(industry, NoticedSector + fromCity, city);
    ContainsExtend(NoticedMiddle, fromIndustry, city);
    ContainsExtend(company, NoticedMiddle + fromIndustry, city);
    ContainsExtend(NoticedOpening, fromCompany, city);
    var givenTail := industry + GivenClosing;
    ContainsInside(GivenOpening, company, GivenMiddle + givenTail);
    ContainsInside(GivenMiddle, industry, GivenClosing);
    ContainsExtend(company, GivenMiddle + givenTail, industry);
    ContainsExtend(GivenOpening, company + (GivenMiddle + givenTail), industry);
    var foundedTail := year + FoundedClosing;
    ContainsInside(FoundedOpening, company, FoundedMiddle + foundedTail);
    ContainsInside(FoundedMiddle, year, FoundedClosing);
    ContainsExtend(company, FoundedMiddle + foundedTail, year);
    ContainsExtend(FoundedOpening, company + (FoundedMiddle + foundedTail), year);
    [NoticedOpening + fromCompany,
     GivenOpening + (company + (GivenMiddle + givenTail)),
     FoundedOpening + (company + (FoundedMiddle + foundedTail))]
  }

  /** The heading of the starters section. */
  const StartersHeading: string := "\n**Conversation Starters**:\n"

  /** The heading that stands for a section's text; the starters section is
      its heading followed by the starters, one blank line apart. */
  function Render(s: Section): string
  {
    match s
    case ConversationStarters(starters) => StartersHeading + Join(starters, "\n\n")
    case _ => Heading(s)
  }

  /** The bold title of each section. */
  function Heading(s: Section): string
  {
    match s
    case Startup => "**Startup Approach**"
    case Enterprise => "**Enterprise Strategy**"
    case TechSavvy => "**Tech-Savvy Audience**"
    case Compliance => "**Compliance Focus**"
    case RiskAverse => "**Risk-Averse**"
    case OperationalEfficiency => "**Operational Efficiency**"
    case CustomerExperience => "**Customer Experience**"
    case BudgetConscious => "**Budget-Conscious**"
    case HighValue => "**High-Value Target**"
    case USMarket => "**US Market**"
    case UKMarket => "**UK Market**"
    case GermanMarket => "**German Market**"
    case JapaneseMarket => "**Japanese Market**"
    case GrowthPhase => "**Growth Phase**"
    case EstablishedPlayer => "**Established Player**"
    case ConversationStarters(_) => StartersHeading
  }

  function RenderAll(sections: seq<Section>): (r: seq<string>)
    ensures |r| == |sections| && forall i :: 0 <= i < |sections| ==> r[i] == Render(sections[i])
  {
    if sections == [] then [] else [Render(sections[0])] + RenderAll(sections[1..])
  }

  /** The size block: the startup section for a bracket containing "1-10",
      else the enterprise section for one containing "1000+". */
  function SizeBlock(employeeCount: string): seq<Section>
  {
    if Contains(employeeCount, "1-10") then [Startup]
    else if Contains(employeeCount, "1000+") then [Enterprise]
    else []
  }

  /** The industry block: the table's section, if the industry has one. */
  function IndustryBlock(industry: string): seq<Section>
  {
    if industry in IndustrySections then [IndustrySections[industry]] else []
  }

  /** The revenue block: the budget section for the two smallest brackets,
      else the high-value section for "$100M+". */
  function RevenueBlock(revenue: string): seq<Section>
  {
    if Contains(revenue, "<$1M") || Contains(revenue, "$1M-$10M") then [BudgetConscious]
    else if Contains(revenue, "$100M+") then [HighValue]
    else []
  }

  /** The location block: the table's section, if the country has one. */
  function LocationBlock(country: string): seq<Section>
  {
    if country in LocationSections then [LocationSections[country]] else []
  }

  /** The age block: growth under 5 years, established over 20. */
  function AgeBlock(age: int): seq<Section>
  {
    if age < 5 then [GrowthPhase] else if age > 20 then [EstablishedPlayer] else []
  }

  /** The sections of an insight, block by block, the starters last. */
  function InsightSections(lead: Lead, currentYear: int): seq<Section>
  {
    SizeBlock(lead.employeeCount) + IndustryBlock(lead.industry) + RevenueBlock(lead.revenue)
    + LocationBlock(lead.location.country) + AgeBlock(currentYear - lead.founded)
    + [ConversationStarters(Starters(lead))]
  }

  /** `generateAIInsight(lead)`: the sections, then the rendered sections
      joined by blank lines. */
  method GenerateInsight(lead: Lead, currentYear: int) returns (sections: seq<Section>, text: string)
    ensures sections == InsightSections(lead, currentYear)
    ensures text == Join(RenderAll(sections), "\n\n")
  {
    sections := PushSections(lead, currentYear);
    text := Join(RenderAll(sections), "\n\n");
  }

  /** The conditional pushes into `insights`, block by block. */
  method PushSections(lead: Lead, currentYear: int) returns (sections: seq<Section>)
    ensures sections == InsightSections(lead, currentYear)
  {
    sections := [];
    if Contains(lead.employeeCount, "1-10") {
      sections := sections + [Startup];
    } else if Contains(lead.employeeCount, "1000+") {
      sections := sections + [Enterprise];
    }
    assert sections == SizeBlock(lead.employeeCount);
    if lead.industry in IndustrySections {
      sections := sections + [IndustrySections[lead.industry]];
    }
    assert sections == SizeBlock(lead.employeeCount) + IndustryBlock(lead.industry);
    if Contains(lead.revenue, "<$1M") || Contains(lead.revenue, "$1M-$10M") {
      sections := sections + [BudgetConscious];
    } else if Contains(lead.revenue, "$100M+") {
      sections := sections + [HighValue];
    }
    assert sections == SizeBlock(lead.employeeCount) + IndustryBlock(lead.industry) + RevenueBlock(lead.revenue);
    if lead.location.country in LocationSections {
      sections := sections + [LocationSections[lead.location.country]];
    }
    assert sections == SizeBlock(lead.employeeCount) + IndustryBlock(lead.industry) + RevenueBlock(lead.revenue)
      + LocationBlock(lead.location.country);
    var companyAge := currentYear - lead.founded;
    if companyAge < 5 {
      sections := sections + [GrowthPhase];
    } else if companyAge > 20 {
      sections := sections + [EstablishedPlayer];
    }
    assert sections == SizeBlock(lead.employeeCount) + IndustryBlock(lead.industry) + RevenueBlock(lead.revenue)
      + LocationBlock(lead.location.country) + AgeBlock(companyAge);
    sections := sections + [ConversationStarters(Starters(lead))];
  }

  /** Each block holds at most one section, of the block's category. */
  predicate Block(b: seq<Section>, c: nat)
  {
    |b| <= 1 && forall s :: s in b ==> Category(s) == c
  }

  /** The categories strictly increase along the sections. */
  predicate InBlockOrder(ss: seq<Section>)
  {
    forall i, j :: 0 <= i < j < |ss| ==> Category(ss[i]) < Category(ss[j])
  }

  lemma BlocksAreSmall(lead: Lead, currentYear: int)
    ensures Block(SizeBlock(lead.employeeCount), 0)
    ensures Block(IndustryBlock(lead.industry), 1)
    ensures Block(RevenueBlock(lead.revenue), 2)
    ensures Block(LocationBlock(lead.location.country), 3)
    ensures Block(AgeBlock(currentYear - lead.founded), 4)
  {
    var c := lead.industry;
    if c in IndustrySections {
      assert IndustrySections[c] in IndustrySections.Values;
    }
    var k := lead.location.country;
    if k in LocationSections {
      assert LocationSections[k] in LocationSections.Values;
    }
  }

  /** Appending a block of a later category keeps the block order. */
  lemma {:induction false} OrderedAppend(ss: seq<Section>, b: seq<Section>, c: nat)
    requires InBlockOrder(ss) && Block(b, c)
    requires forall s :: s in ss ==> Category(s) < c
    ensures InBlockOrder(ss + b)
    ensures forall s :: s in ss + b ==> Category(s) <= c
  {
    var r := ss + b;
    forall i, j | 0 <= i < j < |r|
      ensures Category(r[i]) < Category(r[j])
    {
      if j < |ss| {
        assert r[i] == ss[i] && r[j] == ss[j];
      } else {
        assert r[i] == ss[i] && r[j] in b;
      }
    }
  }

  /** The blocks come in category order, the starters last, so an insight
      has 1 to 6 sections and at most one per block. */
  lemma InsightSectionsOrder(lead: Lead, currentYear: int)
    ensures var ss := InsightSections(lead, currentYear);
      && InBlockOrder(ss)
      && 1 <= |ss| <= 6
      && ss[|ss| - 1] == ConversationStarters(Starters(lead))
  {
    BlocksAreSmall(lead, currentYear);
    var size := SizeBlock(lead.employeeCount);
    var s1 := size + IndustryBlock(lead.industry);
    var s2 := s1 + RevenueBlock(lead.revenue);
    var s3 := s2 + LocationBlock(lead.location.country);
    var s4 := s3 + AgeBlock(currentYear - lead.founded);
    OrderedAppend(size, IndustryBlock(lead.industry), 1);
    OrderedAppend(s1, RevenueBlock(lead.revenue), 2);
    OrderedAppend(s2, LocationBlock(lead.location.country), 3);
    OrderedAppend(s3, AgeBlock(currentYear - lead.founded), 4);
    OrderedAppend(s4, [ConversationStarters(Starters(lead))], 5);
  }

  /** A section is in an insight exactly when it is in one of its blocks
      or is the closing starters section. */
  lemma InsightMembership(lead: Lead, currentYear: int)
    ensures forall s :: s in InsightSections(lead, currentYear) <==>
      || s in SizeBlock(lead.employeeCount) || s in IndustryBlock(lead.industry)
      || s in RevenueBlock(lead.revenue) || s in LocationBlock(lead.location.country)
      || s in AgeBlock(currentYear - lead.founded) || s == ConversationStarters(Starters(lead))
  {
  }

  /** The startup section exactly for a bracket containing "1-10", the
      enterprise section exactly for one containing "1000+" but not "1-10";
      never both. */
  lemma SizeSections(lead: Lead, currentYear: int)
    ensures var ss := InsightSections(lead, currentYear);
      && (Startup in ss <==> Contains(lead.employeeCount, "1-10"))
      && (Enterprise in ss <==> !Contains(lead.employeeCount, "1-10") && Contains(lead.employeeCount, "1000+"))
      && !(Startup in ss && Enterprise in ss)
  {
    BlocksAreSmall(lead, currentYear);
    InsightMembership(lead, currentYear);
  }

  /** An industry section exactly when the industry is one of the five in
      the table, and then the table's section. */
  lemma IndustrySectionsPresent(lead: Lead, currentYear: int)
    ensures forall s :: s in InsightSections(lead, currentYear) && Category(s) == 1 <==>
      lead.industry in IndustrySections && s == IndustrySections[lead.industry]
    ensures IndustrySections.Keys == {"Technology", "Healthcare", "Finance", "Manufacturing", "Retail"}
  {
    BlocksAreSmall(lead, currentYear);
    InsightMembership(lead, currentYear);
  }

  /** The budget section exactly for a revenue containing "<$1M" or
      "$1M-$10M", else the high-value section exactly for "$100M+". */
  lemma RevenueSections(lead: Lead, currentYear: int)
    ensures var ss := InsightSections(lead, currentYear);
      && (BudgetConscious in ss <==> Contains(lead.revenue, "<$1M") || Contains(lead.revenue, "$1M-$10M"))
      && (HighValue in ss <==>
            !(Contains(lead.revenue, "<$1M") || Contains(lead.revenue, "$1M-$10M")) && Contains(lead.revenue, "$100M+"))
  {
    BlocksAreSmall(lead, currentYear);
    InsightMembership(lead, currentYear);
  }

  /** A location section exactly when the country is one of the four in the
      table, and then the table's section. */
  lemma LocationSectionsPresent(lead: Lead, currentYear: int)
    ensures forall s :: s in InsightSections(lead, currentYear) && Category(s) == 3 <==>
      lead.location.country in LocationSections && s == LocationSections[lead.location.country]
    ensures LocationSections.Keys == {"United States", "United Kingdom", "Germany", "Japan"}
  {
    BlocksAreSmall(lead, currentYear);
    InsightMembership(lead, currentYear);
  }

  /** With `age = currentYear - founded`: growth under 5, established over
      20, neither from 5 to 20. */
  lemma AgeSections(lead: Lead, currentYear: int)
    ensures var ss := InsightSections(lead, currentYear);
      && (GrowthPhase in ss <==> currentYear - lead.founded < 5)
      && (EstablishedPlayer in ss <==> currentYear - lead.founded > 20)
  {
    BlocksAreSmall(lead, currentYear);
    InsightMembership(lead, currentYear);
  }

  /** The substring test is looser than the bracket: "501-1000" contains
      "1-10", so a 501-1000 company gets the startup section. */
  lemma MidSizeCountsAsStartup()
    ensures Contains("501-1000", "1-10")
  {
    assert OccursAt("501-1000", "1-10", 2);
    ContainsIffOccurs("501-1000", "1-10");
  }

  /** The insight text always ends with the conversation starters, so it
      names the company. */
  lemma InsightNamesCompany(lead: Lead, sections: seq<Section>)
    requires |sections| >= 1 && sections[|sections| - 1] == ConversationStarters(Starters(lead))
    ensures Contains(Join(RenderAll(sections), "\n\n"), lead.company)
  {
    ClosingStartersName(sections, Starters(lead), lead.company);
  }

  /** Rendered sections closing with starters contain whatever the first
      starter contains. */
  lemma ClosingStartersName(sections: seq<Section>, starters: seq<string>, t: string)
    requires |sections| >= 1 && sections[|sections| - 1] == ConversationStarters(starters)
    requires |starters| >= 1 && Contains(starters[0], t)
    ensures Contains(Join(RenderAll(sections), "\n\n"), t)
  {
    JoinContainsFirst(starters, "\n\n", t);
    ContainsExtend(StartersHeading, Join(starters, "\n\n"), t);
    var parts := RenderAll(sections);
    assert parts[|parts| - 1] == StartersHeading + Join(starters, "\n\n");
    JoinContainsLast(parts, "\n\n", t);
  }
}
