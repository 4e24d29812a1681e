/** The CRM service of the site: lead data, the lead-scoring rule table, the score
    calculator, the nurture-sequence selector and the mapping of a lead onto CRM
    contact properties. */
module Scoring {
  import opened Wrappers
  import opened Text

  datatype LeadSource = Newsletter | Download | Contact | Chat | Booking

  datatype LifecycleStage =
    | Subscriber | Lead | MarketingQualifiedLead | SalesQualifiedLead | Opportunity | Customer

  datatype ActivityType =
    | PageView | ResourceDownload | FormSubmit | EmailOpen | EmailClick | ChatMessageSent | BookingMade

  function SourceName(source: LeadSource): string {
    match source
    case Newsletter => "newsletter"
    case Download => "download"
    case Contact => "contact"
    case Chat => "chat"
    case Booking => "booking"
  }

  function StageName(stage: LifecycleStage): string {
    match stage
    case Subscriber => "subscriber"
    case Lead => "lead"
    case MarketingQualifiedLead => "marketing_qualified_lead"
    case SalesQualifiedLead => "sales_qualified_lead"
    case Opportunity => "opportunity"
    case Customer => "customer"
  }

  /** A recorded visitor action. Its timestamp and detail payload play no part in scoring. */
  datatype Activity = Activity(kind: ActivityType, scoreValue: Option<int>)

  /** A contact as the widgets submit it; `None` is a property left undefined. */
  datatype LeadData = LeadData(
    email: string,
    firstName: Option<string>,
    lastName: Option<string>,
    company: Option<string>,
    jobTitle: Option<string>,
    phone: Option<string>,
    website: Option<string>,
    industry: Option<string>,
    leadSource: LeadSource,
    leadScore: Option<int>,
    lifecycleStage: Option<LifecycleStage>,
    interests: Option<seq<string>>,
    utmSource: Option<string>,
    utmMedium: Option<string>,
    utmCampaign: Option<string>)

  /** The campaign parameters read from the page URL when a form is submitted. */
  datatype Attribution = Attribution(utmSource: Option<string>, utmMedium: Option<string>, utmCampaign: Option<string>)

  datatype LeadScoringRules = LeadScoringRules(
    newsletterSignup: int,
    resourceDownload: int,
    contactForm: int,
    consultationBooking: int,
    pageViewServices: int,
    pageViewPortfolio: int,
    timeOnSiteMinutes: int,
    returnVisitor: int,
    premiumResourceDownload: int,
    multipleDownloads: int,
    companySizeBonus: int,
    executiveTitleBonus: int)

  /** The service's fixed rule table. */
  const ScoringRules: LeadScoringRules := LeadScoringRules(
    newsletterSignup := 5,
    resourceDownload := 15,
    contactForm := 25,
    consultationBooking := 50,
    pageViewServices := 2,
    pageViewPortfolio := 3,
    timeOnSiteMinutes := 1,
    returnVisitor := 10,
    premiumResourceDownload := 25,
    multipleDownloads := 10,
    companySizeBonus := 15,
    executiveTitleBonus := 20)

  /** The cap `calculateLeadScore` applies. */
  const MaxScore: int := 100

  const ExecutiveTitles: seq<string> :=
    ["CEO", "CTO", "CFO", "COO", "CMO", "Chief", "President", "VP", "Vice President", "Director"]

  const LargeCompanyIndicators: seq<string> :=
    ["Bank", "Financial", "Insurance", "Capital", "Investment", "Group", "Holdings", "Corp", "Inc", "Ltd"]

  /** Base points for the way the lead arrived; a chat lead matches no case of the switch. */
  function SourcePoints(source: LeadSource): int {
    match source
    case Newsletter => ScoringRules.newsletterSignup
    case Download => ScoringRules.resourceDownload
    case Contact => ScoringRules.contactForm
    case Booking => ScoringRules.consultationBooking
    case Chat => 0
  }

  /** What `if (activity.scoreValue) score += activity.scoreValue` adds for one activity. */
  function ActivityPoints(a: Activity): int {
    if a.scoreValue.Some? && a.scoreValue.value != 0 then a.scoreValue.value else 0
  }

  /** The activities' points summed in list order. */
  function TotalActivityPoints(activities: seq<Activity>): int {
    if |activities| == 0 then 0
    else TotalActivityPoints(activities[..|activities| - 1]) + ActivityPoints(activities[|activities| - 1])
  }

  /** Some word of `words` occurs in `hay`. */
  ghost predicate MentionsAny(hay: string, words: seq<string>) {
    exists i, k :: 0 <= i < |words| && OccursAt(hay, words[i], k)
  }

  /** `words.some(w => hay.includes(w))`. */
  function SomeIncluded(hay: string, words: seq<string>): (r: bool)
    ensures r <==> MentionsAny(hay, words)
  {
    if |words| == 0 then false
    else
      assert forall i :: 0 <= i < |words[1..]| ==> words[1..][i] == words[i + 1];
      Contains(hay, words[0]) || SomeIncluded(hay, words[1..])
  }

  function UpperEach(words: seq<string>): (r: seq<string>)
    ensures |r| == |words| && forall i :: 0 <= i < |words| ==> r[i] == ToUpper(words[i])
  {
    seq(|words|, i requires 0 <= i < |words| => ToUpper(words[i]))
  }

  /** `isExecutiveTitle`: a non-empty title whose upper-cased form contains the upper-cased
      form of one of the executive words. */
  function IsExecutiveTitle(title: Option<string>): (r: bool)
    ensures r <==> (title.Some? && title.value != "" && MentionsAny(ToUpper(title.value), UpperEach(ExecutiveTitles)))
  {
    if title.None? || title.value == "" then false
    else SomeIncluded(ToUpper(title.value), UpperEach(ExecutiveTitles))
  }

  /** `isLargeCompany`: a non-empty company name containing one of the indicator words,
      with exactly their capitalisation. */
  function IsLargeCompany(company: Option<string>): (r: bool)
    ensures r <==> (company.Some? && company.value != "" && MentionsAny(company.value, LargeCompanyIndicators))
  {
    if company.None? || company.value == "" then false
    else SomeIncluded(company.value, LargeCompanyIndicators)
  }

  /** The executive-title and company-size bonuses a lead earns. */
  function Bonuses(lead: LeadData): (r: int)
    ensures 0 <= r <= ScoringRules.executiveTitleBonus + ScoringRules.companySizeBonus
  {
    (if IsExecutiveTitle(lead.jobTitle) then ScoringRules.executiveTitleBonus else 0)
    + (if IsLargeCompany(lead.company) then ScoringRules.companySizeBonus else 0)
  }

  /** The uncapped sum `calculateLeadScore` builds. */
  function RawScore(lead: LeadData, activities: seq<Activity>): int {
    SourcePoints(lead.leadSource) + TotalActivityPoints(activities) + Bonuses(lead)
  }

  /** `Math.min(score, 100)` of the raw sum; there is no lower clamp. */
  function LeadScore(lead: LeadData, activities: seq<Activity>): int {
    var raw := RawScore(lead, activities);
    if raw < MaxScore then raw else MaxScore
  }

  /** `calculateLeadScore`: base points from the source, the activities' points one by one,
      then the two bonuses, capped at 100. */
  method CalculateLeadScore(lead: LeadData, activities: seq<Activity>) returns (score: int)
    ensures score == LeadScore(lead, activities)
    ensures score <= MaxScore
    ensures RawScore(lead, activities) >= MaxScore ==> score == MaxScore
    ensures RawScore(lead, activities) <= MaxScore ==> score == RawScore(lead, activities)
  {
    score := 0;
    match lead.leadSource {
      case Newsletter => score := score + ScoringRules.newsletterSignup;
      case Download => score := score + ScoringRules.resourceDownload;
      case Contact => score := score + ScoringRules.contactForm;
      case Booking => score := score + ScoringRules.consultationBooking;
      case Chat =>
    }
    for i := 0 to |activities|
      invariant score == SourcePoints(lead.leadSource) + TotalActivityPoints(activities[..i])
    {
      var activity := activities[i];
      if activity.scoreValue.Some? && activity.scoreValue.value != 0 {
        score := score + activity.scoreValue.value;
      }
      assert activities[..i + 1][..i] == activities[..i];
    }
    assert activities[..|activities|] == activities;
    if IsExecutiveTitle(lead.jobTitle) {
      score := score + ScoringRules.executiveTitleBonus;
    }
    if IsLargeCompany(lead.company) {
      score := score + ScoringRules.companySizeBonus;
    }
    score := if score < MaxScore then score else MaxScore;
  }

  /** `activity.scoreValue || 0`. */
  function ValueOrZero(a: Activity): int {
    a.scoreValue.GetOr(0)
  }

  function ScoreReduce(acc: int, activities: seq<Activity>): int
    decreases |activities|
  {
    if |activities| == 0 then acc else ScoreReduce(acc + ValueOrZero(activities[0]), activities[1..])
  }

  /** `getLeadScore`: a left-to-right reduce of the values, with no base points, no bonuses
      and no cap. It agrees with the calculator's activity sum. */
  function GetLeadScore(activities: seq<Activity>): (r: int)
    ensures r == TotalActivityPoints(activities)
  {
    ScoreReduceSum(0, activities);
    ScoreReduce(0, activities)
  }

  lemma {:induction false} TotalActivityPointsAppend(a: seq<Activity>, b: seq<Activity>)
    ensures TotalActivityPoints(a + b) == TotalActivityPoints(a) + TotalActivityPoints(b)
    decreases |b|
  {
    if |b| > 0 {
      var b' := b[..|b| - 1];
      assert (a + b)[..|a + b| - 1] == a + b';
      TotalActivityPointsAppend(a, b');
    } else {
      assert a + b == a;
    }
  }

  lemma {:induction false} ScoreReduceSum(acc: int, activities: seq<Activity>)
    ensures ScoreReduce(acc, activities) == acc + TotalActivityPoints(activities)
    decreases |activities|
  {
    if |activities| > 0 {
      ScoreReduceSum(acc + ValueOrZero(activities[0]), activities[1..]);
      assert [activities[0]] + activities[1..] == activities;
      TotalActivityPointsAppend([activities[0]], activities[1..]);
      assert TotalActivityPoints([activities[0]]) == ActivityPoints(activities[0]);
    }
  }

  /** Dropping the element at `k` removes one occurrence of it from the multiset. */
  lemma MultisetRemoveAt(b: seq<Activity>, k: nat)
    requires k < |b|
    ensures multiset(b[..k] + b[k + 1..]) == multiset(b) - multiset{b[k]}
  {
    assert b == b[..k] + [b[k]] + b[k + 1..];
    assert multiset(b) == multiset(b[..k]) + multiset{b[k]} + multiset(b[k + 1..]);
  }

  /** An activity inserted anywhere adds its own points to the sum. */
  lemma TotalActivityPointsInsert(front: seq<Activity>, y: Activity, back: seq<Activity>)
    ensures TotalActivityPoints(front + [y] + back) == TotalActivityPoints(front + back) + ActivityPoints(y)
  {
    assert TotalActivityPoints(front + [y] + back) == TotalActivityPoints(front + [y]) + TotalActivityPoints(back) by {
      TotalActivityPointsAppend(front + [y], back);
    }
    assert TotalActivityPoints(front + [y]) == TotalActivityPoints(front) + ActivityPoints(y) by {
      assert (front + [y])[..|front + [y]| - 1] == front;
    }
    TotalActivityPointsAppend(front, back);
  }

  /** The activity sum does not depend on the order of the activities. */
  lemma {:induction false} TotalActivityPointsPermutation(a: seq<Activity>, b: seq<Activity>)
    requires multiset(a) == multiset(b)
    ensures TotalActivityPoints(a) == TotalActivityPoints(b)
    decreases |a|
  {
    if |a| == 0 {
      assert |b| == |multiset(b)| == 0;
    } else {
      var x := a[|a| - 1];
      var a' := a[..|a| - 1];
      MultisetRemoveAt(a, |a| - 1);
      assert a[..|a| - 1] + a[|a|..] == a';
      assert x in multiset(b) by {
        assert x in multiset(a);
      }
      var k :| 0 <= k < |b| && b[k] == x;
      MultisetRemoveAt(b, k);
      TotalActivityPointsPermutation(a', b[..k] + b[k + 1..]);
      TotalActivityPointsInsert(b[..k], x, b[k + 1..]);
      assert b == b[..k] + [x] + b[k + 1..];
    }
  }

  /** Reordering the activities does not change the lead score. */
  lemma LeadScorePermutation(lead: LeadData, a: seq<Activity>, b: seq<Activity>)
    requires multiset(a) == multiset(b)
    ensures LeadScore(lead, a) == LeadScore(lead, b)
  {
    TotalActivityPointsPermutation(a, b);
  }

  lemma {:induction false} TotalActivityPointsNonNegative(activities: seq<Activity>)
    requires forall i :: 0 <= i < |activities| ==> activities[i].scoreValue.GetOr(0) >= 0
    ensures TotalActivityPoints(activities) >= 0
    decreases |activities|
  {
    if |activities| > 0 {
      TotalActivityPointsNonNegative(activities[..|activities| - 1]);
    }
  }

  /** With no negative activity value the score is never negative; no lower clamp is needed
      for that, and none is applied. */
  lemma LeadScoreNonNegative(lead: LeadData, activities: seq<Activity>)
    requires forall i :: 0 <= i < |activities| ==> activities[i].scoreValue.GetOr(0) >= 0
    ensures 0 <= LeadScore(lead, activities) <= MaxScore
  {
    TotalActivityPointsNonNegative(activities);
  }

  /** Inserting an activity with a positive value anywhere raises the raw sum by exactly that
      value, so the capped score never goes down. */
  lemma LeadScoreMonotone(lead: LeadData, activities: seq<Activity>, k: nat, a: Activity)
    requires k <= |activities|
    requires a.scoreValue.Some? && a.scoreValue.value > 0
    ensures RawScore(lead, activities[..k] + [a] + activities[k..]) == RawScore(lead, activities) + a.scoreValue.value
    ensures LeadScore(lead, activities[..k] + [a] + activities[k..]) >= LeadScore(lead, activities)
  {
    TotalActivityPointsAppend(activities[..k] + [a], activities[k..]);
    TotalActivityPointsAppend(activities[..k], [a]);
    TotalActivityPointsAppend(activities[..k], activities[k..]);
    assert activities[..k] + activities[k..] == activities;
    assert TotalActivityPoints([a]) == ActivityPoints(a) by {
      assert [a][..0] == [];
    }
  }

  /** Base points by source, for a lead with no activity, title or company. */
  lemma BaseScoreBySource(lead: LeadData)
    requires lead.jobTitle.None? && lead.company.None?
    ensures lead.leadSource == Newsletter ==> LeadScore(lead, []) == 5
    ensures lead.leadSource == Download ==> LeadScore(lead, []) == 15
    ensures lead.leadSource == Contact ==> LeadScore(lead, []) == 25
    ensures lead.leadSource == Booking ==> LeadScore(lead, []) == 50
    ensures lead.leadSource == Chat ==> LeadScore(lead, []) == 0
  {
  }

  /** Matching ignores case: 'chief growth officer' earns the executive bonus. */
  lemma ChiefIsExecutive()
    ensures IsExecutiveTitle(Some("chief growth officer"))
  {
    var words := UpperEach(ExecutiveTitles);
    assert words[5] == "CHIEF";
    assert ToUpper("chief growth officer")[0..5] == "CHIEF";
    assert OccursAt(ToUpper("chief growth officer"), words[5], 0);
  }

  lemma DirectorIsExecutive()
    ensures IsExecutiveTitle(Some("director of engineering"))
  {
    var words := UpperEach(ExecutiveTitles);
    assert words[9] == "DIRECTOR";
    assert ToUpper("director of engineering")[0..8] == "DIRECTOR";
    assert OccursAt(ToUpper("director of engineering"), words[9], 0);
  }

  /** Matching is by substring, so the short word 'CTO' also fires inside 'Contractor'. */
  lemma ContractorIsExecutive()
    ensures IsExecutiveTitle(Some("Contractor"))
  {
    var words := UpperEach(ExecutiveTitles);
    assert words[1] == "CTO";
    assert ToUpper("Contractor")[6..9] == "CTO";
    assert OccursAt(ToUpper("Contractor"), words[1], 6);
  }

  lemma NoExecutiveWordInAdministrator()
    ensures forall i :: 0 <= i < |ExecutiveTitles| ==> !Contains("ADMINISTRATOR", UpperEach(ExecutiveTitles)[i])
  {
    var words := UpperEach(ExecutiveTitles);
    var admin := "ADMINISTRATOR";
    forall i | 0 <= i < |words|
      ensures !Contains(admin, words[i])
    {
      if i == 0 {
        assert words[0] == "CEO";
        NotContainsMissingChar(admin, words[i], 1);
      } else if i == 9 {
        assert words[9] == "DIRECTOR";
        NotContainsMissingChar(admin, words[i], 3);
      } else {
        assert words[i][0] == UpperChar(ExecutiveTitles[i][0]);
        NotContainsMissingChar(admin, words[i], 0);
      }
    }
  }

  /** 'administrator' contains none of the executive words; an absent or empty title never
      earns the bonus. */
  lemma AdministratorIsNotExecutive()
    ensures !IsExecutiveTitle(Some("administrator"))
    ensures !IsExecutiveTitle(Some("")) && !IsExecutiveTitle(None)
  {
    UpperAdministrator();
    NoExecutiveWordInAdministrator();
  }

  lemma UpperAdministrator()
    ensures ToUpper("administrator") == "ADMINISTRATOR"
  {
  }

  /** The indicator words match only with their own capitalisation. */
  lemma BigBankIsLarge()
    ensures IsLargeCompany(Some("BigBank Financial"))
  {
    assert "BigBank Financial"[3..7] == "Bank";
    assert OccursAt("BigBank Financial", LargeCompanyIndicators[0], 3);
  }

  lemma NoIndicatorInLowerCase()
    ensures forall i :: 0 <= i < |LargeCompanyIndicators| ==> !Contains("big bank financial", LargeCompanyIndicators[i])
  {
    forall i | 0 <= i < |LargeCompanyIndicators|
      ensures !Contains("big bank financial", LargeCompanyIndicators[i])
    {
      NotContainsMissingChar("big bank financial", LargeCompanyIndicators[i], 0);
    }
  }

  lemma LowerCaseBankIsNotLarge()
    ensures !IsLargeCompany(Some("big bank financial"))
    ensures !IsLargeCompany(Some("")) && !IsLargeCompany(None)
  {
    NoIndicatorInLowerCase();
  }

  /** Booking base 50, an activity worth 25 and both bonuses stack to 110; the score is 100. */
  lemma ScoreCapExample(lead: LeadData, kind: ActivityType)
    requires lead.leadSource == Booking && IsExecutiveTitle(lead.jobTitle) && IsLargeCompany(lead.company)
    ensures RawScore(lead, [Activity(kind, Some(25))]) == 110
    ensures LeadScore(lead, [Activity(kind, Some(25))]) == MaxScore
  {
    var acts := [Activity(kind, Some(25))];
    assert acts[..0] == [];
    assert TotalActivityPoints(acts) == 25;
    assert Bonuses(lead) == 35;
  }

  const HighValueProspectSequence: string := "high-value-prospect-sequence"
  const QualifiedLeadSequence: string := "qualified-lead-sequence"
  const ResourceDownloadNurture: string := "resource-download-nurture"
  const NewsletterWelcomeSeries: string := "newsletter-welcome-series"
  const GeneralNurtureSequence: string := "general-nurture-sequence"

  /** `determineEmailSequence`: the first matching rule picks one of five sequences. Each
      sequence is chosen exactly on its own region of (score, source) pairs, so the rules
      cover every pair and never overlap. */
  function DetermineEmailSequence(lead: LeadData, leadScore: int): (r: string)
    ensures r == HighValueProspectSequence <==> leadScore >= 75
    ensures r == QualifiedLeadSequence <==> 50 <= leadScore < 75
    ensures r == ResourceDownloadNurture <==> leadScore < 50 && lead.leadSource == Download
    ensures r == NewsletterWelcomeSeries <==> leadScore < 50 && lead.leadSource == Newsletter
    ensures r == GeneralNurtureSequence <==>
      leadScore < 50 && lead.leadSource != Download && lead.leadSource != Newsletter
  {
    if leadScore >= 75 then HighValueProspectSequence
    else if leadScore >= 50 then QualifiedLeadSequence
    else if lead.leadSource == Download then ResourceDownloadNurture
    else if lead.leadSource == Newsletter then NewsletterWelcomeSeries
    else GeneralNurtureSequence
  }

  /** 75 is the lowest high-value score; at 74 the choice falls to the next rules. */
  lemma SequenceBoundary(lead: LeadData)
    ensures DetermineEmailSequence(lead, 75) == HighValueProspectSequence
    ensures DetermineEmailSequence(lead, 74) == QualifiedLeadSequence
    ensures DetermineEmailSequence(lead, 49) != QualifiedLeadSequence
  {
  }

  /** The fifteen contact properties the CRM receives, in three groups of five. */
  const ContactPropertyNames: set<string> := {"email", "firstname", "lastname", "company", "jobtitle"}
  const ProfilePropertyNames: set<string> := {"phone", "website", "industry", "lead_source", "lead_score"}
  const CampaignPropertyNames: set<string> := {"lifecycle_stage", "interests", "utm_source", "utm_medium", "utm_campaign"}
  const HubSpotPropertyNames: set<string> := ContactPropertyNames + ProfilePropertyNames + CampaignPropertyNames

  /** `mapLeadDataToHubSpotProperties`: every property is present whatever the lead leaves
      undefined. Missing text becomes '', a missing score '0', a missing stage 'subscriber',
      and the interests are joined with ';'. */
  function MapLeadDataToHubSpotProperties(lead: LeadData): map<string, string> {
    map[
      "email" := lead.email,
      "firstname" := OrElse(lead.firstName.GetOr(""), ""),
      "lastname" := OrElse(lead.lastName.GetOr(""), ""),
      "company" := OrElse(lead.company.GetOr(""), ""),
      "jobtitle" := OrElse(lead.jobTitle.GetOr(""), ""),
      "phone" := OrElse(lead.phone.GetOr(""), ""),
      "website" := OrElse(lead.website.GetOr(""), ""),
      "industry" := OrElse(lead.industry.GetOr(""), ""),
      "lead_source" := SourceName(lead.leadSource),
      "lead_score" := if lead.leadScore.None? then "0" else OrElse(IntToString(lead.leadScore.value), "0"),
      "lifecycle_stage" := if lead.lifecycleStage.None? then "subscriber" else StageName(lead.lifecycleStage.value),
      "interests" := if lead.interests.None? then "" else OrElse(Join(lead.interests.value, ';'), ""),
      "utm_source" := OrElse(lead.utmSource.GetOr(""), ""),
      "utm_medium" := OrElse(lead.utmMedium.GetOr(""), ""),
      "utm_campaign" := OrElse(lead.utmCampaign.GetOr(""), "")
    ]
  }

  /** Every lead is flattened onto exactly the fifteen property names. */
  lemma PropertyKeys(lead: LeadData)
    ensures MapLeadDataToHubSpotProperties(lead).Keys == HubSpotPropertyNames
  {
  }

  /** The five contact properties copy the lead's contact fields, '' where one is missing. */
  lemma ContactProperties(lead: LeadData)
    ensures var r := MapLeadDataToHubSpotProperties(lead);
      r["email"] == lead.email && r["firstname"] == lead.firstName.GetOr("")
      && r["lastname"] == lead.lastName.GetOr("") && r["company"] == lead.company.GetOr("")
      && r["jobtitle"] == lead.jobTitle.GetOr("")
  {
    var r := MapLeadDataToHubSpotProperties(lead);
    assert r["email"] == lead.email;
    assert r["firstname"] == lead.firstName.GetOr("");
    assert r["lastname"] == lead.lastName.GetOr("");
  }

  /** The five profile properties: phone, website and industry as given or '', the source's
      name, and the score as text or '0'. */
  lemma ProfileProperties(lead: LeadData)
    ensures var r := MapLeadDataToHubSpotProperties(lead);
      r["phone"] == lead.phone.GetOr("") && r["website"] == lead.website.GetOr("")
      && r["industry"] == lead.industry.GetOr("") && r["lead_source"] == SourceName(lead.leadSource)
      && r["lead_score"] == if lead.leadScore.None? then "0" else IntToString(lead.leadScore.value)
  {
    var r := MapLeadDataToHubSpotProperties(lead);
    assert r["phone"] == lead.phone.GetOr("");
    assert r["website"] == lead.website.GetOr("");
    assert r["industry"] == lead.industry.GetOr("");
  }

  /** The five campaign properties: the stage's name or 'subscriber', the interests joined
      with ';' or '', and the three UTM values as given or ''. */
  lemma CampaignProperties(lead: LeadData)
    ensures var r := MapLeadDataToHubSpotProperties(lead);
      r["lifecycle_stage"] == (if lead.lifecycleStage.None? then "subscriber" else StageName(lead.lifecycleStage.value))
      && r["interests"] == (if lead.interests.None? then "" else Join(lead.interests.value, ';'))
      && r["utm_source"] == lead.utmSource.GetOr("") && r["utm_medium"] == lead.utmMedium.GetOr("")
      && r["utm_campaign"] == lead.utmCampaign.GetOr("")
  {
  }

  /** The fifteen property names are distinct, so the map always has fifteen entries. */
  lemma PropertyCount(lead: LeadData)
    ensures |MapLeadDataToHubSpotProperties(lead)| == 15
  {
    PropertyKeys(lead);
    PropertyGroupSizes();
    PropertyGroupsDisjoint();
    assert |ContactPropertyNames + ProfilePropertyNames| == 10;
  }

  lemma PropertyGroupSizes()
    ensures |ContactPropertyNames| == 5 && |ProfilePropertyNames| == 5 && |CampaignPropertyNames| == 5
  {
  }

  lemma PropertyGroupsDisjoint()
    ensures ContactPropertyNames !! ProfilePropertyNames
    ensures ContactPropertyNames !! CampaignPropertyNames
    ensures ProfilePropertyNames !! CampaignPropertyNames
  {
  }

  /** The 'lead_score' property parses back to the lead's score, or to 0 when it has none. */
  lemma LeadScorePropertyParses(lead: LeadData)
    ensures ParseInt(MapLeadDataToHubSpotProperties(lead)["lead_score"]) == Some(lead.leadScore.GetOr(0))
  {
    ProfileProperties(lead);
    if lead.leadScore.Some? {
      ParseIntToString(lead.leadScore.value);
    } else {
      ParseIntToString(0);
    }
  }

  /** The 'interests' property splits back into the interest tags when there is at least one
      and none holds a ';'. */
  lemma InterestsPropertySplits(lead: LeadData)
    requires lead.interests.Some? && |lead.interests.value| >= 1
    requires forall i :: 0 <= i < |lead.interests.value| ==> ';' !in lead.interests.value[i]
    ensures Split(MapLeadDataToHubSpotProperties(lead)["interests"], ';') == lead.interests.value
  {
    CampaignProperties(lead);
    SplitJoin(lead.interests.value, ';');
  }

  /** The calls a widget makes into the CRM service, in order. What lies behind them (the
      network, the demo-mode switch) is not modelled: the upsert reports success or failure
      without throwing, the other two are fire-and-forget. */
  datatype CrmCall =
    | CreateOrUpdateContact(lead: LeadData)
    | TriggerEmailSequence(lead: LeadData, leadScore: int)
    | TrackEvent(email: string, eventType: string)

  /** The CRM calls of an accepted form: the upsert, then, only when it succeeded, the
      nurture sequence for `score` and the form's event, and last, whatever the upsert did,
      `trackConversion`'s event 'conversion_<type>' for a lead with an email. */
  function CaptureCalls(lead: LeadData, score: int, eventType: string, upsertSucceeded: bool): (r: seq<CrmCall>)
    ensures |r| == (if upsertSucceeded then 3 else 1) + (if lead.email != "" then 1 else 0)
    ensures r[0] == CreateOrUpdateContact(lead)
    ensures upsertSucceeded ==> r[1] == TriggerEmailSequence(lead, score) && r[2] == TrackEvent(lead.email, eventType)
    ensures lead.email != "" ==> r[|r| - 1] == TrackEvent(lead.email, "conversion_" + eventType)
  {
    [CreateOrUpdateContact(lead)]
    + (if upsertSucceeded then [TriggerEmailSequence(lead, score), TrackEvent(lead.email, eventType)] else [])
    + (if lead.email != "" then [TrackEvent(lead.email, "conversion_" + eventType)] else [])
  }
}
