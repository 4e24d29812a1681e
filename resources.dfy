/** The gated resource library: the catalogue of downloads, the lead-score gate in front of
    the premium ones, and the download form that captures a lead, scores the download and
    adds the result to the score cached in the browser. */
module Resources {
  import opened Wrappers
  import opened Text
  import opened Storage
  import opened Scoring
  import opened Email

  datatype ResourceType = Whitepaper | Guide | Report | CaseStudy

  function TypeName(t: ResourceType): string {
    match t
    case Whitepaper => "whitepaper"
    case Guide => "guide"
    case Report => "report"
    case CaseStudy => "case-study"
  }

  /** A downloadable resource; only the fields the capture logic reads are kept. An undefined
      `leadScoreRequired` is `None`. */
  datatype Resource = Resource(
    id: string,
    title: string,
    kind: ResourceType,
    category: string,
    featured: bool,
    premium: bool,
    leadScoreRequired: Option<int>)

  const Catalogue: seq<Resource> := [
    Resource("ai-banking-transformation-2024", "AI Banking Transformation Guide 2024",
             Whitepaper, "AI Implementation", true, false, Some(0)),
    Resource("voice-agents-insurance-playbook", "Voice Agents in Insurance: Complete Playbook",
             Guide, "Voice Technology", false, false, Some(15)),
    Resource("fintech-risk-management-ai", "AI-Driven Risk Management Framework",
             Report, "Risk Management", false, true, Some(25)),
    Resource("mortgage-automation-case-study", "Mortgage Automation Success Story",
             CaseStudy, "Banking", true, true, Some(35))
  ]

  /** The submit-time gate: a threshold that is set, non-zero and above the cached score. */
  predicate GateRejects(resource: Resource, score: int) {
    resource.leadScoreRequired.Some? && resource.leadScoreRequired.value != 0
    && resource.leadScoreRequired.value > score
  }

  /** The card-level `canAccess` test: no threshold, a zero threshold, or a cached score that
      reaches it. It is exactly the negation of the submit-time gate, so a card shown as
      unlocked never fails the gate and a locked one always does. */
  function CanAccess(resource: Resource, score: int): (r: bool)
    ensures r <==> !GateRejects(resource, score)
    ensures resource.leadScoreRequired.Some? && resource.leadScoreRequired.value > 0 ==>
              (r <==> score >= resource.leadScoreRequired.value)
  {
    resource.leadScoreRequired.None? || resource.leadScoreRequired.value == 0
    || score >= resource.leadScoreRequired.value
  }

  /** Which catalogue entries a cached score unlocks: the whitepaper always, the others from
      15, 25 and 35 points. */
  lemma CatalogueAccess(score: int)
    ensures CanAccess(Catalogue[0], score)
    ensures CanAccess(Catalogue[1], score) <==> score >= 15
    ensures CanAccess(Catalogue[2], score) <==> score >= 25
    ensures CanAccess(Catalogue[3], score) <==> score >= 35
  {
  }

  /** Unlocking is monotone in the cached score: raising the score never locks a resource. */
  lemma AccessMonotone(resource: Resource, score: int, higher: int)
    requires score <= higher && CanAccess(resource, score)
    ensures CanAccess(resource, higher)
  {
  }

  function GateMessage(required: int, current: int): string {
    "This premium resource requires a lead score of " + IntToString(required)
    + ". Your current score is " + IntToString(current) + ". Try engaging more with our content!"
  }

  /** The six inputs of the download form. */
  datatype FormData = FormData(
    firstName: string, lastName: string, email: string, company: string, jobTitle: string, industry: string)

  const EmptyForm: FormData := FormData("", "", "", "", "", "")

  /** The first two checks of the form, in order: the four required fields, then the email
      shape. Job title and industry are optional. */
  function FormError(form: FormData): (r: Option<string>)
    ensures r == Some(RequiredFieldsMessage) <==>
              (form.firstName == "" || form.lastName == "" || form.email == "" || form.company == "")
    ensures r == Some(InvalidEmailMessage) <==>
              (form.firstName != "" && form.lastName != "" && form.email != "" && form.company != ""
               && !ValidateEmail(form.email))
    ensures r.None? <==>
              (form.firstName != "" && form.lastName != "" && form.email != "" && form.company != ""
               && ValidateEmail(form.email))
  {
    assert RequiredFieldsMessage[7] != InvalidEmailMessage[7];
    if form.firstName == "" || form.lastName == "" || form.email == "" || form.company == "" then
      Some(RequiredFieldsMessage)
    else if !ValidateEmail(form.email) then Some(InvalidEmailMessage)
    else None
  }

  /** What a download is worth as an activity. */
  function DownloadActivityValue(resource: Resource): (r: int)
    ensures r == 25 <==> resource.premium
    ensures r == 15 <==> !resource.premium
  {
    if resource.premium then 25 else 15
  }

  /** The single activity the form scores. */
  function DownloadActivities(resource: Resource): seq<Activity> {
    [Activity(FormSubmit, Some(DownloadActivityValue(resource)))]
  }

  /** The lead the form sends: source 'download', stage 'lead', interests derived from the
      resource, and the visit's campaign attribution. */
  function DownloadLead(form: FormData, resource: Resource, utm: Attribution, score: Option<int>): LeadData
  {
    LeadData(
      email := form.email,
      firstName := Some(form.firstName),
      lastName := Some(form.lastName),
      company := Some(form.company),
      jobTitle := Optional(form.jobTitle),
      phone := None,
      website := None,
      industry := Optional(form.industry),
      leadSource := Download,
      leadScore := score,
      lifecycleStage := Some(Lead),
      interests := Some([ToLower(resource.category), TypeName(resource.kind), "ai_implementation"]),
      utmSource := utm.utmSource,
      utmMedium := utm.utmMedium,
      utmCampaign := utm.utmCampaign)
  }

  /** `calculateLeadScore` over the download activity. */
  function DownloadBoost(lead: LeadData, resource: Resource): int {
    LeadScore(lead, DownloadActivities(resource))
  }

  /** The score a download earns: base 15, the activity's 15 or 25, and at most 35 in
      bonuses. It lies between 30 and 75, so the cap of 100 never bites. */
  lemma DownloadBoostRange(lead: LeadData, resource: Resource)
    requires lead.leadSource == Download
    ensures LeadScore(lead, DownloadActivities(resource)) == RawScore(lead, DownloadActivities(resource))
    ensures LeadScore(lead, DownloadActivities(resource)) ==
              ScoringRules.resourceDownload + DownloadActivityValue(resource) + Bonuses(lead)
    ensures 30 <= LeadScore(lead, DownloadActivities(resource)) <= 75
  {
    var acts := DownloadActivities(resource);
    assert acts[..0] == [];
    assert TotalActivityPoints(acts) == DownloadActivityValue(resource);
  }

  /** The cached total after a download is the previous value plus the boost, with no cap:
      each download adds at least 30, and from a cached 71 one download passes 100. */
  lemma DownloadTotalUncapped(previous: int, lead: LeadData, resource: Resource)
    requires lead.leadSource == Download
    ensures previous + LeadScore(lead, DownloadActivities(resource)) >= previous + 30
    ensures previous > MaxScore - 30 ==> previous + LeadScore(lead, DownloadActivities(resource)) > MaxScore
  {
    DownloadBoostRange(lead, resource);
  }

  /** An executive at a large company downloading a premium resource earns 75; on top of a
      cached 80 the new total is 155. */
  lemma PremiumExecutiveDownload(lead: LeadData, resource: Resource)
    requires lead.leadSource == Download && resource.premium
    requires IsExecutiveTitle(lead.jobTitle) && IsLargeCompany(lead.company)
    ensures LeadScore(lead, DownloadActivities(resource)) == 75
    ensures 80 + LeadScore(lead, DownloadActivities(resource)) == 155
  {
    DownloadBoostRange(lead, resource);
  }

  /** The download form of one resource: its inputs and the state the submit handler
      sets. */
  class DownloadForm {
    const resource: Resource
    var formData: FormData
    var isLoading: bool
    var isDownloaded: bool
    var error: string
    var leadScore: int
    var currentUserScore: int

    constructor (resource: Resource)
      ensures this.resource == resource && formData == EmptyForm
      ensures !isLoading && !isDownloaded && error == "" && leadScore == 0 && currentUserScore == 0
    {
      this.resource := resource;
      formData := EmptyForm;
      isLoading, isDownloaded, error, leadScore, currentUserScore := false, false, "", 0, 0;
    }

    /** The form state, the CRM calls and the cache after a capture that started from the
        cache `before`: no error, downloaded, the boost shown, the calls made and, after a
        successful upsert only, the email and the new total written. */
    predicate Captured(store: Store, utm: Attribution, upsertSucceeded: bool, before: map<string, string>,
                       calls: seq<CrmCall>)
      reads this, store
    {
      error == "" && isDownloaded && !isLoading
      && leadScore == DownloadBoost(DownloadLead(formData, resource, utm, None), resource)
      && calls == CaptureCalls(DownloadLead(formData, resource, utm, Some(currentUserScore + leadScore)),
                               currentUserScore + leadScore, "resource_download", upsertSucceeded)
      && store.items == if upsertSucceeded
                        then RecordLead(before, formData.email, currentUserScore + leadScore)
                        else before
    }

    /** `handleSubmit`. A validation failure stops before the cache is read; a gate failure
        stops after the cached score is shown. Neither calls the CRM or writes the cache.
        Otherwise the download is scored, the total is the cached score plus the boost, the
        contact is upserted, and only a successful upsert triggers the sequence, tracks the
        event and writes the email and total to the cache. The form ends up downloaded
        either way. */
    method HandleSubmit(store: Store, utm: Attribution, upsertSucceeded: bool) returns (calls: seq<CrmCall>)
      requires ScoreReadable(store.items)
      modifies this, store
      ensures formData == old(formData)
      ensures FormError(formData).Some? ==>
                error == FormError(formData).value && calls == [] && store.items == old(store.items)
                && isLoading == old(isLoading) && isDownloaded == old(isDownloaded)
                && leadScore == old(leadScore) && currentUserScore == old(currentUserScore)
      ensures FormError(formData).None? ==> currentUserScore == CachedScore(old(store.items))
      ensures FormError(formData).None? && GateRejects(resource, currentUserScore) ==>
                error == GateMessage(resource.leadScoreRequired.value, currentUserScore)
                && calls == [] && store.items == old(store.items)
                && isLoading == old(isLoading) && isDownloaded == old(isDownloaded)
                && leadScore == old(leadScore)
      ensures FormError(formData).None? && !GateRejects(resource, currentUserScore) ==>
                Captured(store, utm, upsertSucceeded, old(store.items), calls)
    {
      calls := [];
      if formData.firstName == "" || formData.lastName == "" || formData.email == "" || formData.company == "" {
        error := RequiredFieldsMessage;
        return;
      }
      if !ValidateEmail(formData.email) {
        error := InvalidEmailMessage;
        return;
      }
      calls := Proceed(store, utm, upsertSucceeded);
    }

    /** The part of `handleSubmit` after validation: the cached score is read and shown,
        then the gate either stops the submission or lets the capture run. */
    method Proceed(store: Store, utm: Attribution, upsertSucceeded: bool) returns (calls: seq<CrmCall>)
      requires ScoreReadable(store.items)
      modifies this, store
      ensures formData == old(formData)
      ensures currentUserScore == CachedScore(old(store.items))
      ensures GateRejects(resource, currentUserScore) ==>
                error == GateMessage(resource.leadScoreRequired.value, currentUserScore)
                && calls == [] && store.items == old(store.items)
                && isLoading == old(isLoading) && isDownloaded == old(isDownloaded)
                && leadScore == old(leadScore)
      ensures !GateRejects(resource, currentUserScore) ==>
                Captured(store, utm, upsertSucceeded, old(store.items), calls)
    {
      calls := [];
      var userCurrentScore := CachedScore(store.items);
      if resource.leadScoreRequired.Some? && resource.leadScoreRequired.value != 0
         && resource.leadScoreRequired.value > userCurrentScore {
        currentUserScore := userCurrentScore;
        error := GateMessage(resource.leadScoreRequired.value, userCurrentScore);
        return;
      }
      calls := Capture(store, utm, upsertSucceeded, userCurrentScore);
    }

    /** The capture half of `handleSubmit`, once validation and the gate have passed: the
        cached score `previous` is shown, then come scoring, the upsert and its follow-up
        calls, the cache writes, and the final form state. */
    method Capture(store: Store, utm: Attribution, upsertSucceeded: bool, previous: int) returns (calls: seq<CrmCall>)
      modifies this, store
      ensures formData == old(formData) && currentUserScore == previous
      ensures Captured(store, utm, upsertSucceeded, old(store.items), calls)
    {
      error := "";
      currentUserScore := previous;
      isLoading := true;
      var lead := DownloadLead(formData, resource, utm, None);
      var calculated := CalculateLeadScore(lead, DownloadActivities(resource));
      var total := currentUserScore + calculated;
      lead := lead.(leadScore := Some(total));
      assert lead == DownloadLead(formData, resource, utm, Some(total));
      leadScore := calculated;
      calls := [CreateOrUpdateContact(lead)];
      if upsertSucceeded {
        calls := calls + [TriggerEmailSequence(lead, total), TrackEvent(formData.email, "resource_download")];
        store.SetItem(UserEmailKey, formData.email);
        store.SetItem(LeadScoreKey, IntToString(total));
      }
      if lead.email != "" {
        calls := calls + [TrackEvent(lead.email, "conversion_" + "resource_download")];
      }
      assert calls == CaptureCalls(lead, total, "resource_download", upsertSucceeded);
      isDownloaded := true;
      isLoading := false;
    }
  }

  /** Recording `previous + boost` over a cache that held `previous` reads back as that sum. */
  lemma CacheAddsBoost(items: map<string, string>, email: string, boost: int)
    requires ScoreReadable(items)
    ensures ScoreReadable(RecordLead(items, email, CachedScore(items) + boost))
    ensures CachedScore(RecordLead(items, email, CachedScore(items) + boost)) == CachedScore(items) + boost
  {
    RecordLeadReadsBack(items, email, CachedScore(items) + boost);
  }

  /** After a successful download the cache reads back as the previous cached score plus the
      boost, uncapped, so it has grown by at least 30. (A failed upsert leaves the cache as it
      was; that half is the store clause of `DownloadForm.Captured`.) */
  lemma DownloadCacheUpdate(items: map<string, string>, email: string, lead: LeadData, resource: Resource)
    requires ScoreReadable(items) && lead.leadSource == Download
    ensures ScoreReadable(RecordLead(items, email, CachedScore(items) + LeadScore(lead, DownloadActivities(resource))))
    ensures CachedScore(RecordLead(items, email, CachedScore(items) + LeadScore(lead, DownloadActivities(resource))))
              == CachedScore(items) + LeadScore(lead, DownloadActivities(resource))
            >= CachedScore(items) + 30
  {
    DownloadBoostRange(lead, resource);
    CacheAddsBoost(items, email, LeadScore(lead, DownloadActivities(resource)));
  }

  /** The library page: the score it reads from the cache when it mounts, against which
      each card's `canAccess` is computed. */
  class ResourceLibrary {
    var userLeadScore: int

    constructor ()
      ensures userLeadScore == 0
    {
      userLeadScore := 0;
    }

    /** The mount effect: an absent or empty cache entry reads as 0. */
    method Mount(store: Store)
      requires ScoreReadable(store.items)
      modifies this
      ensures userLeadScore == CachedScore(store.items)
      ensures LeadScoreKey !in store.items ==> userLeadScore == 0
    {
      userLeadScore := CachedScore(store.items);
    }

    /** The cards shown unlocked. */
    function Unlocked(): (r: seq<bool>)
      reads this
      ensures |r| == |Catalogue|
      ensures forall i :: 0 <= i < |Catalogue| ==> (r[i] <==> !GateRejects(Catalogue[i], userLeadScore))
    {
      var score := userLeadScore;
      seq(|Catalogue|, i requires 0 <= i < |Catalogue| => CanAccess(Catalogue[i], score))
    }
  }
}
