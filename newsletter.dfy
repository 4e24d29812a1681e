/** The newsletter sign-up: a short form that scores the subscriber on the spot, sends the
    lead to the CRM and, when the CRM accepts it, overwrites the score cached in the
    browser with the sign-up's own score. */
module Newsletter {
  import opened Wrappers
  import opened Text
  import opened Storage
  import opened Scoring
  import opened Email

  /** The four inputs of the sign-up form. */
  datatype SignupData = SignupData(email: string, firstName: string, company: string, jobTitle: string)

  const EmptySignup: SignupData := SignupData("", "", "", "")

  const NewsletterInterests: seq<string> := ["fintech_insights", "ai_trends", "financial_automation"]

  /** The single activity a sign-up is scored with: a form submission worth 5. */
  const SignupActivities: seq<Activity> := [Activity(FormSubmit, Some(5))]

  /** The checks of the form, in order: email and first name are required, then the email
      must have the pattern's shape. Company and job title are optional. */
  function SignupError(form: SignupData): (r: Option<string>)
    ensures r == Some(RequiredFieldsMessage) <==> (form.email == "" || form.firstName == "")
    ensures r == Some(InvalidEmailMessage) <==>
              (form.email != "" && form.firstName != "" && !ValidateEmail(form.email))
    ensures r.None? <==> (form.email != "" && form.firstName != "" && ValidateEmail(form.email))
  {
    assert RequiredFieldsMessage[7] != InvalidEmailMessage[7];
    if form.email == "" || form.firstName == "" then Some(RequiredFieldsMessage)
    else if !ValidateEmail(form.email) then Some(InvalidEmailMessage)
    else None
  }

  /** The lead the form sends: source 'newsletter', stage 'subscriber', the three newsletter
      interests, and the visit's campaign attribution. */
  function SignupLead(form: SignupData, utm: Attribution, score: Option<int>): LeadData {
    LeadData(
      email := form.email,
      firstName := Some(form.firstName),
      lastName := None,
      company := Optional(form.company),
      jobTitle := Optional(form.jobTitle),
      phone := None,
      website := None,
      industry := None,
      leadSource := Newsletter,
      leadScore := score,
      lifecycleStage := Some(Subscriber),
      interests := Some(NewsletterInterests),
      utmSource := utm.utmSource,
      utmMedium := utm.utmMedium,
      utmCampaign := utm.utmCampaign)
  }

  /** `calculateLeadScore` over the sign-up activity. */
  function SignupScore(lead: LeadData): int {
    LeadScore(lead, SignupActivities)
  }

  /** A sign-up scores base 5, the activity's 5 and the bonuses: between 10 and 45, so the cap
      of 100 never bites. */
  lemma {:induction false} SignupScoreRange(lead: LeadData)
    requires lead.leadSource == Newsletter
    ensures SignupScore(lead) == ScoringRules.newsletterSignup + 5 + Bonuses(lead)
    ensures 10 <= SignupScore(lead) <= 45
  {
    assert SignupActivities[..0] == [];
    assert TotalActivityPoints(SignupActivities) == 5;
  }

  /** Without company and job title there is no bonus: the score is 10. */
  lemma BareSignupScore(form: SignupData, utm: Attribution, score: Option<int>)
    requires form.company == "" && form.jobTitle == ""
    ensures SignupScore(SignupLead(form, utm, score)) == 10
  {
    SignupScoreRange(SignupLead(form, utm, score));
  }

  /** Every sign-up scores below 50, so the CRM always picks the newsletter welcome series
      for it. */
  lemma SignupSequence(form: SignupData, utm: Attribution, score: Option<int>)
    ensures DetermineEmailSequence(SignupLead(form, utm, score), SignupScore(SignupLead(form, utm, score)))
            == NewsletterWelcomeSeries
  {
    SignupScoreRange(SignupLead(form, utm, score));
  }

  /** The sign-up overwrites the cache: whatever was cached before, a sign-up whose upsert
      succeeds leaves exactly its own score there, so a visitor who had 80 points from
      downloads and then subscribes without company or title is cached at 10. */
  lemma SignupOverwritesCache(items: map<string, string>, form: SignupData, utm: Attribution)
    requires form.company == "" && form.jobTitle == ""
    requires ScoreReadable(items) && CachedScore(items) == 80
    ensures ScoreReadable(RecordLead(items, form.email, SignupScore(SignupLead(form, utm, None))))
    ensures CachedScore(RecordLead(items, form.email, SignupScore(SignupLead(form, utm, None)))) == 10
  {
    BareSignupScore(form, utm, None);
    RecordLeadReadsBack(items, form.email, 10);
  }

  /** The worked example: Ada from BigBank Financial passes the checks and scores 5 + 5 + 15
      = 25, which selects the newsletter welcome series. */
  lemma AdaSignup(utm: Attribution)
    ensures SignupError(SignupData("ada@bigbank.com", "Ada", "BigBank Financial", "")).None?
    ensures SignupScore(SignupLead(SignupData("ada@bigbank.com", "Ada", "BigBank Financial", ""), utm, None)) == 25
  {
    var lead := SignupLead(SignupData("ada@bigbank.com", "Ada", "BigBank Financial", ""), utm, None);
    WorkedExampleIsValid();
    BigBankIsLarge();
    SignupScoreRange(lead);
  }

  /** The sign-up form: its inputs and the state the submit handler sets. */
  class NewsletterForm {
    var form: SignupData
    var isLoading: bool
    var isSubscribed: bool
    var error: string
    var leadScore: int

    constructor ()
      ensures form == EmptySignup && !isLoading && !isSubscribed && error == "" && leadScore == 0
    {
      form := EmptySignup;
      isLoading, isSubscribed, error, leadScore := false, false, "", 0;
    }

    /** The form state, the CRM calls and the cache after an accepted sign-up of `submitted`
        that started from the cache `before`: no error, subscribed, the inputs cleared, the
        score shown, the calls made and, after a successful upsert only, the email and the
        score written. */
    predicate Subscribed(store: Store, utm: Attribution, upsertSucceeded: bool, submitted: SignupData,
                         before: map<string, string>, calls: seq<CrmCall>)
      reads this, store
    {
      error == "" && isSubscribed && !isLoading && form == EmptySignup
      && leadScore == SignupScore(SignupLead(submitted, utm, None))
      && calls == CaptureCalls(SignupLead(submitted, utm, Some(leadScore)), leadScore, "newsletter_signup", upsertSucceeded)
      && store.items == if upsertSucceeded then RecordLead(before, submitted.email, leadScore) else before
    }

    /** `handleSubmit`. A validation failure sets the message and changes nothing else. An
        accepted sign-up is scored on its own (the cached score is never read), the contact
        is upserted, and only a successful upsert triggers the sequence, tracks the event
        and writes the email and score to the cache. The form is subscribed and cleared
        either way. */
    method HandleSubmit(store: Store, utm: Attribution, upsertSucceeded: bool) returns (calls: seq<CrmCall>)
      modifies this, store
      ensures SignupError(old(form)).Some? ==>
                error == SignupError(old(form)).value && calls == [] && store.items == old(store.items)
                && form == old(form) && isLoading == old(isLoading) && isSubscribed == old(isSubscribed)
                && leadScore == old(leadScore)
      ensures SignupError(old(form)).None? ==>
                Subscribed(store, utm, upsertSucceeded, old(form), old(store.items), calls)
    {
      calls := [];
      if form.email == "" || form.firstName == "" {
        error := RequiredFieldsMessage;
        return;
      }
      if !ValidateEmail(form.email) {
        error := InvalidEmailMessage;
        return;
      }
      calls := Subscribe(store, utm, upsertSucceeded);
    }

    /** The part of `handleSubmit` after validation. */
    method Subscribe(store: Store, utm: Attribution, upsertSucceeded: bool) returns (calls: seq<CrmCall>)
      modifies this, store
      ensures Subscribed(store, utm, upsertSucceeded, old(form), old(store.items), calls)
    {
      error := "";
      isLoading := true;
      var submitted := form;
      var lead := SignupLead(submitted, utm, None);
      var calculated := CalculateLeadScore(lead, SignupActivities);
      lead := lead.(leadScore := Some(calculated));
      leadScore := calculated;
      calls := [CreateOrUpdateContact(lead)];
      if upsertSucceeded {
        calls := calls + [TriggerEmailSequence(lead, calculated), TrackEvent(submitted.email, "newsletter_signup")];
        store.SetItem(UserEmailKey, submitted.email);
        store.SetItem(LeadScoreKey, IntToString(calculated));
      }
      if lead.email != "" {
        calls := calls + [TrackEvent(lead.email, "conversion_" + "newsletter_signup")];
      }
      isSubscribed := true;
      form := EmptySignup;
      isLoading := false;
    }
  }
}
