# Lead scoring and lead capture for a consultancy site

This project models the rules behind the lead-generation widgets of a consultant's marketing
site:

- **The CRM service** (module `Scoring`). It holds the fixed scoring rule table. It computes a
  lead's score from its source, its activities and two bonuses, capped at 100. It picks one of
  five nurture email sequences from the score and the source, and flattens a lead into the
  fifteen contact properties the CRM receives. It also has a plain activity-sum helper.
- **The gated resource library** (module `Resources`). It holds the catalogue of four
  downloads, the threshold gate in front of them, and the download form.
  - The form validates its inputs and reads the lead score cached in the browser.
  - It refuses a resource above that score, then scores the download and upserts the contact.
  - Only when the upsert succeeds does it trigger the sequence, track the event and write the
    cache. The new cached value is the previous one plus the new score, with no cap.
- **The newsletter sign-up** (module `Newsletter`). The same validation and CRM sequence with a
  shorter form. The cache is overwritten with the sign-up's own score.
- **The email check** both forms share (module `Email`): the regular expression
  `^[^\s@]+@[^\s@]+\.[^\s@]+$`. It is written as a small left-to-right matcher and proved equal
  to a description read off the pattern.
- **Translation** (module `Translation`). Six supported languages and the translation tables.
  The lookup `t` falls back to the English table for a language without a table, and to the key
  for a missing entry. The initial language comes from the saved preference, then the browser's
  language. `setLanguage` persists the choice.
- **The chat and booking widget** (module `Chat`).
  - An append-only conversation that opens with a greeting.
  - A blank-message guard and the typing indicator.
  - The canned reply chosen by keyword, where the last keyword in table order wins.
  - The value a consultation type reports when it is picked.
- **Shared support.** `localStorage` is the class `Storage.Store`, a string-to-string map that the
  form methods update in place. `Text` has the JavaScript string and number primitives the rules
  use: `trim` emptiness, ASCII case mapping, `includes`, `split`/`join`, `toString` and
  decimal `parseInt`. `Wrappers` has `Option`.

The state-changing handlers are methods on classes whose fields are the components' state
variables. Network results are a parameter: the upsert's success is the `bool` argument
`upsertSucceeded`. A handler returns the sequence of CRM calls it made (`Scoring.CrmCall`), including the
'conversion_<type>' event that `trackConversion` sends on every accepted submission.

Behaviours of the code worth noting:

- **Company bonus.** The company test is case-sensitive. "big bank financial" earns no bonus
  (`Scoring.LowerCaseBankIsNotLarge`).
- **Cumulative download total.** It is previous + new: from a cached 80, a
  premium download by an executive at a large company gives 155: the total is not re-capped at 100
  (`Resources.PremiumExecutiveDownload`).
- **Newsletter score.** The sign-up also scores its form-submission activity of 5. Ada from
  BigBank Financial scores 5 + 5 + 15 = 25 (`Newsletter.AdaSignup`).
- **Executive title.** The title test is by substring, so 'CTO' fires inside "Contractor"
  (`Scoring.ContractorIsExecutive`), and also inside "Director" and "Doctor".
- **Initial language.** When neither the saved preference nor the browser's language is
  supported, the mount effect leaves the current language as it is. On a fresh page that is
  'en'.

## Model

| member | source | states |
|---|---|---|
| Scoring.CalculateLeadScore | src/lib/hubspot.ts:105-141 | The score the loop builds is the spec function `LeadScore`: source points plus the activity values that are set and non-zero plus the bonuses, then `min(·, 100)`. It is never above 100, it is 100 whenever the raw sum reaches 100, and it is the raw sum otherwise. |
| Scoring.BaseScoreBySource | src/lib/hubspot.ts:108-122 | With no activity, title or company, a newsletter lead scores 5, download 15, contact 25, booking 50, and chat 0 because the switch has no case for it. |
| Scoring.TotalActivityPointsInsert | src/lib/hubspot.ts:125-129 | An activity inserted at any position adds exactly its own points to the activity sum. |
| Scoring.TotalActivityPointsPermutation | src/lib/hubspot.ts:125-129 | The activity sum is the same for any two activity lists with the same multiset of activities. |
| Scoring.LeadScorePermutation | src/lib/hubspot.ts:125-129 | Reordering the activities does not change the lead score. |
| Scoring.LeadScoreNonNegative | src/lib/hubspot.ts:105-141 | With no negative activity value the score lies in 0..100, although no lower clamp is applied. |
| Scoring.LeadScoreMonotone | src/lib/hubspot.ts:125-140 | Inserting an activity with a positive value anywhere raises the raw sum by exactly that value and never lowers the capped score. |
| Scoring.ScoreCapExample | src/lib/hubspot.ts:140 | A booking lead that is an executive at a large company, with one activity of 25, has raw sum 110 and score 100. |
| Scoring.SomeIncluded | src/lib/hubspot.ts:220 | `words.some(w => hay.includes(w))` is true iff some word occurs somewhere in the hay. |
| Scoring.IsExecutiveTitle | src/lib/hubspot.ts:210-214 | True iff the title is present, non-empty, and its upper-cased form contains the upper-cased form of one of the ten executive words. |
| Scoring.IsLargeCompany | src/lib/hubspot.ts:216-221 | True iff the company is present, non-empty, and contains one of the ten indicator words with their exact capitalisation. |
| Scoring.Bonuses | src/lib/hubspot.ts:131-138 | The two bonuses add between 0 and 35. |
| Scoring.ChiefIsExecutive | src/lib/hubspot.ts:212-213 | "chief growth officer" earns the executive bonus: matching ignores case. |
| Scoring.DirectorIsExecutive | src/lib/hubspot.ts:212-213 | "director of engineering" earns the executive bonus. |
| Scoring.ContractorIsExecutive | src/lib/hubspot.ts:212-213 | "Contractor" earns the executive bonus, because "CTO" occurs inside "CONTRACTOR". |
| Scoring.AdministratorIsNotExecutive | src/lib/hubspot.ts:211-213 | "administrator", the empty title and an absent title earn no executive bonus. |
| Scoring.BigBankIsLarge | src/lib/hubspot.ts:219-220 | "BigBank Financial" earns the company bonus. |
| Scoring.LowerCaseBankIsNotLarge | src/lib/hubspot.ts:217-220 | "big bank financial", the empty name and an absent company earn no company bonus: the match is case-sensitive. |
| Scoring.DetermineEmailSequence | src/lib/hubspot.ts:223-235 | Each of the five sequences is chosen exactly on its own region: score ≥ 75; 50 ≤ score < 75; score < 50 with source download; score < 50 with source newsletter; score < 50 with any other source. The regions cover every pair and do not overlap. |
| Scoring.SequenceBoundary | src/lib/hubspot.ts:224-227 | 75 selects the high-value sequence, 74 the qualified-lead sequence, and 49 not the qualified-lead sequence. |
| Scoring.CaptureCalls | src/components/DownloadableResources.tsx:174-236 | The calls an accepted form makes (the download form here, the sign-up form at src/components/NewsletterSignup.tsx:75-129, with `trackConversion` at src/lib/hubspot.ts:272-295): the upsert always comes first; the sequence trigger for the given score and the form's event follow iff the upsert succeeded; and whatever the upsert did, a lead with an email gets the 'conversion_' + event last. |
| Scoring.PropertyKeys | src/lib/hubspot.ts:190-208 | `MapLeadDataToHubSpotProperties(lead)`, the model of `mapLeadDataToHubSpotProperties`, always has exactly the fifteen CRM property names as its keys, whatever the lead leaves undefined; its values are stated by the three rows below. |
| Scoring.ContactProperties | src/lib/hubspot.ts:192-196 | email, firstname, lastname, company and jobtitle are the lead's values, '' where a value is missing. |
| Scoring.ProfileProperties | src/lib/hubspot.ts:197-201 | phone, website and industry are the lead's values or ''. lead_source is the source's name. lead_score is the score as decimal text, or '0' when there is none. |
| Scoring.CampaignProperties | src/lib/hubspot.ts:202-206 | lifecycle_stage is the stage's name or 'subscriber'. interests are joined with ';', or '' when absent. The three UTM values are as given or ''. |
| Scoring.PropertyCount | src/lib/hubspot.ts:191-207 | The map has exactly fifteen entries for every lead. |
| Scoring.LeadScorePropertyParses | src/lib/hubspot.ts:201 | `parseInt` of the lead_score property gives back the lead's score, or 0 when it has none. |
| Scoring.InterestsPropertySplits | src/lib/hubspot.ts:203 | Splitting the interests property on ';' gives back the interest tags, when there is at least one and none holds a ';'. |
| Scoring.GetLeadScore | src/lib/hubspot.ts:266-269 | The left-to-right reduce with missing values as 0 equals the calculator's uncapped activity sum. It has no base points, no bonuses and no cap. |
| Scoring.ScoreReduceSum | src/lib/hubspot.ts:268 | A reduce that starts from `acc` ends at `acc` plus the activity sum. |
| Text.IsBlank | src/components/LiveChatCalendly.tsx:100 | `!s.trim()` holds iff every character of the string is JavaScript white space. |
| Text.ToUpper | src/lib/hubspot.ts:213 | Same length, each character upper-cased (ASCII letters). |
| Text.ToLower | src/components/LiveChatCalendly.tsx:127 | Same length, each character lower-cased (ASCII letters). |
| Text.Contains | src/lib/hubspot.ts:220 | `includes` is true iff the needle occurs at some index of the hay. |
| Text.NotContainsMissingChar | src/lib/hubspot.ts:220 | A needle holding a character the hay lacks does not occur in it. |
| Text.Optional | src/components/NewsletterSignup.tsx:54-55 | `value \|\| undefined` is absent iff the input is empty, and is the input otherwise. |
| Text.FirstField | src/components/LanguageSwitcher.tsx:260 | `split("-")[0]` is the longest prefix without '-'; when it is shorter than the string, a '-' follows it. |
| Text.SplitJoin | src/lib/hubspot.ts:203 | Splitting a ';'-join of at least one ';'-free part gives the parts back. |
| Text.ParseIntToString | src/components/DownloadableResources.tsx:193 | `parseInt` of `n.toString()` is `n`, for every integer. |
| Text.ParseInt | src/components/DownloadableResources.tsx:106 | Decimal `parseInt` yields a number only when the string holds a digit (otherwise NaN, `None`); its value is pinned by the three lemmas below. |
| Text.ParseIntRun | src/components/DownloadableResources.tsx:106 | Leading white space, an optional sign and a longest run of digits parse to the run's value, negated after '-'; whatever follows the run is ignored. |
| Text.ParseIntDigits | src/components/LiveChatCalendly.tsx:165 | A non-empty string of digits parses to the number it denotes. |
| Text.ParseIntNoDigits | src/components/DownloadableResources.tsx:106 | When no digit follows the leading white space and the optional sign, the result is NaN. |
| Text.KeepDigits | src/components/LiveChatCalendly.tsx:165 | `replace(/[^0-9]/g, '')` yields only digits, is no longer than its input, and is empty iff the input has no digit. |
| Text.KeepDigitsAppend | src/components/LiveChatCalendly.tsx:165 | The digits of a concatenation are the digits of its first part followed by those of its second. |
| Text.KeepDigitsChar | src/components/LiveChatCalendly.tsx:165 | A single character is kept iff it is a digit; with `KeepDigitsAppend` this fixes the result as the input's digits in order. |
| Text.KeepDigitsOfDigits | src/components/LiveChatCalendly.tsx:165 | Removing non-digits from a string of digits leaves it unchanged. |
| Storage.Store.GetItem | src/components/DownloadableResources.tsx:105 | `getItem` returns the stored value when the key is present and null otherwise. |
| Storage.Store.SetItem | src/components/DownloadableResources.tsx:192-193 | `setItem` replaces that key's value and leaves the rest of the store as it was. |
| Storage.CachedScore | src/components/DownloadableResources.tsx:104-107 | An absent or empty cached score reads as 0; otherwise it is what `parseInt` gives for the stored text. |
| Storage.RecordLeadReadsBack | src/components/DownloadableResources.tsx:192-193 | After writing the email and a score, the cache stays readable, the score reads back as the value written, the email is stored, and every other entry is unchanged. |
| Email.ValidateEmailMatchesPattern | src/components/NewsletterSignup.tsx:25-28 | `ValidateEmail`, the model of `validateEmail` (a matcher for the regular expression), accepts a string iff it is a non-empty run of non-space, non-'@' characters, then '@', then a non-empty run, then '.', then a non-empty run, and everything except that one '@' is plain. |
| Email.StateAtMeaning | src/components/NewsletterSignup.tsx:26 | Soundness of the matcher: each state it reaches describes the prefix read so far. |
| Email.StateAtDomain | src/components/NewsletterSignup.tsx:26 | Completeness of the matcher: on a string of the pattern's shape it reaches the accepting state. |
| Email.WorkedExampleIsValid | src/components/NewsletterSignup.tsx:26 | "ada@bigbank.com" is accepted. |
| Email.MissingDotIsInvalid | src/components/NewsletterSignup.tsx:26 | "ada@bigbank" is refused. |
| Email.SpaceIsInvalid | src/components/NewsletterSignup.tsx:26 | An address containing a space is refused. |
| Email.SecondAtIsInvalid | src/components/NewsletterSignup.tsx:26 | An address with a second '@' is refused. |
| Resources.CanAccess | src/components/DownloadableResources.tsx:461 | A card is unlocked iff `GateRejects`, the submit-time gate of line 128, does not reject it. For a positive threshold, that is iff the cached score reaches the threshold. |
| Resources.CatalogueAccess | src/components/DownloadableResources.tsx:28-81 | The first catalogue entry is always unlocked; the others unlock exactly from 15, 25 and 35 points (so 24 is locked for threshold 25 and 25 is not). |
| Resources.AccessMonotone | src/components/DownloadableResources.tsx:461 | Raising the cached score never locks a resource. |
| Resources.FormError | src/components/DownloadableResources.tsx:113-122 | The required-fields message iff one of first name, last name, email or company is empty. Otherwise the invalid-email message iff the email check fails. No error iff both checks pass. |
| Resources.DownloadActivityValue | src/components/DownloadableResources.tsx:164 | A download is worth 25 iff the resource is premium and 15 iff it is not. |
| Resources.DownloadBoostRange | src/components/DownloadableResources.tsx:154-168 | A download scores 15 + 15 or 25 + bonuses, between 30 and 75, so the cap never bites. |
| Resources.DownloadTotalUncapped | src/components/DownloadableResources.tsx:169 | The new total is the previous score plus at least 30, and above 100 whenever the previous score is above 70. |
| Resources.PremiumExecutiveDownload | src/components/DownloadableResources.tsx:164-169 | A premium download by an executive at a large company scores 75, and 155 on top of a cached 80. |
| Resources.CacheAddsBoost | src/components/DownloadableResources.tsx:169-194 | Writing the cached score plus any boost back to the cache leaves it readable, and the score read back is exactly the old one plus the boost. |
| Resources.DownloadCacheUpdate | src/components/DownloadableResources.tsx:169-193 | After the cache writes, the cached score reads back as previous + boost, uncapped and at least previous + 30. |
| Resources.DownloadForm.HandleSubmit | src/components/DownloadableResources.tsx:109-259 | The inputs are never changed. A validation error sets its message, makes no CRM call and leaves the cache and the other state alone. When validation passes, the shown current score is the cached score. A gate failure sets the message with both scores, makes no call and leaves the cache alone. Otherwise the form is downloaded without error, shows the boost, makes the calls of `CaptureCalls` with the total previous + boost and the 'resource_download' event, and writes the email and the total only when the upsert succeeded. |
| Resources.DownloadForm.Proceed | src/components/DownloadableResources.tsx:124-131 | Reads and shows the cached score, then either stops at the gate (message, no call, cache unchanged) or captures as above. |
| Resources.DownloadForm.Capture | src/components/DownloadableResources.tsx:133-258 | The capture after the gate: the final form state, the CRM calls and the cache, as in `HandleSubmit`. |
| Resources.ResourceLibrary.Mount | src/components/DownloadableResources.tsx:418-421 | The library's score is the cached score, and 0 when nothing is cached. |
| Resources.ResourceLibrary.Unlocked | src/components/DownloadableResources.tsx:461 | One flag per catalogue entry, true iff the gate does not reject that entry at the library's score. |
| Newsletter.SignupError | src/components/NewsletterSignup.tsx:34-42 | The required-fields message iff the email or the first name is empty (company and job title are optional). Otherwise the invalid-email message iff the email check fails. No error iff both pass. |
| Newsletter.SignupScoreRange | src/components/NewsletterSignup.tsx:63-70 | A sign-up scores 5 + 5 + bonuses, between 10 and 45. |
| Newsletter.BareSignupScore | src/components/NewsletterSignup.tsx:54-55 | Empty company and job title are passed as undefined, so no bonus applies and the score is 10. |
| Newsletter.SignupSequence | src/components/NewsletterSignup.tsx:79 | Every sign-up gets the newsletter welcome series. |
| Newsletter.SignupOverwritesCache | src/components/NewsletterSignup.tsx:89-90 | The cache is overwritten, not added to: a cached 80 becomes 10 after a bare sign-up. |
| Newsletter.AdaSignup | src/components/NewsletterSignup.tsx:51-70 | Ada at BigBank Financial passes validation and scores 25. |
| Newsletter.NewsletterForm.HandleSubmit | src/components/NewsletterSignup.tsx:30-146 | A validation error sets its message, makes no CRM call, and changes neither the cache nor the other state. An accepted sign-up is scored on its own and makes the calls of `CaptureCalls` with the 'newsletter_signup' event. It writes the email and its score only when the upsert succeeded, and it ends subscribed, without error, with all four inputs cleared. |
| Newsletter.NewsletterForm.Subscribe | src/components/NewsletterSignup.tsx:44-138 | The accepted path of `HandleSubmit`, with the same final state. |
| Translation.FindLanguage | src/components/LanguageSwitcher.tsx:262 | `find` returns an entry with the code iff some entry has that code. |
| Translation.SupportedCodes | src/components/LanguageSwitcher.tsx:22-65 | A code is supported iff it is one of en, es, fr, de, it, pt. |
| Translation.TableFor | src/components/LanguageSwitcher.tsx:286 | A language's own table when it has one, and the English table otherwise. |
| Translation.T | src/components/LanguageSwitcher.tsx:285-288 | The entry of the language's table when it is present and non-empty, and the key itself when the entry is missing or empty. The result is empty only for the empty key. |
| Translation.UntranslatedLanguageUsesEnglish | src/components/LanguageSwitcher.tsx:286 | A code without its own table (de, it and pt among the listed ones) reads the English table through `|| translations.en`. |
| Translation.FrenchPortfolioTitle | src/components/LanguageSwitcher.tsx:201-250 | French gives back the key 'portfolio.title', with no second look in English; English and German give "Portfolio". |
| Translation.CurrentLang | src/components/LanguageSwitcher.tsx:300 | The displayed entry has the current code iff it is supported. Otherwise it is the first entry, English. |
| Translation.FallbackOnlyForEmptyKey | src/components/LanguageSwitcher.tsx:389-390 | `TranslatedText`, the model of the `TranslatedText` component's `t(key) || fallback || key`, is exactly `t(key)` for a non-empty key. The component's own fallback shows only for the empty key. |
| Translation.InitialLanguage | src/components/LanguageSwitcher.tsx:257-267 | A supported, non-empty saved preference is chosen whatever the browser says. Failing that, a supported browser prefix is chosen. Failing both, the current language is kept. |
| Translation.InitialLanguageSupported | src/components/LanguageSwitcher.tsx:262-265 | Starting from a supported language, the initial choice is supported. |
| Translation.BrowserLanguageExample | src/components/LanguageSwitcher.tsx:260-265 | With nothing saved, a browser language 'fr-' followed by any region gives 'fr', whatever the current language. |
| Translation.PreferenceExamples | src/components/LanguageSwitcher.tsx:259-265 | A saved 'de' wins over the browser. An unsupported save with browser 'ja-JP' keeps 'en'. |
| Translation.Translator.Mount | src/components/LanguageSwitcher.tsx:257-267 | The mount effect sets the language to `InitialLanguage` of the saved preference and the browser's language. |
| Translation.Translator.SetLanguage | src/components/LanguageSwitcher.tsx:269-271 | The language becomes the given code, unchecked, and the store gets it under 'preferred-language' with nothing else changed. |
| Translation.Translator.Translate | src/components/LanguageSwitcher.tsx:285-288 | Translation in the current language is `T` of that language, so a present non-empty entry is shown and a missing key is shown as itself. |
| Translation.PreferenceSurvivesReload | src/components/LanguageSwitcher.tsx:259-271 | After `setLanguage` with a supported code, the next mount picks it whatever the browser says. An unsupported code is stored but ignored. |
| Chat.ReplyAfterIsLastMatch | src/components/LiveChatCalendly.tsx:127-134 | The reply is the default when no keyword occurs. Otherwise it is the reply of the last keyword in table order that occurs. |
| Chat.SelectResponse | src/components/LiveChatCalendly.tsx:127-134 | The loop's reply is the text of the scan's choice for the lower-cased message. |
| Chat.ScheduleOutranksEarlierKeywords | src/components/LiveChatCalendly.tsx:91-97 | A message containing 'schedule' and not 'resources' gets the scheduling reply, whichever earlier keywords it also contains. |
| Chat.NoKeywordGetsDefault | src/components/LiveChatCalendly.tsx:128 | A message whose lower-cased form contains no keyword gets the default reply. |
| Chat.HelloGetsDefault | src/components/LiveChatCalendly.tsx:128 | "Hello" gets the default reply. |
| Chat.BookingValue | src/components/LiveChatCalendly.tsx:165 | "Free" reports 0. Any other price reports NaN iff it has no digit, and otherwise the number its digits, read in order, denote. A number reported is never negative. |
| Chat.PoundDigitsValue | src/components/LiveChatCalendly.tsx:165 | '£' followed by digits reports the number those digits denote. |
| Chat.PoundPriceValue | src/components/LiveChatCalendly.tsx:165 | '£' followed by `n.toString()` reports n, for every n ≥ 0. |
| Chat.ConsultationValues | src/components/LiveChatCalendly.tsx:42-70 | The three consultation types report 0, 300 and 500. |
| Chat.TechnicalDeepDiveValue | src/components/LiveChatCalendly.tsx:165 | "£300" reports 300. |
| Chat.StrategySessionValue | src/components/LiveChatCalendly.tsx:165 | "£500" reports 500. |
| Chat.ChatWidget.HandleSendMessage | src/components/LiveChatCalendly.tsx:99-112 | A blank input changes nothing and schedules no reply. Otherwise the input is appended at the end as the visitor's message, the earlier messages are untouched, the input is cleared and the typing indicator is on. The greeting stays first. |
| Chat.ChatWidget.DeliverReply | src/components/LiveChatCalendly.tsx:126-146 | The reply to the sent text is appended at the end with the earlier messages untouched, and the typing indicator is off. |
| Chat.ChatWidget.BookingSelect | src/components/LiveChatCalendly.tsx:154-176 | The chosen type is kept, the calendar is shown, and the reported value is `BookingValue` of its price. |

## Left out

- **Network.** The HTTP requests behind the CRM calls are not modelled, and neither is the
  demo-mode switch on the API key. The upsert is a success/failure parameter. The sequence
  trigger and the event tracking cannot fail the form.
- **The catch path.** The "Something went wrong" message that both forms show when the awaited
  calls throw is not modelled. Under the above abstraction nothing throws.
- **Analytics side channels.** The gtag, LinkedIn and Facebook pixel calls and `trackPageView`
  are not modelled, and neither is the gtag half of `trackConversion`. Its CRM event is
  modelled in `Scoring.CaptureCalls`. The `typeof window` guard is taken to hold, since the
  forms run in a browser. The payloads of the tracked events are not modelled.
- **Campaign parameters.** `getUTMParameters` reads the page URL, which is not modelled. The
  campaign values are the `Attribution` parameter of the form methods.
- **Browser time and UI.** Timers, the simulated file download, the Calendly widget,
  `window.open`, message ids and timestamps are not modelled. The reply timer is modelled as a
  second method, `DeliverReply`, called with the text `HandleSendMessage` returned.
- **React state semantics.** Asynchronous state batching and the stale `newMessage` read in the
  quick-reply handler are not modelled. The state writes before a handler's first `await` are
  batched into one render, so their order does not matter. Each form method runs as one atomic
  step, so the loading state shown while the CRM calls are awaited (the disabled
  "Processing & ..." button) is not modelled. Across the awaits the methods keep the source's
  order of calls, cache writes and state writes.
- **Corrupt storage.** A cached score that `parseInt` cannot read (NaN) is excluded by the
  `ScoreReadable` precondition of `Resources.DownloadForm.HandleSubmit` and
  `Resources.ResourceLibrary.Mount`.
- **parseInt.** It is decimal only; the '0x' prefix is not modelled.
- **Text.ToUpper, Text.ToLower.** Case mapping covers ASCII letters only. JavaScript's
  `toUpperCase` and `toLowerCase` also map non-ASCII letters, some to a different length
  ('ſ' to 'S', 'ß' to "SS"); those mappings are lost.
- **Numbers.** JavaScript numbers (scores, activity values, `toString`) are modelled as unbounded
  integers. Every value the code computes comes from integer literals and sums of them, so
  floating point never enters.
- **Object lookups.** Table and key lookups (`translations[lang]`, `langTranslations[key]`) are
  modelled as lookups of the object's own entries. Inherited names such as "constructor" or
  "toString" would find `Object.prototype` members in JavaScript; the page never asks for them,
  since codes come from the language list and keys are literals.
- **Translation tables.** Only four sample keys are modelled. In the source the 'fr' table lacks
  the portfolio.*, blog.* and testimonials.* entries; the sample keeps 'portfolio.title' as its
  one missing key. The language and table lists are otherwise as in the source.
- **Chat.BookingValue** is modelled whenever a consultation is selected. In the source it is
  computed only inside the analytics branch, where it is sent as an event value.
- **Display widgets.** The progress bar, badges and label texts are presentation only. Two
  labels of the sign-up form disagree with the scoring rules: "(+10 pts)" beside the company
  (src/components/NewsletterSignup.tsx:244), where the company bonus is 15, and
  "(+15 pts if executive)" beside the job title (line 258), where the executive bonus is 20.
