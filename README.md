# automated-mail, modelled in Dafny

automated-mail is a small inbox assistant. A simulated mail source serves a
fixed list of five emails. A simulated AI analysis sorts an email into a
category with an ordered chain of keyword rules (job offer, marketing,
support, cold email, newsletter, otherwise "other"). When a rule
matches, it attaches a three-bullet summary and a suggested reply; the
fall-through "other" gets neither. The inbox view filters the
list by a search term and a category, expands one card at a time, marks one
email as being analysed and refreshes the list. The single marker does not
stop a second analysis from starting while one is pending; the model runs
one handler at a time (see "## Left out"). A collapsed card shows the
snippet. An expanded card shows the body and either the analysis, with its
category badge, or an "Analyze with AI" button. A "Copy Reply" button
appears when the expanded card has a non-empty reply. A dialog checks the account credentials before handing them to the
provider.

The project has one module per source file:

- `Outcomes`: `Option` and `Result`.
- `Text`: ASCII lower-casing and substring search, the two string
  operations the rules and the filter use.
- `MockData`: the email record, the category table and the fixture.
- `FixtureLetters`: letters missing from record 2's texts, which decide
  the classifier's tests on that record.
- `AiService`: the classifier and `analyzeEmail`.
- `EmailService`: `fetchEmails`, `connectGmail` and the list-level
  `analyzeEmail`.
- `EmailAnalysis`: the filter, and the view state as the class
  `InboxView`.
- `EmailCard`: the badge lookup, what a card shows, and the copy state as
  the class `CardState`.
- `ConnectEmailModal`: the form checks, the request and the outcome, and
  the form state as the class `ConnectForm`.

Each asynchronous handler with one `await` becomes three methods:

- a `Start…`/`Begin…` method for the state change before the `await`;
- a `Finish…` method that takes the awaited result as a parameter;
- a `Handle…` method that composes the two with the call in between.

A rejected promise is the `Err` case of `Result`, or the `Threw` case of
the provider's reply. The simulated delays are dropped, so each awaited
call is an ordinary call.

`ConnectEmailModal.tsx` calls `emailService.connectEmailProvider`, which
`src/services/emailService.ts` does not define. The model passes that
service to `HandleConnect` as the function parameter `connect`, so every
property of the dialog holds whatever the service answers.

## Model

| member | source | states |
|---|---|---|
| Text.LowerChar | src/services/aiService.ts:17 | `toLowerCase` on one character: A–Z move to a–z, every other character is kept |
| Text.Lower | src/services/aiService.ts:17 | `toLowerCase` keeps the length and maps each letter A–Z to its lower-case form, leaving every other character |
| Text.Contains | src/services/aiService.ts:17 | `includes`: some window of the text equals the keyword |
| Text.LowerHasNoUpper | src/components/EmailAnalysis.tsx:78 | a lower-cased text has no capital letter |
| Text.LowerIdempotent | src/components/EmailAnalysis.tsx:72-75 | lower-casing twice is lower-casing once |
| Text.ContainsIffInfix | src/services/aiService.ts:17 | `includes` holds exactly when the text splits as prefix + keyword + suffix |
| MockData.EmailTypes | src/utils/mockData.ts:160-168 | seven entries; the first is "all"; values are distinct, lower case, and none is "other" |
| MockData.MockEmails | src/utils/mockData.ts:21-158 | five records, all unread, none analysed |
| MockData.FixtureIds | src/utils/mockData.ts:21-158 | the ids are "1" to "5" in list order, so they are pairwise distinct |
| MockData.RecruiterEmail | src/utils/mockData.ts:22-47 | record 1 has id "1" and no analysis |
| MockData.SalesEmail | src/utils/mockData.ts:48-74 | record 2 has id "2" and no analysis |
| MockData.RenewalEmail | src/utils/mockData.ts:75-99 | record 3 has id "3" and no analysis |
| MockData.PartnershipEmail | src/utils/mockData.ts:100-122 | record 4 has id "4" and no analysis |
| MockData.NewsletterEmail | src/utils/mockData.ts:123-157 | record 5 has id "5" and no analysis |
| AiService.IsJobOffer | src/services/aiService.ts:17 | "position" in the lower-cased subject, or both "opportunity" and "experience" in the lower-cased body |
| AiService.IsMarketing | src/services/aiService.ts:26 | "boost" or "revenue" in the lower-cased subject, or "sales" in the lower-cased body |
| AiService.IsSupport | src/services/aiService.ts:35 | "subscription" in the lower-cased subject, or "support" in the sender address as written |
| AiService.IsColdEmail | src/services/aiService.ts:44 | "collaboration" in the lower-cased subject, or "partnership" in the lower-cased body |
| AiService.IsNewsletter | src/services/aiService.ts:53 | "weekly" in the lower-cased subject, or "newsletter" in the sender address as written |
| AiService.Matches | src/services/aiService.ts:16-61 | the test of each branch of the chain, by rule |
| AiService.Kind | src/services/aiService.ts:16-61 | each branch's category is lower case and differs from the fall-through "other" |
| AiService.FirstRule | src/services/aiService.ts:16-61 | no branch is taken iff no rule's test passes; a taken branch's test passes and every earlier test fails |
| AiService.JobOfferAnalysis | src/services/aiService.ts:18-24 | category "job offer", three bullets, a non-empty reply |
| AiService.MarketingAnalysis | src/services/aiService.ts:27-33 | category "marketing", three bullets, a non-empty reply |
| AiService.SupportAnalysis | src/services/aiService.ts:36-42 | category "support", three bullets, a non-empty reply |
| AiService.ColdEmailAnalysis | src/services/aiService.ts:45-51 | category "cold email", three bullets, a non-empty reply |
| AiService.NewsletterAnalysis | src/services/aiService.ts:54-60 | category "newsletter", three bullets, an empty reply |
| AiService.Classify | src/services/aiService.ts:64-72 | every analysis is marked analyzed |
| AiService.ClassifyKind | src/services/aiService.ts:12-72 | the category is the taken branch's, or "other" when the chain falls through |
| AiService.ClassifyOther | src/services/aiService.ts:12-14 | the category is "other" iff no rule matches, and then the summary and the reply are empty |
| AiService.ClassifyJobOffer | src/services/aiService.ts:17-24 | job offer: three bullets, the first starts "Recruiter from " and the sender's name, and the reply starts "Dear " and the name |
| AiService.ClassifyMarketing | src/services/aiService.ts:26-33 | marketing: three bullets, the first starts with the sender's name, and the reply starts "Hello " and the name |
| AiService.ClassifySupport | src/services/aiService.ts:35-42 | support: three bullets and a non-empty reply |
| AiService.ClassifyColdEmail | src/services/aiService.ts:44-51 | cold email: three bullets, the first starts with the sender's name, and the reply starts "Hi " and the name |
| AiService.ClassifyNewsletter | src/services/aiService.ts:53-60 | newsletter: three bullets and no reply |
| AiService.AnalyzeEmail | src/services/aiService.ts:64-72 | the record comes back with every other field kept and the classifier's result as its analysis |
| AiService.ClassifyIgnoresAnalysis | src/services/aiService.ts:16-61 | an analysis already on the record does not change the classification |
| AiService.AnalyzeEmailIdempotent | src/services/aiService.ts:64-72 | analysing an analysed record again gives the same record |
| AiService.JobOfferGrouping | src/services/aiService.ts:17 | "position" in the subject suffices alone; "opportunity" in the body needs "experience" too |
| AiService.AddressOnly | src/services/aiService.ts:16-61 | with an empty subject and body only the two sender-address tests can pass |
| AiService.JobOfferBeatsSupport | src/services/aiService.ts:17-43 | every email that passes both the job-offer and the support test is a job offer |
| AiService.PositionFromSupportAddress | src/services/aiService.ts:17-35 | a "position" subject from "support@x.com" passes both tests |
| AiService.SupportAddressMakesSupport | src/services/aiService.ts:35-36 | every email that fails the first two tests and whose sender address contains "support" as written is a support email |
| AiService.LowerCaseSupportAddress | src/services/aiService.ts:35 | with an empty subject and body, the address "support@x.com" makes a support email |
| AiService.CapitalisedAddressLacksKeywords | src/services/aiService.ts:35 | the address test is case-sensitive: "Support@x.com" contains neither "support" nor "newsletter" |
| AiService.CapitalisedSupportMatchesNothing | src/services/aiService.ts:16-61 | such an email with empty subject and body takes no branch |
| AiService.CapitalisedSupportAddress | src/services/aiService.ts:12-61 | and so it is classified "other" |
| AiService.RecruiterEmailMatchesJobOffer | src/services/aiService.ts:17 | fixture record 1 passes the job-offer test |
| AiService.RecruiterEmailIsJobOffer | src/services/aiService.ts:17-18 | fixture record 1 is classified "job offer" |
| AiService.SalesEmailMatchesMarketing | src/services/aiService.ts:26 | fixture record 2 passes the marketing test |
| AiService.SalesEmailIsMarketing | src/services/aiService.ts:17-27 | fixture record 2 fails the job-offer test and is classified "marketing" |
| FixtureLetters.SalesSubjectHasNoP | src/utils/mockData.ts:51 | record 2's subject has no 'p' in either case, so it cannot contain "position" |
| FixtureLetters.SalesBodyHasNoX | src/utils/mockData.ts:53-71 | record 2's body has no 'x' in either case, so it cannot contain "experience" |
| AiService.RenewalEmailMatchesSupport | src/services/aiService.ts:35 | fixture record 3 passes the support test |
| AiService.PartnershipEmailMatchesColdEmail | src/services/aiService.ts:44 | fixture record 4 passes the cold-email test |
| AiService.NewsletterEmailMatchesNewsletter | src/services/aiService.ts:53 | fixture record 5 passes the newsletter test |
| EmailService.FetchEmails | src/services/emailService.ts:8-13 | five records with ids "1" to "5", none analysed |
| EmailService.ConnectGmail | src/services/emailService.ts:16-25 | every attempt succeeds with the fixed message |
| EmailService.FindIndex | src/services/emailService.ts:29 | `findIndex`: none iff no record has the id; otherwise the position of the first such record |
| EmailService.Updated | src/services/emailService.ts:28-42 | "Email not found" iff no record has the id; otherwise same length, the first match analysed, every other position unchanged |
| EmailService.AnalyzeEmail | src/services/emailService.ts:28-42 | the array copy with the one write yields exactly `Updated` |
| EmailService.UpdatedKeepsIds | src/services/emailService.ts:38-39 | analysis keeps every id in place, so the same position is found again |
| EmailService.SameIdsSameIndex | src/services/emailService.ts:29 | lists with equal ids position by position find an id at the same position |
| EmailService.AnalyzeTwice | src/services/emailService.ts:28-42 | analysing the same id twice equals analysing it once |
| EmailAnalysis.MatchesSearch | src/components/EmailAnalysis.tsx:72-75 | an empty term, or the lower-cased term inside the lower-cased subject, sender name or sender address |
| EmailAnalysis.MatchesType | src/components/EmailAnalysis.tsx:77-78 | "all", or an analysis whose lower-cased category equals the selected type as it stands |
| EmailAnalysis.Shown | src/components/EmailAnalysis.tsx:80 | the filter callback: the search test and, unless the type is "all", the category test |
| EmailAnalysis.FilterEmails | src/components/EmailAnalysis.tsx:71-81 | the result is no longer than the list, and every record in it is from the list and passes both tests |
| EmailAnalysis.FilterIsSubsequence | src/components/EmailAnalysis.tsx:71 | the filter keeps the list's order and only drops records |
| EmailAnalysis.FilterMembership | src/components/EmailAnalysis.tsx:71-81 | a record is shown iff it is in the list and passes the search and the category test |
| EmailAnalysis.FilterCounts | src/components/EmailAnalysis.tsx:71-81 | a passing record occurs in the view as often as in the list; any other record does not occur |
| EmailAnalysis.FilterAllIsIdentity | src/components/EmailAnalysis.tsx:72-80 | an empty search under "all" shows the whole list in order |
| EmailAnalysis.UnanalyzedExcluded | src/components/EmailAnalysis.tsx:77-80 | under any category but "all", only analysed records are shown |
| EmailAnalysis.NoneShownFiltersToEmpty | src/components/EmailAnalysis.tsx:71-81 | a list none of whose records passes gives an empty view |
| EmailAnalysis.UpperCaseTypeShowsNothing | src/components/EmailAnalysis.tsx:77-78 | a selected type with a capital letter shows nothing, since only the record's category is lower-cased |
| EmailAnalysis.FilterIdempotent | src/components/EmailAnalysis.tsx:71-81 | filtering the filtered list again changes nothing |
| EmailAnalysis.SearchIgnoresTermCase | src/components/EmailAnalysis.tsx:72-75 | the search gives the same answer for a term and its lower-cased form |
| EmailAnalysis.FetchedInboxHasNoCategories | src/components/EmailAnalysis.tsx:77-78 | a freshly fetched inbox shows nothing under any category but "all" |
| EmailAnalysis.Toggled | src/components/EmailAnalysis.tsx:27 | the new expanded id: nothing iff the toggled card was the expanded one, otherwise the toggled card |
| EmailAnalysis.ToggleExpandsOnlyThatCard | src/components/EmailAnalysis.tsx:26-28 | after a toggle the card is expanded iff it was not before, and no other card is |
| EmailAnalysis.ToggleTwiceRestores | src/components/EmailAnalysis.tsx:26-28 | toggling a card twice restores the state when nothing else was expanded |
| EmailAnalysis.ToggleTwiceFromOtherCard | src/components/EmailAnalysis.tsx:26-28 | when another card was expanded, toggling twice collapses all and does not restore it |
| EmailAnalysis.InboxView.constructor | src/components/EmailAnalysis.tsx:20-24 | nothing expanded or busy, not refreshing, empty search, category "all" |
| EmailAnalysis.InboxView.Filtered | src/components/EmailAnalysis.tsx:71-81 | every listed record is from the view's list and passes its search and category |
| EmailAnalysis.InboxView.SetSearchTerm | src/components/EmailAnalysis.tsx:101 | sets the search term; every other field is kept |
| EmailAnalysis.InboxView.SelectType | src/components/EmailAnalysis.tsx:113 | selects the badge's table value; every other field is kept |
| EmailAnalysis.InboxView.ToggleExpand | src/components/EmailAnalysis.tsx:26-28 | the expanded id becomes `Toggled` of the old one; every other field is kept |
| EmailAnalysis.InboxView.StartAnalyze | src/components/EmailAnalysis.tsx:31 | marks the card busy; every other field is kept |
| EmailAnalysis.InboxView.FinishAnalyze | src/components/EmailAnalysis.tsx:32-47 | replaces the list only on success, and clears the busy marker either way |
| EmailAnalysis.InboxView.HandleAnalyzeEmail | src/components/EmailAnalysis.tsx:30-48 | the list becomes `Updated` of the old one, or stays for an unknown id; the busy marker is cleared |
| EmailAnalysis.InboxView.StartRefresh | src/components/EmailAnalysis.tsx:51 | sets the refreshing flag; every other field is kept |
| EmailAnalysis.InboxView.FinishRefresh | src/components/EmailAnalysis.tsx:52-67 | replaces the list only on success, and clears the flag either way |
| EmailAnalysis.InboxView.HandleRefresh | src/components/EmailAnalysis.tsx:50-68 | the list becomes the fetched fixture, the flag is cleared, the view settings are kept, and under any category but "all" the view lists nothing |
| EmailCard.Find | src/components/EmailCard.tsx:28-29 | `find`: the result is the first entry whose value is the key; none iff no entry has it |
| EmailCard.BadgeKey | src/components/EmailCard.tsx:29 | a key exists iff the card is analysed, and it is the lower-cased category, so it has no capitals |
| EmailCard.Badge | src/components/EmailCard.tsx:28-30 | the badge is a table entry: the one for the lower-cased category, or the first entry |
| EmailCard.BadgeForListedCategory | src/components/EmailCard.tsx:28-29 | a category the table lists gets exactly that entry |
| EmailCard.BadgeFallback | src/components/EmailCard.tsx:30 | no analysis or an unlisted category gets the "all" entry |
| EmailCard.OtherGetsFallbackBadge | src/components/EmailCard.tsx:28-30 | the category "other" gets the "all" entry |
| EmailCard.Render | src/components/EmailCard.tsx:70-133 | snippet or body; the analysis panel iff expanded and analysed; the button iff expanded and unanalysed, disabled iff busy; the reply and the copy button iff expanded with a non-empty reply |
| EmailCard.AnalyzedCardHasNoAnalyzeButton | src/components/EmailCard.tsx:76-110 | an analysed card never offers the analyze button |
| EmailCard.NewsletterCardHasNoCopyButton | src/components/EmailCard.tsx:125 | an analysed newsletter never offers the copy button |
| EmailCard.CardState.constructor | src/components/EmailCard.tsx:25 | a card starts not copied |
| EmailCard.CardState.CopyToClipboard | src/components/EmailCard.tsx:42-48 | marks the reply copied iff there is a non-empty reply; otherwise nothing changes |
| ConnectEmailModal.Check | src/components/ConnectEmailModal.tsx:43-59 | missing credentials come first; a custom provider without a server is refused; otherwise the form passes |
| ConnectEmailModal.RequestFor | src/components/ConnectEmailModal.tsx:64-69 | the request carries the form's fields, and the server iff the provider is custom |
| ConnectEmailModal.OutcomeOf | src/components/ConnectEmailModal.tsx:71-91 | success iff the reply says so; success and failure carry the reply's message; a thrown error is its own outcome |
| ConnectEmailModal.ProviderLabel | src/components/ConnectEmailModal.tsx:97-108 | "Gmail", "Outlook" or "Custom Email" |
| ConnectEmailModal.ProviderLabelsDistinct | src/components/ConnectEmailModal.tsx:97-108 | different providers get different labels |
| ConnectEmailModal.PasswordLabel | src/components/ConnectEmailModal.tsx:110-112 | "App Password" iff Gmail, otherwise "Password" |
| ConnectEmailModal.ConnectForm.constructor | src/components/ConnectEmailModal.tsx:28-32 | empty fields, provider Gmail, not connecting |
| ConnectEmailModal.ConnectForm.ResetForm | src/components/ConnectEmailModal.tsx:34-38 | clears the three text fields and keeps the provider |
| ConnectEmailModal.ConnectForm.BeginConnect | src/components/ConnectEmailModal.tsx:40-61 | a refused form changes nothing; otherwise the form is marked connecting and the request is returned |
| ConnectEmailModal.ConnectForm.FinishConnect | src/components/ConnectEmailModal.tsx:63-94 | the outcome follows the reply; only success clears the fields; connecting ends either way |
| ConnectEmailModal.ConnectForm.HandleConnect | src/components/ConnectEmailModal.tsx:40-95 | a call is made iff the checks pass, with the form's request; the outcome follows the reply; only success clears the fields |

## Left out

- Simulated latency (`setTimeout`) and `console.log`: each awaited call is an immediate call.
- JSX layout, CSS classes, icons, toasts and the Dialog, Tabs and Select widgets. The notices are cases of `ConnectOutcome`, not texts.
- `src/pages/Index.tsx` (local storage, navigation, loading flags) and `src/components/ConnectGmailModal.tsx` are not part of this model.
- `formatDate`: it depends on locale formatting.
- The clipboard write and the two-second reset of `copied`: these are a browser API and a timer.
- `emailService.connectEmailProvider` is not defined in the service; it is the parameter `connect` of `HandleConnect`.
- The `onSuccess`, `onClose` and `onEmailsChange` callbacks: `onEmailsChange` becomes the assignment to `InboxView.emails`, and the other two have no state here.
- Overlapping analyses: while one analysis is pending, another card can be expanded and analysed, because its button is enabled. The first to finish then clears the shared `analyzingEmailId`, and the later result overwrites the earlier list. The model runs one handler at a time, so it does not capture this interleaving.
- Case mapping beyond ASCII: `Text.Lower` maps only A–Z.
- The list passed to `analyzeEmail` is a value, so the model does not capture aliasing between the caller's array and the copy.
- The `default` branch of `getProviderLabel` cannot be reached with a three-case `Provider`, so it is not modelled.
- AiService.RenewalEmailMatchesSupport: proves only that record 3 passes the support test, not that it is classified "support". Some earlier keywords, such as "position" and "boost", have every letter present in its text, so ruling them out would need letter-pair absence over the whole body; that proof is not done.
- AiService.PartnershipEmailMatchesColdEmail: proves only that record 4 passes the cold-email test, not that it is classified "cold email"; the proof would need letter-pair absence in the same way and is not done.
- AiService.NewsletterEmailMatchesNewsletter: proves only that record 5 passes the newsletter test, not that it is classified "newsletter"; the proof would need letter-pair absence in the same way and is not done.
- AiService.ClassifySupport: does not state the support reply's text, only that it is non-empty.
