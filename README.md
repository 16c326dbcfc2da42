# HealPath provider directory: a Dafny model

This project models the logic at the core of the HealPath web application, which
connects patients with holistic health practitioners:

- **The provider service** (`ProviderService`). It holds a copy of the provider
  records and answers four queries:
  - `getAll`, which narrows the list through up to five optional filters applied one
    after another;
  - `getById`, which looks a provider up by a `parseInt`-ed id;
  - `searchBySymptoms`, which maps keywords found in the user's statements to
    specialties through a fixed ten-entry table and keeps the providers offering one;
  - `getFeatured`, which keeps the providers rated 4.8 or more.
- **The filter panel**. It toggles specialty and insurance checkboxes, sets the
  location and the minimum rating, clears everything, and passes every new filter
  record to its parent.
- **The practitioner and patient application wizards.** Each has four pages, a
  per-page validity check that gates "Next" and "Submit", "Next"/"Previous" clamped
  to pages 1..4, and a reset after a successful submission.
- **The AI search chat.** It greets the user and asks the remaining questions one
  answer at a time. Blank input is ignored. After the last answer it runs the symptom
  search over all the answers and announces how many providers it found.

Where the source changes state, the model uses Dafny classes:

| Class | Fields | Updated by |
|---|---|---|
| `Providers.ProviderService` | `providers` | — |
| `FilterPanels.FilterPanel` | `filters` (plus `notified`, the records handed to the parent) | its handlers |
| `PractitionerApplication.Application` and `PatientApplication.Application` | `currentStep`, `formData` | their handlers |
| `SymptomChat.AISearchInterface` | the chat's state | its handlers |

- Each method's contract states the new state exactly.
- Each UI class (filter panel, wizards, chat) keeps an invariant, `Valid()`.
- The services' queries are specified by pure functions (`Query`, `SymptomMatches`,
  `FindById`), and the properties are proved about those functions.

JavaScript's string primitives are modelled in `Text`:
- `toLowerCase`, as ASCII case folding;
- `includes`, as a substring test;
- `trim` whitespace, as the ECMAScript whitespace and line-terminator characters;
- `parseInt`, including the sign, leading whitespace and the `0x` prefix;
- decimal rendering of integers.

Array `filter` and the add-or-remove toggle are modelled in `Sequences`.

Files:

| File | Contents |
|---|---|
| `wrappers.dfy` | the `Option` type |
| `text.dfy` | the string primitives |
| `sequences.dfy` | filtering and toggling |
| `provider_service.dfy` | the provider service |
| `filter_panel.dfy` | the filter panel |
| `wizard.dfy` | the page arithmetic shared by the wizards |
| `practitioner_application.dfy` | the practitioner wizard |
| `patient_application.dfy` | the patient wizard |
| `ai_search_interface.dfy` | the chat |

## Model

| member | source | states |
|---|---|---|
| Text.Includes | src/services/api/providerService.js:22 | `includes` holds exactly when the needle occurs at some position of the text |
| Text.ParseIntReadsDecimal | src/services/api/providerService.js:69 | `parseInt` reads back the decimal rendering of any integer followed by non-digit text (except "0" followed by "x"/"X") |
| Text.ParseIntRejects | src/services/api/providerService.js:69 | text whose first character is neither whitespace, a sign nor a decimal digit parses to NaN (no id) |
| Sequences.FilterIsSelection | src/services/api/providerService.js:19-25 | `filter` keeps, in order, exactly the elements that pass: an order-preserving subsequence using every passing position |
| Sequences.FilterIdempotent | src/services/api/providerService.js:19-25 | filtering a filtered list again with the same test changes nothing |
| Sequences.Toggle | src/components/molecules/FilterPanel.jsx:33-35 | the option is present afterwards exactly when it was absent before, every other option keeps its membership, and a list without duplicates stays without duplicates |
| Sequences.ToggleTwiceAbsent | src/components/molecules/FilterPanel.jsx:33-35 | ticking and then unticking an absent option restores the list exactly |
| Sequences.ToggleTwicePresent | src/components/molecules/FilterPanel.jsx:33-35 | unticking and re-ticking a present option (no duplicates) gives the same options with that one moved to the end |
| Sequences.ToggleTwiceReorders | src/components/molecules/FilterPanel.jsx:33-35 | for `[a, b]` with `a != b`, toggling `a` twice gives `[b, a]`, not the original list |
| Providers.Narrow | src/services/api/providerService.js:17-62 | applying the k-th filter (or skipping it when inactive) to the result of the first k-1 gives the result of the first k |
| Providers.AddStage | src/services/api/providerService.js:17-62 | an active stage filters the earlier result by its own test; an inactive one leaves it unchanged |
| Providers.FindById | src/services/api/providerService.js:69 | `find` returns the first stored provider with that id, or none when no stored provider has it |
| Providers.ElementsStep | src/services/api/providerService.js:95 | adding one specialty of a table entry grows the collected set by exactly that specialty |
| Providers.SpecialtiesForStep | src/services/api/providerService.js:93-97 | scanning one more table entry adds its specialties exactly when its keyword occurs in the lower-cased statement |
| Providers.AddAll | src/services/api/providerService.js:95 | the loop adds exactly the entry's specialties to the set |
| Providers.CollectFor | src/services/api/providerService.js:92-97 | the loop over the table adds exactly the specialties of the keywords found in the lower-cased statement |
| Providers.ProviderService.constructor | src/services/api/providerService.js:4-6 | the service starts with the given records |
| Providers.ProviderService.GetAll | src/services/api/providerService.js:12-65 | the five successive filters give exactly `Query(providers, f)`, the AND of the active filters; `providers` is not modified |
| Providers.ProviderService.GetById | src/services/api/providerService.js:67-71 | an unparsable id finds nothing; a found provider is stored and has the parsed id; nothing found means no stored provider has that id |
| Providers.ProviderService.SearchBySymptoms | src/services/api/providerService.js:73-113 | the nested loops collect exactly `Inferred(symptoms)`, and the result is all providers when that is empty, otherwise those mentioning an inferred specialty |
| Providers.ProviderService.GetFeatured | src/services/api/providerService.js:115-118 | the result is, in stored order, exactly the providers rated 4.8 or more |
| Providers.QueryNoFilters | src/services/api/providerService.js:15-64 | with no filter active, `getAll` returns every stored provider in stored order |
| Providers.QueryIsSelection | src/services/api/providerService.js:15-64 | `getAll`'s result is an order-preserving subsequence of the store that uses every passing provider |
| Providers.QueryMembership | src/services/api/providerService.js:17-62 | a provider is listed exactly when it is stored and passes the specialty, location, insurance, rating and search filters |
| Providers.QueryIdempotent | src/services/api/providerService.js:12-65 | querying the result again with the same filters changes nothing |
| Providers.AnyIncludesUpToCase | src/services/api/providerService.js:20-24 | the any-entry-contains-any-wanted test depends on the wanted entries only up to case |
| Providers.QueryIgnoresCase | src/services/api/providerService.js:17-62 | filters that differ only in letter case give the same listing |
| Providers.AcupunctureLower | src/services/api/providerService.js:56 | "ACUPUNCTURE", "Acupuncture" and "acupuncture" lower-case to the same text |
| Providers.SearchCaseExample | src/services/api/providerService.js:55-62 | searching "ACUPUNCTURE" and "acupuncture" lists the same providers |
| Providers.GetByIdFindsRenderedId | src/services/api/providerService.js:67-71 | looking up a stored provider's id written in decimal finds a provider with that id |
| Providers.SpecialtiesForMembership | src/services/api/providerService.js:93-97 | a specialty is collected for a statement exactly when some table keyword occurring in it maps to it |
| Providers.InferredMembership | src/services/api/providerService.js:91-98 | a specialty is collected exactly when some statement yields it |
| Providers.InferredFromKeywords | src/services/api/providerService.js:76-98 | a specialty is collected exactly when some statement contains some keyword that maps to it |
| Providers.SymptomMatchesSelects | src/services/api/providerService.js:100-112 | with nothing collected every provider is returned; otherwise exactly the stored providers, in order, having a specialty that contains a collected one |
| Providers.KeywordLengths | src/services/api/providerService.js:76-87 | every keyword of the table has at least seven characters |
| Providers.ShortStatementsFailOpen | src/services/api/providerService.js:89-102 | statements shorter than every keyword collect nothing, so the search returns all providers |
| Providers.FatigueLower | src/services/api/providerService.js:92 | "Fatigue" lower-cases to "fatigue" |
| Providers.FatigueMissesLonger | src/services/api/providerService.js:94 | "Fatigue" cannot contain any keyword longer than itself |
| Providers.FatigueHits | src/services/api/providerService.js:76-94 | the statement "Fatigue" contains exactly the keyword "fatigue" of the table |
| Providers.SingleStatement | src/services/api/providerService.js:91-98 | a one-statement conversation collects that statement's specialties |
| Providers.OneKeywordInference | src/services/api/providerService.js:89-98 | a statement that contains exactly one keyword of the table collects exactly that keyword's specialties |
| Providers.FatigueInference | src/services/api/providerService.js:80-98 | the statement "Fatigue" collects exactly Functional Medicine and Naturopathic Medicine |
| Providers.ChronicPainLower | src/services/api/providerService.js:92 | "I have chronic pain" lower-cases to "i have chronic pain" |
| Providers.ChronicPainFound | src/services/api/providerService.js:77-94 | "I have chronic pain" contains the keyword "chronic pain" |
| Providers.ChronicPainLacks | src/services/api/providerService.js:92 | the lower-cased "I have chronic pain" has none of the letters b, d, f, m, t, u, x |
| Providers.ChronicPainMisses | src/services/api/providerService.js:78-94 | "I have chronic pain" contains none of the other nine keywords, e.g. not "back pain" |
| Providers.ChronicPainInference | src/services/api/providerService.js:77-98 | the statement "I have chronic pain" collects exactly Functional Medicine, Chiropractic Care and Acupuncture |
| Providers.SymptomSearchIsCaseSensitive | src/services/api/providerService.js:104-110 | the symptom search does not match "Acupuncture" inside "acupuncture": its test is case-sensitive |
| Providers.SpecialtyFilterIgnoresCase | src/services/api/providerService.js:18-26 | the `getAll` specialty filter does match "Acupuncture" against "acupuncture" |
| Providers.FeaturedBoundary | src/services/api/providerService.js:117 | a provider rated exactly 4.8 is featured; one rated 4.79999 is not |
| FilterPanels.AsQuery | src/components/molecules/FilterPanel.jsx:7-12 | the panel's record becomes the listing's filters field by field, plus the search term |
| FilterPanels.FilterPanel.constructor | src/components/molecules/FilterPanel.jsx:7-12 | the panel starts with no specialty, no location, no insurance and rating 0, and has told the parent nothing |
| FilterPanels.FilterPanel.Publish | src/components/molecules/FilterPanel.jsx:38-39 | the new record is kept and handed to the parent |
| FilterPanels.FilterPanel.HandleSpecialtyChange | src/components/molecules/FilterPanel.jsx:32-40 | only the specialty list changes, by the toggle; membership flips; the parent gets the new record; no duplicates appear; offered options stay offered |
| FilterPanels.FilterPanel.HandleInsuranceChange | src/components/molecules/FilterPanel.jsx:42-50 | only the insurance list changes, by the toggle; membership flips; the parent gets the new record; no duplicates appear; offered options stay offered |
| FilterPanels.FilterPanel.HandleLocationChange | src/components/molecules/FilterPanel.jsx:52-56 | only the location changes, to the box's text; the parent gets the new record |
| FilterPanels.FilterPanel.HandleRatingChange | src/components/molecules/FilterPanel.jsx:58-62 | only the minimum rating changes; the parent gets the new record; picking one of the rating buttons keeps every selection one the panel offers |
| FilterPanels.FilterPanel.ClearFilters | src/components/molecules/FilterPanel.jsx:64-73 | whatever the prior state, the record becomes empty lists, empty location and rating 0, and the parent is told |
| FilterPanels.ClearedListsEveryone | src/components/molecules/FilterPanel.jsx:64-73 | after "Clear All" with an empty search the listing is every stored provider |
| FilterPanels.SpecialtyRoundTrip | src/components/molecules/FilterPanel.jsx:32-40 | ticking then unticking an unticked specialty restores the record |
| FilterPanels.RatingFilterMembership | src/components/molecules/FilterPanel.jsx:58-62 | a 4.5 rating filter lists exactly the stored providers rated 4.5 or more |
| Wizard.MovesStayOnPages | src/components/pages/PractitionerApplication.jsx:103-113 | `min(step + 1, 4)` and `max(step - 1, 1)` keep the step within 1..4 |
| Wizard.MovesUndoEachOther | src/components/pages/PatientApplication.jsx:66-76 | away from the ends "Next" and "Previous" undo each other; at the ends they stay put |
| PractitionerApplication.WithInput | src/components/pages/PractitionerApplication.jsx:72-77 | exactly the named field takes the new value; every other field is unchanged |
| PractitionerApplication.ValidateStepChecksRequired | src/components/pages/PractitionerApplication.jsx:88-101 | a page passes exactly when it is one of pages 1..4 and its required fields are non-empty, non-empty lists or ticked |
| PractitionerApplication.RequiredAreOnTheirPage | src/components/pages/PractitionerApplication.jsx:88-101 | each page's check reads only fields shown on that page |
| PractitionerApplication.OtherPageInput | src/components/pages/PractitionerApplication.jsx:72-101 | changing a field of another page leaves a page's check unchanged |
| PractitionerApplication.OtherPageToggle | src/components/pages/PractitionerApplication.jsx:79-101 | toggling an option of another page's group leaves a page's check unchanged |
| PractitionerApplication.InitialFormFailsEveryStep | src/components/pages/PractitionerApplication.jsx:10-101 | the empty form passes no page's check |
| PractitionerApplication.Application.constructor | src/components/pages/PractitionerApplication.jsx:9-42 | the wizard starts on page 1 with the empty form |
| PractitionerApplication.Application.HandleInputChange | src/components/pages/PractitionerApplication.jsx:72-77 | exactly one field changes; changes on the current or later pages keep the earlier pages valid |
| PractitionerApplication.Application.HandleMultiSelectChange | src/components/pages/PractitionerApplication.jsx:79-86 | only the named group changes, by the toggle, and the option's membership flips |
| PractitionerApplication.Application.NextStep | src/components/pages/PractitionerApplication.jsx:103-109 | the step advances (clamped at 4) exactly when the current page passes, otherwise it is unchanged; the form is untouched |
| PractitionerApplication.Application.PrevStep | src/components/pages/PractitionerApplication.jsx:111-113 | the step moves back, clamped at 1; the form is untouched |
| PractitionerApplication.Application.HandleSubmit | src/components/pages/PractitionerApplication.jsx:115-158 | an invalid page changes nothing; a valid one resets to page 1 and the empty form; submitted from page 4 with earlier pages valid, every page of the submitted form passes |
| PatientApplication.WithInput | src/components/pages/PatientApplication.jsx:44-49 | exactly the named field takes the new value; every other field is unchanged |
| PatientApplication.ValidateStepChecksRequired | src/components/pages/PatientApplication.jsx:51-64 | a page passes exactly when it is one of pages 1..4 and its required fields are non-empty or ticked |
| PatientApplication.RequiredAreOnTheirPage | src/components/pages/PatientApplication.jsx:51-64 | each page's check reads only fields shown on that page |
| PatientApplication.OtherPageInput | src/components/pages/PatientApplication.jsx:44-64 | changing a field of another page leaves a page's check unchanged |
| PatientApplication.InitialFormFailsEveryStep | src/components/pages/PatientApplication.jsx:10-64 | the empty form passes no page's check |
| PatientApplication.Application.constructor | src/components/pages/PatientApplication.jsx:9-40 | the wizard starts on page 1 with the empty form |
| PatientApplication.Application.HandleInputChange | src/components/pages/PatientApplication.jsx:44-49 | exactly one field changes; changes on the current or later pages keep the earlier pages valid |
| PatientApplication.Application.NextStep | src/components/pages/PatientApplication.jsx:66-72 | the step advances (clamped at 4) exactly when the current page passes, otherwise it is unchanged |
| PatientApplication.Application.PrevStep | src/components/pages/PatientApplication.jsx:74-76 | the step moves back, clamped at 1 |
| PatientApplication.Application.HandleSubmit | src/components/pages/PatientApplication.jsx:78-119 | an invalid page changes nothing; a valid one resets to page 1 and every field to "" or false; submitted from page 4 with earlier pages valid, every page passes |
| SymptomChat.TranscriptExtends | src/components/organisms/AISearchInterface.jsx:35-60 | appending the user's message and a reply keeps the transcript's greeting-then-pairs shape |
| SymptomChat.AskedExtends | src/components/organisms/AISearchInterface.jsx:46-50 | while questions remain, the reply to the k-th answer is question k + 1 |
| SymptomChat.AskedKept | src/components/organisms/AISearchInterface.jsx:51-61 | answering after the last question leaves the earlier questions in place |
| SymptomChat.AnnouncedExtends | src/components/organisms/AISearchInterface.jsx:53-60 | every reply after the last question announces the count of the search over the answers given so far |
| SymptomChat.AISearchInterface.constructor | src/components/organisms/AISearchInterface.jsx:10-30 | the chat starts with the greeting alone, empty input, no matches, step "initial", index 0 and no answers |
| SymptomChat.AISearchInterface.ChangeInput | src/components/organisms/AISearchInterface.jsx:183 | typing replaces the input and nothing else |
| SymptomChat.AISearchInterface.HandleSendMessage | src/components/organisms/AISearchInterface.jsx:32-71 | blank input changes nothing; otherwise the answer is recorded (untrimmed) and the input cleared, then either the next question is asked and the index grows by one, or the search over all answers runs, is announced and the step becomes "results" |
| SymptomChat.AISearchInterface.AskNext | src/components/organisms/AISearchInterface.jsx:46-50 | the answer and the next question are appended and the index grows by one |
| SymptomChat.AISearchInterface.ShowResults | src/components/organisms/AISearchInterface.jsx:52-61 | the search runs over the earlier answers followed by this one; its result is kept and announced; the step becomes "results" |
| SymptomChat.AISearchInterface.StartOver | src/components/organisms/AISearchInterface.jsx:78-90 | back to the greeting alone, empty input, no matches, step "initial", index 0 and no answers |
| SymptomChat.AnnouncementCountReadsBack | src/components/organisms/AISearchInterface.jsx:59 | the count in the announcement, read back with `parseInt`, is the number of providers found |
| SymptomChat.QuestionLengths | src/components/organisms/AISearchInterface.jsx:13-27 | the first question's length is shared by no other question and not by the greeting; no question is longer than 63 characters |
| SymptomChat.AnnouncementLength | src/components/organisms/AISearchInterface.jsx:59 | every announcement has at least 104 characters, so it is longer than any question |
| SymptomChat.NoAnnouncementBeforeLastAnswer | src/components/organisms/AISearchInterface.jsx:46-61 | while answers remain to be given, no reply in the transcript is a results announcement |
| SymptomChat.GreetingIsNotFirstQuestion | src/components/organisms/AISearchInterface.jsx:10-27 | the greeting, which opens every transcript, is not the first question |
| SymptomChat.ReplyIsNotFirstQuestion | src/components/organisms/AISearchInterface.jsx:46-60 | no reply to an answer is the first question |
| SymptomChat.FirstQuestionNotInTranscript | src/components/organisms/AISearchInterface.jsx:10-60 | no transcript contains the first question |
| SymptomChat.FirstQuestionNeverSent | src/components/organisms/AISearchInterface.jsx:21-49 | the first question is never sent: the greeting stands in for it and the replies start at the second question |

## Left out

- Latency: the artificial delays (`delay`, the one- and two-second waits) are timing only. Every operation is one synchronous step.
- Mock data: the mock provider records are not part of this model. The store is an arbitrary sequence of records, each with the fields the queries read: `id`, `name`, `specialty`, `location.city`/`location.state`, `bio`, `services`, `insurance`, `rating`. The model's `id` stands for the record's `Id` field, which `getById` compares at src/services/api/providerService.js:69. The remaining record fields are omitted.
- `rating`: modelled as an exact `real`. IEEE floating point, NaN, and `getById` precision loss on very large numbers are not modelled.
- Case folding: only ASCII letters are case-folded. Unicode case mapping is not modelled.
- The shallow copies (`[...list]`, `{ ...provider }`) are values in the model. Aliasing between the returned records and the store is not modelled.
- Toasts: the error and success messages of the wizards are not modelled. `HandleSubmit`'s result says which of the two would appear.
- The submission's `catch` branch and the chat's `catch` branch, which appends an apology, are not modelled. Nothing in the modelled code throws.
- The chat's `isLoading` flag and the intermediate state between its two message appends are not modelled. The model appends the user's message and the reply in one step.
- `handleQuickOption`: it reads the input before React applies `setCurrentInput`, so it sends the previous input rather than the option. This stale-closure behaviour is not modelled.
- The chat hides its text box once results are shown. The model still accepts a send in that state and appends another announcement.
- Rendering, animation, navigation and routing are not modelled.
- Option lists: the practitioner wizard's specialty and insurance checkbox lists are not modelled. The filter panel's lists are modelled.
- Sequences.ToggleTwicePresent: toggling a present option twice does not restore the list; it moves that option to the end. Only the absent case restores the list exactly (`ToggleTwiceAbsent`). `ToggleTwiceReorders` exhibits the difference.
- Interleaving during the chat's wait: "Start Over" (src/components/organisms/AISearchInterface.jsx:116) stays enabled during the one-second wait in `handleSendMessage` (line 44). Pressing it then lets the pending question land on the fresh greeting, leaving the messages [greeting, second question], index 1 and no answers, so every later search runs over four answers. The model treats each send as atomic, and `Valid()` is preserved only under that assumption.
