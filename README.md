# Finanzo Pro — verified model of the application core

Finanzo Pro is a personal-finance web app. Users record expenses,
incomes and transfers, save towards goals ("projects"), take a daily
saving challenge, import bank transactions through Pluggy and unlock
achievements. This project models the app's decision logic in Dafny and
proves properties of that model. The network, the clock and randomness
become parameters. The parts covered are:

- **Entry form** (`Entries`): the form state is a class. The submit
  handler validates the amount and category, then expands one submission
  into `count` dated records. It advances months the way JavaScript's
  `Date.setMonth` does (see `Calendar`) and adds an `(i/N)` suffix to
  each description. There is one aggregate goal contribution for the
  "Investimentos" category.
- **App state** (`App`, `DailyChallenge`, `Json`, `Storage`): the goal
  ledger's "add to first goal", the per-user category list and the
  path-to-tab classifier. Also the daily challenge: lazy initialisation
  from `localStorage`, the refresh rule, acceptance, and the
  `JSON.stringify`/`JSON.parse` round trip of the stored record.
- **Constant catalogs** (`Categories`): the expense, income and transfer
  category lists.
- **Validators and mappers**:
  - the zod schemas (`Schemas`);
  - the Markdown line renderer of the legal page (`TermsPage`);
  - the by-date grouping of the history page (`TransactionsPage`);
  - the Pluggy mapper and its one-slot token cache (`Pluggy`);
  - the project row mapping and update payload (`ProjectService`);
  - the achievement checked-set machine (`Achievements`);
  - the delete-account dialog rules (`DeleteAccount`);
  - goal progress arithmetic (`ProjectDetails`, `ProgressBar`, `Numbers`);
  - the profile level (`ProfilePage`);
  - the token store (`TokenService`).

Amounts are `real`. JavaScript's non-finite results (`NaN`, `±Infinity`)
appear as `Numbers.Number` wherever the code can produce them. Dates are
calendar triples `(year, month, day)`. Strings are sequences of Unicode
characters; JavaScript's `length`, which counts UTF-16 code units, is
`Text.Utf16Length`, and every length rule of the source (the schemas'
`min`, `isValidStructure`) is stated with it.

Adding a month does not clamp to the end of a short month: `setMonth`
(`src/pages/EntriesPage.tsx:69-70`) overflows into the following month,
so 2024-01-31 plus one month is 2024-03-02
(`Calendar.JanuaryThirtyFirstPlusOneMonth`, `Entries.InvestmentScenario`).

## Model

| member | source | states |
|---|---|---|
| Entries.ActiveCategories | src/pages/EntriesPage.tsx:38-41 | each tab offers a non-empty catalog, and "Investimentos", the label that feeds a goal, is offered on the income tab and on no other |
| Entries.BaseDescription | src/pages/EntriesPage.tsx:73 | a blank or whitespace description falls back to the category label; otherwise it is the trimmed text, never empty |
| Entries.RecordType | src/pages/EntriesPage.tsx:78 | a record is never typed transfer: transfer becomes expense and the other types pass through |
| Entries.Expand | src/pages/EntriesPage.tsx:68-82 | the loop that builds the batch produces exactly the specified list of records, one per iteration, in order |
| Entries.ContributionOf | src/pages/EntriesPage.tsx:85-89 | a contribution exists exactly when the category label is "Investimentos" |
| Entries.NothingWithoutAmountOrCategory | src/pages/EntriesPage.tsx:55 | an empty amount or no selected category ends the submission with no record and no contribution |
| Entries.InvalidAmountRejected | src/pages/EntriesPage.tsx:57-61 | an amount that parses to NaN or to ≤ 0 is rejected with the alert before any record exists, so there is never a partial batch |
| Entries.SubmittedParts | src/pages/EntriesPage.tsx:54-92 | a successful submission passed both guards; its records are the expansion of the form from the parsed start date, and its contribution is the investment rule's |
| Entries.RecordCount | src/pages/EntriesPage.tsx:63-68 | recurring submissions give exactly `count` records (zero when count ≤ 0); non-recurring ones give exactly one |
| Entries.RecordContents | src/pages/EntriesPage.tsx:68-80 | record i is dated start + i months; it shares the amount and category label, has establishment `''` and the mapped type, and its description is the base plus ` (i+1/count)` when recurring |
| Entries.RecordDates | src/pages/EntriesPage.tsx:64-75 | successive record dates are strictly increasing valid calendar dates, and each stored date text reads back as its date |
| Entries.ContributionRule | src/pages/EntriesPage.tsx:85-89 | exactly one contribution of `amount × count` for "Investimentos" (NaN when the count is NaN) and none for any other label |
| Entries.FirstRecordDate | src/pages/EntriesPage.tsx:64-75 | the first record of every batch carries exactly the date text the user typed |
| Entries.SingleRecord | src/pages/EntriesPage.tsx:63-80 | a non-recurring submission gives one record on the chosen date with the plain base description, without a suffix |
| Entries.ScenarioDates | src/pages/EntriesPage.tsx:69-75 | three monthly records from 2024-01-31 are dated 2024-01-31, 2024-03-02 and 2024-03-31 (overflow, no clamping) |
| Entries.ScenarioDescription | src/pages/EntriesPage.tsx:73 | the second of three "Investimentos" records is described "Investimentos (2/3)" |
| Entries.InvestmentScenario | src/pages/EntriesPage.tsx:54-92 | submitting 100 × 3 months of "Investimentos" from 2024-01-31 gives three records with those dates and suffixes and a single contribution of 300 |
| Entries.EntryForm.constructor | src/pages/EntriesPage.tsx:22-33 | the form starts on the expense tab, closed, with nothing selected, dated today, not recurring, proposing 12 repetitions |
| Entries.EntryForm.SelectType | src/pages/EntriesPage.tsx:108 | choosing a tab changes only the transaction type |
| Entries.EntryForm.CategoryClick | src/pages/EntriesPage.tsx:43-52 | selecting a category opens the overlay and resets the form: amount `''`, description `''`, date today, not recurring, count `'12'` |
| Entries.EntryForm.Submit | src/pages/EntriesPage.tsx:54-92 | the handler's outcome is the submission specification of the state before it; the overlay closes only after a successful submission and nothing else changes |
| Calendar.AddMonthsShape | src/pages/EntriesPage.tsx:69-70 | adding k months keeps the day when the target month has it; otherwise the excess days overflow into the following month |
| Calendar.AddMonthsIncreasing | src/pages/EntriesPage.tsx:68-70 | adding more months gives a strictly later date |
| Calendar.JanuaryThirtyFirstPlusOneMonth | src/pages/EntriesPage.tsx:69-70 | Jan 31 + 1 month is Mar 2 in 2024 and Mar 3 in 2023; Jan 31 + 2 months is Mar 31 |
| Calendar.FormatParseRoundTrip | src/pages/EntriesPage.tsx:64-75 | for four-digit years, parsing the ISO date text of a valid date gives that date back |
| Calendar.FormatIsoShape | src/pages/EntriesPage.tsx:75 | the ISO text of a valid four-digit-year date has the `dddd-dd-dd` shape |
| Calendar.IsoTextOrder | src/pages/TransactionsPage.tsx:32-35 | for well-formed date texts, string order is chronological order, and equal texts are equal dates |
| Calendar.ParseIso | src/pages/EntriesPage.tsx:64 | a parsed date comes only from `dddd-dd-dd` text and is a valid date |
| Calendar.ShapedTextParses | src/pages/EntriesPage.tsx:64 | a `dddd-dd-dd` text parses exactly when its month is 1-12 and its day exists in that month of that year |
| Calendar.ParseFormatRoundTrip | src/pages/EntriesPage.tsx:64-75 | a date text that parses is printed back as exactly the same text |
| Categories.CatalogSizes | src/constants/categories.ts:20-60 | the expense, income and transfer catalogs have 27, 5 and 1 entries |
| Categories.IdsUnique | src/constants/categories.ts:21-59 | no two entries of the three catalogs together share an id |
| Categories.LabelsUnique | src/constants/categories.ts:21-59 | no two entries of the three catalogs together share a label |
| Categories.InvestimentosOnlyIncome | src/constants/categories.ts:52 | "Investimentos" is a label of the income catalog and of no other |
| Categories.NoChallengeLabels | src/constants/categories.ts:20-60 | no catalog label is "Extra" or "Lazer", the two categories the challenge refresh looks for |
| App.ActiveTabRule | src/App.tsx:71-79 | "home" is exactly `/` and `/dashboard`, each other tab exactly the paths with its prefix, and every other path selects no tab |
| App.CategoryRules | src/App.tsx:277-291 | the list always starts with the defaults; it is the defaults alone when logged out; adding appends to the signed-in user's list only and is ignored when logged out |
| App.FirstGoalRules | src/App.tsx:208-226 | the length and every goal but the first are kept; the first becomes the service's answer; an empty list or a failed update changes nothing |
| App.ContributionThroughService | src/App.tsx:213-221 | through the project service, the first goal becomes itself with `currentAmount + amount` (live storage) or the mock's defaulted record |
| App.AppState.constructor | src/App.tsx:230-247 | the app starts with empty lists and the challenge lazily read from storage for today |
| App.AppState.AddCategory | src/App.tsx:285-291 | only the user category map changes, as the category rule says |
| App.AppState.AddToFirstGoal | src/App.tsx:208-226 | no request on an empty list; otherwise one update of goal 0 to `currentAmount + amount`, then the ledger replaces only element 0, and only on success |
| App.AppState.RefreshChallenge | src/App.tsx:249-266 | the challenge becomes the refreshed record and storage holds its JSON when the refresh rule gives one; otherwise neither changes |
| App.AppState.AcceptChallenge | src/App.tsx:268-275 | the challenge is marked completed and persisted, and its amount is contributed to the first goal whatever the contribution's outcome |
| App.AppState.AddTransaction | src/App.tsx:297-313 | a created record is prepended; a failure leaves the list as it was and raises the alert instead of rejecting |
| DailyChallenge.DecodeEncode | src/App.tsx:233-272 | the stored JSON text of a record parses back to the same record |
| DailyChallenge.InitialRule | src/App.tsx:233-244 | the initial challenge is dated today: a stored record of today, unchanged, and otherwise the generic challenge of 15 |
| DailyChallenge.ReloadRoundTrip | src/App.tsx:233-264 | reloading after a store gives the stored challenge if it is today's, else the generic one |
| DailyChallenge.ExtrasNonEmpty | src/App.tsx:254 | the filter finds something exactly when some transaction is "Extra" or "Lazer" |
| DailyChallenge.PickIndex | src/App.tsx:256 | `Math.floor(Math.random() * n)` is always a valid index |
| DailyChallenge.ToFixed0Digits | src/App.tsx:259 | `toFixed(0)` prints the magnitude rounded to the nearest integer, with a minus sign exactly for negatives |
| DailyChallenge.ToFixed0NegativeZero | src/App.tsx:259 | a small negative amount prints as "-0" |
| DailyChallenge.RefreshRule | src/App.tsx:249-266 | refresh is skipped for today's challenge with an amount other than 15; otherwise it acts exactly when an "Extra"/"Lazer" transaction exists, giving today's uncompleted challenge worth the ceiling of a chosen transaction's amount |
| DailyChallenge.CompletedGenericIsReset | src/App.tsx:251-262 | a completed generic challenge is replaced by an uncompleted one when an "Extra" transaction exists |
| DailyChallenge.CatalogLabelsNeverQualify | src/App.tsx:254 | when every transaction uses a catalog label, the refresh never acts |
| DailyChallenge.Accepted | src/App.tsx:270 | accepting marks the challenge completed without touching its date, text or amount, and leaves a challenge that was already completed exactly as it was |
| DailyChallenge.AcceptedSurvivesReload | src/App.tsx:230-272 | an accepted challenge of today is read back completed after a reload |
| Json.QuoteRoundTrip | src/App.tsx:264 | a string written with JSON escapes parses back to the same string, whatever follows it |
| Json.IntRoundTrip | src/App.tsx:264 | an integer written as JSON parses back to itself before any non-digit text |
| Schemas.FirstFailingCheck | src/services/project.service.ts:42-43 | the message reported is the first failing check's in schema order: a passing check contributes nothing and a failing one hides all later messages |
| Schemas.LoginValidIff | src/services/schemas.ts:3-6 | a login is valid iff the e-mail is an e-mail and the password is at least 6 UTF-16 code units long |
| Schemas.RegisterValidIff | src/services/schemas.ts:8-17 | a registration is valid iff name ≥ 3 and password ≥ 6 UTF-16 code units, e-mail, the CPF is absent or `ddd.ddd.ddd-dd`, and the terms are literally accepted; `isPro` plays no part |
| Schemas.ProjectValidIff | src/services/schemas.ts:19-23 | a project is valid iff the name has ≥ 3 UTF-16 code units, target > 0 and current ≥ 0, and the first failing rule gives its message |
| Schemas.TransactionValidIff | src/services/schemas.ts:25-30 | a transaction is valid iff the description has ≥ 3 UTF-16 code units, the date has the `dddd-dd-dd` shape and the category is non-empty; any amount passes |
| Schemas.DateRuleIgnoresRanges | src/services/schemas.ts:28 | "2024-13-45" passes the date rule although it is no calendar date |
| Schemas.FormattedDatesPass | src/services/schemas.ts:28 | every date the entry form writes passes the date rule |
| Schemas.AstralCharactersCountTwice | src/services/schemas.ts:9 | an emoji counts as two code units: the name "😀a" is long enough, "ab" fails with the name message |
| Schemas.CpfExamples | src/services/schemas.ts:12 | no CPF and `123.456.789-09` pass; `12345678909` fails with the CPF message |
| TermsPage.OneElementPerLine | src/pages/TermsPage.tsx:11 | one element per line, one more than there are newlines, each the classification of its own line |
| TermsPage.Headings | src/pages/TermsPage.tsx:12-13 | a `# ` line is an h1 and a `## ` line an h2, each holding the rest of the line |
| TermsPage.BoldLine | src/pages/TermsPage.tsx:14 | a `**` line is a bold paragraph with no `**` left and every other character kept in order |
| TermsPage.RemoveDoubleStarsProps | src/pages/TermsPage.tsx:14 | the global `**` removal leaves no `**`, keeps all other characters in order and removes stars in pairs |
| TermsPage.BreaksAndParagraphs | src/pages/TermsPage.tsx:15-16 | a line is a break iff it is whitespace only; a paragraph is exactly any other unprefixed line, with its text unchanged |
| TermsPage.HashWithoutSpace | src/pages/TermsPage.tsx:12-16 | `#Title` is a paragraph, not a heading |
| TermsPage.DocumentChoice | src/pages/TermsPage.tsx:27-32 | the privacy tab shows the privacy policy, any other tab the terms, and the page opens on the terms by default |
| TransactionsPage.GroupByDate | src/pages/TransactionsPage.tsx:23-29 | the loop's dictionary has exactly the distinct dates as keys, in first-appearance order, each holding every transaction of that date in input order |
| TransactionsPage.GroupTransactions | src/pages/TransactionsPage.tsx:22-36 | the memo computes exactly the specified grouped, sorted list |
| TransactionsPage.SortDescProps | src/pages/TransactionsPage.tsx:32-35 | the sort is a permutation of the keys, ordered newest first |
| TransactionsPage.ExactlyOneGroup | src/pages/TransactionsPage.tsx:23-29 | every transaction lies in a group of its own date and in no group of another date; group dates are distinct |
| TransactionsPage.GroupsDescending | src/pages/TransactionsPage.tsx:32-35 | groups are ordered strictly newest first, by text and, for well-formed dates, by calendar |
| TransactionsPage.CountPreserved | src/pages/TransactionsPage.tsx:23-29 | the groups hold as many items together as there are transactions |
| TransactionsPage.ItemsOnMembers | src/pages/TransactionsPage.tsx:28 | a group holds every transaction of its date and nothing else |
| TransactionsPage.EmptyStateIff | src/pages/TransactionsPage.tsx:80 | the empty state shows exactly for an empty list; otherwise at least one group is shown |
| TransactionsPage.SignAndStyle | src/pages/TransactionsPage.tsx:99-112 | the minus sign marks exactly expenses and the income styling exactly incomes |
| Pluggy.MapResults | src/services/pluggyService.ts:63-71 | the mapped list has one element per result |
| Pluggy.MappedAmounts | src/services/pluggyService.ts:63-70 | each element keeps the description and takes the absolute amount (≥ 0); it is an expense iff the amount is negative (zero is income), and its recurrence is always none |
| Pluggy.MappedDefaults | src/services/pluggyService.ts:66-68 | the date is the text before the first `T`, or today when absent; a given category and merchant are kept; a missing category becomes 'Geral' and a missing merchant 'Desconhecido' |
| Pluggy.TimestampDate | src/services/pluggyService.ts:65-69 | a −12.5 transaction at `2024-01-31T10:00:00.000Z` becomes a 12.5 expense on 2024-01-31 |
| Pluggy.TokenCacheRules | src/services/pluggyService.ts:18-37 | a cached token is returned without a request; missing keys fail without a request and leave the cache alone; only a successful answer fills the cache with the returned token |
| Pluggy.TokenCachedOnce | src/services/pluggyService.ts:19-31 | after one successful request, the next call answers from the cache without a request |
| Pluggy.PluggyClient.constructor | src/services/pluggyService.ts:8-11 | the client starts with its two keys and an empty token cache |
| Pluggy.PluggyClient.GetAccessToken | src/services/pluggyService.ts:18-37 | the call's result, whether it requested, and the new cache are those of the token rule |
| Pluggy.PluggyClient.FetchTransactions | src/services/pluggyService.ts:55-72 | a token failure or a failed request is passed on; otherwise the result is the mapped list, and the cache follows the token rule |
| ProjectService.FromRowForgetsOnlyOwner | src/services/project.service.ts:21-27 | the row mapping loses only `user_id`: two rows give the same project exactly when they differ at most in their owner |
| ProjectService.PayloadRoundTrip | src/services/project.service.ts:53-76 | the create payload, stored and mapped back, gives the submitted name, target, current amount and icon under the store's id, owned by the user |
| ProjectService.GetAllMapsRows | src/services/project.service.ts:10-29 | live `getAll` keeps the rows' number and order and maps each field to its namesake |
| ProjectService.CreateGate | src/services/project.service.ts:41-88 | an invalid project fails with the schema's first message before any auth or store call; with no user it fails before the insert; an insert needs a valid project and carries the user's id |
| ProjectService.CreateEchoes | src/services/project.service.ts:41-88 | a valid create answers the submitted fields under the store's id, or the mock id |
| ProjectService.UpdatePayload | src/services/project.service.ts:95-99 | name, target and icon are sent only when truthy (so a target of 0 is dropped); the current amount is sent whenever given (so 0 is kept); no other key |
| ProjectService.ContributionPayload | src/App.tsx:213-216 | a contribution sends only the new current amount |
| ProjectService.MockUpdate | src/services/project.service.ts:119-127 | the mock keeps the id and takes the given current amount, or 0 |
| ProjectService.MockUpdateKeepsGiven | src/services/project.service.ts:119-127 | given truthy fields are all kept by the mock |
| ProjectService.MockContributionResets | src/services/project.service.ts:119-127 | a contribution through the mock fills 'Updated Project', 1000 and '📝' and keeps the id and the new amount |
| ProjectService.UpdateAnswers | src/services/project.service.ts:90-130 | live update answers the stored row mapped back; the mock answers the defaulted record; a missing client is an error |
| Achievements.HasSavingsIff | src/hooks/useAchievements.ts:33-37 | `hasSavings` holds iff some transaction is 'Investimento' or 'Investimentos', or its lower-cased description contains 'guard' |
| Achievements.CheckRunBounds | src/hooks/useAchievements.ts:12-47 | with no user nothing happens; the checked set only grows, by the two codes only, each joining only in a run that tried it; celebrations only follow an unlock that gave a record |
| Achievements.FirstLoginRule | src/hooks/useAchievements.ts:19-28 | FIRST_LOGIN is tried iff there is a user and it is unchecked, and then joins the set whatever unlock answered |
| Achievements.SaverRule | src/hooks/useAchievements.ts:31-47 | SAVER_Level_1 is tried iff there is a user, transactions exist, it is unchecked and some transaction is saving; only then can it join the set |
| Achievements.FirstLoginAtMostOnce | src/hooks/useAchievements.ts:19-28 | for runs that do not overlap: after a run that did not throw, FIRST_LOGIN is never tried again by the same hook |
| Achievements.Checker.constructor | src/hooks/useAchievements.ts:12 | a new hook has checked nothing |
| Achievements.Checker.Check | src/hooks/useAchievements.ts:14-57 | the attempts, the celebrations and the new checked set are those of one specified run |
| DeleteAccount.ConfirmIff | src/components/DeleteAccountModal.tsx:24-29 | `onConfirm` fires iff the final reason has a non-whitespace character, and it gets the untrimmed reason (the custom text only for 'Outro motivo') |
| DeleteAccount.ConfirmNeedsEnabled | src/components/DeleteAccountModal.tsx:24-83 | whenever confirm would fire, the button is enabled |
| DeleteAccount.WhitespaceEnablesButDoesNothing | src/components/DeleteAccountModal.tsx:24-83 | whitespace-only custom text enables the button, yet confirming then does nothing |
| DeleteAccount.FixedReasonsConfirm | src/components/DeleteAccountModal.tsx:17-83 | each fixed reason enables the button and is passed as is; 'Outro motivo' with no text is disabled |
| DeleteAccount.ClosedRendersNothing | src/components/DeleteAccountModal.tsx:15 | a closed dialog renders nothing and an open one renders |
| DeleteAccount.Modal.constructor | src/components/DeleteAccountModal.tsx:12-13 | the dialog starts with no reason and no custom text |
| DeleteAccount.Modal.SelectReason | src/components/DeleteAccountModal.tsx:56 | choosing a radio changes only the reason |
| DeleteAccount.Modal.EditCustomReason | src/components/DeleteAccountModal.tsx:69 | typing changes only the custom text |
| DeleteAccount.OpenedDialog | src/components/DeleteAccountModal.tsx:12-83 | a freshly opened dialog hides the text box, disables the button and confirms nothing |
| ProjectDetails.PercentRoundsHalfUp | src/pages/ProjectDetailsPage.tsx:25 | for a non-zero target the percentage is the integer nearest to `current/target*100`, halves up |
| ProjectDetails.SampleGoalPercent | src/pages/ProjectDetailsPage.tsx:25 | 14500 of 20000 shows 73 % |
| ProjectDetails.PercentMonotone | src/pages/ProjectDetailsPage.tsx:25 | more saved never shows a lower percentage |
| ProjectDetails.ZeroTarget | src/pages/ProjectDetailsPage.tsx:25-26 | a zero target shows NaN for nothing saved, and Infinity (a full bar) for a positive amount |
| ProjectDetails.BarGetsUnroundedRatio | src/pages/ProjectDetailsPage.tsx:26 | the bar gets the unrounded ratio, within half a point of the text |
| ProjectDetails.RemainingSign | src/pages/ProjectDetailsPage.tsx:27 | remaining is target − current: negative exactly when over-funded, zero exactly when reached |
| ProjectDetails.DeleteOnlyAfterConfirm | src/pages/ProjectDetailsPage.tsx:33 | nothing happens without confirmation; with it, this project is deleted and going back follows |
| Numbers.Round | src/pages/ProjectDetailsPage.tsx:25 | `Math.round` gives the integer nearest its argument, halves up, and passes non-finite values through |
| Numbers.Divide | src/pages/ProjectDetailsPage.tsx:25 | the quotient is finite exactly when the divisor is non-zero, and then multiplying it back by the divisor gives the dividend; by zero it gives NaN, +Infinity or −Infinity by the dividend's sign |
| Numbers.Ceil | src/App.tsx:260 | `Math.ceil` is the least integer at or above its argument |
| ProgressBar.WidthClamp | src/components/ui/ProgressBar.tsx:5 | the width never exceeds 100, equals the progress up to 100, and passes negative values through |
| ProgressBar.WidthMonotone | src/components/ui/ProgressBar.tsx:5 | the width never decreases as progress increases |
| ProgressBar.WidthOfNonFinite | src/components/ui/ProgressBar.tsx:5 | Infinity gives a full bar; NaN and −Infinity pass through |
| ProgressBar.ColorIgnored | src/components/ui/ProgressBar.tsx:3-5 | the `color` prop never changes the class, which is always `bg-primary` |
| ProfilePage.LevelBands | src/pages/ProfilePage.tsx:75 | level n+1 is exactly the XP range [1000n, 1000(n+1)); it is ≥ 1 for XP ≥ 0 and goes up by one exactly at multiples of 1000 |
| ProfilePage.UnlockedIff | src/pages/ProfilePage.tsx:40-99 | an achievement shows unlocked iff one of the user's records names its id |
| ProfilePage.Profile.constructor | src/pages/ProfilePage.tsx:14-16 | the page starts with no achievements, none of the user's and 0 XP |
| ProfilePage.Profile.LoadData | src/pages/ProfilePage.tsx:18-38 | loading sets only the achievement list; the user's achievements and total XP stay as they were |
| ProfilePage.FreshPageStats | src/pages/ProfilePage.tsx:15-84 | whatever is loaded, the page shows 0 XP, 0 achievements and level 1 |
| TokenService.GetToken | src/services/token.service.ts:10-12 | the token is the value under 'auth_access_token', or null |
| TokenService.SetToken | src/services/token.service.ts:14-16 | only the 'auth_access_token' entry changes, to the given token |
| TokenService.RemoveToken | src/services/token.service.ts:18-20 | only the 'auth_access_token' entry is removed |
| TokenService.TokenLaws | src/services/token.service.ts:10-20 | get after set gives that token, a later set overwrites it, get after remove gives null, and no other key changes |
| TokenService.SetReadRemoveRead | src/services/token.service.ts:10-20 | set, get, remove, get reads the token and then null, and leaves every other key as it was |
| TokenService.ValidStructureBounds | src/services/token.service.ts:23-25 | more than 10 characters always pass and at most 5 never do; for text inside the Basic Multilingual Plane the rule is exactly "more than 10 characters" |

## Left out

- Time zones and the clock: `new Date('YYYY-MM-DD')` and `toISOString` are modelled as UTC calendar dates. `setMonth`'s local-time behaviour is not modelled, and "today" is a parameter.
- Floating point: amounts are exact reals, so rounding error in `numAmount * count`, in the percentage and in `Math.ceil` is out. `parseFloat`/`parseInt` are abstract partial parsers passed as parameters, with `None` standing for NaN.
- Entries.Iterations and Entries.RecordAt: a count large enough to make JavaScript's date arithmetic leave its range is not modelled; years beyond four digits print, but do not read back.
- Display formatting: `toFixed(2)`, `toLocaleString` and the locale-dependent `formatDate` (src/pages/TransactionsPage.tsx:38-48) are out. `toFixed(0)` is modelled for the challenge text.
- TransactionsPage.GroupTransactions: the sort comparator subtracts `Date` values; it is modelled as string order on the date keys. For `YYYY-MM-DD` keys the two agree (Calendar.IsoTextOrder). Keys of other shapes, which `new Date` reads as NaN, are not modelled.
- DailyChallenge.Initial: a stored string that is not exactly the record's own JSON is treated as no record of today. The code's `JSON.parse` would throw on invalid JSON and accept reordered or spaced JSON; only the records this app writes are modelled.
- Calendar.ParseIso: `new Date` is lenient about texts a date input never delivers (it rolls `2024-02-30` over to March 1 and accepts other separators); the model reads every such text as the Invalid Date.
- Json.IntRoundTrip: JSON numbers with a fraction or exponent, and `\u` escapes of surrogate pairs, are not modelled, since the stored record holds an integer amount.
- The server-side rendering branch of the challenge initialiser (src/App.tsx:246) is out, because it needs a missing `window`.
- Achievements.IsSaving: JavaScript's Unicode `toLowerCase` is modelled for ASCII letters only. A description whose non-ASCII letters lower-case into "guard" is not modelled.
- Schemas.LoginIssues and Schemas.RegisterIssues: zod's e-mail regular expression is a parameter, `isEmail`.
- Network and persistence: Supabase, `achievementService.unlock` and the Pluggy HTTP calls are oracle parameters (their replies are inputs). Send order within `Promise.all` and React state-update races (such as the stale `projects` closure at src/App.tsx:213) are out; sends happen in sequence.
- Achievements.FirstLoginAtMostOnce: `checkAchievements()` is started without being awaited and the effect runs again whenever `transactions` or `projects` change (src/hooks/useAchievements.ts:14-57), so a second run can begin while the first run's `unlock('FIRST_LOGIN')` is still pending and try it again; overlapping runs are not modelled, and the lemma holds only for runs that follow one another.
- Randomness: `Math.random` is the parameter `rand` in [0, 1) for the challenge pick. The mock project id of `create` is a parameter.
- `createConnectToken` (src/services/pluggyService.ts:42-50) is out: it only forwards a network call and a random id.
- `delete` in src/services/project.service.ts is out: it only forwards one network call.
- The no-op check in `handleAddTransaction` (src/App.tsx:303-308) is out: it does not change state.
- `handleOnboardingComplete` and `handleSaveGoal` (src/App.tsx:171-206) are out: they are not part of the modelled core.
- Category icons (the `icon` component of each catalog entry) are out: they have no effect on the logic.
- DOM, sounds, confetti and alerts other than the returned alert texts are out.
- The Pluggy token cache is one module-level variable. It is modelled as a field of a client object with the keys as constants.
