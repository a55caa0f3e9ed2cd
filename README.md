# Kicker Munich Hub — a verified model of the app's logic

Kicker Munich Hub is a React front end for a student table-football community. Players record and confirm match results, create and join tournaments, and browse a leaderboard. Members also register foosball tables and verify them together, and manage a premium subscription. All of it runs over hard-coded mock data: there is no server and no rating engine.

This project models the logic inside those components in Dafny, one module per source file:

- the input formatters and form schemas (card number, expiry, CVV, scores, tournament and table forms);
- the list updates the components make on their state (invites, invitees, tables, tournaments);
- the filters, sorts and positional ranks of the list pages;
- the small state machines: submit flags, confirm and dispute, the session, account deletion and the contact form.

Components that update state in place become classes. Their fields are the `useState` variables, and their methods are the handlers. Every `setTimeout` callback becomes a separate completion method. Toasts are left out. A navigation is recorded as the route it would go to.

Four shared modules give the JavaScript semantics the components rely on:

- `JsText`: `parseInt`, `String(n)`, `toLowerCase` over ASCII, `includes`, `trim`, `split`, the string `<` and `localeCompare` as code-unit order.
- `JsNumber`: `Number(s)` as zod's `coerce` uses it, with exact reals.
- `Lists`: `filter`, `map` and counting.
- `StableSort`: `Array.prototype.sort` as a stable insertion sort by the comparator.

## Model

| member | source | states |
|---|---|---|
| JsText.DigitsOf | src/components/subscription/PaymentModal.tsx:77 | `replace(/\D/g, '')` yields only digits and never lengthens the text |
| JsText.DigitsOfFixpoint | src/components/subscription/PaymentModal.tsx:77 | stripping non-digits changes a text exactly when it holds a non-digit |
| JsText.TrimStart | src/components/match/ConfirmResultForm.tsx:89 | removes exactly the leading JavaScript whitespace, keeping the rest as a suffix |
| JsText.TrimEnd | src/components/match/ConfirmResultForm.tsx:89 | removes exactly the trailing JavaScript whitespace, keeping the rest as a prefix |
| JsText.BlankIffAllWhitespace | src/components/match/ConfirmResultForm.tsx:89 | `!s.trim()` holds exactly when every character is whitespace |
| JsText.Lower | src/pages/MatchesPage.tsx:97-98 | `toLowerCase` keeps the length and lowers each character |
| JsText.IncludesIff | src/pages/MatchesPage.tsx:97-98 | `includes` holds exactly when the term occurs at some position |
| JsText.EmptyTermMatchesAll | src/pages/LeaderboardPage.tsx:51-58 | an empty search term matches every text |
| JsText.IntToString | src/components/match/ConfirmResultForm.tsx:161-165 | `String(n)` starts with '-' exactly for negatives and is digits otherwise |
| JsText.DigitPrefix | src/components/match/RecordResultForm.tsx:25 | the longest prefix of radix digits that `parseInt` reads |
| JsText.ParseIntOfIntToString | src/components/match/RecordResultForm.tsx:25-40 | `parseInt(String(n)) == n` for every integer |
| JsText.ParseIntOfIntToStringThen | src/components/tournament/InviteFriendsForm.tsx:58 | `parseInt` reads an integer back even when a non-digit tail follows it |
| JsText.ParseInt | src/components/match/RecordResultForm.tsx:25-40 | blank text reads as NaN, and a negative value needs a leading minus sign |
| JsText.LexLessTrichotomy | src/pages/TournamentDetailsPage.tsx:306 | string `<` is total: two texts are equal or one is below the other |
| JsText.LexLessTransitive | src/pages/TournamentDetailsPage.tsx:306 | string `<` is transitive |
| JsText.LexLessAsymmetric | src/pages/TournamentDetailsPage.tsx:306 | string `<` never holds both ways |
| JsText.LocaleCompareAntisymmetric | src/pages/MatchesPage.tsx:109 | `a.localeCompare(b)` is the negation of `b.localeCompare(a)` and is 0 only for equal texts |
| JsText.Split | src/pages/TournamentDetailsPage.tsx:306-322 | `split` always yields at least one piece |
| JsText.SplitJoin | src/pages/TournamentDetailsPage.tsx:306-322 | joining the pieces of `split` gives back the text, and no piece holds the separator |
| JsText.SplitFirstPiece | src/components/tournament/InviteFriendsForm.tsx:92 | `split('@')[0]` is the prefix before the first '@' |
| JsText.BeforeFirst | src/components/tournament/InviteFriendsForm.tsx:92 | a separator-free prefix followed by the separator or the end of the text |
| JsText.SplitAtSeparator | src/pages/TournamentDetailsPage.tsx:306-322 | a text with one separator splits into the part before it and the split of the rest |
| JsNumber.ToNumberOfIntToString | src/components/tournament/CreateTournamentForm.tsx:33 | `Number(String(n))` is `n` for every integer |
| JsNumber.ToNumber | src/components/tournament/CreateTournamentForm.tsx:33 | blank text converts to 0, and a negative value needs a leading minus sign |
| Lists.Filter | src/pages/LeaderboardPage.tsx:51-58 | `filter` keeps exactly the entries that pass, taken from the list |
| Lists.Count | src/pages/MatchesPage.tsx:178-186 | the number of entries that pass is 0 exactly when none passes |
| Lists.CountIsFilterLength | src/pages/MatchesPage.tsx:178-186 | the count is the length of the filtered list |
| Lists.FilterAppend | src/pages/TournamentsPage.tsx:146 | filtering distributes over concatenation |
| Lists.FilterKeepsAll | src/pages/TournamentsPage.tsx:146 | filtering a list whose entries all pass returns it unchanged |
| Lists.FilterIdempotent | src/pages/TournamentsPage.tsx:146 | filtering twice by the same test is filtering once |
| Lists.Map | src/components/tournament/InviteFriendsForm.tsx:137 | `map` keeps the length and applies the function at each index |
| StableSort.Sort | src/pages/MatchesPage.tsx:105-112 | the sorted list is a permutation of the input |
| StableSort.SortSorted | src/pages/TournamentsPage.tsx:96-105 | under a coherent comparator the sorted list is ordered by it |
| StableSort.SortAllEqual | src/pages/MatchesPage.tsx:111 | a comparator that calls every pair equal leaves the order as it was |
| StableSort.InsertSorted | src/pages/TournamentsPage.tsx:96-105 | inserting into a sorted list keeps it sorted |
| PaymentModal.CvvRuleIff | src/components/subscription/PaymentModal.tsx:20-23 | the CVV is accepted exactly when it is 3 or 4 characters, all digits |
| PaymentModal.ValidPayment | src/components/subscription/PaymentModal.tsx:13-23 | an accepted expiry and CVV are already in the shape their inputs write |
| PaymentModal.FormatCardNumber | src/components/subscription/PaymentModal.tsx:75-81 | the formatted number holds exactly the typed digits; n digits take n + (n - 1) / 4 characters |
| PaymentModal.RemoveSpaces | src/components/subscription/PaymentModal.tsx:79 | removing spaces leaves no space and never lengthens the text |
| PaymentModal.FormatKeepsDigits | src/components/subscription/PaymentModal.tsx:75-81 | removing the spaces from a formatted card number gives exactly the typed digits, in order |
| PaymentModal.FormatSpacing | src/components/subscription/PaymentModal.tsx:79 | a space sits at every fifth position and nowhere else, the rest are digits, and there is no leading or trailing space |
| PaymentModal.FormatIdempotent | src/components/subscription/PaymentModal.tsx:77-79 | formatting a formatted number changes nothing |
| PaymentModal.FormatAccepted | src/components/subscription/PaymentModal.tsx:13-16 | a formatted number passes the card rule exactly for 13 to 16 digits; 16 digits give 19 characters |
| PaymentModal.GroupShape | src/components/subscription/PaymentModal.tsx:79 | grouping n digits gives n + (n - 1) / 4 characters with spaces at every fifth position |
| PaymentModal.ShapeExpiry | src/components/subscription/PaymentModal.tsx:89-93 | the shaped expiry never exceeds 5 characters, the field's length |
| PaymentModal.ExpiryRuleShaped | src/components/subscription/PaymentModal.tsx:89-93 | an expiry the `MM/YY` rule accepts is left unchanged by the shaping |
| PaymentModal.ShapeExpiryDigits | src/components/subscription/PaymentModal.tsx:89-93 | the shaped expiry keeps the first four typed digits, in order, and drops the rest |
| PaymentModal.ShapeExpiryIdempotent | src/components/subscription/PaymentModal.tsx:89-93 | shaping a shaped expiry changes nothing |
| PaymentModal.ShapeExpiryAccepted | src/components/subscription/PaymentModal.tsx:18-19 | the shaped expiry passes the `MM/YY` rule exactly when four digits were typed and the first two are a month 01..12 |
| PaymentModal.PaymentForm.constructor | src/components/subscription/PaymentModal.tsx:35-46 | empty fields, not processing, no success, open |
| PaymentModal.PaymentForm.OnCardNumberChange | src/components/subscription/PaymentModal.tsx:83-86 | stores the formatted card number and changes nothing else |
| PaymentModal.PaymentForm.OnExpiryDateChange | src/components/subscription/PaymentModal.tsx:88-97 | stores the shaped expiry (at most 5 characters) and changes nothing else |
| PaymentModal.PaymentForm.SetCardHolder | src/components/subscription/PaymentModal.tsx:143 | stores the card holder and changes nothing else |
| PaymentModal.PaymentForm.SetCvv | src/components/subscription/PaymentModal.tsx:182 | stores the CVV and changes nothing else |
| PaymentModal.PaymentForm.Submit | src/components/subscription/PaymentModal.tsx:48-49 | processing starts exactly for values the schema accepts |
| PaymentModal.PaymentForm.FinishPayment | src/components/subscription/PaymentModal.tsx:59-71 | processing ends; success is set when the subscription went through |
| PaymentModal.PaymentForm.CloseAfterSuccess | src/components/subscription/PaymentModal.tsx:64-67 | the timer closes the modal and clears success |
| RecordResultForm.ParsedIssuesFacts | src/components/match/RecordResultForm.tsx:23-42 | each refinement reports its own issue exactly when its condition fails; a NaN score also fails the sign check; the tie is reported on team1Score only |
| RecordResultForm.Issues | src/components/match/RecordResultForm.tsx:23-42 | a score `parseInt` cannot read is reported on its own field, and a tie never on `team2Score` |
| RecordResultForm.Accepted | src/components/match/RecordResultForm.tsx:23-42 | the verdict is the same with the two teams swapped |
| RecordResultForm.AcceptedIff | src/components/match/RecordResultForm.tsx:23-42 | the schema accepts exactly two parsable, non-negative, different scores |
| RecordResultForm.NotANumberReported | src/components/match/RecordResultForm.tsx:25-27 | a score `parseInt` cannot read is reported as not a number, and as not non-negative |
| RecordResultForm.NegativeReported | src/components/match/RecordResultForm.tsx:28-30 | a negative score is reported and the result refused |
| RecordResultForm.TieReported | src/components/match/RecordResultForm.tsx:39-42 | the tie issue appears exactly for equal parsed scores, attached to team1Score |
| RecordResultForm.GetWinner | src/components/match/RecordResultForm.tsx:117-124 | team 1 wins exactly when its score is greater, team 2 likewise |
| RecordResultForm.NoWinnerIff | src/components/match/RecordResultForm.tsx:121-123 | no winner exactly when neither score is greater, which for two numbers means equal |
| RecordResultForm.EmptyScoreIsZero | src/components/match/RecordResultForm.tsx:118-119 | an empty field reads as 0 |
| RecordResultForm.AcceptedHasWinner | src/components/match/RecordResultForm.tsx:39-42 | every accepted result has a winner |
| RecordResultForm.WinnerLabel | src/components/match/RecordResultForm.tsx:196-200 | the label is shown exactly when there is a winner and names the winning team |
| RecordResultForm.ResultForm.constructor | src/components/match/RecordResultForm.tsx:79-83 | empty scores, not submitting, no callback made, no navigation |
| RecordResultForm.ResultForm.SetTeam1Score | src/components/match/RecordResultForm.tsx:159 | stores team 1's score text and changes nothing else |
| RecordResultForm.ResultForm.SetTeam2Score | src/components/match/RecordResultForm.tsx:179 | stores team 2's score text and changes nothing else |
| RecordResultForm.ResultForm.Submit | src/components/match/RecordResultForm.tsx:86-87 | submitting starts exactly for accepted scores |
| RecordResultForm.ResultForm.Complete | src/components/match/RecordResultForm.tsx:94-105 | submitting ends; `onResultRecorded` is called if given, otherwise the page goes to `/matches/<id>` |
| ConfirmResultForm.NeverBothHighlighted | src/components/match/ConfirmResultForm.tsx:141-145 | the two team panels are never highlighted together, and neither is for a draw |
| ConfirmResultForm.WinnerLabel | src/components/match/ConfirmResultForm.tsx:181 | "Team 1" exactly when team 1's panel is highlighted, otherwise "Team 2" |
| ConfirmResultForm.WinnerLabelMatchesHighlight | src/components/match/ConfirmResultForm.tsx:181 | the label names team 2 whenever its panel is highlighted, and also for a draw |
| ConfirmResultForm.EloChangeLabel | src/components/match/ConfirmResultForm.tsx:161-165 | the label starts with '+' exactly for a gain |
| ConfirmResultForm.EloChangeLabelRoundTrip | src/components/match/ConfirmResultForm.tsx:161-165 | `parseInt` of the label gives back the change |
| ConfirmResultForm.ConfirmForm.constructor | src/components/match/ConfirmResultForm.tsx:53-55 | not submitting, empty reason, dialog closed |
| ConfirmResultForm.ConfirmForm.SetDisputeDialog | src/components/match/ConfirmResultForm.tsx:260 | opens or closes the dispute dialog only |
| ConfirmResultForm.ConfirmForm.SetDisputeReason | src/components/match/ConfirmResultForm.tsx:272 | stores the typed reason only |
| ConfirmResultForm.ConfirmForm.ConfirmResult | src/components/match/ConfirmResultForm.tsx:57-58 | confirming has no guard and always starts submitting, which disables every button |
| ConfirmResultForm.ConfirmForm.DisputeResult | src/components/match/ConfirmResultForm.tsx:88-98 | a blank reason is refused; a non-blank one starts submitting |
| ConfirmResultForm.ConfirmForm.Notify | src/components/match/ConfirmResultForm.tsx:69-73 | `onConfirmed` is called if given, otherwise the page goes to `/matches/<id>` |
| ConfirmResultForm.ConfirmForm.CompleteConfirm | src/components/match/ConfirmResultForm.tsx:65-76 | submitting ends and the parent is notified |
| ConfirmResultForm.ConfirmForm.CompleteDispute | src/components/match/ConfirmResultForm.tsx:105-117 | submitting ends, the dialog closes and the parent is notified |
| MatchesPage.CompareByCoherent | src/pages/MatchesPage.tsx:105-112 | each sort key's comparator is a coherent total preorder |
| MatchesPage.FilteredMembership | src/pages/MatchesPage.tsx:96-112 | the list holds exactly the kept matches (as a multiset), each taken from the page's list |
| MatchesPage.FilteredMatches | src/pages/MatchesPage.tsx:96-112 | never longer than the page's list; on the scheduled and completed tabs only matches with that status |
| MatchesPage.OtherTabsSearchOnly | src/pages/MatchesPage.tsx:100-103 | on the 'all' tab or an unknown one only the search hit counts |
| MatchesPage.DateSortNewestFirst | src/pages/MatchesPage.tsx:106-107 | sorting by date lists the newest first |
| MatchesPage.TypeSortAscending | src/pages/MatchesPage.tsx:108-109 | sorting by type lists the types in ascending order |
| MatchesPage.OtherSortKeepsOrder | src/pages/MatchesPage.tsx:111 | any other sort key keeps the list order |
| MatchesPage.StatusBadge | src/pages/MatchesPage.tsx:114-127 | scheduled, completed-confirmed, completed-pending and completed-otherwise get their badges; any other status shows its raw text |
| MatchesPage.RecordResultNeedsResult | src/pages/MatchesPage.tsx:303 | a match offering "Record Result" carries the "Needs Result" badge |
| MatchesPage.MockOffersNoRecordResult | src/pages/MatchesPage.tsx:16-88 | none of the listed matches offers "Record Result" |
| MatchesPage.MockScoresShown | src/pages/MatchesPage.tsx:266 | in the listed matches a score is shown exactly for the completed ones, never beside "Record Result" |
| MatchesPage.StatusCountsBounded | src/pages/MatchesPage.tsx:178-182 | the scheduled and completed stats never add up to more than the list |
| MatchesPage.MockCounts | src/pages/MatchesPage.tsx:178-186 | the stats read 1 scheduled, 2 completed and 1 pending |
| CreateMatchForm.DefaultValues | src/components/match/CreateMatchForm.tsx:21-40 | the initial values have a valid game type but are refused by the schema |
| CreateMatchForm.SchemaAccepts | src/components/match/CreateMatchForm.tsx:21-40 | values whose opponent is empty are refused; accepted values also pass every rule on a rendered field |
| CreateMatchForm.ToggleInvite | src/components/match/CreateMatchForm.tsx:81-97 | the user is invited afterwards exactly when it was not before and there was room |
| CreateMatchForm.MaxInvites | src/components/match/CreateMatchForm.tsx:74 | 1 exactly for "1v1", and between 1 and 3 |
| CreateMatchForm.WithoutId | src/components/match/CreateMatchForm.tsx:82-84 | removing an id leaves no user with it |
| CreateMatchForm.WithoutIdFacts | src/components/match/CreateMatchForm.tsx:82-84 | on a duplicate-free list, removing an invited id removes exactly one user, and removing an absent id changes nothing |
| CreateMatchForm.ToggleRemoves | src/components/match/CreateMatchForm.tsx:82-84 | toggling an invited user removes exactly that user and keeps the rest in order |
| CreateMatchForm.ToggleAdds | src/components/match/CreateMatchForm.tsx:86-95 | toggling an uninvited user appends it exactly when fewer than the maximum are invited |
| CreateMatchForm.TogglePreservesInvariant | src/components/match/CreateMatchForm.tsx:81-97 | the toggle keeps ids distinct and the list within the maximum |
| CreateMatchForm.ToggleTwice | src/components/match/CreateMatchForm.tsx:81-97 | inviting and then uninviting a user restores the list |
| CreateMatchForm.GameTypeChangeBounds | src/components/match/CreateMatchForm.tsx:225-230 | after a game-type change the list is a prefix of the old one within the new maximum |
| CreateMatchForm.FilteredUsers | src/components/match/CreateMatchForm.tsx:76-79 | exactly the users whose name or email contains the term, case-insensitively |
| CreateMatchForm.EmptySearchListsAll | src/components/match/CreateMatchForm.tsx:76-79 | an empty search lists every user |
| CreateMatchForm.MatchForm.constructor | src/components/match/CreateMatchForm.tsx:56-71 | default values, nobody invited, empty search |
| CreateMatchForm.MatchForm.HandleInviteUser | src/components/match/CreateMatchForm.tsx:81-97 | the list becomes the toggle of the old one and keeps its invariant |
| CreateMatchForm.MatchForm.IsInvited | src/components/match/CreateMatchForm.tsx:99-101 | true exactly when some invited user has the id |
| CreateMatchForm.MatchForm.SetGameType | src/components/match/CreateMatchForm.tsx:225-230 | stores the game type and truncates the list for "1v1" |
| CreateMatchForm.MatchForm.SetTitle | src/components/match/CreateMatchForm.tsx:133 | stores the title and changes nothing else |
| CreateMatchForm.MatchForm.SetDate | src/components/match/CreateMatchForm.tsx:148 | stores the picked or cleared date and changes nothing else |
| CreateMatchForm.MatchForm.SetTime | src/components/match/CreateMatchForm.tsx:185 | stores the time and changes nothing else |
| CreateMatchForm.MatchForm.SetLocation | src/components/match/CreateMatchForm.tsx:203 | stores the location and changes nothing else |
| CreateMatchForm.MatchForm.SetSearchTerm | src/components/match/CreateMatchForm.tsx:331 | stores the invite dialog's search term and changes nothing else |
| CreateMatchForm.MatchForm.Submit | src/components/match/CreateMatchForm.tsx:104-115 | accepted values navigate to `/matches/1`; refused ones, and any with an empty opponent, change nothing |
| CreateMatchForm.MatchForm.SubmitIntended | src/components/match/CreateMatchForm.tsx:104-115 | checked against the schema without the opponent rule, accepted values navigate to `/matches/1` |
| CreateMatchForm.FilledFormNeverSubmits | src/components/match/CreateMatchForm.tsx:61-115 | filling every rendered field with values their rules accept and submitting never navigates |
| CreateMatchForm.FilledFormSubmitsIntended | src/components/match/CreateMatchForm.tsx:61-115 | without the opponent rule the same filled form navigates to `/matches/1` |
| CreateMatchForm.IntendedAcceptsFilledDefaults | src/components/match/CreateMatchForm.tsx:21-40 | without the opponent rule the defaults are accepted exactly once title and location have 3 characters; with it never |
| InviteFriendsForm.FindFriend | src/components/tournament/InviteFriendsForm.tsx:80 | `find` returns a friend exactly when one has the email, and it is the first such friend in the list |
| InviteFriendsForm.Invitee | src/components/tournament/InviteFriendsForm.tsx:80-92 | a known email gives that friend; an unknown one a new entry named by the text before '@' |
| InviteFriendsForm.AddInvitee | src/components/tournament/InviteFriendsForm.tsx:69-101 | the email is in the list afterwards, which extends the old list by at most one entry |
| InviteFriendsForm.RemoveFriend | src/components/tournament/InviteFriendsForm.tsx:106-108 | no entry with the removed id remains |
| InviteFriendsForm.AddDuplicateUnchanged | src/components/tournament/InviteFriendsForm.tsx:69-76 | adding an email already invited changes nothing |
| InviteFriendsForm.AddNewAppends | src/components/tournament/InviteFriendsForm.tsx:80-101 | adding a new email appends exactly one entry carrying it, at the end |
| InviteFriendsForm.AddKeepsDistinct | src/components/tournament/InviteFriendsForm.tsx:69-101 | emails stay pairwise distinct, and the added email is in the list |
| InviteFriendsForm.RemoveKeepsDistinct | src/components/tournament/InviteFriendsForm.tsx:106-108 | removing keeps emails distinct and keeps only entries from the list |
| InviteFriendsForm.RemoveAbsentUnchanged | src/components/tournament/InviteFriendsForm.tsx:106-108 | removing an absent id changes nothing |
| InviteFriendsForm.Emails | src/components/tournament/InviteFriendsForm.tsx:137 | the emails of the list, one per entry, in order |
| InviteFriendsForm.InviteLink | src/components/tournament/InviteFriendsForm.tsx:58 | the link starts with the site's tournaments path |
| InviteFriendsForm.InviteLinkCarriesId | src/components/tournament/InviteFriendsForm.tsx:58 | the id read back from the link is the tournament id |
| InviteFriendsForm.InviteForm.constructor | src/components/tournament/InviteFriendsForm.tsx:55-56 | nobody invited, not submitting, empty input |
| InviteFriendsForm.InviteForm.AddByEmail | src/components/tournament/InviteFriendsForm.tsx:67-104 | the list becomes the old one with the invitee added; the input clears only for a new email |
| InviteFriendsForm.InviteForm.RemoveById | src/components/tournament/InviteFriendsForm.tsx:106-108 | the list loses the entries with the id and keeps distinct emails |
| InviteFriendsForm.InviteForm.SendInvites | src/components/tournament/InviteFriendsForm.tsx:120-137 | an empty list is refused; otherwise submitting starts with the list's emails pending |
| InviteFriendsForm.InviteForm.CompleteSend | src/components/tournament/InviteFriendsForm.tsx:140-154 | `onSubmit` gets the pending emails, `onClose` is called, the list empties and submitting ends |
| CreateTournamentForm.Parse | src/components/tournament/CreateTournamentForm.tsx:19-38 | parsing succeeds exactly when the schema accepts, returning the fields with the coerced limit in 4..64 |
| CreateTournamentForm.SchemaAccepts | src/components/tournament/CreateTournamentForm.tsx:19-38 | an accepted limit coerces to a finite number whose floor lies in 4..64 |
| CreateTournamentForm.DefaultValuesFacts | src/components/tournament/CreateTournamentForm.tsx:55-62 | the default limit of 8 is accepted; the empty title and location are not |
| CreateTournamentForm.TypedLimitAccepted | src/components/tournament/CreateTournamentForm.tsx:33-37 | a typed whole number is accepted exactly in 4..64 |
| CreateTournamentForm.EmptyLimitRefused | src/components/tournament/CreateTournamentForm.tsx:33 | a cleared field coerces to 0 and is refused |
| CreateTournamentForm.DatesUnrelated | src/components/tournament/CreateTournamentForm.tsx:24-29 | the schema accepts an end date before the start date |
| CreateTournamentForm.EndDayDisabled | src/components/tournament/CreateTournamentForm.tsx:220-223 | with no start date no day is disabled; an offered day is never before the start |
| CreateTournamentForm.MockTournamentId | src/components/tournament/CreateTournamentForm.tsx:73 | `Math.floor(random * 1000)` lies in 0..999 |
| CreateTournamentForm.TournamentForm.constructor | src/components/tournament/CreateTournamentForm.tsx:49-62 | step 1, no stored data, default values |
| CreateTournamentForm.TournamentForm.SetTitle | src/components/tournament/CreateTournamentForm.tsx:122 | stores the title and changes nothing else |
| CreateTournamentForm.TournamentForm.SetDescription | src/components/tournament/CreateTournamentForm.tsx:136 | stores the description and changes nothing else |
| CreateTournamentForm.TournamentForm.SetStartDate | src/components/tournament/CreateTournamentForm.tsx:158 | stores the picked or cleared start date and changes nothing else |
| CreateTournamentForm.TournamentForm.SetEndDate | src/components/tournament/CreateTournamentForm.tsx:195-223 | stores an end date the picker offers, or clears it, and changes nothing else |
| CreateTournamentForm.TournamentForm.SetLocation | src/components/tournament/CreateTournamentForm.tsx:236 | stores the location and changes nothing else |
| CreateTournamentForm.TournamentForm.SetMaxParticipants | src/components/tournament/CreateTournamentForm.tsx:251 | stores the typed limit text and changes nothing else |
| CreateTournamentForm.TournamentForm.SubmitFirstStep | src/components/tournament/CreateTournamentForm.tsx:66-82 | refused values change nothing; accepted ones are stored and either go to the callback with the title or move to step 2 |
| CreateTournamentForm.TournamentForm.Back | src/components/tournament/CreateTournamentForm.tsx:290 | back to step 1, nothing else changes |
| CreateTournamentForm.TournamentForm.HandleInviteesSubmit | src/components/tournament/CreateTournamentForm.tsx:85-108 | without stored data nothing happens; otherwise the page goes to `/tournaments` |
| CreateTournamentForm.LaterStartAccepted | src/components/tournament/CreateTournamentForm.tsx:158-223 | picking the start again after the end leaves an end before the start that the schema accepts |
| TournamentsPage.CompareByCoherent | src/pages/TournamentsPage.tsx:96-105 | each sort key's comparator is a coherent total preorder |
| TournamentsPage.FilteredMembership | src/pages/TournamentsPage.tsx:90-105 | the list holds exactly the kept tournaments, each on the active tab |
| TournamentsPage.FilteredTournaments | src/pages/TournamentsPage.tsx:90-105 | never longer than the page's list, and every listed tournament has the active tab's status |
| TournamentsPage.DateSortAscending | src/pages/TournamentsPage.tsx:97-98 | sorting by date lists the earliest first |
| TournamentsPage.NameSortAscending | src/pages/TournamentsPage.tsx:99-100 | sorting by name lists the names in ascending order |
| TournamentsPage.ParticipantsSortDescending | src/pages/TournamentsPage.tsx:101-102 | sorting by participants lists the largest field first |
| TournamentsPage.OtherSortKeepsOrder | src/pages/TournamentsPage.tsx:103-104 | any other sort key keeps the list order |
| TournamentsPage.DeleteById | src/pages/TournamentsPage.tsx:145-147 | no tournament with the id remains, and every other one does |
| TournamentsPage.DeleteCount | src/pages/TournamentsPage.tsx:146 | the list shrinks by the number of tournaments with the id |
| TournamentsPage.DeleteIdempotent | src/pages/TournamentsPage.tsx:146 | deleting twice is deleting once; an absent id changes nothing |
| TournamentsPage.HandleCreateTournament | src/pages/TournamentsPage.tsx:107-128 | navigation to the create page happens exactly for a signed-in premium user; a signed-out one is asked to log in |
| TournamentsPage.CreatorsSeeDelete | src/pages/TournamentsPage.tsx:253-259 | whoever may create a tournament also sees the delete control |
| TournamentsPage.SpotsLabel | src/pages/TournamentsPage.tsx:292-299 | "Full" exactly for a full tournament |
| TournamentsPage.SpotsLabelReadsBack | src/pages/TournamentsPage.tsx:298 | otherwise the label reads back as the positive number of spots left |
| TournamentsPage.JoinDisabledIffFull | src/pages/TournamentsPage.tsx:306 | the Join button is disabled exactly when the card says "Full" |
| TournamentsPage.TournamentsList.constructor | src/pages/TournamentsPage.tsx:87 | the list starts as the mock tournaments |
| TournamentsPage.TournamentsList.HandleDeleteTournament | src/pages/TournamentsPage.tsx:145-147 | the list becomes the old one without the id |
| TournamentsPage.TournamentsList.HandleJoinTournament | src/pages/TournamentsPage.tsx:130-144 | the join toast appears exactly for a signed-in user, and the list is never touched |
| TournamentDetailsPage.RegistrationLabel | src/pages/TournamentDetailsPage.tsx:193-200 | "Full" exactly when the participants reach the maximum, otherwise "Open" |
| TournamentDetailsPage.JoinDisabledIff | src/pages/TournamentDetailsPage.tsx:103 | Join is disabled when full, and when open exactly if already joined |
| TournamentDetailsPage.MockTournamentFull | src/pages/TournamentDetailsPage.tsx:11-42 | the page's tournament is full, so Join is always disabled |
| TournamentDetailsPage.DetailsPage.constructor | src/pages/TournamentDetailsPage.tsx:73 | not joined |
| TournamentDetailsPage.DetailsPage.HandleJoinTournament | src/pages/TournamentDetailsPage.tsx:78-80 | joined afterwards, however often it is called |
| TournamentDetailsPage.UnplayedShowsNothing | src/pages/TournamentDetailsPage.tsx:306-322 | for the score '-' both cells are empty and no side is highlighted |
| TournamentDetailsPage.Team1HighlightedAsWritten | src/pages/TournamentDetailsPage.tsx:306-318 | a highlighted team 1 cell is non-empty and differs from team 2's |
| TournamentDetailsPage.Team2HighlightedAsWritten | src/pages/TournamentDetailsPage.tsx:306-318 | a highlighted team 2 cell is non-empty and differs from team 1's |
| TournamentDetailsPage.NeverBothHighlightedAsWritten | src/pages/TournamentDetailsPage.tsx:306-318 | the string comparison never highlights both sides |
| TournamentDetailsPage.TenNineHighlightsLoser | src/pages/TournamentDetailsPage.tsx:306-318 | as written, "10-9" highlights team 2 and not team 1 |
| TournamentDetailsPage.SingleDigitsAgree | src/pages/TournamentDetailsPage.tsx:306-318 | for single-digit scores the string and numeric comparisons agree |
| TournamentDetailsPage.SplitScoreText | src/pages/TournamentDetailsPage.tsx:310-322 | a score "a-b" splits into the two numbers' texts |
| TournamentDetailsPage.ScoreCells | src/pages/TournamentDetailsPage.tsx:310-322 | the cells show `split('-')[0]` and `split('-')[1]`, the two scores |
| TournamentDetailsPage.HighlightsWinner | src/pages/TournamentDetailsPage.tsx:306-318 | with numeric comparison team 1 is highlighted exactly when it scored more, team 2 likewise |
| TournamentDetailsPage.TenNineHighlightsWinner | src/pages/TournamentDetailsPage.tsx:306-318 | with numeric comparison "10-9" highlights team 1 only |
| TournamentDetailsPage.ScheduleText | src/pages/TournamentDetailsPage.tsx:382-390 | the score, or "Not played yet" for '-' |
| LeaderboardPage.FilteredMembership | src/pages/LeaderboardPage.tsx:51-58 | an entry is listed exactly when its lower-cased name contains the lower-cased term |
| LeaderboardPage.Filtered | src/pages/LeaderboardPage.tsx:51-58 | never longer than the table, and every listed entry comes from it and matches the term |
| LeaderboardPage.EmptyTermKeepsAll | src/pages/LeaderboardPage.tsx:51-58 | an empty term keeps every entry, in order |
| LeaderboardPage.FirstMatchHeadsList | src/pages/LeaderboardPage.tsx:51-58 | the first matching entry heads the filtered list |
| LeaderboardPage.RankIconOf | src/pages/LeaderboardPage.tsx:87-97 | ranks 1, 2 and 3 get the trophy and medals; any other rank shows its number |
| LeaderboardPage.TrendOf | src/pages/LeaderboardPage.tsx:61-84 | 'up' and 'down' show the change; any other trend shows 0 |
| LeaderboardPage.Rows | src/pages/LeaderboardPage.tsx:218-232 | one row per filtered entry, in order |
| LeaderboardPage.RowsRanked | src/pages/LeaderboardPage.tsx:218-232 | the rank is the position in the filtered list plus 1, only the first three get icons, and matches played is wins plus losses |
| LeaderboardPage.TimeRangeIgnored | src/pages/LeaderboardPage.tsx:47-58 | the selected time range has no effect on what is listed |
| LeaderboardPage.SearchedEntryRankedFirst | src/pages/LeaderboardPage.tsx:218-221 | the first entry matching a search is shown with rank 1 and the trophy, whatever its place in the full list |
| LeaderboardPage.MockSteadyTrendsAreZero | src/pages/LeaderboardPage.tsx:13-43 | every listed 'same' trend carries a change of 0 |
| TableRecord.Increment | src/components/table/TablesList.tsx:96 | `+ 1` adds one to a number and turns `undefined` or NaN into NaN |
| TableRecord.CounterText | src/components/table/TablesList.tsx:180 | the count renders as empty text exactly when it is `undefined` |
| TableRecord.MockTablesConsistent | src/components/table/TablesList.tsx:11-80 | every mock table is verified exactly when its count is at least 5, and ids are distinct |
| TablesList.Verify | src/components/table/TablesList.tsx:93-105 | the count goes up by one, the verified flag becomes count at least 5, and nothing else changes |
| TablesList.VerifyTables | src/components/table/TablesList.tsx:94-104 | the table with the id is verified, the others are unchanged, length and order kept |
| TablesList.VerifyStep | src/components/table/TablesList.tsx:96-101 | on a consistent table, one verify adds exactly one, stays consistent and never unverifies |
| TablesList.VerifyKeepsConsistent | src/components/table/TablesList.tsx:93-105 | verifying keeps every table consistent |
| TablesList.VerifyMonotone | src/components/table/TablesList.tsx:96-100 | counts never decrease, so a verified table stays verified |
| TablesList.VerifyButtonBelowThreshold | src/components/table/TablesList.tsx:182 | on a consistent table, Verify is offered exactly below 5 verifications |
| TablesList.MockVerifyButtons | src/components/table/TablesList.tsx:11-80 | only the fourth mock table offers Verify, and two verifies make it verified |
| TablesList.ReplaceById | src/components/table/TablesList.tsx:86-91 | the table with the updated id is replaced, the others are unchanged |
| TablesList.SavedObject | src/components/table/EditTableForm.tsx:30-49 | the values the edit form saves carry no verification count or flag |
| TablesList.Received | src/components/table/TablesList.tsx:86-91 | a cancel hands back the table itself; a save hands back its id with no verification count |
| TablesList.EditCompleteAsWritten | src/components/table/TablesList.tsx:86-91 | each entry keeps its id; entries with the received id become the received object and the others are kept |
| TablesList.EditCompleteKeepsDistinctIds | src/components/table/TablesList.tsx:86-91 | closing the dialog keeps the list's ids distinct |
| TablesList.CancelKeepsList | src/components/table/TablesList.tsx:86-91 | cancelling the edit of a listed table gives the list back unchanged |
| TablesList.VerifyRepeatedly | src/components/table/TablesList.tsx:93-105 | any number of verifies keeps length and ids |
| TablesList.CounterStaysBroken | src/components/table/TablesList.tsx:96-100 | a table without a numeric count never becomes verified, and one verify makes its count NaN |
| TablesList.SavedEditLosesVerification | src/components/table/TablesList.tsx:86-91 | as written, saving an edit of a verified table leaves it unverified for good |
| TablesList.SpielbarEditExample | src/components/table/TablesList.tsx:11-91 | saving the first mock table unchanged makes it unverified |
| TablesList.EditApplied | src/components/table/TablesList.tsx:86-91 | applying an edit outcome keeps the list's length |
| TablesList.EditAppliedKeepsVerification | src/components/table/TablesList.tsx:86-91 | a saved edit keeps every table's count and verified state, and the list stays consistent |
| TablesList.SavingDefaultsApplied | src/components/table/EditTableForm.tsx:62-69 | saving a table's unedited defaults leaves it as it was, with empty text for a missing fee or notes |
| TablesList.TablesView.constructor | src/components/table/TablesList.tsx:83-84 | the mock tables, nothing selected, ids distinct and badges consistent |
| TablesList.TablesView.SelectTable | src/components/table/TablesList.tsx:209 | selects the table only |
| TablesList.TablesView.VerifyTable | src/components/table/TablesList.tsx:93-105 | the list becomes the verified list; ids stay distinct and consistent badges stay consistent |
| TablesList.TablesView.HandleEditComplete | src/components/table/TablesList.tsx:86-91 | the list becomes the as-written replacement by the received object, the selection clears and ids stay distinct |
| TableMap.Pins | src/components/table/TableMap.tsx:20-52 | one pin per verified table, pin i at left 20 + 15i and top 30 + 8i percent |
| TableMap.PinsFacts | src/components/table/TableMap.tsx:20-52 | a table has a pin exactly when it is listed and verified, and pins move strictly right and down |
| TableMap.VerifiedTables | src/components/table/TableMap.tsx:20 | exactly the verified tables of the list, each taken from it |
| TableMap.Legend | src/components/table/TableMap.tsx:64-75 | the names of the verified tables, in order |
| TableMap.LegendMatchesPins | src/components/table/TableMap.tsx:45-72 | the legend lists the pinned tables' names, in pin order |
| TableMap.MockPins | src/components/table/TableMap.tsx:20 | four of the five mock tables are pinned, the unverified one left out |
| TableMap.MapView.constructor | src/components/table/TableMap.tsx:9 | the map starts not loaded |
| TableMap.MapView.FinishLoading | src/components/table/TableMap.tsx:11-17 | the timer marks the map loaded |
| TableMap.MapView.VisiblePins | src/components/table/TableMap.tsx:40-52 | no pins before the map is loaded, one per verified table after |
| TableMap.MapView.VisibleLegend | src/components/table/TableMap.tsx:25-75 | no legend before the map loads; afterwards one name per visible pin, in pin order |
| AddTableForm.DefaultValues | src/components/table/AddTableForm.tsx:57-65 | free, with balls, condition "Good", empty name, address, fee and notes |
| AddTableForm.DefaultsRefused | src/components/table/AddTableForm.tsx:31-43 | the defaults fail the name and address rules though their condition is valid |
| AddTableForm.FeeAndNotesFree | src/components/table/AddTableForm.tsx:38-40 | acceptance does not depend on payment, fee or notes |
| AddTableForm.ConditionIff | src/components/table/AddTableForm.tsx:41 | the condition must be one of the five listed |
| AddTableForm.AddForm.constructor | src/components/table/AddTableForm.tsx:53 | not submitting, nothing pending |
| AddTableForm.AddForm.Submit | src/components/table/AddTableForm.tsx:70-71 | accepted values start submitting; refused ones change nothing |
| AddTableForm.AddForm.CompleteSubmit | src/components/table/AddTableForm.tsx:78-85 | submitting ends and `onComplete` is called once |
| AddTableForm.AddForm.Cancel | src/components/table/AddTableForm.tsx:268 | `onComplete` is called once, nothing else changes |
| EditTableForm.SameRulesAsAdd | src/components/table/EditTableForm.tsx:30-49 | editing applies the same name, address and condition rules as adding |
| EditTableForm.OrEmpty | src/components/table/EditTableForm.tsx:64-68 | a missing fee or notes becomes "" |
| EditTableForm.DefaultValues | src/components/table/EditTableForm.tsx:62-69 | the defaults always carry a fee and notes |
| EditTableForm.Overwrite | src/components/table/EditTableForm.tsx:62-69 | merging saved values into a table keeps its verification and reads back as those values |
| EditTableForm.SavingDefaultsKeepsTable | src/components/table/EditTableForm.tsx:62-69 | merging a table's own defaults gives the table back, with empty text for a missing fee or notes |
| EditTableForm.MockDefaultsAccepted | src/components/table/EditTableForm.tsx:30-49 | every mock table's defaults pass the schema |
| EditTableForm.EditForm.constructor | src/components/table/EditTableForm.tsx:60-69 | not submitting, nothing pending or completed |
| EditTableForm.EditForm.Submit | src/components/table/EditTableForm.tsx:73-74 | accepted values start submitting; refused ones change nothing |
| EditTableForm.EditForm.CompleteSubmit | src/components/table/EditTableForm.tsx:81-88 | `onComplete` receives the validated values and submitting ends |
| EditTableForm.EditForm.Cancel | src/components/table/EditTableForm.tsx:260-266 | `onComplete` receives the original table |
| AuthContext.LoginUser | src/contexts/AuthContext.tsx:58-67 | id "1", "Demo User", the given email, ELO 1500, not premium |
| AuthContext.SignupUser | src/contexts/AuthContext.tsx:94-103 | id "1", the given name and email, ELO 1200, not premium |
| AuthContext.Subscribed | src/contexts/AuthContext.tsx:141-144 | premium, every other field unchanged |
| AuthContext.SubscribedIdempotent | src/contexts/AuthContext.tsx:141-144 | subscribing twice is subscribing once |
| AuthContext.RestoredUser | src/contexts/AuthContext.tsx:31-47 | a user is restored exactly when the key holds a parsable user |
| AuthContext.StorageRoundTrip | src/contexts/AuthContext.tsx:31-47 | a stored user is restored as itself; after removal nobody is |
| AuthContext.AuthProvider.CheckPremiumStatus | src/contexts/AuthContext.tsx:130-133 | true exactly for a signed-in premium user |
| AuthContext.AuthProvider.constructor | src/contexts/AuthContext.tsx:27-28 | no user, loading |
| AuthContext.AuthProvider.Restore | src/contexts/AuthContext.tsx:31-47 | a stored user is signed in, loading ends, storage untouched |
| AuthContext.AuthProvider.StartRequest | src/contexts/AuthContext.tsx:51 | loading starts, nothing else changes |
| AuthContext.AuthProvider.FinishLogin | src/contexts/AuthContext.tsx:50-83 | the demo user is signed in and stored, loading ends |
| AuthContext.AuthProvider.FinishSignup | src/contexts/AuthContext.tsx:86-119 | the new user is signed in and stored, loading ends |
| AuthContext.AuthProvider.Logout | src/contexts/AuthContext.tsx:121-128 | no user and no stored entry |
| AuthContext.AuthProvider.StartSubscription | src/contexts/AuthContext.tsx:135-141 | the user as the call sees it is captured |
| AuthContext.AuthProvider.FinishSubscription | src/contexts/AuthContext.tsx:141-144 | the captured user becomes premium and is stored; with none nothing changes |
| AuthContext.LogoutDuringSubscription | src/contexts/AuthContext.tsx:121-144 | a logout during the subscription wait is undone: the user ends signed in and premium |
| DeleteAccountDialog.NearMissesRefused | src/components/profile/DeleteAccountDialog.tsx:30-38 | lower case, padded text and every proper prefix of "DELETE" are refused |
| DeleteAccountDialog.ButtonsWhileDeleting | src/components/profile/DeleteAccountDialog.tsx:112-122 | while deleting both buttons are disabled; otherwise Delete is enabled exactly for "DELETE" |
| DeleteAccountDialog.DeleteDialog.constructor | src/components/profile/DeleteAccountDialog.tsx:27-28 | not deleting, empty text |
| DeleteAccountDialog.DeleteDialog.SetConfirmText | src/components/profile/DeleteAccountDialog.tsx:104 | stores the typed text only |
| DeleteAccountDialog.DeleteDialog.HandleDeleteAccount | src/components/profile/DeleteAccountDialog.tsx:30-40 | anything but "DELETE" is refused; "DELETE" starts deleting |
| DeleteAccountDialog.DeleteDialog.CompleteDeletion | src/components/profile/DeleteAccountDialog.tsx:47-61 | the user is logged out and unstored, the page goes to "/", deleting ends and the dialog closes |
| DeleteAccountDialog.DeleteDialog.Cancel | src/components/profile/DeleteAccountDialog.tsx:112-115 | closes the dialog, callable only when not deleting |
| ContactPage.Updated | src/pages/ContactPage.tsx:86-88 | the changed field takes the value and every other field keeps its own |
| ContactPage.FieldsDetermine | src/pages/ContactPage.tsx:23-29 | two forms with the same field values are equal |
| ContactPage.UpdateLaws | src/pages/ContactPage.tsx:86-88 | the last write wins, writes to different fields commute, writing a field's own value changes nothing |
| ContactPage.Blank | src/pages/ContactPage.tsx:23-29 | every text field empty and the type "general" |
| ContactPage.SendDisabledIff | src/pages/ContactPage.tsx:220 | Send is disabled exactly when a text field is empty, whatever the type; so on the blank form |
| ContactPage.ContactForm.constructor | src/pages/ContactPage.tsx:23-29 | the blank form |
| ContactPage.ContactForm.HandleInputChange | src/pages/ContactPage.tsx:86-88 | only the named field changes |
| ContactPage.ContactForm.SelectType | src/pages/ContactPage.tsx:148 | the type changes, the text fields do not |
| ContactPage.ContactForm.HandleSubmit | src/pages/ContactPage.tsx:67-84 | the form is reset to the blank form and one toast is shown |
| ContactPage.ContactForm.Clear | src/pages/ContactPage.tsx:230-236 | the form is reset to the same blank form, without a toast |
| ManageBillingDialog.StatusColor | src/components/profile/ManageBillingDialog.tsx:52-59 | green for paid, yellow for pending, red for failed, gray otherwise |
| ManageBillingDialog.StatusColorsDistinct | src/components/profile/ManageBillingDialog.tsx:52-59 | gray exactly for other statuses, and the three colours are distinct |
| ManageBillingDialog.PadStart | src/components/profile/ManageBillingDialog.tsx:121 | `padStart` fills with the pad character up to the width and ends with the text |
| ManageBillingDialog.MonthLabel | src/components/profile/ManageBillingDialog.tsx:121 | the month label has at least two characters |
| ManageBillingDialog.MonthLabelReadsBack | src/components/profile/ManageBillingDialog.tsx:121 | a month 1..12 renders as two digits that read back as the month |
| ManageBillingDialog.Capitalize | src/components/profile/ManageBillingDialog.tsx:148 | the first character upper-cased, the rest unchanged |
| ManageBillingDialog.CapitalizeLowers | src/components/profile/ManageBillingDialog.tsx:148 | capitalising changes nothing case-insensitively, and twice is once |
| ManageBillingDialog.StatusLabels | src/components/profile/ManageBillingDialog.tsx:148 | the three statuses read "Paid", "Pending" and "Failed" |
| ManageBillingDialog.Separators | src/components/profile/ManageBillingDialog.tsx:169 | one flag per history entry |
| ManageBillingDialog.SeparatorsBetween | src/components/profile/ManageBillingDialog.tsx:169 | a separator follows every entry but the last, n - 1 in all |

## Left out

- Numbers are exact: JavaScript doubles, their rounding and integers beyond 2^53 are not modelled. `parseInt` and `Number` are exact on the texts they read.
- Strings are sequences of characters. UTF-16 surrogates are not modelled. `toLowerCase` and `toUpperCase` are ASCII only. `localeCompare` is code-unit order, because the locale's collation is not available.
- zod's `.email()` check is not modelled: an email field is any text. The `maxLength` attributes are not modelled either. The browser's own `required` check on the contact form is also left out, so `ContactPage.ContactForm.HandleSubmit` models the handler once the browser lets the submit through.
- Toasts, `console` logging, the clipboard and the `catch` branches of the handlers are left out; none of the modelled handlers can throw.
- `Date.now()` and `Math.random()` are parameters (`now`, `random`). `new Date()` is a `today` day key. The date pickers' comparison with the current date is left out. "Days until start" and the progress bar use floating-point date arithmetic and are left out.
- Dates are integer day keys. Sorting by date compares those keys, whose order is that of the timestamps the pages subtract.
- The timers' delays are left out. Each `setTimeout` body is a completion method that a caller runs later.
- `AuthContext.AuthProvider.FinishLogin` and `FinishSignup` ignore the password, as the mock does. Storage holds users; a stored value that is not a user is one `Unparsable` case.
- The ELO values are literals and there is no rating engine. Static pages, layout and routing wrappers, the profile display cards and the toast re-export files are not part of this model. DeleteTournamentDialog only calls back after a timer, which the tournaments page's delete covers.
- PaymentModal.ShapeExpiry: its contract states the length bound. The exact shape (two digits, '/', up to two more) is stated through `ShapeExpiryDigits` and `ShapeExpiryAccepted` rather than character by character.
- CreateMatchForm.DefaultValues: the schema's per-field minimum lengths are stated only through the defaults being refused. There is no separate lemma per field.
- The optional `comments` field of the result form accepts any text and no handler reads it, so it is not modelled.

## Findings

| source | as written | input that shows it | evidently intended | confidence | as-written member | corrected member |
|---|---|---|---|---|---|---|
| src/pages/TournamentDetailsPage.tsx:306-318 | the bracket compares the two halves of the score text as strings | score "10-9": "9" > "10" as strings, so team 2's cell is highlighted | highlight the side with the greater number | high, not executed | TournamentDetailsPage.TenNineHighlightsLoser | TournamentDetailsPage.HighlightsWinner |
| src/components/match/CreateMatchForm.tsx:34-36 | the schema requires an `opponent` of at least 3 characters, but no field renders it and its default is "" (line 68) | fill title "Cup", a date, a time, location "Pub" and game type "1v1", then submit: the schema refuses `opponent`, so `onSubmit` never runs | check only the rendered fields (the invite list names the opponents) | high, not executed | CreateMatchForm.FilledFormNeverSubmits | CreateMatchForm.FilledFormSubmitsIntended |
| src/components/table/TablesList.tsx:86-91 | the edit handler stores the values the edit form returns, and that form's schema (src/components/table/EditTableForm.tsx:30-49) has no verification fields, so zod strips them | saving the first mock table ("Spielbar", 8 verifications) unchanged: its count becomes `undefined`, it shows as unverified, and Verify then makes the count NaN forever | merge the edited fields into the stored table and keep its verification | medium (relies on zod dropping unknown keys), not executed | TablesList.SavedEditLosesVerification | TablesList.EditAppliedKeepsVerification |

The classes model the handlers as written: `TablesList.TablesView.HandleEditComplete` replaces the table by the received object, and `CreateMatchForm.MatchForm.Submit` checks the full schema. The corrected definitions sit beside them. They are `TablesList.EditApplied` for the merge and `CreateMatchForm.IntendedSchemaAccepts` with `MatchForm.SubmitIntended` for the match form. The bracket's corrected highlight is `TournamentDetailsPage.Team1Highlighted` and `Team2Highlighted`.
