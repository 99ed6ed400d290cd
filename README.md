# Sokdak client logic in Dafny

Sokdak is a React single-page client for a university club service. Members sign
up through a seven-step onboarding wizard, search for and join clubs, send and
receive anonymous praise, and follow rankings. This project models the logic of
that client that decides things. It leaves out the rendering. The modelled logic is:

- the onboarding wizard and its steps;
- the session store (`AuthProvider`);
- the request layer: the base URL, the endpoint paths and the interceptors;
- the club and praise requests, and how their responses are normalised;
- the relative-time formatter;
- the per-row guard of the member notifications;
- the ranking podium;
- the club and university searches;
- the club creation, profile editing and login pages;
- the small derivations: the progress bar, the bottom-navigation rule, the
  message tabs and the club selector.

JavaScript values are modelled by `Js.Json`:

- `undefined` is `None`;
- a thrown error is `Js.JsError`;
- an operation that may throw returns a `Result`.

Truthiness, `||` chains, property reads, spreads, `String(v)`, `===` and the
integer part of `Number(v)` are written out in `js.dfy`. The JavaScript whitespace set, `trim`,
`includes` and UTF-16 `length` are in `text.dfy`.

A React component whose handlers change its state is a class. Its handlers are
methods, and each returns the `Ui.Effect` it asks for (a draft update, a
navigation, an alert). Requests, `toLowerCase` and `encodeURIComponent` are
function parameters. A request that has finished is an input.

Files, one module each:

- Shared helpers:
  - `wrappers.dfy`: the Option and Result types.
  - `text.dfy`: the string helpers.
  - `js.dfy`: the JavaScript values.
  - `lists.dfy`: the list operations.
  - `ui.dfy`: the effects.
- `onboarding.dfy`: `useOnboarding`.
- `session.dfy`: `AuthProvider`.
- `api_client.dfy`: `apiClient.js`.
- Club and praise requests:
  - `member_data.dfy`: `transformMemberData`.
  - `club_api.dfy`: `clubApi.js`.
  - `praise_api.dfy`: `praiseApi.js`.
- `time_ago.dfy`: `formatTimeAgo`.
- `notification.dfy`: `NotificationPage`.
- `ranking_page.dfy`: `RankingPage`.
- Club search:
  - `club_search.dfy`: `ClubSearch`.
  - `club_search_page.dfy`: `ClubSearchPage`.
- University search:
  - `universities.dfy`: the shared university filter.
  - `university_step.dfy`: `UniversityStep`.
  - `university_field_editor.dfy`: `UniversityFieldEditor`.
- Onboarding steps:
  - `email_password_step.dfy`: `EmailPasswordStep`.
  - `name_gender_step.dfy`: `NameAndGenderStep`.
- Pages:
  - `club_create_page.dfy`: `ClubCreatePage`.
  - `profile_field_edit_page.dfy`: `ProfileFieldEditPage`.
  - `profile_edit_page.dfy`: `ProfileEditPage`.
  - `login_page.dfy`: `LoginPage`.
- `praise_message.dfy`: `PraiseMessage`.
- `club_add_modal.dfy`: `ClubAddModal`.
- `my_page.dfy`: `MyPage`.
- `progress_bar.dfy`: `ProgressBar`.
- `app_shell.dfy`: `AppShell`.

## Model

| member | source | states |
|---|---|---|
| Onboarding.InitialDraft | src/features/onboarding/hooks/useOnboarding.js:17-23 | The draft starts with exactly email, password, name, gender and an empty selection list |
| Onboarding.Validate | src/features/onboarding/hooks/useOnboarding.js:62-72 | Missing credentials are reported first, then a missing name or gender, then a selection count other than 5; `None` exactly when all checks pass |
| Onboarding.ApiGender | src/features/onboarding/hooks/useOnboarding.js:75-79 | '남성' becomes 'male', '여성' becomes 'female', and any other value that is not the name of an inherited object property passes through unchanged |
| Onboarding.AvatarUrl | src/features/onboarding/hooks/useOnboarding.js:28-87 | The navigation state's own `avatarUrl` when the state and that URL are both truthy; otherwise the empty string |
| Onboarding.RegisterPayload | src/features/onboarding/hooks/useOnboarding.js:82-90 | The payload has exactly seven keys: `nickname` is null, the gender is mapped, and the selections and credentials are copied from the draft |
| Onboarding.Complete | src/features/onboarding/hooks/useOnboarding.js:56-125 | A failed check makes no call and stores its message; registration is called exactly when the checks pass, and its body is exactly RegisterPayload; login is called only after a successful registration, with `skipUserProfile`; a failed registration ends in RegistrationFailed with its error stored, the alert text from the error (or the fallback) and no login; a successful one stores no error |
| Onboarding.ValidationOrder | src/features/onboarding/hooks/useOnboarding.js:62-72 | The three checks fire in order and stop completion before any call |
| Onboarding.AfterRegistration | src/features/onboarding/hooks/useOnboarding.js:93-116 | After registration the member is logged in with the registered credentials; a successful login opens '/' and a failed one '/login'; no error is stored |
| Onboarding.Wizard.constructor | src/features/onboarding/hooks/useOnboarding.js:16-25 | The wizard starts at step 1 with the initial draft, not loading, with no error |
| Onboarding.Wizard.UpdateStepData | src/features/onboarding/hooks/useOnboarding.js:31-36 | The draft becomes the shallow merge of the old draft and the step's fields; nothing else changes |
| Onboarding.Wizard.Next | src/features/onboarding/hooks/useOnboarding.js:39-46 | Below step 7 the step increases by exactly one and nothing else changes; at step 7 completion runs, the step and draft stay, loading ends false and the completion's error is stored; the step stays within 1..7 |
| Onboarding.Wizard.Back | src/features/onboarding/hooks/useOnboarding.js:49-53 | The step decreases by one but never below 1 |
| Onboarding.Wizard.RunCompletion | src/features/onboarding/hooks/useOnboarding.js:56-125 | Loading is off on every path afterwards; the stored error is the completion's; step and draft are kept |
| Session.Normalise | src/features/auth/AuthProvider.jsx:25-31 | Only `gender` and `selectedClubId` can change; every other field is kept |
| Session.GenderDefault | src/features/auth/AuthProvider.jsx:25-27 | A profile without a truthy gender gets '여성'; a truthy gender is kept |
| Session.SelectedClubDefault | src/features/auth/AuthProvider.jsx:29-31 | Without a selected club, and with at least one club, the selection becomes the first club's id as a string |
| Session.NormaliseIdempotent | src/features/auth/AuthProvider.jsx:25-31 | Normalising a normalised profile changes nothing |
| Session.Loaded | src/features/auth/AuthProvider.jsx:21-37 | A failed profile request stays a failure; a fetched profile is normalised |
| Session.AuthStore.constructor | src/features/auth/AuthProvider.jsx:9-11 | There is no user and no error, and loading is on |
| Session.AuthStore.BeginLoad | src/features/auth/AuthProvider.jsx:18-19 | Loading turns on and the error is cleared; the user is kept |
| Session.AuthStore.FinishLoad | src/features/auth/AuthProvider.jsx:21-42 | A cancelled load changes nothing; otherwise loading ends and either the profile becomes the user or the error is recorded with the user kept |
| Session.AuthStore.Login | src/features/auth/AuthProvider.jsx:55-58 | The given data becomes the user and the error is cleared |
| Session.AuthStore.Logout | src/features/auth/AuthProvider.jsx:63-66 | The user and the error are cleared |
| Session.AuthStore.UpdateUser | src/features/auth/AuthProvider.jsx:71-76 | The user becomes the shallow merge of the previous user and the patch |
| Session.AuthStore.SetSelectedClubId | src/features/auth/AuthProvider.jsx:81-89 | Without a user nothing changes; otherwise only `selectedClubId` changes, to the id's string form, without a membership check; a missing id throws |
| Session.MergeKeepsOthers | src/features/auth/AuthProvider.jsx:71-76 | A merge takes every patched field and keeps every other field |
| Session.SelectTwice | src/features/auth/AuthProvider.jsx:81-89 | Selecting twice equals selecting the second id once |
| ApiClient.BaseUrl | src/lib/apiClient.js:8-10 | Mock mode gives ''; otherwise the configured base URL, or 'http://localhost:8080' when that is unset or empty |
| ApiClient.GetApiUrl | src/lib/apiClient.js:100-112 | An absolute URL is unchanged; a path starting with '/' is appended to the base; anything else is joined with a '/' |
| ApiClient.UrlEndsWithEndpoint | src/lib/apiClient.js:100-112 | The endpoint is always the tail of the URL, and with an empty base a '/' path is returned as it is |
| ApiClient.ClubPathDeterminesId | src/lib/apiClient.js:70-75 | Distinct numeric ids give distinct club paths, and the join and member-list paths extend the club path |
| ApiClient.ClubSearchDeterminesQuery | src/lib/apiClient.js:72 | With an encoder that keeps the two queries apart, the search path determines the query; every search path starts with the fixed search prefix |
| ApiClient.ClubMembers | src/lib/apiClient.js:74-77 | The '?active=' query appears exactly when `active` is given and is not null |
| ApiClient.IdText | src/lib/apiClient.js:73 | A numeric id is printed as its digits |
| ApiClient.JoinPathDeterminesId | src/lib/apiClient.js:73 | Two join paths of numeric ids are equal exactly when the ids are |
| ApiClient.MemberPathsDetermineIds | src/lib/apiClient.js:78-79 | Approve and reject paths determine both ids, and no approve path equals a reject path |
| ApiClient.Browser.constructor | src/lib/apiClient.js:26-49 | The browser state holds the given token and location |
| ApiClient.Browser.OnRequest | src/lib/apiClient.js:26-35 | The bearer header is added exactly when a non-empty token is stored; no other header changes |
| ApiClient.Browser.OnResponse | src/lib/apiClient.js:38-49 | Every outcome is passed on unchanged; a 401 first clears the token and moves to '/login', whatever the current page |
| MemberData.TransformOne | src/features/club/api/clubApi.js:19-25 | A single record yields an object; only a null record throws |
| MemberData.OwnProps | src/features/club/api/clubApi.js:20 | The rest of the record has neither `userId` nor `avatarUrl` |
| MemberData.Rename | src/features/club/api/clubApi.js:21-25 | `id` and `profileImage` take the chosen values; every other property is kept |
| MemberData.TransformObject | src/features/club/api/clubApi.js:19-25 | `id` is `userId` when defined, else the old `id`; likewise `profileImage` with `avatarUrl`; both renamed keys are dropped; all other fields are kept |
| MemberData.TransformOneIdempotent | src/features/club/api/clubApi.js:19-25 | Transforming a transformed record changes nothing |
| MemberData.RenameSame | src/features/club/api/clubApi.js:21-25 | Renaming a record to its own `id` and `profileImage` changes nothing |
| MemberData.Transform | src/features/club/api/clubApi.js:9-28 | An array is mapped element by element, keeping its length and order, and fails only on a null element; an object is renamed; anything else is returned unchanged |
| MemberData.TransformAll | src/features/club/api/clubApi.js:10-18 | Mapping succeeds exactly when no element is null, and then gives each element's transform in place |
| MemberData.TransformIdempotent | src/features/club/api/clubApi.js:9-28 | The transform is idempotent |
| MemberData.TransformOrEmpty | src/features/club/api/clubApi.js:97-98 | A falsy list becomes [] and a truthy one is transformed |
| ClubApi.MatchesClub | src/features/club/api/clubApi.js:72-74 | The test throws exactly on a null record or a nullish id; otherwise it is string-equal ids or strictly equal ids |
| ClubApi.FindClub | src/features/club/api/clubApi.js:72-74 | The result is the first match, or a miss when every test says no; when no test throws, the search succeeds |
| ClubApi.StringAndNumberIdsMatchAlike | src/features/club/api/clubApi.js:72-74 | Looking up "n" and looking up n give the same answer |
| ClubApi.FindInBody | src/features/club/api/clubApi.js:41-44 | An array body is searched; any other body throws |
| ClubApi.FoundInFile | src/features/club/api/clubApi.js:40-44 | A record the mock lookup finds is an object listed in the bundled file whose `clubId` matches |
| ClubApi.GetClub | src/features/club/api/clubApi.js:35-55 | The real mode returns the backend's club; in mock mode a failed fetch or lookup is passed on, a hit returns the found record and a miss throws 'Club not found' |
| ClubApi.EmptyClubMembersIsNormal | src/features/club/api/clubApi.js:80-100 | The mock miss record is already in the normalised shape, with a member count of 0 and no members |
| ClubApi.NormaliseClubMembers | src/features/club/api/clubApi.js:93-99 | `memberCount` falls back to `activeMemberCount` and then 0; `rankings` and `members` are transformed or []; other fields are kept |
| ClubApi.GetClubMembers | src/features/club/api/clubApi.js:63-101 | The real mode normalises the response of the members path, with `active` defaulting to true; in mock mode a failed fetch or lookup is passed on, a hit returns the found record and a miss the empty record |
| ClubApi.EmptyMemberListIsNormal | src/features/club/api/clubApi.js:208-227 | The mock miss list is already in the normalised shape, with a count of 0, no members and the list's own `active` flag |
| ClubApi.NormaliseMemberList | src/features/club/api/clubApi.js:224-265 | `members` is transformed or []; other fields are kept |
| ClubApi.GetMemberList | src/features/club/api/clubApi.js:198-267 | The approved and pending lists use `active` true and false; the real mode normalises; in mock mode a failed fetch or lookup is passed on, a hit returns the found record and a miss the empty list |
| ClubApi.CreateClub | src/features/club/api/clubApi.js:110-116 | The mock mode throws before any call; otherwise the data is posted to '/api/clubs' |
| ClubApi.DeleteClub | src/features/club/api/clubApi.js:123-129 | The mock mode throws; otherwise the club path is deleted |
| ClubApi.ApproveMember | src/features/club/api/clubApi.js:275-281 | The mock mode throws; otherwise the approve path is posted |
| ClubApi.RejectMember | src/features/club/api/clubApi.js:289-295 | The mock mode throws; otherwise the reject path is posted |
| ClubApi.MockMatch | src/features/club/api/clubApi.js:143-147 | A club matches exactly when its lowered name or description contains the lowered query; the test throws exactly on a null club, a non-string name, or a non-string description when the name does not match |
| ClubApi.TextHalf | src/features/club/api/clubApi.js:144-145 | One half of the test holds exactly when the field contains the query, and throws exactly on a field that has no `toLowerCase` |
| ClubApi.FilterClubs | src/features/club/api/clubApi.js:143-147 | Filtering succeeds exactly when no test throws, and then keeps exactly the matching clubs |
| ClubApi.WithId | src/features/club/api/clubApi.js:155-158 | `id` is the club's `id` when defined, else `clubId`; other fields are kept; only a null club throws |
| ClubApi.WithIds | src/features/club/api/clubApi.js:155-158 | Every club is given its id in place; this fails exactly when some club is null |
| ClubApi.SearchClubs | src/features/club/api/clubApi.js:136-160 | The mock mode filters the bundled list, rethrows a failed fetch and throws when the file is not an array; the real mode rethrows a failed request, gives [] for a non-array response and otherwise each club with its id |
| ClubApi.MockSearchOrder | src/features/club/api/clubApi.js:143-147 | The mock filter distributes over concatenation, so matches keep their original order |
| ClubApi.JoinClub | src/features/club/api/clubApi.js:167-191 | The mock result has exactly the keys `clubId` (as `Number(id)`), `userId` and `requestStatus` ('PENDING'); `userId` is the profile's truthy id, or 1 when the profile has none or cannot be fetched; the real mode posts the join path |
| PraiseApi.CategoriesEndpoint | src/features/praise/api/praiseApi.js:42-43 | The intended category path is the compliment path without its `/users/undefined` tail |
| PraiseApi.AsWrittenEndpointHasUndefinedUser | src/features/praise/api/praiseApi.js:43 | The path the code builds ends in '/users/undefined' and differs from the intended one |
| PraiseApi.NormaliseCategory | src/features/praise/api/praiseApi.js:54-58 | A category keeps its fields, with `candidates` and `users` transformed or []; a null category throws |
| PraiseApi.NormaliseCategories | src/features/praise/api/praiseApi.js:53-66 | An array is normalised category by category; an object is normalised as one category; any other value is returned unchanged |
| PraiseApi.CategoriesKeepOrder | src/features/praise/api/praiseApi.js:53-58 | An array response keeps its length and order |
| PraiseApi.GetPraiseCategories | src/features/praise/api/praiseApi.js:35-78 | As written: the mock mode returns the bundled data unchanged; otherwise the request goes to the path ending in `/users/undefined`, a failed request is rethrown unchanged and a response is normalised |
| PraiseApi.GetPraiseCategoriesIntended | src/features/praise/api/praiseApi.js:35-78 | The same operation with the request on the club's own category path |
| PraiseApi.AsWrittenDiffersOnlyInPath | src/features/praise/api/praiseApi.js:42-47 | The operation as written and as intended agree in mock mode and whenever the backend answers both paths alike; a failed request on the path as written fails the operation |
| PraiseApi.ComplimentBody | src/features/praise/api/praiseApi.js:92-96 | The body holds only `complimentId`, `userId` and `anonymity`, with `anonymity` defaulting to true |
| PraiseApi.GiveCompliment | src/features/praise/api/praiseApi.js:87-98 | The mock mode throws; otherwise the body is sent with PATCH to the select endpoint |
| TimeAgo.FormatTimeAgo | src/features/profile/utils/formatTimeAgo.js:6-11 | A missing or empty timestamp gives ""; an unparsable one gives "NaN일 전"; otherwise the text is the bucket of the whole elapsed seconds (see TimeAgo.Buckets) |
| TimeAgo.Buckets | src/features/profile/utils/formatTimeAgo.js:14-32 | Under 60 s, including negative times, gives "방금 전"; otherwise minutes 1..59, hours 1..23 or days ≥ 1, each with its suffix |
| TimeAgo.FirstCharIsDigit | src/features/profile/utils/formatTimeAgo.js:14-32 | The text starts with a digit exactly when a minute or more has passed |
| TimeAgo.TextDeterminesBucket | src/features/profile/utils/formatTimeAgo.js:14-32 | Two elapsed times print the same text exactly when they fall in the same bucket with the same number |
| Notification.KeyDeterminesIds | src/pages/NotificationPage.jsx:243-277 | With numeric ids the in-flight key determines both ids |
| Notification.StringIdsCanCollide | src/pages/NotificationPage.jsx:243-277 | String ids containing '-' can share a key |
| Notification.FailureAlertNamesActionAndError | src/pages/NotificationPage.jsx:265-300 | Two failure alerts are equal exactly when their actions and error texts are; every alert ends with its error text |
| Notification.BeginThenFinish | src/pages/NotificationPage.jsx:249-307 | A click on a row not in flight starts its request; after completion the in-flight set is as before, the row is enabled again, and at most one alert is appended (exactly the failure alert when the request fails) |
| Notification.Inbox.constructor | src/pages/NotificationPage.jsx:249 | Nothing is in flight; there are no alerts and no refetches |
| Notification.Inbox.Begin | src/pages/NotificationPage.jsx:242-283 | A row already in flight makes no request and changes nothing; otherwise exactly its key is added and its request is made |
| Notification.Inbox.Finish | src/pages/NotificationPage.jsx:254-307 | Exactly the row's key is removed; a success refetches the list; a failure adds one alert and does not refetch |
| RankingPage.ListOrEmpty | src/pages/RankingPage.jsx:169-170 | A missing or falsy list becomes [] |
| RankingPage.NoDataNoLists | src/pages/RankingPage.jsx:169-170 | Without data both lists are empty |
| RankingPage.RankIs | src/pages/RankingPage.jsx:180-182 | The rank test throws exactly on a null entry |
| RankingPage.OrderKings | src/pages/RankingPage.jsx:178-187 | The ordered list is built by pushes; with fewer than 3 kings it is the input unchanged; it equals the podium |
| RankingPage.RankedIsObject | src/pages/RankingPage.jsx:180-182 | Only an object can have a rank |
| RankingPage.SlotIsFirstOfRank | src/pages/RankingPage.jsx:180-185 | A podium slot holds the first king of its rank, and is empty exactly when no king has that rank |
| RankingPage.SlotFacts | src/pages/RankingPage.jsx:180-185 | A slot holds at most one king, and that king is from the list |
| RankingPage.SlotsInOrder | src/pages/RankingPage.jsx:183-185 | Slots pushed in the order 2, 1, 3 give a list in podium order |
| RankingPage.PodiumOrder | src/pages/RankingPage.jsx:178-185 | With three or more kings: at most 3 kings, all of rank 1, 2 or 3, in the order 2, 1, 3 |
| RankingPage.FullPodium | src/pages/RankingPage.jsx:178-185 | A king of each rank 1, 2 and 3 fills all three places |
| RankingPage.PodiumOfRecords | src/pages/RankingPage.jsx:178-187 | Only a null entry can make the ordering throw |
| ClubSearch.SearchResults | src/features/club/components/ClubSearch.jsx:265-277 | A blank query or no data gives []; otherwise exactly the first min(4, n) of the n matching clubs |
| ClubSearch.ResultsMatch | src/features/club/components/ClubSearch.jsx:269-275 | Every result is a listed club whose lowered name, university or label contains the lowered, untrimmed query |
| ClubSearch.ChosenClubMatchesItsLabel | src/features/club/components/ClubSearch.jsx:269-292 | A chosen club matches the label it puts in the box |
| ClubSearch.Panel.constructor | src/features/club/components/ClubSearch.jsx:257-263 | The panel starts with an empty query, no selection and no data |
| ClubSearch.Panel.Results | src/features/club/components/ClubSearch.jsx:265-277 | The panel shows none for a blank query or before loading; otherwise exactly the first min(4, n) matching clubs |
| ClubSearch.Panel.ClubsLoaded | src/features/club/components/ClubSearch.jsx:259-261 | The loaded list becomes the data; the query and selection are kept |
| ClubSearch.Panel.SearchChange | src/features/club/components/ClubSearch.jsx:284-287 | Editing the query clears the selection |
| ClubSearch.Panel.ResultClick | src/features/club/components/ClubSearch.jsx:289-292 | Clicking a result selects it and sets the query to "name university" |
| ClubSearch.Panel.Next | src/features/club/components/ClubSearch.jsx:294-302 | Next acts exactly when a club is selected, and then goes back |
| ClubSearchPage.SearchResults | src/pages/ClubSearchPage.jsx:250-255 | The results are the first min(4, n) fetched clubs, or [] when nothing was fetched |
| ClubSearchPage.Page.constructor | src/pages/ClubSearchPage.jsx:243-248 | The page starts with an empty query and no selection |
| ClubSearchPage.Page.SearchChange | src/pages/ClubSearchPage.jsx:266-269 | Editing the query clears the selection |
| ClubSearchPage.Page.ResultClick | src/pages/ClubSearchPage.jsx:271-274 | Clicking a result selects it and sets the query to "name university" |
| ClubSearchPage.Page.Next | src/pages/ClubSearchPage.jsx:276-282 | Next acts exactly when a club is selected, and then opens '/club/join/{id}' |
| Universities.ContainsOwnTrim | src/features/onboarding/components/UniversityStep.jsx:198-202 | A trimmed text is contained in the text |
| Universities.OwnNameMatches | src/features/onboarding/components/UniversityStep.jsx:198-202 | Searching for a listed university's own name finds it |
| UniversityStep.SearchResults | src/features/onboarding/components/UniversityStep.jsx:197-206 | A blank query or an empty list gives []; otherwise exactly the first min(10, n) of the n universities containing the trimmed query |
| UniversityStep.ResultsMatch | src/features/onboarding/components/UniversityStep.jsx:198-202 | Every result is a listed university whose name contains the trimmed query |
| UniversityStep.Step.constructor | src/features/onboarding/components/UniversityStep.jsx:191-195 | The query starts as the draft's university or '' |
| UniversityStep.Step.UniversitiesLoaded | src/features/onboarding/components/UniversityStep.jsx:197-206 | Loading the list re-runs the search |
| UniversityStep.Step.SearchChange | src/features/onboarding/components/UniversityStep.jsx:208-212 | The raw value becomes the query and is sent as `university`; the search re-runs when the query changed |
| UniversityStep.Step.SelectUniversity | src/features/onboarding/components/UniversityStep.jsx:214-218 | The name becomes the query and the `university`; the cleared list is recomputed when the query changed |
| UniversityStep.Step.NextClick | src/features/onboarding/components/UniversityStep.jsx:220-226 | The wizard advances exactly when the trimmed query is non-empty |
| UniversityStep.SelectionListsAgain | src/features/onboarding/components/UniversityStep.jsx:197-218 | After selecting a listed university with a non-blank name, the search effect lists results again |
| UniversityFieldEditor.SearchResults | src/features/profile/components/UniversityFieldEditor.jsx:151-160 | A blank query or an empty list gives []; otherwise every university containing the trimmed query, in order, with no cap |
| UniversityFieldEditor.Editor.constructor | src/features/profile/components/UniversityFieldEditor.jsx:128-139 | The query starts as `value` or ''; the editor is initialised exactly when `value` is truthy |
| UniversityFieldEditor.Editor.ValueChanged | src/features/profile/components/UniversityFieldEditor.jsx:141-148 | A truthy value is copied into the query only once |
| UniversityFieldEditor.Editor.UniversitiesLoaded | src/features/profile/components/UniversityFieldEditor.jsx:151-160 | Loading the list re-runs the search |
| UniversityFieldEditor.Editor.SearchChange | src/features/profile/components/UniversityFieldEditor.jsx:163-167 | The query changes and the parent is told the same value |
| UniversityFieldEditor.Editor.SelectUniversity | src/features/profile/components/UniversityFieldEditor.jsx:170-174 | The parent is told the name, which becomes the query; the cleared list is recomputed when the query changed |
| UniversityFieldEditor.EveryMatchOffered | src/features/profile/components/UniversityFieldEditor.jsx:151-160 | Every matching university is offered, however many match |
| EmailPasswordStep.EmailPattern | src/features/onboarding/components/EmailPasswordStep.jsx:177-180 | An email passes the pattern exactly when it has no whitespace, exactly one '@' (not first), and a '.' after the character following the '@' and before the last character |
| EmailPasswordStep.SplitGivesShape | src/features/onboarding/components/EmailPasswordStep.jsx:177-180 | A split that passes the pattern has that shape |
| EmailPasswordStep.ShapeGivesSplit | src/features/onboarding/components/EmailPasswordStep.jsx:177-180 | That shape passes the pattern |
| EmailPasswordStep.ValidEmailIsTrimmed | src/features/onboarding/components/EmailPasswordStep.jsx:129-180 | A valid email is unchanged by trimming and is not blank |
| EmailPasswordStep.EnabledButtonAdvances | src/features/onboarding/components/EmailPasswordStep.jsx:160-186 | Whenever the button is enabled, the click advances |
| EmailPasswordStep.ClickSkipsMinimumLength | src/features/onboarding/components/EmailPasswordStep.jsx:160-186 | With "a@b.co" and "12345", the click handler would advance while the button is disabled |
| EmailPasswordStep.Utf16LengthOfBmp | src/features/onboarding/components/EmailPasswordStep.jsx:185 | Without astral characters, `length` is the number of characters |
| EmailPasswordStep.Step.constructor | src/features/onboarding/components/EmailPasswordStep.jsx:114-118 | Email and password come from the draft, defaulting to ''; the confirmation, error and checked flag start empty |
| EmailPasswordStep.Step.EmailChange | src/features/onboarding/components/EmailPasswordStep.jsx:120-126 | The error and checked flag are reset and the value is sent to the draft |
| EmailPasswordStep.Step.EmailBlur | src/features/onboarding/components/EmailPasswordStep.jsx:129-147 | A blank email changes nothing; an invalid one sets the error; a valid one clears the error and marks the email checked |
| EmailPasswordStep.Step.PasswordChange | src/features/onboarding/components/EmailPasswordStep.jsx:149-152 | The password is sent to the draft |
| EmailPasswordStep.Step.ConfirmChange | src/features/onboarding/components/EmailPasswordStep.jsx:154-158 | The confirmation is stored and never sent |
| EmailPasswordStep.Step.NextClick | src/features/onboarding/components/EmailPasswordStep.jsx:160-174 | The click advances exactly when email and password are non-blank, match and the email is valid; an invalid email sets the error |
| NameAndGenderStep.Step.constructor | src/features/onboarding/components/NameAndGenderStep.jsx:200-202 | Name and gender come from the draft, defaulting to ''; the dropdown is closed |
| NameAndGenderStep.Step.NameChange | src/features/onboarding/components/NameAndGenderStep.jsx:222-226 | The raw, untrimmed name is sent to the draft |
| NameAndGenderStep.Step.ToggleDropdown | src/features/onboarding/components/NameAndGenderStep.jsx:205-220 | The dropdown button opens or closes the options |
| NameAndGenderStep.Step.ClickOutside | src/features/onboarding/components/NameAndGenderStep.jsx:205-220 | A press outside closes the dropdown |
| NameAndGenderStep.Step.GenderSelect | src/features/onboarding/components/NameAndGenderStep.jsx:228-296 | One of the two labels becomes the gender, the dropdown closes and `{gender}` is sent |
| NameAndGenderStep.Step.NextClick | src/features/onboarding/components/NameAndGenderStep.jsx:236-242 | The wizard advances exactly when the name is not blank and a gender is chosen |
| NameAndGenderStep.OptionsAreMapped | src/features/onboarding/components/NameAndGenderStep.jsx:284-296 | Each offered label maps to 'male' or 'female' when the wizard completes |
| ClubCreatePage.Request | src/pages/ClubCreatePage.jsx:289-292 | The request is exactly the trimmed name and description |
| ClubCreatePage.AfterCreate | src/pages/ClubCreatePage.jsx:296-332 | A truthy `clubId` opens `/club/{clubId}`, otherwise the page goes back; a failed request, or a missing response, alerts the message chain; the ignored reload plays no part |
| ClubCreatePage.CreatedClubPage | src/pages/ClubCreatePage.jsx:308-309 | A response with a non-zero numeric club id leads to that club's page |
| ClubCreatePage.ServerMessageShown | src/pages/ClubCreatePage.jsx:327-331 | A failed request alerts the server's message first |
| ClubCreatePage.Page.constructor | src/pages/ClubCreatePage.jsx:254-256 | The page starts at step 1 with empty fields |
| ClubCreatePage.Page.Back | src/pages/ClubCreatePage.jsx:259-265 | Step 1 leaves the page; step 2 returns to step 1 |
| ClubCreatePage.Page.NameChange | src/pages/ClubCreatePage.jsx:267-269 | The name is replaced; nothing else changes |
| ClubCreatePage.Page.DescriptionChange | src/pages/ClubCreatePage.jsx:271-276 | A value longer than 30 UTF-16 units is refused, so the description never exceeds 30 |
| ClubCreatePage.Page.NameNext | src/pages/ClubCreatePage.jsx:278-282 | Step 2 is reached only with a non-blank name |
| ClubCreatePage.Page.Create | src/pages/ClubCreatePage.jsx:284-333 | A request is sent exactly when name and description are non-blank and nothing is being submitted; then the page does what the answer calls for |
| ClubCreatePage.ButtonAgreesWithHandlers | src/pages/ClubCreatePage.jsx:278-340 | On step 2 the button is enabled exactly when create would send; on step 1 an enabled button always advances |
| ProfileFieldEditPage.LastSegmentIsTail | src/pages/ProfileFieldEditPage.jsx:136 | The field type has no '/' and is the tail of the path after its last '/', or the whole path when it has none |
| ProfileFieldEditPage.LastSegmentOfRoute | src/pages/ProfileFieldEditPage.jsx:136 | '/profile/edit/{f}' names the field f |
| ProfileFieldEditPage.ConfigOf | src/pages/ProfileFieldEditPage.jsx:108-128 | Only 'name' and 'gender' have a config, and each edits the property of its own name |
| ProfileFieldEditPage.InitialValue | src/pages/ProfileFieldEditPage.jsx:140 | With a user and a config, the value is the user's truthy field; otherwise '' |
| ProfileFieldEditPage.Render | src/pages/ProfileFieldEditPage.jsx:208-235 | The checks run in order: an invalid path, then loading, then no user, then the editor |
| ProfileFieldEditPage.NameOutcome | src/pages/ProfileFieldEditPage.jsx:160-181 | A blank name alerts '이름을 입력해주세요.'; any other name is saved trimmed; a name that is not a string throws before the `try` |
| ProfileFieldEditPage.GenderOutcome | src/pages/ProfileFieldEditPage.jsx:170-181 | An empty gender alerts '성별을 선택해주세요.'; any other gender is saved as it is |
| ProfileFieldEditPage.SaveWritesRoutedField | src/pages/ProfileFieldEditPage.jsx:178-181 | A save is a patch of exactly one truthy field, the one the route names |
| ProfileFieldEditPage.SavedValueReopens | src/pages/ProfileFieldEditPage.jsx:140-181 | After a save, reopening the field starts from the saved value |
| ProfileFieldEditPage.SaveTouchesOneField | src/pages/ProfileFieldEditPage.jsx:178-181 | A save changes no other field of the user |
| ProfileFieldEditPage.Page.constructor | src/pages/ProfileFieldEditPage.jsx:136-142 | The value starts as the initial value of the routed field |
| ProfileFieldEditPage.Page.Sync | src/pages/ProfileFieldEditPage.jsx:144-150 | The value resets only when the routed field changed and there is a user |
| ProfileFieldEditPage.Page.SetValue | src/pages/ProfileFieldEditPage.jsx:198-202 | The editor's value replaces the page's |
| ProfileFieldEditPage.Page.Complete | src/pages/ProfileFieldEditPage.jsx:159-192 | An alert leaves the user unchanged; a save merges the patch into the session user and returns to '/profile/edit' |
| ProfileEditPage.FieldOr | src/pages/ProfileEditPage.jsx:356-361 | Each form field is the user's truthy value or its default |
| ProfileEditPage.IsPlaceholderImage | src/pages/ProfileEditPage.jsx:366-370 | The image is a placeholder exactly when (image or the default) contains 'profile.svg'; no image counts as a placeholder |
| ProfileEditPage.DefaultIsPlaceholder | src/pages/ProfileEditPage.jsx:367-369 | The default image counts as the placeholder |
| ProfileEditPage.KeepClub | src/pages/ProfileEditPage.jsx:405 | A club is kept exactly when its id is not strictly equal to the selected id; a null entry throws |
| ProfileEditPage.LeaveFilter | src/pages/ProfileEditPage.jsx:405 | A successful filter needs an array, and never lengthens it |
| ProfileEditPage.LeaveRemovesExactly | src/pages/ProfileEditPage.jsx:403-409 | From a list of records, exactly the clubs with the selected id are removed and the others are kept in order |
| ProfileEditPage.Form.constructor | src/pages/ProfileEditPage.jsx:347-352 | The form starts empty, with no modal and no selected club |
| ProfileEditPage.Form.UserLoaded | src/pages/ProfileEditPage.jsx:355-362 | With a user, each field is the user's value or '' (or [] for the clubs); without one nothing changes |
| ProfileEditPage.Form.LeaveClubClick | src/pages/ProfileEditPage.jsx:397-400 | The club is selected and the modal opens |
| ProfileEditPage.Form.ConfirmLeave | src/pages/ProfileEditPage.jsx:403-409 | With a selected club, the filtered list replaces the clubs, the modal closes and the selection is cleared; without one nothing changes |
| ProfileEditPage.Form.CancelLeave | src/pages/ProfileEditPage.jsx:412-415 | The modal closes and the selection is cleared; the clubs are untouched |
| ProfileEditPage.Form.Placeholder | src/pages/ProfileEditPage.jsx:366-370 | An empty image is a placeholder |
| LoginPage.LoginError | src/pages/LoginPage.jsx:187-188 | The error is the server message when truthy, else the default text |
| LoginPage.Credentials | src/pages/LoginPage.jsx:184 | `login` receives the email and password as typed |
| LoginPage.Page.constructor | src/pages/LoginPage.jsx:158-161 | The fields are empty; not loading; no error |
| LoginPage.Page.EmailChange | src/pages/LoginPage.jsx:163-166 | Editing the email clears the error |
| LoginPage.Page.PasswordChange | src/pages/LoginPage.jsx:168-171 | Editing the password clears the error |
| LoginPage.Page.BeginLogin | src/pages/LoginPage.jsx:176-182 | A blank field sets the error and sends nothing; otherwise loading starts, the error clears and the credentials are sent |
| LoginPage.Page.FinishLogin | src/pages/LoginPage.jsx:183-192 | Success goes to '/', failure shows the error, and loading ends either way |
| LoginPage.Page.Submit | src/pages/LoginPage.jsx:173-193 | With the session's `login`, filled fields always sign in and go home with loading off |
| LoginPage.EnabledButtonSignsIn | src/pages/LoginPage.jsx:176-195 | An enabled button means the guard passes |
| PraiseMessage.Render | src/features/profile/components/PraiseMessage.jsx:65-66 | A falsy message renders nothing |
| PraiseMessage.ColourByGender | src/features/profile/components/PraiseMessage.jsx:69-73 | A male sender gives the blue border and bubble; any other gives the red border and the orange bubble |
| PraiseMessage.SentShowsReceiver | src/features/profile/components/PraiseMessage.jsx:78-79 | A sent card shows `receiverName \|\| name`, whatever its anonymity |
| PraiseMessage.ReceivedHidesAnonymous | src/features/profile/components/PraiseMessage.jsx:80-82 | A received card shows '익명' when anonymous, else `senderName \|\| name` |
| ClubAddModal.UserClub | src/components/ClubSelector/ClubAddModal.jsx:221-225 | A profile club becomes `{id: String(id), name, university}`; a null club or a nullish id throws |
| ClubAddModal.MapUserClubs | src/components/ClubSelector/ClubAddModal.jsx:221-225 | Every club is mapped in place, or the first throw is reported |
| ClubAddModal.UserClubs | src/components/ClubSelector/ClubAddModal.jsx:221-225 | No clubs gives [] |
| ClubAddModal.DefaultClubs | src/components/ClubSelector/ClubAddModal.jsx:228 | A non-empty `clubs` prop is used; otherwise the profile's clubs |
| ClubAddModal.SelectedProfileClub | src/components/ClubSelector/ClubAddModal.jsx:222-236 | A profile club is marked exactly when the selected id is its string id; a numeric selected id never marks one |
| ClubAddModal.ClubSelectEffects | src/components/ClubSelector/ClubAddModal.jsx:211-213 | The id is passed on only when a handler is given |
| ClubAddModal.OnlyAddClubLeaves | src/components/ClubSelector/ClubAddModal.jsx:211-218 | Choosing a club neither closes the modal nor navigates; adding a club closes it first and then opens '/club/search' |
| MyPage.Messages | src/pages/MyPage.jsx:55-66 | The list is always truthy, and empty for every tab other than sent and received |
| MyPage.MessagesOfOwnTab | src/pages/MyPage.jsx:55-66 | The sent and received tabs show their own fetched list or [] |
| MyPage.LoadingOnlyOwnTab | src/pages/MyPage.jsx:69 | Only the active tab's own flag counts; the badge tab never loads |
| MyPage.Page.constructor | src/pages/MyPage.jsx:45 | The default tab is 'received' |
| MyPage.Page.TabChange | src/pages/MyPage.jsx:50-52 | A tab change sets only the active tab |
| ProgressBar.Segments | src/components/ProgressBar.jsx:27-31 | Exactly `totalSteps` segments (default 6) are drawn |
| ProgressBar.Active | src/components/ProgressBar.jsx:30-31 | There is one flag per segment |
| ProgressBar.SegmentActive | src/components/ProgressBar.jsx:27-31 | Segment i is active exactly when i + 1 ≤ `currentStep` (default 1) |
| ProgressBar.ActiveIsPrefix | src/components/ProgressBar.jsx:31 | The active segments form a prefix |
| ProgressBar.ActiveCount | src/components/ProgressBar.jsx:30-31 | min(max(`currentStep`, 0), `totalSteps`) segments are active |
| ProgressBar.Monotone | src/components/ProgressBar.jsx:31 | A larger current step never deactivates a segment |
| AppShell.NavHiddenExactly | src/AppShell.jsx:54-60 | The bar is hidden exactly for the four routes and anything under the two prefixes |
| AppShell.HiddenUnderPrefix | src/AppShell.jsx:59-60 | Anything starting with '/profile/edit' or '/club/join' hides the bar |
| AppShell.OnboardingSubroutesShowNav | src/AppShell.jsx:56 | '/onboarding' sub-routes keep the bar, since the route is compared exactly |
| AppShell.Layout | src/AppShell.jsx:62-68 | The page content is always rendered; only the bar depends on the path |

## Left out

- The fetch hooks (`useClub`, `useClubs`, `useClubMembers`, `useRankings` and the others) are left out. They are asynchronous loaders with cancellation flags, and `useSearchClubs` also has a 300 ms debounce. Their results appear in the model as inputs: `ClubsLoaded`, `UniversitiesLoaded`, and the responses passed to the page methods.
- The thin request wrappers (`userApi.js`, `authApi.js`, `messageApi.js`, `rankingApi.js`, `universityApi.js`) are left out. Each makes one request with no logic of its own.
- Components that only render, and TODO components, are left out: ProfileHeader, BadgeList, ClubInfoCard, HomePage, ClubPage, PraisePage, ClubJoinActions, ClubStep, PersonalityStep and SettingsModal. Configuration files (App.jsx, main.jsx, vite.config.js) are also left out.
- The onboarding page is not modelled. It renders steps 1-4 only, so steps 5-7 of the wizard show nothing.
- Browser and library effects are not modelled as such. `localStorage` and `window.location` are fields of `ApiClient.Browser`. `alert`, `navigate` and callbacks are `Ui.Effect` values. FileReader, `document` listeners, portals, `confirm` and the axios transport are left out.
- The handlers that only navigate to a fixed route are left out, because they hold no logic: `handleBack` in ProfileFieldEditPage.jsx:154-156 and ProfileEditPage.jsx:373-375, and `handleAddClub` and the name, university and gender clicks in ProfileEditPage.jsx:418-435.
- `handleImageChange` on the profile edit page is left out, because it reads a file through FileReader.
- `toLowerCase` and `encodeURIComponent` are function parameters, with no case mapping or encoding of their own.
- `Date` parsing and subtraction are an integer millisecond input; an unparsable timestamp is `None`.
- Numbers are integers. Floating-point values other than NaN are not modelled.
- Js.JsNumber: reads only optionally signed decimal digit strings. Other strings that JavaScript reads as integers, such as "1e3", "0x10" and "1.0" (1000, 16 and 1), give NaN here. This affects the `Number(clubId)` of the mock join result and of the mock miss lists.
- ClubApi.JoinClub: the 500 ms delay of the mock mode and its `console.warn` on a failed profile fetch are left out, because timing and logging are not modelled.
- The bundled university and club lists are typed records: `Universities.University` and `ClubSearch.Club`. Those files always carry string names, so the TypeError a record without a `name` would raise is not modelled.
- ClubSearch.SearchResults: data that arrives but is not an array is not modelled. The bundled list is always an array.
- Onboarding.ApiGender: the inherited properties of the mapping object are not modelled. In the code, a gender such as "constructor", "toString", "valueOf" or "hasOwnProperty" looks up an inherited function, which is truthy, so the gender becomes that function and is dropped when the body is serialised; "__proto__" gives the prototype object, sent as `{}`. The model passes such strings through unchanged. The dropdown offers only the two labels, so no screen reaches these inputs.
- RankingPage.OrderKings: a truthy `complimentKings` that is not an array is not modelled; the ordering takes a list. In the code such a value has no `length >= 3`, so it reaches `orderedKings.push(...complimentKings)`, which throws a TypeError for a plain object.
- The interceptors apply no allow-list and no exemption for public paths, and the wizard neither rejects an unmapped gender nor saves its draft; the model follows the code.
- `AuthProvider.login` stores its argument and never calls the backend or throws. So `LoginPage.Page.Submit` always signs in, and onboarding's automatic login always succeeds. `LoginPage.Page.FinishLogin` still models the failure path the page is written for.
- `ClubCreatePage` reads `reloadUser` from the auth context, which does not provide it. The call raises a TypeError that the page catches and ignores, so `ClubCreatePage.AfterCreate` has no input for it.
- ProfileFieldEditPage.Page.Complete: the alert in the `catch` of `handleComplete` is not modelled. `updateUser` (`Session.AuthStore.UpdateUser`) never throws, so that branch cannot run.
- `AuthProvider.setSelectedClubId` does not check that the id is one of the user's clubs, and the model does not check it either.
- Rendering is not modelled: styles, markup and the character counter of the club description.

## Findings

| source | as written | input that shows it | evidently intended | confidence | as-written member | corrected member |
|---|---|---|---|---|---|---|
| src/features/praise/api/praiseApi.js:43 | The category request builds its path with the two-argument compliment builder and passes only the club id, so the path ends in `/users/undefined` (PraiseApi.AsWrittenEndpointHasUndefinedUser exhibits it) | clubId = 7 gives `/api/compliments/clubs/7/users/undefined` | `/api/compliments/clubs/{clubId}`, as the comment on line 42 says | not executed | PraiseApi.GetPraiseCategories | PraiseApi.GetPraiseCategoriesIntended |
