# voting_app — a Dafny model of the ballot store, the credential routes and the page guards

voting_app is an online voting system. An Express server keeps two MongoDB collections:

- **users**: each has an Aadhaar number as its login name, a bcrypt-hashed password, a role (`voter` or `admin`) and an `isVoted` flag.
- **candidates**: each has a name, a party, a list of vote records and a cached `voteCount`.

A React client offers signup, a profile page with a change-password form, a candidate list with vote buttons, and a dashboard.

This project models:

- **The two schemas** (`UserModel`, `CandidateModel`): the required, enum, unique and default rules; the pre-save hook that hashes the password only when it was modified; and `comparePassword`.
- **Every server route**, in two forms:
  - A pure function from the database before the request to the reply and the database after it (`CandidateRoutes`, `UserRoutes`).
  - A class `Server.VotingStore` that holds the collections as maps from id to document, with one method per route. Each method updates the store step by step, as the handler updates its documents, and is proved to produce exactly the reply and store that the function describes.
- **The ballot's consistency invariant** (`Database.Consistent`):
  - every candidate's `voteCount` equals the length of its `vote` list;
  - the counts add up to the number of users who have voted;
  - every voter is named by exactly one vote record.

  Voting, signup (unless the body presets `isVoted`) and change-password keep the invariant. Three admin operations break it:
  - adding a candidate whose body presets a non-zero `voteCount`;
  - an update that changes `voteCount`;
  - deleting a candidate that holds votes.
- **The client pages' state and handlers** (`SignupPage`, `ProfilePage`, `CandidatesPage`, `DashboardPage`):
  - the ordered validation chains;
  - the payload that `parseInt` produces (`Js`);
  - the Aadhaar display rewrite;
  - the client vote guard and the vote button;
  - the dashboard totals and quick actions.

  The dashboard's vote total is proved to equal the server's total of `voteCount`. On a consistent ballot that total is the number of voters.

What the model leaves abstract:

- **The password hash** is a function `hash: string -> string` that the caller supplies. A password matches when hashing it gives the stored value.
- **A token** is the user id it carries. The protected routes receive that id.
- **The time** a vote record is stamped with is a parameter.
- **The client's requests** (`signup`, `updatePassword`, the vote POST) are parameters standing for the result they resolve to.

## Model

| member | source | states |
|---|---|---|
| UserModel.FromDraft | models/users.js:4-43 | the document built from a valid body has a role in the `voter`/`admin` enum |
| UserModel.CreateUser | models/users.js:5-37 | a new user is stored exactly when the required paths are present and non-empty and the role is in the enum; a stored role is always `voter` or `admin` |
| UserModel.CreatedUser | models/users.js:4-56 | a created user carries every field of the body, the hash of the plain password (never the plaintext), role defaulting to `voter` and `isVoted` to false |
| UserModel.CreateRejects | models/users.js:5-37 | a body missing name, age, address, Aadhaar number or password, or naming a role outside the enum, creates nothing |
| UserModel.CreatedUserAcceptsItsPassword | models/users.js:63-70 | `comparePassword` accepts the plain password a user was created with |
| UserModel.SaveWithoutPasswordChange | models/users.js:48 | saving a record whose password was not modified leaves it unchanged, so a matching password still matches (no double hashing) |
| UserModel.SaveWithNewPassword | models/users.js:50-56 | saving a modified password stores its hash, the new password matches, and no other field changes |
| CandidateModel.CreateCandidate | models/candidate.js:5-34 | a candidate is created exactly when name and party are present; it starts with no vote records, and with `voteCount == |vote| == 0` unless the body sets the count |
| CandidateModel.ApplyUpdate | routes/candidateRoutes.js:48-51 | each of name, party, age and voteCount takes the body's value when the body sets it and keeps its own otherwise; the vote list is never touched, and an empty body changes nothing |
| Database.AtMostOneBallot | routes/candidateRoutes.js:101-115 | on a consistent ballot a user is named by at most one vote record, and by one exactly when `isVoted` |
| Database.EmptyIsConsistent | models/candidate.js:17-33 | the empty database is a consistent ballot |
| CandidateRoutes.CheckAdminRole | routes/candidateRoutes.js:8-18 | true exactly for a stored user whose role is `admin`; false for an unknown id |
| CandidateRoutes.NonAdminRefused | routes/candidateRoutes.js:23-25 | add, update and delete by a caller who is not an admin answer 403 and change nothing |
| CandidateRoutes.UnknownCandidateNotFound | routes/candidateRoutes.js:53-55 | update (with valid paths) and delete of an unknown id answer 404 and change nothing |
| CandidateRoutes.UpdateEffect | routes/candidateRoutes.js:46-57 | a successful update answers 200 with the updated document, stores exactly that document for the candidate (its vote list kept), and leaves every other candidate, every user and both counters alone |
| CandidateRoutes.AddStoresOneCandidate | routes/candidateRoutes.js:27-32 | an admin's valid add stores exactly the candidate the body describes under a fresh id, with no votes, and leaves every other document alone |
| CandidateRoutes.AddConsistency | routes/candidateRoutes.js:27-29 | adding keeps the ballot consistent exactly when the body leaves `voteCount` at 0 |
| CandidateRoutes.UpdateConsistency | routes/candidateRoutes.js:46-51 | an update keeps the ballot consistent exactly when it leaves `voteCount` as it was |
| CandidateRoutes.DeleteConsistency | routes/candidateRoutes.js:71-77 | deleting takes the candidate's count out of the total while the voters stay marked; the ballot stays consistent exactly when the candidate had no votes |
| CandidateRoutes.DeleteOrphansVote | routes/candidateRoutes.js:72 | a concrete consistent ballot that an admin's delete leaves inconsistent |
| CandidateRoutes.ManagementKeepsWellFormed | routes/candidateRoutes.js:21-82 | add, update and delete keep the id discipline, the role enum and unique Aadhaar numbers |
| CandidateRoutes.VoteChecksInOrder | routes/candidateRoutes.js:92-106 | the checks run in order (unknown candidate 404, unknown user 404, already voted 400, refused role 403), a refusal changes nothing, and the vote succeeds exactly when all pass |
| CandidateRoutes.VoteEffect | routes/candidateRoutes.js:109-116 | a successful vote appends one record naming the voter, adds one to `voteCount`, sets `isVoted`, and changes no other field, candidate, user or counter |
| CandidateRoutes.VoteCountsOne | routes/candidateRoutes.js:109-115 | a successful vote raises the total `voteCount` by one and the number of voters by one |
| CandidateRoutes.VotePreservesConsistency | routes/candidateRoutes.js:85-122 | every vote, accepted or refused, keeps a consistent ballot consistent |
| CandidateRoutes.VoteTwice | routes/candidateRoutes.js:101-103 | after a successful vote a second vote by the same user is refused with 400 (404 for an unknown candidate) and changes nothing; the voter is named by exactly one record |
| CandidateRoutes.VoteKeepsWellFormed | routes/candidateRoutes.js:109-115 | a vote keeps the id discipline, the role enum and unique Aadhaar numbers |
| CandidateRoutes.AdminCheckNeverFires | routes/candidateRoutes.js:104-106 | with roles restricted to `voter`/`admin`, the handler as written never answers 403 |
| CandidateRoutes.AdminVoteAccepted | routes/candidateRoutes.js:104 | an admin who has not voted gets the vote recorded |
| CandidateRoutes.IntendedVoteRefusesAdmins | routes/candidateRoutes.js:104-106 | the corrected handler refuses every admin and changes nothing, and treats every other user as the handler as written does |
| CandidateRoutes.Project | routes/candidateRoutes.js:130-135 | one `{party, count}` entry per candidate, in the same order, with `count = voteCount` |
| CandidateRoutes.InsertByCount | routes/candidateRoutes.js:128 | inserting into a list sorted by descending count keeps it sorted and adds exactly that candidate |
| CandidateRoutes.SortByCount | routes/candidateRoutes.js:128 | `sort({voteCount:'desc'})` gives a permutation of the list in non-increasing count order |
| CandidateRoutes.TallyIsSortedProjection | routes/candidateRoutes.js:125-141 | the tally is the projection of a permutation of the candidates, counts non-increasing, with every stored candidate's entry present |
| UserRoutes.FindFrom | routes/userRoutes.js:39 | the lookup by Aadhaar number returns the lowest matching id, and none exactly when no user has the number |
| UserRoutes.FoundUserIsUnique | models/users.js:24-28 | with unique Aadhaar numbers the user found is the only one with that number |
| UserRoutes.SignupInsertsOne | routes/userRoutes.js:8-30 | signup succeeds exactly when the body validates and its Aadhaar number is new; it then inserts that one user under a fresh id and the token carries only the id; otherwise 500 and nothing stored |
| UserRoutes.SignupKeepsWellFormed | routes/userRoutes.js:12-14 | signup keeps the id discipline, the role enum and unique Aadhaar numbers |
| UserRoutes.SignupConsistency | routes/userRoutes.js:10-14 | a signup keeps the ballot consistent exactly when the body does not preset `isVoted` to true |
| UserRoutes.LoginSameRefusal | routes/userRoutes.js:34-56 | login changes nothing, succeeds exactly when some user has the number and the password matches, and otherwise gives the same 401 |
| UserRoutes.LoginToken | routes/userRoutes.js:45-51 | the token login issues names the user with that number whose password matched |
| UserRoutes.ChangePasswordWrongCurrent | routes/userRoutes.js:84-86 | a wrong current password answers 401 and leaves the stored hash unchanged |
| UserRoutes.ChangePasswordEffect | routes/userRoutes.js:88-91 | for a new password that differs from the stored value (an equal value is not marked modified, so the hook leaves it as it is), a successful change stores its hash, which matches, and changes no other field, user or candidate |
| UserRoutes.ChangePasswordKeepsConsistency | routes/userRoutes.js:76-97 | change-password keeps a consistent ballot consistent |
| UserRoutes.ShadowingRefusesEverything | routes/userRoutes.js:39 | as written, login, profile and change-password answer 500 even to requests the intended logic accepts, and change nothing |
| UserRoutes.ShadowingBreaksLogin | routes/userRoutes.js:39 | a concrete user logging in with their own password: accepted by the intended logic, 500 as written |
| Server.VotingStore.constructor | server.js:15-16 | the store starts empty and well formed |
| Server.VotingStore.CheckAdminRole | routes/candidateRoutes.js:8-18 | the store's admin check agrees with `CandidateRoutes.CheckAdminRole`: true exactly for a stored admin |
| Server.VotingStore.AddCandidate | routes/candidateRoutes.js:21-37 | reply and new store are those of `CandidateRoutes.AddCandidate`; well-formedness kept |
| Server.VotingStore.UpdateCandidate | routes/candidateRoutes.js:40-62 | reply and new store are those of `CandidateRoutes.UpdateCandidate`; well-formedness kept |
| Server.VotingStore.DeleteCandidate | routes/candidateRoutes.js:65-82 | reply and new store are those of `CandidateRoutes.DeleteCandidate`; well-formedness kept |
| Server.VotingStore.Vote | routes/candidateRoutes.js:85-122 | the in-place updates of the two documents give the reply and store of `CandidateRoutes.CastVote`; a consistent ballot stays consistent |
| Server.VotingStore.VoteCount | routes/candidateRoutes.js:125-141 | changes nothing and answers 200 with the tally, whose counts are non-increasing |
| Server.VotingStore.ListCandidates | routes/candidateRoutes.js:145-154 | answers 200 with the candidates in insertion order, every stored candidate included |
| Server.VotingStore.Signup | routes/userRoutes.js:8-30 | reply and new store are those of `UserRoutes.Signup`; well-formedness kept |
| Server.VotingStore.Login | routes/userRoutes.js:34-56 | changes nothing; reply is that of `UserRoutes.Login`, a 200 or the single 401 |
| Server.VotingStore.Profile | routes/userRoutes.js:59-72 | changes nothing; answers 200 with the user the token names, or `null` exactly when there is none |
| Server.VotingStore.ChangePassword | routes/userRoutes.js:76-97 | the assignment and save give the reply and store of `UserRoutes.ChangePassword`; a consistent ballot stays consistent |
| Js.ParseIntOfDigits | src/pages/Signup.jsx:60-61 | `parseInt` on a run of decimal digits returns the number they spell |
| Js.ValueOfDigits | src/pages/Profile.jsx:146 | the digits `toString` writes read back as the number |
| Js.DigitsOfValue | src/pages/Profile.jsx:146 | a digit string without a leading zero is what `toString` writes for its value |
| Js.ParseIntOfNumberToString | src/pages/Signup.jsx:60-61 | `parseInt(n.toString())` gives back every integer `n` |
| SignupPage.WithField | src/pages/Signup.jsx:27-31 | a change event replaces the named field and keeps the other seven |
| SignupPage.ValidationError | src/pages/Signup.jsx:41-57 | the error reported is the first failing check (password mismatch, then shorter than 6, then Aadhaar length other than 12), each as an if-and-only-if; none exactly when all pass |
| SignupPage.SignupView.constructor | src/pages/Signup.jsx:9-22 | the form starts empty, with no error, not loading, on `/signup` |
| SignupPage.SignupView.HandleChange | src/pages/Signup.jsx:27-33 | the edited field is stored and the error cleared |
| SignupPage.SignupView.HandleSubmit | src/pages/Signup.jsx:35-72 | a failing check sets its error and sends nothing; otherwise sends the payload without `confirmPassword` and with `parseInt` applied, then navigates to `/dashboard` or shows the reported error |
| SignupPage.AcceptedFormHasPassword | src/pages/Signup.jsx:47-51 | a form the page accepts carries a password the schema's required rule admits |
| SignupPage.AadhaarDigitsRoundTrip | src/pages/Signup.jsx:61 | twelve digits without a leading zero reach the server as the number they spell, which prints back as the same digits |
| SignupPage.LeadingZeroLost | src/pages/Signup.jsx:61 | twelve digits with a leading zero reach the server as a number that no longer prints as the digits typed |
| SignupPage.LengthOnlyCheck | src/pages/Signup.jsx:53-57 | twelve characters that do not begin a number pass the page's checks, are sent as NaN, and the server refuses the signup |
| SignupPage.PageSignupIsVoter | src/pages/Signup.jsx:59-61 | every user created from the page's payload is a voter who has not voted |
| ProfilePage.FirstRun | src/pages/Profile.jsx:146 | the unanchored search finds the leftmost run of twelve digits, and none exactly when there is no run |
| ProfilePage.FormatTwelveDigits | src/pages/Profile.jsx:146 | twelve digits are displayed as three groups of four |
| ProfilePage.FormatLeftmostRun | src/pages/Profile.jsx:146 | only the leftmost run gets its two spaces; everything else, later runs included, is copied unchanged |
| ProfilePage.FormatUnchangedIffNoRun | src/pages/Profile.jsx:146 | a string is displayed unchanged exactly when it holds no run of twelve digits |
| ProfilePage.SignupDigitsDisplayed | src/pages/Profile.jsx:146 | the twelve digits typed at signup (no leading zero) come back on the profile as three groups of four |
| ProfilePage.WithPassword | src/pages/Profile.jsx:23-27 | a change event replaces the named password field and keeps the other two |
| ProfilePage.Toggled | src/pages/Profile.jsx:62-67 | toggling flips the named flag and leaves the other two unchanged |
| ProfilePage.ToggleTwice | src/pages/Profile.jsx:62-67 | toggling the same flag twice restores the visibility |
| ProfilePage.PasswordFormError | src/pages/Profile.jsx:37-47 | the first failing check (mismatch, then shorter than 6), each as an if-and-only-if; the current password is not checked |
| ProfilePage.AcceptedNewPasswordNonEmpty | src/pages/Profile.jsx:43-47 | a new password the page accepts is never the empty one the server's required rule refuses |
| ProfilePage.ProfileView.constructor | src/pages/Profile.jsx:9-21 | the form starts hidden and empty, all flags off, no message |
| ProfilePage.ProfileView.HandlePasswordChange | src/pages/Profile.jsx:23-29 | the edited field is stored and a shown message cleared |
| ProfilePage.ProfileView.HandlePasswordSubmit | src/pages/Profile.jsx:31-60 | a failing check shows its error and sends nothing; otherwise sends the current and new password, then clears the three fields and hides the form on success, or shows the reported error |
| ProfilePage.ProfileView.TogglePasswordVisibility | src/pages/Profile.jsx:62-67 | flips the one flag and changes nothing else |
| ProfilePage.ProfileView.Cancel | src/pages/Profile.jsx:299-303 | hides the form and clears the three fields and the message |
| CandidatesPage.ClientUser.constructor | src/pages/Candidates.jsx:9 | the shared user object holds the given flag and role |
| CandidatesPage.VoteGuard | src/pages/Candidates.jsx:32-40 | already voted gives the warning, otherwise an admin gives the error, and the request goes exactly when neither |
| CandidatesPage.Button | src/pages/Candidates.jsx:151-154 | the button is absent exactly for admins, and disabled exactly when the user has voted or a vote is in progress |
| CandidatesPage.EnabledButtonPassesGuard | src/pages/Candidates.jsx:151-154 | a clickable button leads to a handler whose guard lets the vote through |
| CandidatesPage.FailureText | src/pages/Candidates.jsx:53 | the failure text is the server's message when it has one, and exactly 'Failed to cast vote' when it is empty |
| CandidatesPage.CandidatesView.constructor | src/pages/Candidates.jsx:9-13 | the page starts not voting, with no message |
| CandidatesPage.CandidatesView.HandleVote | src/pages/Candidates.jsx:31-58 | the user object is never replaced and its role never changes; the guard refuses without a request or a change to `isVoted`; an accepted vote sets the success message and `user.isVoted`, or ends in the fallback error when no user is signed in; a rejected one shows the failure text |
| CandidatesPage.OnlyThePageStopsAdmins | src/pages/Candidates.jsx:37-40 | the page refuses an admin who has not voted, while the server as written accepts that vote |
| CandidatesPage.StaleUserSeesServerRefusal | src/pages/Candidates.jsx:52-54 | a page whose user object missed the vote sends the request and shows the server's 'You have already voted' |
| DashboardPage.StatsOf | src/pages/Dashboard.jsx:30-34 | `totalCandidates` is the list length and `userVoted` holds exactly when the user's flag is true |
| DashboardPage.TotalVotesInsert | routes/candidateRoutes.js:128 | inserting a candidate into the sorted list adds its count to the summed counts |
| DashboardPage.TotalVotesSort | src/pages/Dashboard.jsx:28 | sorting by count does not change the summed counts |
| DashboardPage.TotalVotesListing | src/pages/Dashboard.jsx:28 | summing the counts of the listed candidates gives the total of `voteCount` |
| DashboardPage.DashboardTotals | src/pages/Dashboard.jsx:21-34 | the dashboard's total votes equals the server's total `voteCount` (the number of voters on a consistent ballot), and its candidate count the number of tally entries |
| DashboardPage.QuickActions | src/pages/Dashboard.jsx:42-78 | three actions in fixed order, a fourth 'Admin Panel' exactly for admins, and only 'Cast Vote' disabled, exactly when the user has voted; a click on 'Cast Vote' leads to the candidates page exactly when the user has not voted, and every other card goes to its link |
| DashboardPage.ClickTarget | src/pages/Dashboard.jsx:183 | a disabled card prevents navigation, any other goes to its link |

| UserModel.Validates | models/users.js:5-37 | definition: name, address and password present and non-empty, age and Aadhaar number present, role absent or in the enum; stated through `CreateUser` and `CreateRejects` |
| UserModel.PreSave | models/users.js:45-61 | definition of the pre-save hook; stated by `SaveWithoutPasswordChange` and `SaveWithNewPassword` |
| UserModel.ComparePassword | models/users.js:63-70 | definition: the candidate password hashes to the stored value; stated by `CreatedUserAcceptsItsPassword` and `ChangePasswordEffect` |
| CandidateModel.Validates | models/candidate.js:6-13 | definition: name and party present and non-empty; stated through `CreateCandidate` |
| CandidateModel.UpdateValidates | routes/candidateRoutes.js:48-51 | definition: the update may not set name or party to the empty string; stated through `UnknownCandidateNotFound` and `UpdateEffect` |
| CandidateModel.NewVoteRecord | models/candidate.js:17-29 | definition of the pushed `{user}` record with `votedAt` defaulting to now; stated by `CandidateRoutes.VoteEffect` |
| CandidateRoutes.AddCandidate | routes/candidateRoutes.js:21-37 | answers 201, 403 or 500; anything but 201 changes nothing, and the users are never touched |
| CandidateRoutes.UpdateCandidate | routes/candidateRoutes.js:40-62 | answers 200, 403, 404 or 500; anything but 200 changes nothing; the set of candidates and the users are never changed |
| CandidateRoutes.DeleteCandidate | routes/candidateRoutes.js:65-82 | answers 200, 403 or 404; anything but 200 changes nothing; a 200 removes exactly the one stored candidate, and the users are never touched |
| CandidateRoutes.VoteHandler | routes/candidateRoutes.js:85-122 | answers 200, 400, 403 or 404, and a refusal changes nothing |
| CandidateRoutes.RecordVote | routes/candidateRoutes.js:109-115 | the two saves keep the set of candidates, the set of users and both id counters |
| CandidateRoutes.CastVote | routes/candidateRoutes.js:85-122 | definition: the handler with the role check as written (`'Admin'`); stated by `VoteTwice`, `AdminCheckNeverFires` and `AdminVoteAccepted` |
| CandidateRoutes.CastVoteIntended | routes/candidateRoutes.js:104-106 | definition: the handler refusing the enum's `'admin'`; stated by `IntendedVoteRefusesAdmins` |
| CandidateRoutes.CandidateList | routes/candidateRoutes.js:145-154 | definition: the stored candidates in insertion order; stated by `Server.VotingStore.ListCandidates` |
| CandidateRoutes.Tally | routes/candidateRoutes.js:125-141 | one entry per listed candidate, counts in non-increasing order |
| UserRoutes.FindByAadhaar | routes/userRoutes.js:39 | a user found has that Aadhaar number, and none is found exactly when no stored user has it |
| UserRoutes.Signup | routes/userRoutes.js:8-30 | answers 201 or 500; a 500 changes nothing, and the candidates are never touched |
| UserRoutes.Login | routes/userRoutes.js:34-56 | changes nothing, and answers 200 or the single 401 |
| UserRoutes.Profile | routes/userRoutes.js:59-72 | changes nothing, answers 200, and the body holds a user exactly when the id is stored |
| UserRoutes.ChangePassword | routes/userRoutes.js:76-97 | answers 200, 401 or 500; anything but 200 changes nothing; the set of users and the candidates are never changed |
| UserRoutes.LoginAsWritten | routes/userRoutes.js:52-55 | definition: the catch block's 500; stated by `ShadowingRefusesEverything` and `ShadowingBreaksLogin` |
| UserRoutes.ProfileAsWritten | routes/userRoutes.js:68-71 | definition: the catch block's 500; stated by `ShadowingRefusesEverything` |
| UserRoutes.ChangePasswordAsWritten | routes/userRoutes.js:93-96 | definition: the catch block's 500; stated by `ShadowingRefusesEverything` |
| Js.ParseInt | src/pages/Signup.jsx:60-61 | definition of `parseInt` with no radix; stated by `ParseIntOfDigits` and `ParseIntOfNumberToString` |
| Js.NumberToString | src/pages/Profile.jsx:146 | definition of integer `toString`; stated by `ValueOfDigits`, `DigitsOfValue` and `ParseIntOfNumberToString` |
| SignupPage.Payload | src/pages/Signup.jsx:59-61 | definition of the request body; stated by `SignupView.HandleSubmit`, `AadhaarDigitsRoundTrip` and `LeadingZeroLost` |
| SignupPage.ToDraft | src/pages/Signup.jsx:59-61 | definition of the body as the server reads it; stated by `AcceptedFormHasPassword`, `LengthOnlyCheck` and `PageSignupIsVoter` |
| ProfilePage.FormatAadhaar | src/pages/Profile.jsx:146 | definition of the regex rewrite; stated by `FormatTwelveDigits`, `FormatLeftmostRun` and `FormatUnchangedIffNoRun` |
| ProfilePage.DisplayAadhaar | src/pages/Profile.jsx:146 | definition of the displayed number; stated by `SignupDigitsDisplayed` |
| CandidatesPage.ResponseOf | src/pages/Candidates.jsx:44-54 | definition: a 2xx reply is accepted, any other is rejected with its `message`; stated by `OnlyThePageStopsAdmins` and `StaleUserSeesServerRefusal` |
| DashboardPage.TotalVotes | src/pages/Dashboard.jsx:28 | definition of the `reduce` sum; stated by `TotalVotesSort`, `TotalVotesListing` and `DashboardTotals` |

## Left out

- Persistence and start-up (db.js, server.js): the MongoDB connection, logging, route mounting and `listen`. The store is an in-memory map per collection. Ids are natural numbers handed out in increasing order, so `find()` returns documents in insertion order.
- Token signing and checking: the JWT module is not part of this model. A token is the id it carries. A missing or invalid token, which the middleware answers before any handler runs, is not modelled.
- bcrypt internals: the salt, the cost factor, timing, and the 72-byte input limit. The hash is a caller-supplied function.
- Concurrency: the vote handler's two separate saves are one atomic step here. Interleaved requests, and the race that lets one user vote twice, are not modelled.
- The vote handler assigns `candidateID` and `userID` without declaring them (routes/candidateRoutes.js:88-89). They are shared globals, so two requests in flight can swap each other's ids across the awaits. The model gives each request its own ids.
- Malformed ids: a string that is not an ObjectId makes `findById` throw a CastError (a 500, or `false` from `checkAdminRole`). Ids here are numbers, so that path does not arise.
- Request bodies are typed drafts:
  - fields a schema does not know are dropped;
  - a value that cannot be cast to its path's type (an `age` of "abc", an `isVoted` of "x") is outside the model: the source's `save()` or `findByIdAndUpdate` rejects such a body and the handler answers 500. A draft field is either a value of the right type or absent; the page's own NaN, sent as `null`, is an absent value;
  - a body's own `vote` array on add or update is not modelled;
  - login with a missing Aadhaar number or password is not modelled (`findOne` with an undefined filter value).
- Login's token payload also names `user.username`, a path the schema does not have, so it is undefined. The modelled token carries the id alone.
- Mongo's order among candidates with equal counts: the sort here is stable (ties keep insertion order). Only the non-increasing order and the permutation are stated.
- JavaScript number precision: integers are unbounded here. Integers above 2^53 and the exponent notation `toString` uses from 10^21 on are not modelled.
- String lengths: JavaScript counts UTF-16 code units and the model counts characters. Characters outside the Basic Multilingual Plane count differently in the length checks.
- Whitespace: `parseInt` here skips ASCII white space plus U+00A0, U+FEFF, U+2028 and U+2029. The other Unicode space separators are not modelled.
- The render cycle: each handler is one step from the state before to the state after. The intermediate `loading`/`voting` renders while a request is pending are not observable here.
- Data loading: the candidate list refresh after a vote (`fetchCandidates`), the loading flags, and the fetch-failure messages on the candidates page and the dashboard are not modelled.
- Icons, CSS classes and markup of the pages. The signup page's show/hide password toggles are not modelled either.
- The other client files: VoteResults.jsx (floating-point percentages and timer polling), AuthContext.jsx (storage and HTTP; its `isAdmin` flag is an input here), Navbar.jsx, Home.jsx, Login.jsx, AdminPanel.jsx and Alert.jsx.
- Server.VotingStore.Vote: follows the handler as written, comparing the role with `'Admin'`. The corrected comparison is `CandidateRoutes.CastVoteIntended` (see Findings), which the store does not run.
- Server.VotingStore.Login, Server.VotingStore.Profile and Server.VotingStore.ChangePassword: run the decision logic the handlers spell out. As written, those handlers always answer 500 (see Findings).

## Findings

| source | as written | input that shows it | evidently intended | confidence | as-written member | corrected member |
|---|---|---|---|---|---|---|
| routes/userRoutes.js:39 | `const user = await user.findOne(...)` reads the local `user` before its initialisation, which throws a ReferenceError, so login always answers 500 'internal serval error' | a stored user with Aadhaar 111122223333 logging in with the password they signed up with | look the user up with the imported model and issue a token when the password matches | high (not executed) | UserRoutes.ShadowingBreaksLogin | UserRoutes.LoginSameRefusal |
| routes/userRoutes.js:64 | the same shadowing in the profile handler: every profile request answers 500 | any id, for example the id of a stored user | answer 200 with the stored user | high (not executed) | UserRoutes.ShadowingRefusesEverything | Server.VotingStore.Profile |
| routes/userRoutes.js:82 | the same shadowing in change-password: every request answers 500 and the password never changes | a stored user sending their correct current password and a new one | check the current password, then store the hash of the new one | high (not executed) | UserRoutes.ShadowingRefusesEverything | UserRoutes.ChangePasswordEffect |
| routes/candidateRoutes.js:104 | the role is compared with `'Admin'`, but the enum at models/users.js:35 only admits `'voter'` and `'admin'`, so the 403 branch is unreachable and admins can vote | a stored user with role `admin` and `isVoted` false voting for a stored candidate: 200 'Vote recorded successfully' | refuse users whose role is `admin` with 403 | high (not executed) | CandidateRoutes.AdminVoteAccepted | CandidateRoutes.IntendedVoteRefusesAdmins |
