# Discovery, quota and registration core of a matchmaking app, in Dafny

This project models the client-side logic of a matchmaking web app.
In that app a signed-in user swipes through candidate profiles.
A standard user has ten likes a day and a premium user a hundred.
A like that is returned becomes a match.
A three-step form creates the user's own profile.

The model has six modules:

- `Profiles` (profiles.dfy) holds the profile and filter-settings types, the default settings and the `{ ...prev, ...patch }` merge of settings.
- `Discovery` (discovery.dfy) holds `filterAndSortProfiles` as pure functions: the decision and settings filters, the distance step, and the stable sort on `a.distance || Infinity`. It also holds the proofs that the result is sound, complete and ordered.
- `Auth` (auth.dfy) holds the signed-in user, the like limit, the daily quota and the mock users that login and register build. The `AuthProvider` class holds the context's two state variables, `user` and `isPremium`.
- `ProfileSession` (profile_session.dfy) is the profile context as a class, `ProfileProvider`. It holds the cursor over the candidate list (`nextProfile`), likes, dislikes and matches, the filter updates, the location update, the fake likes, the creation of the viewer's profile and the premium-gated "liked by" list.
- `Card` (profile_card.dfy) is the swipe card. It holds the cyclic photo index, which survives a switch to another profile because the dashboard renders the card without a `key`, the order in which a like checks and spends the quota, and the dislike.
- `Registration` (registration.dfy) holds the profile form's schema, the interests parser, the draft handed to `createUserProfile` and the step machine of the wizard.

`Text` (text.dfy) holds the JavaScript string operations these need: `split`, `trim`, UTF-16 `length` and the part of `toLowerCase` that can produce ASCII. `Wrappers` (wrappers.dfy) holds `Option`, `Result` and a subsequence predicate.

State that the source keeps in React state becomes class fields that methods overwrite.

- Every setter takes effect at once.
- Operations run in program order.
- The distance function, the random ids, the random choice of fake likes and the current day are parameters.

## Model

| member | source | states |
|---|---|---|
| Profiles.FromDraft | src/hooks/useProfiles.tsx:395-405 | the new profile has the given id, no distance, and every other field exactly as in the draft |
| Profiles.Merge | src/hooks/useProfiles.tsx:487-496 | every settings key takes the patch's value when the patch supplies it and keeps its previous value otherwise |
| Profiles.MergeLaws | src/hooks/useProfiles.tsx:487-496 | merging an empty patch changes nothing; merging the same patch twice equals merging it once |
| Discovery.FilterCandidates | src/hooks/useProfiles.tsx:239-276 | a profile is kept exactly when it is in the pool and passes both filters; the result is a subsequence of the pool; FilterCandidatesAppend and FilterCandidatesOne fix it entry by entry, copies included |
| Discovery.FilterCandidatesAppend | src/hooks/useProfiles.tsx:239-276 | filtering a concatenated pool filters each part in turn, so every admitted entry is kept once per copy, in pool order |
| Discovery.FilterCandidatesOne | src/hooks/useProfiles.tsx:239-276 | a one-entry pool keeps its entry exactly when both filters admit it |
| Discovery.SettingsAdmit | src/hooks/useProfiles.tsx:244-276 | a candidate passes the settings exactly when its age is within the bounds, its religious level and marital status are in the lists when lists are set, its intent matches unless the settings or the candidate say `both`, and it has a non-empty Telegram handle when one is required |
| Discovery.Admits | src/hooks/useProfiles.tsx:239-276 | a candidate passes both filters exactly when its id is neither liked nor disliked and it passes the settings |
| Discovery.DefaultSettingsAdmitByAge | src/hooks/useProfiles.tsx:174-182 | under the default settings a candidate is admitted exactly when its age is between 18 and 50 |
| Discovery.Place | src/hooks/useProfiles.tsx:280-297 | a candidate without a location passes unchanged; one with a location is kept exactly when its distance is at most the maximum, and then gets that distance |
| Discovery.Measure | src/hooks/useProfiles.tsx:279-299 | every output is an input after the distance step; every input the step does not drop is in the output |
| Discovery.MeasureAppend | src/hooks/useProfiles.tsx:280-299 | measuring a concatenation measures each part in turn, so the kept candidates stay in input order |
| Discovery.MeasureOne | src/hooks/useProfiles.tsx:280-299 | one candidate is measured by `Place`: kept with its distance, or dropped |
| Discovery.Insert | src/hooks/useProfiles.tsx:299 | insertion adds one element; with InsertPermutes, InsertSorted and InsertKeepsKeyOrder it adds exactly that element at the place that keeps the order stable |
| Discovery.SortByDistance | src/hooks/useProfiles.tsx:299 | the sort keeps the length; its order, permutation and stability are stated by SortIsSorted, SortIsPermutation and SortIsStable |
| Discovery.InsertPermutes | src/hooks/useProfiles.tsx:299 | inserting into the sorted list adds exactly that one element |
| Discovery.InsertSorted | src/hooks/useProfiles.tsx:299 | insertion keeps a list ordered by the distance key |
| Discovery.InsertKeepsKeyOrder | src/hooks/useProfiles.tsx:299 | insertion puts the element in front of all later-inserted elements with an equal key |
| Discovery.SortIsSorted | src/hooks/useProfiles.tsx:299 | the sorted list is ordered by `distance \|\| Infinity`, with 0 and missing distances last |
| Discovery.SortIsPermutation | src/hooks/useProfiles.tsx:299 | sorting neither adds nor loses a profile (multiset equality) |
| Discovery.SortIsStable | src/hooks/useProfiles.tsx:299 | profiles with equal keys keep their relative order |
| Discovery.ZeroDistanceSortsLast | src/hooks/useProfiles.tsx:299 | a profile 0 km away sorts after one 5 km away, because 0 is falsy |
| Discovery.EqualDistanceKeepsOrder | src/hooks/useProfiles.tsx:299 | two profiles at the same distance keep their order |
| Discovery.FilterAndSortSound | src/hooks/useProfiles.tsx:237-304 | every shown profile is undecided, within the age bounds, admitted by the religious-level, marital-status, intent and telegram rules, within the distance bound when it has a location, and equals a pool profile up to its distance |
| Discovery.ShownOrigin | src/hooks/useProfiles.tsx:237-304 | every shown profile comes from an admitted pool profile, with the distance computed from the viewer's position |
| Discovery.FilterAndSort | src/hooks/useProfiles.tsx:237-304 | never shows more candidates than the pool holds; FilterAndSortSound, FilterAndSortComplete and FilterAndSortOrder state what it shows and in which order |
| Discovery.FilterAndSortDistinct | src/hooks/useProfiles.tsx:237-304 | a pool with distinct ids gives a candidate list with distinct ids |
| Discovery.DistinctCons | src/hooks/useProfiles.tsx:237-304 | a list headed by a profile has distinct ids exactly when its tail has distinct ids and none equal to the head's |
| Discovery.FilterKeepsDistinct | src/hooks/useProfiles.tsx:239-276 | the two filters keep ids distinct |
| Discovery.MeasureKeepsAbsent | src/hooks/useProfiles.tsx:279-298 | the distance step introduces no id that its input lacks |
| Discovery.MeasureKeepsDistinct | src/hooks/useProfiles.tsx:279-298 | the distance step keeps ids distinct |
| Discovery.InsertKeepsAbsent | src/hooks/useProfiles.tsx:299 | insertion introduces no id other than the inserted profile's |
| Discovery.InsertKeepsDistinct | src/hooks/useProfiles.tsx:299 | inserting a profile whose id is new keeps ids distinct |
| Discovery.SortKeepsDistinct | src/hooks/useProfiles.tsx:299 | the sort keeps ids distinct |
| Discovery.FilterAndSortComplete | src/hooks/useProfiles.tsx:237-304 | every admitted pool profile is shown, with its distance attached, unless it has a location farther than the maximum |
| Discovery.FilterAndSortOrder | src/hooks/useProfiles.tsx:279-303 | without a viewer position the result is the filtered pool in pool order; with one it is a sorted, stable permutation of the measured candidates |
| ProfileSession.IndexOfId | src/hooks/useProfiles.tsx:477 | returns the first index holding the id, or -1 exactly when no profile has it or there is no current profile |
| ProfileSession.FindById | src/hooks/useProfiles.tsx:441-442 | a found profile is the first in the list with the id; nothing is found exactly when no profile has the id |
| ProfileSession.Advance | src/hooks/useProfiles.tsx:474-484 | on an empty list nothing changes; otherwise the list is kept or replaced by the recomputed one, and the cursor stays inside the resulting list; CursorWalksList states the order of the walk |
| ProfileSession.CursorWalksList | src/hooks/useProfiles.tsx:474-484 | with distinct ids, k steps from the head reach the k-th candidate, and one step past the last recomputes the list |
| ProfileSession.AdvanceInside | src/hooks/useProfiles.tsx:477-482 | with distinct ids, one step from a candidate that is not the last gives the next one |
| ProfileSession.AdvanceAtEnd | src/hooks/useProfiles.tsx:477-480 | with distinct ids, one step from the last candidate recomputes the list from its head |
| ProfileSession.DistinctIndex | src/hooks/useProfiles.tsx:477 | with distinct ids, the index found for a candidate's id is its position |
| ProfileSession.AdvanceTimesLast | src/hooks/useProfiles.tsx:474-484 | k+1 steps are k steps followed by one more |
| ProfileSession.ShownAreUndecided | src/hooks/useProfiles.tsx:239-241 | no candidate offered has been liked or disliked already |
| ProfileSession.ProfileProvider.constructor | src/hooks/useProfiles.tsx:163-185 | the context starts with no candidates, nothing decided, no matches, no position and the default settings |
| ProfileSession.ProfileProvider.Candidates | src/hooks/useProfiles.tsx:237-304 | the candidates the context would show now: never more than the pool, and none already decided |
| ProfileSession.ProfileProvider.Refilter | src/hooks/useProfiles.tsx:302-303 | the list becomes the filtered and sorted candidates and the cursor its head |
| ProfileSession.ProfileProvider.NextProfile | src/hooks/useProfiles.tsx:474-484 | the new cursor is `Advance` of the old one with the candidates recomputed; the cursor stays inside the list |
| ProfileSession.ProfileProvider.IsMatch | src/hooks/useProfiles.tsx:441-442 | a like is mutual exactly when some displayed profile and some profile that liked the viewer carry the id |
| ProfileSession.ProfileProvider.LikeProfile | src/hooks/useProfiles.tsx:431-457 | signed out, nothing changes; signed in, the id joins the liked set, the liked profile is appended to the matches exactly when it is displayed and has liked the viewer, and the cursor advances |
| ProfileSession.ProfileProvider.DislikeProfile | src/hooks/useProfiles.tsx:460-471 | signed out, nothing changes; signed in, the id joins the disliked set and the cursor advances; likes and matches never change |
| ProfileSession.ProfileProvider.UpdateFilterSettings | src/hooks/useProfiles.tsx:487-496 | signed in, the settings become the merge with the patch and the list is recomputed from its head; signed out, nothing changes |
| ProfileSession.ProfileProvider.ApplyLocation | src/hooks/useProfiles.tsx:361-379 | the position is stored and copied into the viewer's profile, keeping city and country, and the list is recomputed |
| ProfileSession.ProfileProvider.GenerateFakeLikes | src/hooks/useProfiles.tsx:321-338 | the chosen profiles (min(3, pool size), drawn from the pool) become the likers, and their ids become the viewer's received likes |
| ProfileSession.ProfileProvider.CreateUserProfile | src/hooks/useProfiles.tsx:395-414 | signed in, the viewer's profile becomes the draft with a new id, owned by the user, with the user's premium flag and no likes received; signed out, nothing changes |
| ProfileSession.ProfileProvider.ViewLikedBy | src/hooks/useProfiles.tsx:516 | the likers are visible only while the context's `isPremium` flag is set, otherwise the list is empty |
| ProfileSession.ProfileProvider.CanViewLikes | src/hooks/useProfiles.tsx:515 | true exactly when a user is signed in and that user's own premium field is set |
| ProfileSession.ProfileProvider.GatesAgreeWhenSynced | src/hooks/useProfiles.tsx:515-516 | while the auth flags agree and a user is signed in, the likers are shown exactly when `canViewLikes` holds |
| ProfileSession.StaleLikersAfterRelogin | src/hooks/useProfiles.tsx:515-516 | after an upgrade, a logout and a login to a standard account, the likers are shown although `canViewLikes` is false |
| ProfileSession.ProfileProvider.CandidatesDistinct | src/hooks/useProfiles.tsx:474-484 | with a pool of distinct ids, the list `nextProfile` walks has distinct ids, so CursorWalksList applies to it |
| Auth.Apply | src/hooks/useAuth.tsx:154 | every user field takes the patch's value when the patch supplies it and keeps its previous value otherwise |
| Auth.LikeLimit | src/hooks/useAuth.tsx:162-164 | 100 exactly for a signed-in premium user, 10 otherwise |
| Auth.ReachedLimit | src/hooks/useAuth.tsx:167-181 | reached when signed out; never reached on a day without a like yet; on the day of the last like, reached exactly when the count is at or above the limit |
| Auth.Increment | src/hooks/useAuth.tsx:184-198 | today's count rises by one, the last-like day becomes today, and no other field changes |
| Auth.IncrementPatch | src/hooks/useAuth.tsx:186-196 | the patch sets the count to today's count plus one and the day to today, and supplies no other field |
| Auth.GuardedLike | src/components/ProfileCard.tsx:28-38 | at the limit the user is unchanged; otherwise today's count rises by one and stays within the limit; the tier never changes |
| Auth.GuardedLikes | src/components/ProfileCard.tsx:27-45 | repeated guarded likes never change the premium flag |
| Auth.GuardedLikesCount | src/components/ProfileCard.tsx:27-45 | after n guarded likes, today's count is the start count plus n, capped at the limit; guarded likes never push the count past the limit |
| Auth.QuotaExhausts | src/hooks/useAuth.tsx:167-198 | from below the limit, exactly limit-minus-count likes are accepted; then the limit is reached and the next attempt changes nothing |
| Auth.GuardedLikesDay | src/hooks/useAuth.tsx:184-198 | once a guarded like is accepted, the last-like day is today |
| Auth.GuardedLikesStuck | src/hooks/useAuth.tsx:167-181 | a user at the limit today is left unchanged by any number of further attempts |
| Auth.DayRollover | src/hooks/useAuth.tsx:172-177 | on a new day the limit is not reached and the next like sets the count to 1 |
| Auth.LocalPart | src/hooks/useAuth.tsx:67 | the name is the longest prefix of the e-mail without '@' |
| Auth.HandleBody | src/hooks/useAuth.tsx:73 | what the local part contributes to the handle is only lower-case letters and digits |
| Auth.HandleBodyAppend | src/hooks/useAuth.tsx:73 | the body of a concatenation is the concatenation of the bodies, so the characters keep their order |
| Auth.HandleBodyOne | src/hooks/useAuth.tsx:73 | one character contributes its lower-case letter if it is a capital, itself if it is a lower-case letter or a digit, `k` for the Kelvin sign, `i` for the capital I with dot, and nothing otherwise |
| Auth.LocalPartExample | src/hooks/useAuth.tsx:67 | the local part of `Al.9@x` is `Al.9` |
| Auth.HandleBodyExample | src/hooks/useAuth.tsx:73 | `Al.9` contributes `al9`: the capital is lowered, the dot dropped and the digit kept |
| Auth.Handle | src/hooks/useAuth.tsx:73 | the handle is the body of the local part followed by `_tg`, and everything before `_tg` is lower-case letters and digits |
| Auth.HandleOfPlainLocalPart | src/hooks/useAuth.tsx:73 | a local part already made of lower-case letters and digits becomes the handle unchanged, followed by `_tg` |
| Auth.MockUser | src/hooks/useAuth.tsx:65-74 | the logged-in mock user is not premium, has no likes, no avatar and no like day, is named after the local part and gets the derived handle |
| Auth.RegisteredUser | src/hooks/useAuth.tsx:105-118 | the registered mock user carries the entered name, e-mail, handle and avatar, is not premium and has no likes |
| Auth.AuthProvider.constructor | src/hooks/useAuth.tsx:37-39 | starts signed out and not premium |
| Auth.AuthProvider.Synced | src/hooks/useAuth.tsx:152-159 | the two premium flags agree; UpdateUser, IncrementLikeCount, UpgradeToPremium and Restore establish it |
| Auth.AuthProvider.Restore | src/hooks/useAuth.tsx:42-55 | a stored user becomes the user and sets the premium flag from it; without one nothing changes |
| Auth.AuthProvider.Login | src/hooks/useAuth.tsx:58-96 | the user becomes the mock user for the e-mail; the `isPremium` flag is left as it was |
| Auth.AuthProvider.Register | src/hooks/useAuth.tsx:98-140 | the user becomes the registered mock user; the `isPremium` flag is left as it was |
| Auth.AuthProvider.Logout | src/hooks/useAuth.tsx:142-150 | signs out and leaves the `isPremium` flag as it was |
| Auth.AuthProvider.UpdateUser | src/hooks/useAuth.tsx:152-159 | signed in, the user becomes the patched user and `isPremium` follows its premium field; signed out, nothing changes |
| Auth.AuthProvider.IncrementLikeCount | src/hooks/useAuth.tsx:184-198 | signed in, the user becomes `Increment` of the old user, so today's count rises by one; signed out, nothing changes |
| Auth.AuthProvider.UpgradeToPremium | src/hooks/useAuth.tsx:201-210 | signed in, only the premium field changes, the flag is set and the limit becomes 100 |
| Auth.StalePremiumAfterRelogin | src/hooks/useAuth.tsx:142-150 | after an upgrade, a logout and a login with another account, `isPremium` is still set while the new user is not premium |
| Card.NextPhoto | src/components/ProfileCard.tsx:19-25 | from a valid index the next index is valid: one up, or back to 0 from the last photo or any index past it |
| Card.NextPhotoTimesAdd | src/components/ProfileCard.tsx:19-25 | a+b presses are a presses followed by b presses |
| Card.NextPhotoTimesForward | src/components/ProfileCard.tsx:19-25 | k presses from photo i reach photo i+k while within the list, and one more press after the last photo returns to 0 |
| Card.CarouselCycles | src/components/ProfileCard.tsx:19-25 | as many presses as there are photos return to the starting photo |
| Card.ProfileCard.constructor | src/components/ProfileCard.tsx:15-17 | the card starts at the first photo with no swipe and no effects |
| Card.ProfileCard.HandleNextPhoto | src/components/ProfileCard.tsx:19-25 | the photo index advances cyclically; from any index, even one left by an earlier profile, it lands inside the photo list |
| Card.ProfileCard.SetProfile | src/pages/Dashboard.tsx:92-96 | a re-render with a new profile replaces the profile and keeps the photo index, swipe and effects |
| Card.PhotoIndexCarriesOver | src/pages/Dashboard.tsx:92-96 | after two presses on a three-photo profile, a one-photo profile inherits index 2, beyond its photos; one press brings it back to 0 |
| Card.ProfileCard.HandleLike | src/components/ProfileCard.tsx:27-45 | at the limit, only the notice is shown and the quota is untouched; otherwise the count is incremented once, `isPremium` is resynced to the user's tier, and then `onLike` is called with the profile's id |
| Card.ProfileCard.HandleDislike | src/components/ProfileCard.tsx:47-55 | `onDislike` is called with the profile's id, and the quota is neither read nor changed |
| Registration.ParseReligious | src/pages/Register.tsx:22 | accepts exactly the three religious-level names and inverts the naming |
| Registration.ParseMarital | src/pages/Register.tsx:23 | accepts exactly the three marital-status names and inverts the naming |
| Registration.ParseIntent | src/pages/Register.tsx:24 | accepts exactly the three intent names and inverts the naming |
| Registration.EnumNamesRoundTrip | src/pages/Register.tsx:22-24 | parsing the name of any choice gives that choice back |
| Registration.Errors | src/pages/Register.tsx:18-28 | a field is reported exactly when the schema rejects it |
| Registration.Validate | src/pages/Register.tsx:18-28 | the form passes exactly when the name has at least 2 UTF-16 units, the age is in 18..100, the bio has at least 20, the three choices are valid and city and country have at least 2; an accepted form keeps the entered values; a rejected one reports its failing fields |
| Registration.TrimAll | src/pages/Register.tsx:64 | each part is the trimmed original part |
| Registration.KeepNonEmpty | src/pages/Register.tsx:64 | keeps exactly the non-empty parts, each as often as it occurs, in order |
| Registration.ParseInterests | src/pages/Register.tsx:63-65 | no interests for a missing or empty field; otherwise exactly the non-empty trimmed comma-separated parts, each as often as it occurs, in order, none with white space at either end |
| Registration.InterestsCount | src/pages/Register.tsx:63-65 | there are at most one more interest than there are commas |
| Registration.SubmittedDraft | src/pages/Register.tsx:68-86 | the draft carries the form's fields, the parsed interests, the default avatar as its only photo, and city and country at coordinates 0, 0 |
| Registration.StepFields | src/pages/Register.tsx:102-108 | step 1 validates name, age and bio, step 2 the three choices, any other step nothing |
| Registration.Recorded | src/pages/Register.tsx:102-108 | after a validation of some fields, those fields show its verdict and every other field keeps what it showed |
| Registration.InitialForm | src/pages/Register.tsx:39-51 | the form starts with the user's name or an empty one, age 25, empty bio, city, country and interests, and the first choice of each select |
| Registration.Wizard.constructor | src/pages/Register.tsx:36 | the wizard starts at step 1 with no errors shown |
| Registration.Wizard.NextStep | src/pages/Register.tsx:99-113 | as written: step 1 advances only when the errors shown before the click have none on name, age and bio, step 2 likewise for the three choices, step 3 stays; the new validation's verdict is recorded after the decision |
| Registration.Wizard.NextStepAwaited | src/pages/Register.tsx:99-113 | corrected: the verdict is recorded first, and the step advances only when the step's own fields pass it |
| Registration.Wizard.PrevStep | src/pages/Register.tsx:115-119 | goes back one step, never below step 1, and leaves the errors shown |
| Registration.WizardPassesValidFields | src/pages/Register.tsx:99-113 | with the validation awaited, reaching step 3 implies the first six fields pass the schema, and a valid form always reaches step 3 |
| Registration.StaleErrorsSkipValidation | src/pages/Register.tsx:99-113 | as written, two clicks take the untouched initial form to step 3 although its bio fails the schema |
| Registration.AwaitedValidationStops | src/pages/Register.tsx:99-113 | with the validation awaited, the untouched initial form stays at step 1 |
| Text.Split | src/pages/Register.tsx:64 | there is always at least one part, and no part contains the separator |
| Text.JoinSplit | src/pages/Register.tsx:64 | joining the parts with the separator gives the string back |
| Text.SplitCount | src/pages/Register.tsx:64 | there is one more part than there are separators |
| Text.SplitHead | src/hooks/useAuth.tsx:67 | the first part is the text before the first separator, or the whole string |
| Text.Trim | src/pages/Register.tsx:64 | the result has no JavaScript white space at either end |
| Text.TrimStart | src/pages/Register.tsx:64 | drops exactly the leading white space: the result is a suffix, everything cut is white space, and it does not start with white space |
| Text.TrimEnd | src/pages/Register.tsx:64 | drops exactly the trailing white space: the result is a prefix, everything cut is white space, and it does not end with white space |
| Text.TrimIsSlice | src/pages/Register.tsx:64 | the result is a slice of the input, and only white space is cut off on either side |
| Text.Utf16Length | src/pages/Register.tsx:19 | the length in UTF-16 units is between the number of code points and twice that; Utf16LengthOne and Utf16LengthAppend fix its value |
| Text.Utf16LengthOne | src/pages/Register.tsx:19 | a code point above U+FFFF counts two units, any other one unit |
| Text.Utf16LengthAppend | src/pages/Register.tsx:19 | the length of a concatenation is the sum of the lengths |
| Text.KeepLowerAlnum | src/hooks/useAuth.tsx:73 | keeps a subsequence of the input holding exactly its lower-case letters and digits, and leaves a string made only of them unchanged |
| Text.KeepLowerAlnumAppend | src/hooks/useAuth.tsx:73 | the filter of a concatenation is the concatenation of the filtered parts |
| Text.KeepLowerAlnumOne | src/hooks/useAuth.tsx:73 | one character is kept exactly when it is a lower-case letter or a digit |
| Text.LowerChar | src/hooks/useAuth.tsx:73 | a capital `A`-`Z` becomes the lower-case letter at the same position of the alphabet; every character other than `A`-`Z`, the Kelvin sign and the capital I with dot is kept |
| Text.ToLower | src/hooks/useAuth.tsx:73 | lower-casing leaves a string of lower-case letters and digits unchanged |
| Text.ToLowerAppend | src/hooks/useAuth.tsx:73 | lower-casing a concatenation lower-cases each part |

## Left out

- Persistence in `localStorage` is left out. `Restore` takes the stored user as a parameter, and the writes of login, register, updateUser and logout are not modelled.
- Haversine distance (`calculateDistance`, src/hooks/useProfiles.tsx:307-318) is floating point. The model takes any distance function `km` that returns whole kilometres.
- The browser geolocation call and its failure path are asynchronous I/O. Only the success path is modelled, as `ApplyLocation`. The failure path only shows a toast and clears a loading flag.
- Timers, toasts, navigation, the loading flags and the login and register delays are left out. Every operation takes effect at once.
- React batches updates and effects see stale closures. The model runs operations in program order on the current state. So `likeProfile` advances using the updated liked set, and `updateFilterSettings` refilters with the merged settings.
- Random ids (`Math.random`), the random choice in `generateFakeLikes` and the clock are parameters: `freshId`, `chosen` and `today`.
- `loadInitialData`, `updateUserProfile`, the 30% match pop-up of the dashboard and the like counter are not part of this model. They are view logic or initial loading, outside the discovery core.
- The mock profile data set is the parameter `pool`. Its ids are not shown to be distinct; `ProfileSession.ProfileProvider.CandidatesDistinct` requires it of the pool.
- The card's photo `<img>` with an index outside the photos (`photos[2]` of a one-photo profile is `undefined`) is rendering, not modelled; `Card.PhotoIndexCarriesOver` shows how the index gets there.
- Ages are integers. The coercion of fractional or non-numeric input by the number field is left out.
- `Registration.Wizard.NextStep`: the verdict of the validation that `trigger` starts is the parameter `validation`, the schema's failing fields for the values entered. The verdict is recorded in `shown` once the click has been decided, as it lands after the unawaited promise. After the first submission react-hook-form also revalidates fields as they change. That revalidation is left out.
- `Text.ToLower`: it maps only the ASCII capitals, U+212A (Kelvin sign) and U+0130. These are the only characters whose lower case holds an ASCII letter or digit. Every other character is kept as it is, which is a correct model only because the `[a-z0-9]` filter removes it.
- `Auth.User`: `lastLikeDate` keeps only the calendar day, not the full ISO timestamp. The quota compares only the day.
- The filter form does not require the minimum age to be at most the maximum. The model accepts any bounds, as the source does.
- `login`, `register` and `logout` all leave `isPremium` as it was, so `Auth.AuthProvider.Synced` can fail after them. `Auth.StalePremiumAfterRelogin` shows the resulting case, and `ProfileSession.StaleLikersAfterRelogin` shows its effect on the likers list. The model keeps this behaviour instead of correcting it.

## Findings

| source | as written | input that shows it | evidently intended | confidence | as-written member | corrected member |
|---|---|---|---|---|---|---|
| src/pages/Register.tsx:99-113 | `nextStep` calls `form.trigger(...)` without awaiting it and reads `form.formState.errors` at once, so each step is decided on the errors of an earlier validation | the initial form (Register.tsx:41-51), whose bio `''` fails `min(20)`: the first click reads no errors and goes to step 2, the second reads only step 1's verdict and goes to step 3 | advance only when the step's own fields pass the validation just run | not executed; relies on `trigger` resolving asynchronously under a resolver | Registration.StaleErrorsSkipValidation | Registration.WizardPassesValidFields |
