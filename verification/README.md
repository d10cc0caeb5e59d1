# Riders Club Bangladesh — verified model of the membership rules

Riders Club Bangladesh is a motorcycle community site. It has a Next.js web
client and a Django REST backend. This project models the rules of that site
that can be stated exactly, and proves properties about them:

- **Membership application (join page).** The model covers:
  - the age computed from a date of birth;
  - the format checks: the Bangladesh mobile number, the simplified email pattern, the NID and birth-certificate numbers, and the 5 MiB photo ceiling;
  - the error object `validateForm` builds, where a later check overwrites an earlier message under the same key;
  - the error clearing done when a field is edited.
- **Phone spelling at login.** The web client rewrites a typed local `01…` number into `+880…`. The backend tries the number as sent and then its other spelling. Both sides are modelled, so the round trip between them is proved.
- **Backend account views:**
  - the login cascade (400 before any lookup, then 401);
  - the `full_name` fall-back;
  - the profile defaults for a user without a rider record;
  - the order of checks in the password change, which replaces the stored password only when every check passes.
- **Community views.** Joining and leaving a ride event whose participant set is bounded by `max_participants`. The like toggle on a post. The active-zone listing.
- **API client.**
  - The multipart form that carries an application: 21 text parts in a fixed order, then only the photos that were chosen.
  - The error messages raised by the zone and application requests.
- **Benefits page.**
  - The case-insensitive search over title, partner name and description.
  - The category list on selection.
  - The discount-badge precedence and the 50-character location cut.
  - The card's button enabling, and the login guard in front of recording a use.

Modules, one per file:

- `Wrappers` (`wrappers.dfy`): `Option` and `Result`, and the browser `File`.
- `Strings` (`strings.dfy`):
  - JavaScript `trim` and Python `strip`, each over its own whitespace class;
  - `includes`, ASCII lower-casing, and `filter`.
- `JoinForm` (`join_form.dfy`), `LoginPage` (`login_page.dfy`) and `BenefitsPage` (`benefits_page.dfy`): the three client pages.
- `ApiService` (`api_service.dfy`): the API client.
- `AuthViews` (`auth_views.dfy`) and `RiderViews` (`rider_views.dfy`): the two backend view files.

Where the source works by changing state step by step, the model is imperative:

- `calculateAge`, `validateForm`, the login lookup loop and `handleSubmit` are methods. Each is proved equal to a specification function.
- The password change is a method of an `Account` class.
- The event participants and the post likes are `set` fields of the `RideEvent` and `Post` classes.
- The `FormData` object is a class whose `Append` grows a sequence of entries.

The rest of the model is functions and lemmas.

## Model

| member | source | states |
|---|---|---|
| JoinForm.CalculateAge | frontend/src/app/join/page.tsx:79-90 | the computed age is `Age(today, birth)`: the year difference, one less while this year's birthday is still ahead |
| JoinForm.AgeCountsCompletedYears | frontend/src/app/join/page.tsx:79-90 | the age is the year difference or one less, one less exactly when today's (month, day) precedes the birthday's, and it reaches `n` exactly when the n-th birthday is not after today |
| JoinForm.BlankIffAllWhitespace | frontend/src/app/join/page.tsx:95-106 | a field is blank (`!value.trim()`) exactly when every character is whitespace |
| JoinForm.BlankIffTrimmedEmpty | frontend/src/app/join/page.tsx:95-106 | blank is exactly "trimming leaves the empty string" |
| JoinForm.NotBlank | frontend/src/app/join/page.tsx:95-106 | a field with one non-whitespace character is not blank |
| JoinForm.SplitFromIff | frontend/src/app/join/page.tsx:108-112 | the scan for an `@` from position `i` succeeds exactly when an acceptable split exists at or after `i` |
| JoinForm.EmailValidIffPattern | frontend/src/app/join/page.tsx:108-112 | the email check accepts exactly the strings of the form non-empty `[^\s@]` run, `@`, `[^\s@]` run, `.`, `[^\s@]` run |
| JoinForm.CheckGivesSplit | frontend/src/app/join/page.tsx:108-112 | an acceptable `@` position yields a split of the whole address into local part, host and top-level part |
| JoinForm.SplitGivesDomain | frontend/src/app/join/page.tsx:108-112 | the host and top-level part of a split form an acceptable domain (no whitespace or `@`, an inner `.`) |
| JoinForm.ValidEmailNotBlank | frontend/src/app/join/page.tsx:96-112 | an accepted email is never blank |
| JoinForm.PhoneValid | frontend/src/app/join/page.tsx:114-118 | an accepted phone has 11 characters starting `01` or 14 starting `+8801`, and is all digits after the optional `+` |
| JoinForm.PrefixedDigits | frontend/src/app/join/page.tsx:114-118 | the `+8801` and `01` prefixes add only digits in front of the nine checked ones |
| JoinForm.TooLarge | frontend/src/app/join/page.tsx:143-149 | a photo is refused exactly when its size is at least 5 MiB + 1 byte, so exactly 5 MiB passes |
| JoinForm.Set | frontend/src/app/join/page.tsx:163-166 | `{ ...prev, [name]: value }` stores the value under the named field |
| JoinForm.SetLeavesOthers | frontend/src/app/join/page.tsx:163-166 | replacing one field leaves every other field as it was |
| JoinForm.HandleInputChange | frontend/src/app/join/page.tsx:158-172 | the edited field takes the new value and no other field changes; the edited field's error, when present, becomes the empty message; no other error entry changes and no key is added |
| JoinForm.KeyClearIff | frontend/src/app/join/page.tsx:91-153 | key by key, the error object has no entry exactly when that field passes: not blank, email and phone patterns, age at least 15, ID number filled in and fitting its type, photo present and within the ceiling, box ticked |
| JoinForm.NoErrorsIffAcceptable | frontend/src/app/join/page.tsx:91-156 | the error object is empty exactly when every check passes |
| JoinForm.ValidateForm | frontend/src/app/join/page.tsx:91-157 | the object built by the successive overwriting assignments is exactly the expected error object, and the result is true exactly when it is empty, and so exactly when the form is acceptable |
| JoinForm.IdNumberMessage | frontend/src/app/join/page.tsx:128-141 | the NID message appears exactly for a filled-in NID number that is not 10, 13 or 17 digits, the birth-certificate message exactly for one that is not 17 digits, and any other document type is only checked for being filled in |
| JoinForm.DocTypeNameInjective | frontend/src/app/join/page.tsx:385-386 | different document types have different select values, so `nid` and `birth_certificate` name only their own options |
| JoinForm.TooYoungReported | frontend/src/app/join/page.tsx:120-126 | an applicant under 15 gets the age message under `dateOfBirth` |
| JoinForm.WhitespaceEmailReportedInvalid | frontend/src/app/join/page.tsx:96-111 | a non-empty whitespace-only email ends with the format message, which overwrites "Email is required" |
| LoginPage.HandleInputChange | frontend/src/app/login/page.tsx:17-28 | only the named credential changes, and the error line is empty afterwards |
| LoginPage.ClientFormat | frontend/src/app/login/page.tsx:41-44 | a trimmed 11-character `01…` phone becomes a 14-character `+8801…` phone; any other phone is only trimmed; a whitespace-only phone becomes empty |
| LoginPage.InternationalSpelling | frontend/src/app/login/page.tsx:43 | `+880` plus a local number without its `0` has 14 characters and starts `+8801` |
| LoginPage.HandleSubmit | frontend/src/app/login/page.tsx:29-49 | an empty phone or password (checked before trimming) shows "Please enter both phone number and password" and sends nothing; otherwise the request carries the formatted phone and the password verbatim |
| LoginPage.LocalRewriteKeepsDigits | frontend/src/app/login/page.tsx:41-44 | the rewritten number is the trimmed local number with `+88` put in front |
| LoginPage.ClientFormatIdempotent | frontend/src/app/login/page.tsx:41-44 | formatting an already formatted phone changes nothing |
| LoginPage.TrimmedLocalFormat | frontend/src/app/login/page.tsx:41-44 | a trimmed local number is sent as `+880` and the number without its `0` |
| LoginPage.InternationalIsFinal | frontend/src/app/login/page.tsx:41-44 | a second pass leaves a `+880…` result alone |
| LoginPage.TrimmedIsFinal | frontend/src/app/login/page.tsx:41-44 | a second pass leaves a trimmed phone that is not in local form alone |
| LoginPage.ValidLocalStaysValid | frontend/src/app/login/page.tsx:41-44 | a local number the join page accepts is sent in a `+8801…` spelling the join page also accepts |
| LoginPage.InternationalStaysValid | frontend/src/app/login/page.tsx:43 | the `+880` spelling of a valid local number is valid |
| AuthViews.PhoneCandidates | backend/riders/auth_views.py:26-37 | the phone as sent comes first; a `+880…` phone is followed by `0` and the digits after `+880`, an `01…` phone by `+880` and the phone without its `0`, and any other phone has no second spelling |
| AuthViews.LocalRoundTrip | backend/riders/auth_views.py:28-35 | a local `01…` number's second spelling starts `+8801`, and that spelling's second spelling is the local number again |
| AuthViews.InternationalRoundTrip | backend/riders/auth_views.py:28-35 | a `+880…` number comes back through its local spelling exactly when it starts `+8801` |
| AuthViews.FirstMatch | backend/riders/auth_views.py:39-46 | some user is found exactly when some candidate is a username, and it is the user of the first such candidate |
| AuthViews.FindUser | backend/riders/auth_views.py:39-46 | the loop with `break` returns the first registered candidate's user |
| AuthViews.FullName | backend/riders/auth_views.py:81 | when the first and last names are both all whitespace the shown name is the username; otherwise it is "first last" with the outer whitespace stripped, and it is not empty |
| AuthViews.SpacedBlankIff | backend/riders/auth_views.py:81 | "first last" is all whitespace exactly when both names are |
| AuthViews.CleanNamesJoined | backend/riders/auth_views.py:81 | names without outer whitespace are shown as "first last" |
| AuthViews.LoginView | backend/riders/auth_views.py:17-84 | a missing or empty field gives 400 before any lookup; no registered spelling gives 401; a found user with the wrong password gives 401; otherwise the answer carries the user's id, the username as phone, the full name and the email |
| AuthViews.EitherSpellingFindsLocalUser | backend/riders/auth_views.py:27-46 | a rider registered under a local number is found from either spelling, unless the other spelling is another username |
| AuthViews.ClientSpellingFindsLocalUser | backend/riders/auth_views.py:27-46 | what the web client sends for a typed local number finds the rider registered under that number, unless the `+880` spelling is itself a username |
| AuthViews.SentIsInternational | frontend/src/app/login/page.tsx:41-44 | a typed number that trims to a local `01…` number is sent as `+880` and the number without its `0` |
| AuthViews.SecondCandidateFound | backend/riders/auth_views.py:39-46 | when the phone as sent is no username and its second spelling is one, the lookup finds that user |
| AuthViews.UserProfileView | backend/riders/auth_views.py:107-127 | without a rider record the status is pending and the zone is none; otherwise the rider's status, and the zone's id and name exactly when it has a zone |
| AuthViews.StatusNameInjective | backend/riders/models.py:18-22 | no two membership statuses are stored under the same value |
| AuthViews.FirstPasswordError | backend/riders/auth_views.py:139-164 | each refusal holds exactly when the earlier checks pass and its own fails (fields, then match, then length 6, then the current password), and none holds exactly when all pass |
| AuthViews.FormatCheckedBeforeCurrent | backend/riders/auth_views.py:145-164 | with a mismatched or short new password the current password is never reported and does not change the answer |
| AuthViews.PasswordDetailsDistinct | backend/riders/auth_views.py:139-172 | each refusal of the password change has its own detail text, and none reads like the success text |
| AuthViews.Account.ChangePassword | backend/riders/auth_views.py:139-172 | answers the first failing check and keeps the password, or stores the new password |
| RiderViews.JoinRefusal | backend/riders/views.py:35-39 | a rider may join exactly when the event is under its limit and the rider is not a participant; "already joined" only on an event that is not full |
| RiderViews.RideEvent.Join | backend/riders/views.py:30-42 | checks the participant count against the limit first, then membership; refuses as `JoinRefusal` says and leaves the set unchanged, or adds exactly the rider, after which the participant count has risen by one and stays within the limit |
| RiderViews.JoinStaysWithinLimit | backend/riders/views.py:35-41 | an allowed join adds exactly one participant and keeps the count within the limit |
| RiderViews.FullBeforeAlreadyJoined | backend/riders/views.py:35-39 | a full event is reported full even to a rider who has already joined |
| RiderViews.ReplyTextsDistinct | backend/riders/views.py:36-53 | the two join refusals have different texts, neither is the join success text, and the leave refusal is not the leave success text |
| RiderViews.LeaveRefusal | backend/riders/views.py:49-50 | a rider may leave exactly when the rider is a participant |
| RiderViews.RideEvent.Leave | backend/riders/views.py:44-53 | refuses a non-participant and leaves the set unchanged, or removes exactly that rider |
| RiderViews.JoinLeaveInverse | backend/riders/views.py:41-52 | leaving right after a successful join restores the participants; on an event holding at most `max_participants` riders, joining right after a successful leave restores them too |
| RiderViews.RideEvent.ParticipantCount | backend/riders/views.py:35 | the count `join` compares with the limit is zero exactly when nobody has joined |
| RiderViews.Toggled | backend/riders/views.py:68-73 | the rider's membership flips, nobody else's changes, and the size moves by one |
| RiderViews.ToggleTwice | backend/riders/views.py:68-73 | two likes by the same rider restore the likes |
| RiderViews.Post.Like | backend/riders/views.py:63-78 | the likes become the toggled set, `liked` is the rider's membership afterwards and `likes_count` the size afterwards |
| RiderViews.ActiveZones | backend/riders/views.py:10 | the listing holds exactly the active zones, each as often as in the zone table, in the table's order |
| RiderViews.ActiveZonesByName | backend/riders/models.py:14-15 | a zone table in name order gives a listing in name order |
| RiderViews.SubsequenceByName | backend/riders/models.py:14-15 | deleting zones from a list in name order leaves it in name order |
| RiderViews.ActiveZonesIdempotent | backend/riders/views.py:10 | filtering the active zones again changes nothing |
| ApiService.KeyNamesDistinct | frontend/src/services/api.ts:52-83 | no two parts share a wire name |
| ApiService.BoolText | frontend/src/services/api.ts:66-72 | a flag is encoded as `"true"` exactly when it is set and as `"false"` exactly when it is not |
| ApiService.BoolTextInjective | frontend/src/services/api.ts:66-72 | different flags are encoded differently |
| ApiService.PartOf | frontend/src/services/api.ts:52-83 | only a photo part can be missing, and a part is a file exactly when it is a photo part |
| ApiService.Find | frontend/src/services/api.ts:49-83 | no value is found exactly when no entry has the key, and a found value is some entry's value |
| ApiService.FormData.Append | frontend/src/services/api.ts:52 | one entry is added at the end |
| ApiService.FileEntries | frontend/src/services/api.ts:74-83 | at most three entries, each a file under a photo key |
| ApiService.TextEntries | frontend/src/services/api.ts:52-72 | there are exactly 21 text entries |
| ApiService.TextEntriesFollowKeys | frontend/src/services/api.ts:52-72 | the i-th text entry is under the i-th key of the fixed order from `full_name` to `agree_terms`, with that field's encoded value |
| ApiService.TextEntriesNameNoPhoto | frontend/src/services/api.ts:52-72 | no text entry is under a photo key |
| ApiService.ApplicationEntries | frontend/src/services/api.ts:49-83 | between 21 and 24 entries, and an entry is a file exactly when it comes after the 21 text entries |
| ApiService.BuildApplicationForm | frontend/src/services/api.ts:49-83 | the appends build a new form holding exactly the application's entries |
| ApiService.AppendPersonal | frontend/src/services/api.ts:52-59 | the first eight text parts are appended in order |
| ApiService.AppendAddress | frontend/src/services/api.ts:60-65 | the next six text parts are appended in order |
| ApiService.AppendRiding | frontend/src/services/api.ts:66-72 | the last seven text parts are appended in order |
| ApiService.AppendPhotos | frontend/src/services/api.ts:74-83 | each chosen photo is appended, in order |
| ApiService.FormCarriesEveryField | frontend/src/services/api.ts:49-83 | looking up any key in the built form gives exactly that field's encoded value, with `''` for an absent optional text and nothing for an absent photo |
| ApiService.EachPartOnce | frontend/src/services/api.ts:49-83 | no two entries of the built form share a key, so every part is appended at most once |
| ApiService.TextKeysDistinct | frontend/src/services/api.ts:52-72 | no key stands twice in the order of the text parts |
| ApiService.FetchZonesError | frontend/src/services/api.ts:39-45 | a failed response raises "Failed to fetch zones" without its body being read; a successful one raises only when its body is not JSON, as the parse rejects it |
| ApiService.SubmitError | frontend/src/services/api.ts:89-95 | nothing is raised exactly when the response is ok and its body is JSON; a body that is not JSON makes the parse reject on either path; for a failed response a `null` body makes reading `error` throw, a non-empty string `error` is the message, a truthy non-string one is shown as text, and an absent or falsy one gives "Failed to submit application"; an empty message comes only from a non-string `error` |
| BenefitsPage.FilterBenefits | frontend/src/app/benefits/page.tsx:57-67 | the kept benefits are exactly those matching the term, each as often as in the input, in their original order |
| BenefitsPage.ShownBenefits | frontend/src/app/benefits/page.tsx:57-67 | both the featured list and the category list keep exactly their benefits that match the term (title, partner or description contains it, ignoring case), each as often as before, in their original order |
| BenefitsPage.EmptyTermKeepsAll | frontend/src/app/benefits/page.tsx:57-67 | an empty search term keeps every benefit |
| BenefitsPage.FilterIdempotent | frontend/src/app/benefits/page.tsx:57-67 | searching the result again with the same term changes nothing |
| BenefitsPage.SearchIgnoresCase | frontend/src/app/benefits/page.tsx:57-67 | searching for the lower-cased term finds the same benefits as the term itself |
| BenefitsPage.CategoryListAfterSelect | frontend/src/app/benefits/page.tsx:21-55 | "All Categories" empties the list; a chosen category shows what the request returned, or keeps the list when it failed |
| BenefitsPage.NatText | frontend/src/app/benefits/page.tsx:302-305 | the printed number is a non-empty run of digits, with a leading `0` only for zero |
| BenefitsPage.NatTextRoundTrip | frontend/src/app/benefits/page.tsx:302-305 | reading the printed digits back gives the number |
| BenefitsPage.NumberText | frontend/src/app/benefits/page.tsx:302-305 | the printed number is an optional `-` (present exactly for a negative number) and a run of digits with no leading zero except in `0` itself, and reading it back gives the number |
| BenefitsPage.DiscountBadge | frontend/src/app/benefits/page.tsx:299-305 | there is no badge exactly when neither discount is truthy; a truthy percentage wins over the amount |
| BenefitsPage.BadgeText | frontend/src/app/benefits/page.tsx:301-305 | no badge has an empty label; a percentage label is the printed percentage (`NumberText`) followed by `% OFF`, and an amount label is the taka sign, the printed amount and ` OFF`, each number reading back as the discount |
| BenefitsPage.ShortLocation | frontend/src/app/benefits/page.tsx:332 | a location of at most 50 characters is unchanged; a longer one becomes its first 50 characters and `...` |
| BenefitsPage.ShortLocationUnchangedIff | frontend/src/app/benefits/page.tsx:332 | a location is shown unchanged exactly when it fits or already ends in the cut form |
| BenefitsPage.ShortLocationIdempotent | frontend/src/app/benefits/page.tsx:332 | cutting a cut location changes nothing |
| BenefitsPage.LocationLine | frontend/src/app/benefits/page.tsx:326-334 | the location line appears exactly for a non-empty location, and shows it cut |
| BenefitsPage.CardAction | frontend/src/app/benefits/page.tsx:347-368 | a card with a website links to it; otherwise the plain button is disabled exactly when the benefit is unavailable in the rider's zone |
| BenefitsPage.ShopLinkIgnoresZone | frontend/src/app/benefits/page.tsx:347-359 | the link variant does not depend on the zone |
| BenefitsPage.HandleUseBenefit | frontend/src/app/benefits/page.tsx:69-81 | a request is sent exactly when the user is signed in; the alert is the login prompt, the success text, or the error's message with "Failed to use benefit" as fall-back |
| Strings.Strip | frontend/src/app/login/page.tsx:41 | the trimmed string is the slice of the input between two all-whitespace ends, has no whitespace at either end, is empty exactly when the input is all whitespace, and is the input itself when that has no outer whitespace |
| Strings.StripMiddle | frontend/src/app/login/page.tsx:41 | trimming both ends leaves a slice of the input with only whitespace cut away on each side |
| Strings.Includes | frontend/src/app/benefits/page.tsx:58-60 | `includes` holds exactly when the needle occurs at some position |
| Strings.Lower | frontend/src/app/benefits/page.tsx:58-60 | lower-casing keeps the length and lower-cases each character |
| Strings.Select | frontend/src/app/benefits/page.tsx:57-67 | `filter` keeps exactly the elements that pass, each as often as in the input, as a subsequence of the input |
| Strings.SubsequenceMembers | frontend/src/app/benefits/page.tsx:57-67 | every element of a subsequence is an element of the sequence |

## Left out

- Rendering, React state hooks and Next.js routing are not modelled. The state setters appear only as the values they store.
- HTTP requests, `localStorage` token storage and redirects are not modelled. A request's outcome is a parameter (`Reply`, `Result`, the fetched category list).
- The join page's simulated two-second submit is not modelled.
- The API client builds the application form but does not send it.
- `new Date()` and date-string parsing (time zones included) are left out. `today` and the birth date are explicit (year, month, day) inputs.
- An empty date input is `None`.
- The join page's document-type select is a datatype. It has the two options `nid` and `birth_certificate`, plus any value other than those two, which gets no format check.
- Lower-casing covers ASCII letters only. JavaScript's full Unicode `toLowerCase` is not modelled.
- String lengths count Unicode scalar values. JavaScript's `.length` counts UTF-16 code units, so the 11-character login check and the 50-character location cut differ from the browser for characters outside the Basic Multilingual Plane.
- The Django ORM, `authenticate`, `check_password`/`set_password` and SimpleJWT tokens are not modelled. The user table is a map from username to user; a stored password is compared as text (no hashing); no tokens are issued.
- `authenticate`'s refusal of inactive users is not modelled.
- `logout_view` is not modelled: it only blacklists a token.
- The rider lookup that `login_view` performs after authentication is not modelled. The status and zone it reads are not put in the response; the failure that reading them can raise is described on the `AuthViews.LoginView` line below.
- `update_profile_view` is not part of this model.
- The rider fields are taken as the views read them: a membership status and an optional zone.
- The models, serializers, admin, URL tables, migrations and management commands are not part of this model: they are schema and seed data.
- `participant_count` and `likes_count` are the sizes of the sets.
- The benefit type is not part of this model. The discount values are taken as optional numbers, and the badge prints integers only.
- `Benefit` keeps only the fields the modelled rules read.
- `ApiService.AppendPersonal`, `ApiService.AppendAddress` and `ApiService.AppendRiding` split the 21 consecutive appends of `submitMembershipApplication` into three runs. The order and the contents are unchanged.
- `RiderViews.RideEvent.Join` keeps the participant count within `max_participants` only for joins handled one at a time. The view at backend/riders/views.py:35-41 counts and then adds without a lock, so two concurrent joins can both pass the check; concurrency is not modelled.
- A user without a `Rider` record makes `request.user.rider` raise in `join`, `leave` and `like` (backend/riders/views.py:33, 47 and 66). The model takes the rider as given and does not model that server error.
- `AuthViews.LoginView` and `AuthViews.Account.ChangePassword` take each request field as an optional string. A JSON value that is not a string, sent as `phone` or `new_password`, is not modelled: `startswith` raises on a number (backend/riders/auth_views.py:28), and `len` counts the items of a list (backend/riders/auth_views.py:151).
- `BenefitsPage.NatText` and `BenefitsPage.NumberText` print every integer in plain digits. JavaScript prints a magnitude of 10^21 or more in exponent form, which is not modelled.
- `RiderViews.ActiveZones` keeps the zone table's order. The table's name order (`ordering = ['name']`) is taken as code-point order of the names; the database collation is not modelled.
- The message texts of the join page (`JoinForm.MessageText`) and the detail texts of the views are the source's constants. Only the texts the lemmas compare are proved distinct; the join page's 21 messages are not proved pairwise distinct.
- `AuthViews.LoginView` and `AuthViews.UserProfileView` follow the views as written for a rider with a membership status and an optional zone. The `Rider` model at backend/riders/models.py:93-103 declares neither field, so against that schema `rider.membership_status` (backend/riders/auth_views.py:69-70 and 111-112) raises `AttributeError` for every user who has a rider record; `except Rider.DoesNotExist` does not catch it, and both views answer with a server error. That schema is evidently behind the database (migrations 0010 and 0012 add rider fields it also lacks), and the dashboard (frontend/src/app/dashboard/page.tsx:143-168) reads `membership_status` and `zone.name`, so the model follows the views and takes the rider as carrying both fields.
