# School web client: a verified model of its client-side rules

This project models the client-side logic of the school management web app under
`apps/web/src`. It does not model rendering. It covers:

- the input sanitisers and form rules of the admission and school forms;
- the six-slot one-time-code collector and the login handshake around it;
- the principal-role classifier;
- the teacher timetable grid;
- the student admission modal;
- the error-monitoring endpoints and the three panels that use them;
- several hooks and small components: school type, tool access, subject
  auto-generation, the end-of-term dialog, calendar tiles and the avatar picker.

Each source file has its own Dafny module and file. `Common.dfy` adds the shared
vocabulary:

- optional values and results (`Wrappers`);
- JavaScript truthiness, ASCII case mapping, `trim`, `includes`, `join` and number
  text (`Text`);
- calendar dates and ages (`Calendar`);
- the school-type enumeration (`SchoolKinds`).

Code that computes values is modelled as functions and lemmas. Components and
hooks that keep state are modelled as classes whose fields are that state:

- `OtpVerification.OtpCollector` keeps its slots in an array;
- `LoginPage.LoginPage`, `StudentAdmission.AdmissionForm`,
  `SchoolSelection.TypeSelection`, `ErrorList.ErrorListView`,
  `AutoGenerateSubjects.AutoGenerator` and `ProfileAvatarUpload.AvatarUpload`
  keep their fields directly.

Their handlers are methods whose contracts give the whole new state. Server
replies, the clock, stored values and file contents are parameters. Requests,
toasts, navigation and dispatched actions are recorded in sequence fields.

The login handlers route a signed-in user by the corrected role table described under
"## Findings", not by the lookup exactly as written.

Where the code and its comments disagree, the model follows the code. The doc
comment in `apps/web/src/lib/constants/roles.ts` lists 'School Owner' as a
recognised principal role, but the code rejects it; `Roles.SchoolOwnerIsNotPrincipal`
proves the rejection.

Some behaviours the model keeps because the code does them:

- The school form accepts a phone or e-mail that sanitises to ''.
- Name length bounds are checked on the raw text, before sanitising.
- `handleResendOtp` swallows every error, so the code screen always takes its
  success branch.
- The admission form requires a gender but leaves it out of the payload.
- `isLoading` stays on after an admission succeeds.
- The tags invalidated by a status update (`'LIST'`) are not the tags the list
  and stats queries provide (the school id).
- A falsy `data` payload leaves the response envelope in place.
- The list query's offset of 0 is dropped from the query string.
- The error list shows a request line whenever the path is set; the detail modal
  needs both method and path.
- `useSchoolType`'s fallback to `primaryType` is unreachable: that branch runs only
  when the list of available types is empty, and the effect has already returned
  in that case.
- The avatar picker dispatches an empty access token despite its comment.
- The avatar picker keeps the data-URL preview when the upload reply is not a success.

## Model

| member | source | states |
|---|---|---|
| SchoolForms.StripControls | apps/web/src/lib/validations/school-forms.ts:200 | the result keeps exactly the characters of the input that are not stripped C0 controls or DEL (tab, LF and CR survive) and is never longer |
| SchoolForms.StripTags | apps/web/src/lib/validations/school-forms.ts:201 | the tag replace never lengthens the text, adds no character, and leaves no '<' with a '>' anywhere after it |
| SchoolForms.StripTagsDropsTag | apps/web/src/lib/validations/school-forms.ts:201 | a '<', text without '>', and '>' is removed whole, and stripping goes on after it |
| SchoolForms.StripTagsKeepsPlainPrefix | apps/web/src/lib/validations/school-forms.ts:201 | text without '<' is kept unchanged in front of whatever the rest strips to |
| SchoolForms.StripTagsAroundWord | apps/web/src/lib/validations/school-forms.ts:201 | a word between an opening and a closing tag is all that remains |
| SchoolForms.StripTagsExample | apps/web/src/lib/validations/school-forms.ts:201 | "<i>Ada</i>" strips to "Ada" |
| SchoolForms.Truncate | apps/web/src/lib/validations/school-forms.ts:203 | `substring(0, n)` is a prefix of at most n characters and leaves shorter text whole |
| SchoolForms.SanitizeString | apps/web/src/lib/validations/school-forms.ts:198-204 | the result has at most maxLength characters, only characters of the input that are not stripped controls, no leading white space, and no '<' followed later by '>' |
| SchoolForms.SanitizeStringKeepsClean | apps/web/src/lib/validations/school-forms.ts:198-204 | text that is short enough, has no stripped control, no '<' and no white space at either end passes through unchanged |
| SchoolForms.StripTagsKeepsClean | apps/web/src/lib/validations/school-forms.ts:201 | text without '<' is left alone by the tag replace |
| SchoolForms.SanitizeEmail | apps/web/src/lib/validations/school-forms.ts:206-208 | the sanitised address is never longer than the input |
| SchoolForms.SanitizeEmailTrimmed | apps/web/src/lib/validations/school-forms.ts:206-208 | a sanitised address has no white space at either end |
| SchoolForms.SanitizeEmailLower | apps/web/src/lib/validations/school-forms.ts:206-208 | a sanitised address has no upper-case ASCII letter |
| SchoolForms.SanitizeEmailIdempotent | apps/web/src/lib/validations/school-forms.ts:206-208 | sanitising a sanitised address changes nothing |
| SchoolForms.SanitizePhone | apps/web/src/lib/validations/school-forms.ts:210-212 | the result is no longer than the input, holds only ASCII digits and '+', and keeps every digit and '+' that occurs in the input |
| SchoolForms.SanitizePhoneKeepsPhoneText | apps/web/src/lib/validations/school-forms.ts:210-212 | text of digits and '+' only is left unchanged |
| SchoolForms.SanitizePhoneIdempotent | apps/web/src/lib/validations/school-forms.ts:210-212 | sanitising a sanitised phone changes nothing |
| SchoolForms.DashForeign | apps/web/src/lib/validations/school-forms.ts:218 | every character outside [a-z0-9-] becomes '-', every other one stays, and the length is kept |
| SchoolForms.CollapseDashes | apps/web/src/lib/validations/school-forms.ts:219 | no "--" remains, slug characters stay slug characters, the result is never longer, and the first and last characters are kept |
| SchoolForms.CollapseKeepsSingleDashes | apps/web/src/lib/validations/school-forms.ts:219 | text without "--" is left unchanged |
| SchoolForms.NonDashes | apps/web/src/lib/validations/school-forms.ts:219 | the characters of a text other than '-': never longer, and no dash among them |
| SchoolForms.CollapseKeepsNonDashes | apps/web/src/lib/validations/school-forms.ts:219 | collapsing touches only dashes: every other character is kept, in order |
| SchoolForms.CollapseAbsorbsDash | apps/web/src/lib/validations/school-forms.ts:219 | a doubled dash collapses like a single one, so with `CollapseKeepsSingleDashes` every run of dashes leaves exactly one dash |
| SchoolForms.TrimDashStart | apps/web/src/lib/validations/school-forms.ts:220 | the leading dashes are removed: the result is a suffix that does not start with '-' |
| SchoolForms.TrimDashEnd | apps/web/src/lib/validations/school-forms.ts:220 | the trailing dashes are removed: the result is a prefix that does not end with '-' |
| SchoolForms.TrimDashes | apps/web/src/lib/validations/school-forms.ts:220 | trimming the dashes of dash-collapsed slug text leaves a slug |
| SchoolForms.TrimDashesKeepsSlug | apps/web/src/lib/validations/school-forms.ts:220 | the two anchored replaces, one after the other, turn collapsed slug text into a slug |
| SchoolForms.SanitizeSubdomain | apps/web/src/lib/validations/school-forms.ts:214-221 | the result uses only [a-z0-9-], has no "--", does not start or end with '-', and is no longer than the input |
| SchoolForms.SlugIsFixedPoint | apps/web/src/lib/validations/school-forms.ts:214-221 | a slug is left unchanged |
| SchoolForms.SanitizeSubdomainIdempotent | apps/web/src/lib/validations/school-forms.ts:214-221 | sanitising a sanitised subdomain changes nothing |
| SchoolForms.TextField | apps/web/src/lib/validations/school-forms.ts:59-64 | a text field is accepted iff the required check, the minimum and the maximum all hold on the RAW text, and an accepted field is `sanitizeString(raw, keep)` |
| SchoolForms.SanitizeStringKeepsWord | apps/web/src/lib/validations/school-forms.ts:198-204 | ASCII letters and digits that fit are left unchanged |
| SchoolForms.SanitizeStringBareTag | apps/web/src/lib/validations/school-forms.ts:198-204 | a bare tag sanitises to the empty string |
| SchoolForms.NameBoundsReadRawText | apps/web/src/lib/validations/school-forms.ts:59-64 | "<>" passes the two-character minimum of the first name and is stored as "" |
| SchoolForms.TwoLetterNameAccepted | apps/web/src/lib/validations/school-forms.ts:59-64 | a two-letter first name is accepted unchanged |
| SchoolForms.OneLetterNameRejected | apps/web/src/lib/validations/school-forms.ts:59-64 | a one-letter first name is rejected |
| SchoolForms.OptionalText | apps/web/src/lib/validations/school-forms.ts:65-68 | an optional text field is present iff the raw value is a non-empty string, and is then its sanitised text within the bound |
| SchoolForms.CountryField | apps/web/src/lib/validations/school-forms.ts:258-262 | an empty or absent country becomes "Nigeria", any other is sanitised to 100 characters |
| SchoolForms.ArmField | apps/web/src/lib/validations/school-forms.ts:117-120 | classArmId is kept iff it is not blank, and is then its trimmed, non-empty text |
| SchoolForms.RequiredPhone | apps/web/src/lib/validations/school-forms.ts:97-108 | a student or parent phone is accepted iff its sanitised form has at least 10 characters and the `^\+?[1-9]\d{1,14}$` shape, and is then that sanitised form |
| SchoolForms.RequiredPhoneLength | apps/web/src/lib/validations/school-forms.ts:97-108 | an accepted student phone has 10 to 16 characters |
| SchoolForms.EmergencyPhone | apps/web/src/lib/validations/school-forms.ts:173-184 | a blank emergency phone, or one that sanitises to fewer than 10 characters, becomes undefined; a longer one is accepted iff it has the phone shape |
| SchoolForms.EmergencyPhoneShortIsDropped | apps/web/src/lib/validations/school-forms.ts:173-184 | "  " and "0803-12" both become undefined instead of failing |
| SchoolForms.StaffPhone | apps/web/src/lib/validations/school-forms.ts:302-309 | a principal or admin phone is accepted iff the RAW text has at least 10 characters and the sanitised text has the phone shape |
| SchoolForms.SanitizePhoneDropsSeparator | apps/web/src/lib/validations/school-forms.ts:210-212 | a '-' between two runs of phone characters is dropped |
| SchoolForms.StaffPhoneCountsPunctuation | apps/web/src/lib/validations/school-forms.ts:302-309 | nine digits with a '-' pass the staff phone check but fail the student phone check, because only the staff minimum reads the raw text |
| SchoolForms.SchoolPhone | apps/web/src/lib/validations/school-forms.ts:263-270 | the school's own phone is accepted iff it is absent, sanitises to "", or has the phone shape |
| SchoolForms.EmailShapeExample | apps/web/src/lib/validations/school-forms.ts:94 | "ada@school.ng" has the e-mail shape |
| SchoolForms.EmailHasOneAt | apps/web/src/lib/validations/school-forms.ts:94 | in an address of the e-mail shape any two '@' are at the same position, so there is only one |
| SchoolForms.AdmissionEmail | apps/web/src/lib/validations/school-forms.ts:89-96 | a blank admission e-mail becomes undefined; any other is accepted iff its sanitised form has the e-mail shape, and is then that form |
| SchoolForms.SchoolEmail | apps/web/src/lib/validations/school-forms.ts:271-278 | the school e-mail is accepted iff it is absent, sanitises to "", or has the e-mail shape; an accepted present value is its sanitised text, and a rejection says "Invalid email format" |
| SchoolForms.DateOfBirth | apps/web/src/lib/validations/school-forms.ts:75-88 | a date of birth is accepted iff it is non-empty, parses, and the whole-year age lies in [3, 25]; otherwise it fails with the required or the age message |
| SchoolForms.AgeWindowEdges | apps/web/src/lib/validations/school-forms.ts:75-88 | a child is admitted on the third birthday and not the day before |
| SchoolForms.ArmOrLevel | apps/web/src/lib/validations/school-forms.ts:189-195 | the form passes iff a class arm or a class level survives the field transforms, and the issue is reported on classLevel |
| SchoolForms.Subdomain | apps/web/src/lib/validations/school-forms.ts:231-238 | a subdomain is accepted iff it is absent, slugs to "", or slugs to 3-50 characters; an accepted one is the slug |
| SchoolForms.Levels | apps/web/src/lib/validations/school-forms.ts:279-286 | the levels pass iff at least one flag is set |
| OtpVerification.SplitCode | apps/web/src/components/auth/OtpVerification.tsx:84 | `split('')` gives one slot per character, holding that character |
| OtpVerification.EmptySlots | apps/web/src/components/auth/OtpVerification.tsx:26 | the initial buffer has six slots, all empty, so it is not filled |
| OtpVerification.CodeOfSlots | apps/web/src/components/auth/OtpVerification.tsx:53 | joining slots that are empty or one digit gives digits only, and the code has one character per slot exactly when every slot is filled |
| OtpVerification.CodeOfSplit | apps/web/src/components/auth/OtpVerification.tsx:84-90 | splitting a code into slots and joining them back gives the code |
| OtpVerification.DigitsOf | apps/web/src/components/auth/OtpVerification.tsx:67 | `replace(/\D/g, '')` leaves exactly the digits of the text, never more characters |
| OtpVerification.DigitsOfConcat | apps/web/src/components/auth/OtpVerification.tsx:82 | the digit filter distributes over concatenation |
| OtpVerification.DigitsOfDigits | apps/web/src/components/auth/OtpVerification.tsx:82 | text of digits only is left unchanged |
| OtpVerification.PastedCode | apps/web/src/components/auth/OtpVerification.tsx:82-83 | a paste delivers a code iff the text holds at least six digits, and the code is then the first six of them |
| OtpVerification.PasteIgnoresSeparators | apps/web/src/components/auth/OtpVerification.tsx:82-83 | non-digit separators between the digits do not change what a paste delivers |
| OtpVerification.PasteOfDigits | apps/web/src/components/auth/OtpVerification.tsx:82-83 | six or more digits paste as their first six |
| OtpVerification.SubmitOutcome | apps/web/src/components/auth/OtpVerification.tsx:94-99 | `onVerify` receives the given code, or failing that the joined slots, and only when that has exactly six characters |
| OtpVerification.FormSubmitSendsIffFilled | apps/web/src/components/auth/OtpVerification.tsx:94-99 | submitting the form verifies exactly when all six slots are filled, and an empty code argument falls back to the slots |
| OtpVerification.VerifyButtonMatchesSubmit | apps/web/src/components/auth/OtpVerification.tsx:189 | the verify button is enabled (when not loading) exactly when submitting would verify |
| OtpVerification.VerifyDisabled | apps/web/src/components/auth/OtpVerification.tsx:189 | the verify button is disabled while any slot is empty or a verification is loading; `VerifyButtonMatchesSubmit` proves it enabled exactly when a submit would send the code |
| OtpVerification.ResendDisabled | apps/web/src/components/auth/OtpVerification.tsx:201 | the resend link is disabled while a cooldown runs, a resend is in flight or a verification is loading |
| OtpVerification.ResendLinkMatchesGuard | apps/web/src/components/auth/OtpVerification.tsx:102 | outside a verification the link is enabled exactly when the handler's guard lets a resend start (no cooldown, none in flight); during a verification it is always disabled |
| OtpVerification.OtpCollector.constructor | apps/web/src/components/auth/OtpVerification.tsx:26-29 | six empty slots, cooldown 60, not resending, and the first input focused |
| OtpVerification.OtpCollector.Submit | apps/web/src/components/auth/OtpVerification.tsx:94-99 | `handleSubmit` sends what SubmitOutcome gives and changes nothing |
| OtpVerification.OtpCollector.Change | apps/web/src/components/auth/OtpVerification.tsx:39-56 | a value that is neither empty nor one digit changes nothing; otherwise only slot `index` is written, the focus moves on after a digit, and the six joined digits are sent iff the value is non-empty, the index is 5 and every slot is filled |
| OtpVerification.OtpCollector.Fill | apps/web/src/components/auth/OtpVerification.tsx:84-89 | the `forEach` writes one digit of the code into each of the six slots |
| OtpVerification.OtpCollector.Paste | apps/web/src/components/auth/OtpVerification.tsx:80-92 | without six digits the slots are unchanged and nothing is sent; with them every slot is filled and that code is sent |
| OtpVerification.OtpCollector.KeyDown | apps/web/src/components/auth/OtpVerification.tsx:58-78 | Backspace on an empty slot after the first moves the focus back; Ctrl/Cmd+V pastes the clipboard text as Paste does; any other key changes no slot |
| OtpVerification.OtpCollector.BeginResend | apps/web/src/components/auth/OtpVerification.tsx:101-103 | a resend starts iff the cooldown is over and none is in flight, and then marks one in flight |
| OtpVerification.OtpCollector.FinishResend | apps/web/src/components/auth/OtpVerification.tsx:104-113 | success restarts the 60-second cooldown, clears every slot and focuses the first; failure keeps the slots and the cooldown; either way the resend is no longer in flight |
| OtpVerification.OtpCollector.Tick | apps/web/src/components/auth/OtpVerification.tsx:32-37 | a tick decrements the cooldown by one only while it is positive, so it never drops below 0 |
| LoginPage.ErrorMessage | apps/web/src/app/auth/login/page.tsx:74-77 | the failure text is a non-empty `message`, else a non-empty string `error`, else the `error` list joined with ", " when that is non-empty, else the fallback; with a non-empty fallback it is never empty |
| LoginPage.EmptyErrorsFallThrough | apps/web/src/app/auth/login/page.tsx:74-77 | an empty message and an empty, missing or blank error give the fallback |
| LoginPage.SingleListedError | apps/web/src/app/auth/login/page.tsx:76 | a one-item error list is shown as that item |
| LoginPage.RouteFor | apps/web/src/app/auth/login/page.tsx:108-115 | the route is one of the four dashboards or "/dashboard", and it is "/dashboard" exactly when the role is missing or not one of the four keys |
| LoginPage.RoleRouteTable | apps/web/src/app/auth/login/page.tsx:108-115 | SUPER_ADMIN, SCHOOL_ADMIN, TEACHER and STUDENT go to their dashboards; any other role, or none, goes to "/dashboard" |
| LoginPage.PushTargetAsWritten | apps/web/src/app/auth/login/page.tsx:108-115 | the lookup on an object literal gives an inherited `Object.prototype` member for a role named like one, and the route of RouteFor otherwise |
| LoginPage.ConstructorRoleIsNotAPath | apps/web/src/app/auth/login/page.tsx:108-115 | the role "constructor" sends a function, not "/dashboard", to the router |
| LoginPage.SchoolIdOf | apps/web/src/app/auth/login/page.tsx:104-106 | `currentSchoolId` is written iff the user's schoolId is a non-empty string, and it is then that id |
| LoginPage.OtpRequired | apps/web/src/app/auth/login/page.tsx:84 | a successful reply asks for a code when its data says requiresOtp and carries a non-empty session id; `LoginOutcome` enters the code screen exactly then |
| LoginPage.LegacyTokens | apps/web/src/app/auth/login/page.tsx:94 | a successful reply signs in directly when its data carries a non-empty access token and a user; `LoginOutcome` takes this branch only when no code is required |
| LoginPage.LoginOutcome | apps/web/src/app/auth/login/page.tsx:72-128 | a failed response fails with ErrorMessage and "Login failed"; a thrown error fails with its message; success with data and requiresOtp and a sessionId enters the code screen with that session and the response email or else the typed identifier; otherwise accessToken and user sign in with the mapped route; otherwise "Unexpected response…"; a reply missing success or data gives "Invalid response…" |
| LoginPage.VerifyOutcome | apps/web/src/app/auth/login/page.tsx:155-189 | a failed response fails with ErrorMessage and "OTP verification failed"; success with data dispatches credentials and signs in, or fails on the missing user after dispatching; anything else leaves the error clear; it never enters the code screen |
| LoginPage.ResendOutcome | apps/web/src/app/auth/login/page.tsx:217-230 | a failed response shows `message` or "Failed to resend OTP"; a session id in a successful reply replaces the session and the email; it never signs in |
| LoginPage.OtpBranchWritesNoCredentials | apps/web/src/app/auth/login/page.tsx:84-91 | a reply that asks for a code enters the code screen and never signs in on the password step |
| LoginPage.LoginPage.constructor | apps/web/src/app/auth/login/page.tsx:20-36 | not loading, no code screen, no session or email, an empty form, and the session-expired notice iff the page was opened with `expired=true` |
| LoginPage.LoginPage.SetIdentifier | apps/web/src/app/auth/login/page.tsx:310-312 | the typed identifier replaces the old one |
| LoginPage.LoginPage.SetPassword | apps/web/src/app/auth/login/page.tsx:331-333 | the typed password replaces the old one |
| LoginPage.LoginPage.SignInWith | apps/web/src/app/auth/login/page.tsx:96-115 | the credentials are dispatched, the school id stored when there is one, and the route pushed |
| LoginPage.LoginPage.Submit | apps/web/src/app/auth/login/page.tsx:38-129 | one login request is posted with the typed form; the page then follows LoginOutcome (code screen, sign-in, or error) and leaves the other fields unchanged; isLoading is false afterwards on every path |
| LoginPage.LoginPage.Verify | apps/web/src/app/auth/login/page.tsx:131-190 | without a session id nothing happens; otherwise one verify request is posted with the session and code, the page follows VerifyOutcome, the code-screen fields are unchanged, and isLoading ends false |
| LoginPage.LoginPage.Resend | apps/web/src/app/auth/login/page.tsx:192-231 | with an empty identifier or password nothing happens; otherwise one login request is posted, the session and email change only when the reply carries a sessionId, nothing is dispatched, stored or pushed, and isLoading ends false |
| LoginPage.LoginPage.BackToLogin | apps/web/src/app/auth/login/page.tsx:233-243 | requiresOtp, the session, the email and the error are cleared, so the code screen is no longer shown |
| LoginPage.LoginPage.ShowsOtpScreen | apps/web/src/app/auth/login/page.tsx:243 | the code screen shows only while a code is required and both the session id and the e-mail are non-empty |
| LoginPage.LoginPage.CanSubmit | apps/web/src/app/auth/login/page.tsx:359-363 | the Sign In button is enabled for a non-empty identifier and a password of eight or more characters |
| LoginPage.LoginPage.SubmittableFormPassesResendGuard | apps/web/src/app/auth/login/page.tsx:359-363 | a form whose Sign In button is enabled has a non-empty identifier and a password that is non-empty and at least eight characters long |
| Roles.NormalizeRole | apps/web/src/lib/constants/roles.ts:39 | the normalised role is never longer than the role and has no white space at either end |
| Roles.AnyContained | apps/web/src/lib/constants/roles.ts:48-50 | the `some` test holds iff some listed role is a substring of the normalised role (equality being one case of containment) |
| Roles.MatchesPrincipal | apps/web/src/lib/constants/roles.ts:42-50 | the exact-match test followed by the substring test holds iff some principal role is a substring of the normalised role |
| Roles.IsPrincipalRole | apps/web/src/lib/constants/roles.ts:36-51 | null, undefined and "" give false; any other role is principal iff some entry of PRINCIPAL_ROLES is a substring of its lower-cased, trimmed form |
| Roles.NormalizeIgnoresCase | apps/web/src/lib/constants/roles.ts:39 | upper- or lower-casing the role first does not change its normal form |
| Roles.NormalizeIgnoresPadding | apps/web/src/lib/constants/roles.ts:39 | white space around the role does not change its normal form |
| Roles.PrincipalIgnoresCase | apps/web/src/lib/constants/roles.ts:39 | the verdict does not depend on letter case |
| Roles.EmptyNormalFormNotPrincipal | apps/web/src/lib/constants/roles.ts:37-39 | a role that normalises to "" is never principal |
| Roles.SameNormalForm | apps/web/src/lib/constants/roles.ts:37-39 | any two roles with the same normal form get the same verdict, including an empty role against one of white space |
| Roles.PrincipalIgnoresPadding | apps/web/src/lib/constants/roles.ts:37-39 | the verdict does not depend on white space around the role |
| Roles.EntriesAreLowerAndUnpadded | apps/web/src/lib/constants/roles.ts:10-17 | every entry is already lower-case with no white space at either end, so it is its own normal form |
| Roles.EntryInAnyCase | apps/web/src/lib/constants/roles.ts:42-44 | every PRINCIPAL_ROLES entry, written in any letter case, is recognised |
| Roles.PrincipalExample | apps/web/src/lib/constants/roles.ts:31 | 'Principal' is recognised |
| Roles.SchoolOwnerExample | apps/web/src/lib/constants/roles.ts:32 | 'school_owner' is recognised |
| Roles.PrincipalRolesAreLong | apps/web/src/lib/constants/roles.ts:10-17 | every entry has at least nine characters |
| Roles.ShortRoleNotPrincipal | apps/web/src/lib/constants/roles.ts:42-50 | a role shorter than nine characters contains no entry, so it is never recognised |
| Roles.BursarExample | apps/web/src/lib/constants/roles.ts:34 | 'Bursar' is not recognised |
| Roles.SchoolPrincipalExample | apps/web/src/lib/constants/roles.ts:46-50 | 'School Principal' is recognised through 'principal' |
| Roles.ContainsPrincipalAnyCase | apps/web/src/lib/constants/roles.ts:46-50 | any text around an entry, in any letter case, keeps the role recognised |
| Roles.RoleWithoutKeyLettersIsNotPrincipal | apps/web/src/lib/constants/roles.ts:42-50 | a role without 'p', 'm' and '_' in either case is never recognised |
| Roles.SchoolOwnerIsNotPrincipal | apps/web/src/lib/constants/roles.ts:33-50 | 'School Owner' is NOT recognised, contrary to the doc comment, because the entry is spelt 'school_owner' |
| Roles.NoPrincipalWithout | apps/web/src/lib/constants/roles.ts:10-17 | every entry holds a 'p', an 'm' or an '_', so normalised text without all of them matches no entry |
| TeacherTimetableGrid.StrLessIrreflexive | apps/web/src/components/timetable/TeacherTimetableGrid.tsx:85 | the string order used by `sort()` never puts a key before itself |
| TeacherTimetableGrid.StrLessTotal | apps/web/src/components/timetable/TeacherTimetableGrid.tsx:85 | of two different keys, one comes first |
| TeacherTimetableGrid.StrLessTransitive | apps/web/src/components/timetable/TeacherTimetableGrid.tsx:85 | the string order is transitive |
| TeacherTimetableGrid.StrLessAsymmetric | apps/web/src/components/timetable/TeacherTimetableGrid.tsx:85 | two keys are never each before the other |
| TeacherTimetableGrid.StrictlySortedIsDistinct | apps/web/src/components/timetable/TeacherTimetableGrid.tsx:81-85 | a strictly increasing list of keys has no key twice |
| TeacherTimetableGrid.InsertKey | apps/web/src/components/timetable/TeacherTimetableGrid.tsx:83 | adding a key to the strictly increasing set of keys keeps it strictly increasing, with exactly the old keys and the new one |
| TeacherTimetableGrid.SortKeys | apps/web/src/components/timetable/TeacherTimetableGrid.tsx:85 | `Array.from(slots).sort()` is strictly increasing and holds exactly the keys of the set |
| TeacherTimetableGrid.StrictlySortedUnique | apps/web/src/components/timetable/TeacherTimetableGrid.tsx:85 | two strictly increasing lists with the same members are equal, so the sorted slots do not depend on insertion order |
| TeacherTimetableGrid.AllTimeSlots | apps/web/src/components/timetable/TeacherTimetableGrid.tsx:80-86 | `allTimeSlots` is strictly increasing, so sorted with no duplicates, and holds a key iff some period has that `startTime-endTime` key |
| TeacherTimetableGrid.Bucket | apps/web/src/components/timetable/TeacherTimetableGrid.tsx:99-104 | a bucket holds exactly the periods of the timetable with that day and slot key: nothing else, and every such period |
| TeacherTimetableGrid.BucketAppend | apps/web/src/components/timetable/TeacherTimetableGrid.tsx:99-104 | buckets keep the timetable's order: a period appended to the timetable is appended to its own bucket and to no other |
| TeacherTimetableGrid.TimetableByDay | apps/web/src/components/timetable/TeacherTimetableGrid.tsx:89-107 | the grid has exactly the seven DAYS, each with exactly the slot keys, and each cell is the periods of that day and slot in input order, so periods on any other day appear nowhere |
| TeacherTimetableGrid.Push | apps/web/src/components/timetable/TeacherTimetableGrid.tsx:99-104 | a period whose day and slot exist is appended to that one cell; every other cell, and the shape of the grid, is unchanged |
| TeacherTimetableGrid.EmptyRow | apps/web/src/components/timetable/TeacherTimetableGrid.tsx:93-96 | a new row maps every slot key, and only those, to an empty list |
| TeacherTimetableGrid.EmptyGrid | apps/web/src/components/timetable/TeacherTimetableGrid.tsx:92-97 | before any period is placed the grid has every day and every slot, all empty |
| TeacherTimetableGrid.OccurrencesDistinct | apps/web/src/components/timetable/TeacherTimetableGrid.tsx:23 | in a list without repeats a value occurs once or not at all |
| TeacherTimetableGrid.GridTotalStep | apps/web/src/components/timetable/TeacherTimetableGrid.tsx:99-104 | placing one more period adds one to the grid total when its day is listed, and nothing otherwise |
| TeacherTimetableGrid.GridHoldsEveryListedPeriod | apps/web/src/components/timetable/TeacherTimetableGrid.tsx:99-104 | the sum of all bucket sizes equals the number of periods whose day is in DAYS |
| TeacherTimetableGrid.DaysDistinct | apps/web/src/components/timetable/TeacherTimetableGrid.tsx:23 | DAYS lists every day once |
| TeacherTimetableGrid.PeriodDisplay | apps/web/src/components/timetable/TeacherTimetableGrid.tsx:125-160 | a non-lesson shows its type with empty subtitle and class info; a tertiary lesson shows the course or "Course" and the room; a secondary lesson the subject or "Subject"; any other lesson the subject or "Free Period"; outside tertiary the subtitle is the arm, else the class, and the class info the room |
| TeacherTimetableGrid.ColorsFor | apps/web/src/components/timetable/TeacherTimetableGrid.tsx:276 | a listed period type gets its own colours and an unknown type the LESSON colours |
| TeacherTimetableGrid.UnknownKindLooksLikeLesson | apps/web/src/components/timetable/TeacherTimetableGrid.tsx:276 | an unlisted type such as EXAM looks like a lesson |
| TeacherTimetableGrid.DayPeriods | apps/web/src/components/timetable/TeacherTimetableGrid.tsx:338 | the day's filter keeps exactly the periods of the timetable on that day: nothing else, and every such period |
| TeacherTimetableGrid.DayPeriodsAppend | apps/web/src/components/timetable/TeacherTimetableGrid.tsx:338 | the filter keeps order: filtering a concatenation concatenates the filters |
| TeacherTimetableGrid.InsertByStart | apps/web/src/components/timetable/TeacherTimetableGrid.tsx:356 | inserting a period before the first one that does not start earlier keeps the list ordered by start time and adds exactly that period |
| TeacherTimetableGrid.SortByStart | apps/web/src/components/timetable/TeacherTimetableGrid.tsx:356 | the day's periods are ordered by start time and are a permutation of the input |
| TeacherTimetableGrid.DaySchedule | apps/web/src/components/timetable/TeacherTimetableGrid.tsx:338-356 | a day's list is ordered by start time, is a permutation of that day's periods, and holds only periods of that day |
| StudentAdmission.CapitalizeWords | apps/web/src/components/modals/StudentAdmissionModal.tsx:107-110 | capitalising keeps the length of the text |
| StudentAdmission.CapitalizeAt | apps/web/src/components/modals/StudentAdmissionModal.tsx:109 | a position is upper-cased exactly where `\b\w` matches, that is where a word character follows a non-word character or the start, and is left unchanged elsewhere |
| StudentAdmission.CapitalizeWordsChanges | apps/web/src/components/modals/StudentAdmissionModal.tsx:107-110 | only lower-case letters that start a word change; no word start is lower-case afterwards; the text is the same apart from case |
| StudentAdmission.WordStartsKept | apps/web/src/components/modals/StudentAdmissionModal.tsx:109 | capitalising moves no word boundary |
| StudentAdmission.CapitalizeWordsIdempotent | apps/web/src/components/modals/StudentAdmissionModal.tsx:107-110 | capitalising twice gives the same as capitalising once |
| StudentAdmission.CapitalizeKeepsBlank | apps/web/src/components/modals/StudentAdmissionModal.tsx:107-110 | the capitalised name is blank after trimming exactly when the typed one is |
| StudentAdmission.CapitalizeExample | apps/web/src/components/modals/StudentAdmissionModal.tsx:107-110 | "mary-jane o'neil" becomes "Mary-Jane O'Neil": the hyphen and the apostrophe both start a word |
| StudentAdmission.CalculateAge | apps/web/src/components/modals/StudentAdmissionModal.tsx:179-189 | an empty date gives ''; a date that does not parse gives "NaN"; otherwise the result is the number of birthdays passed by today (the unique k with the k-th anniversary reached and the next not) |
| StudentAdmission.IsFormValid | apps/web/src/components/modals/StudentAdmissionModal.tsx:245-257 | true exactly when first name, last name, phone, parent name, parent phone and relationship are non-blank after trimming and date of birth, gender and class level are non-empty, in both directions |
| StudentAdmission.BlankNameIsInvalid | apps/web/src/components/modals/StudentAdmissionModal.tsx:247 | a first name of white space only keeps the form from being submitted |
| StudentAdmission.NameChangeKeepsValidity | apps/web/src/components/modals/StudentAdmissionModal.tsx:171-177 | storing the capitalised name instead of the typed one never changes whether the form is valid |
| StudentAdmission.ArmsOfLevel | apps/web/src/components/modals/StudentAdmissionModal.tsx:76 | the arms kept are exactly those of the given level, none added |
| StudentAdmission.ArmsOfLevelAppend | apps/web/src/components/modals/StudentAdmissionModal.tsx:76 | the filter keeps input order: filtering a concatenation is the concatenation of the filters |
| StudentAdmission.ClassArmsByLevel | apps/web/src/components/modals/StudentAdmissionModal.tsx:75-78 | the grouping has a key for exactly the ids of the levels, and each key holds that level's arms |
| StudentAdmission.FindArm | apps/web/src/components/modals/StudentAdmissionModal.tsx:603 | no arm is found exactly when no arm has the id; a found arm is in the list and has the id |
| StudentAdmission.FindArmIsFirst | apps/web/src/components/modals/StudentAdmissionModal.tsx:603 | the arm found is the first with that id |
| StudentAdmission.LevelOfArm | apps/web/src/components/modals/StudentAdmissionModal.tsx:603-607 | the level written is the found arm's level name, or '' when no arm has the id |
| StudentAdmission.PayloadOf | apps/web/src/components/modals/StudentAdmissionModal.tsx:279-300 | the class level is dropped exactly when an arm is chosen; every other field is the sanitised record's |
| StudentAdmission.PayloadNamesOneClass | apps/web/src/components/modals/StudentAdmissionModal.tsx:287 | once the arm-or-level rule accepts the inputs, the payload names exactly one of arm and level |
| StudentAdmission.Messages | apps/web/src/components/modals/StudentAdmissionModal.tsx:224 | one message per entry, in entry order |
| StudentAdmission.LastForPresent | apps/web/src/components/modals/StudentAdmissionModal.tsx:223 | a field gets a message exactly when some entry names it |
| StudentAdmission.LastForIsLast | apps/web/src/components/modals/StudentAdmissionModal.tsx:223 | the message a field keeps is that of the last entry naming it |
| StudentAdmission.CollectErrors | apps/web/src/components/modals/StudentAdmissionModal.tsx:348-375 | the loop lists every entry's message in order and leaves exactly the map `FieldErrorsOf` describes: each named field with its last message, and no other field |
| StudentAdmission.FieldErrorsOfMeaning | apps/web/src/components/modals/StudentAdmissionModal.tsx:348-376 | the field errors a batch leaves have a key exactly for each field some entry names, holding the message of the last entry for that field |
| StudentAdmission.Summarize | apps/web/src/components/modals/StudentAdmissionModal.tsx:379-386 | one message is toasted as it is; more give "Please fix n errors in the form" and show the first as the banner; none give the generic message; the banner is set exactly when there is more than one |
| StudentAdmission.RepeatedFieldShowsLast | apps/web/src/components/modals/StudentAdmissionModal.tsx:223 | of two issues on one field, the field shows the second |
| StudentAdmission.RepeatedFieldCountsTwice | apps/web/src/components/modals/StudentAdmissionModal.tsx:230-234 | two issues on one field still count as two errors, and the banner shows the first |
| StudentAdmission.ClientEntries | apps/web/src/components/modals/StudentAdmissionModal.tsx:220-226 | the entries are exactly the issues whose path starts with a non-empty name, none with an empty field |
| StudentAdmission.ClientEntriesAppend | apps/web/src/components/modals/StudentAdmissionModal.tsx:220-226 | the conversion keeps order and multiplicity: converting a concatenation of issues concatenates the conversions |
| StudentAdmission.ClientEntriesOne | apps/web/src/components/modals/StudentAdmissionModal.tsx:220-226 | one issue gives one entry under its first path name when that name is non-empty, and none otherwise |
| StudentAdmission.FieldName | apps/web/src/components/modals/StudentAdmissionModal.tsx:349 | the field name is never empty: a missing path head gives 'unknown' |
| StudentAdmission.FieldLabel | apps/web/src/components/modals/StudentAdmissionModal.tsx:333-350 | a listed field shows its label, any other its own name, and a non-empty name never shows as '' |
| StudentAdmission.UserMessage | apps/web/src/components/modals/StudentAdmissionModal.tsx:351-371 | each zod code gets its own message (minimum length only when the minimum is non-zero), and an unknown code keeps the server's message or 'Invalid value' |
| StudentAdmission.FormatMessage | apps/web/src/components/modals/StudentAdmissionModal.tsx:359-366 | a name containing 'email' gets the e-mail message, else one containing 'phone' the phone message, else the generic one |
| StudentAdmission.ContactLabels | apps/web/src/components/modals/StudentAdmissionModal.tsx:334-337 | the labels of the four contact fields |
| StudentAdmission.EmailGetsEmailMessage | apps/web/src/components/modals/StudentAdmissionModal.tsx:360-361 | the field 'email' gets the e-mail message |
| StudentAdmission.PhoneGetsPhoneMessage | apps/web/src/components/modals/StudentAdmissionModal.tsx:362-363 | the field 'phone' gets the phone message |
| StudentAdmission.ParentEmailGetsGenericMessage | apps/web/src/components/modals/StudentAdmissionModal.tsx:359-366 | 'parentEmail' holds 'Email', not 'email', so it gets the generic format message |
| StudentAdmission.ParentPhoneGetsGenericMessage | apps/web/src/components/modals/StudentAdmissionModal.tsx:359-366 | 'parentPhone' likewise gets the generic format message |
| StudentAdmission.ServerEntries | apps/web/src/components/modals/StudentAdmissionModal.tsx:348-375 | one entry per server issue, in order, naming its field and its message |
| StudentAdmission.FailureMessage | apps/web/src/components/modals/StudentAdmissionModal.tsx:390 | the data object's message, else the error's message, else the default; never '' |
| StudentAdmission.ConflictIsLong | apps/web/src/components/modals/StudentAdmissionModal.tsx:393-397 | a 409 status, or a message mentioning 'already exists', gets the long toast |
| StudentAdmission.LongToast | apps/web/src/components/modals/StudentAdmissionModal.tsx:393 | a rejection is toasted for six seconds when its status is 409 or its message mentions 'already exists' or 'transfer' |
| StudentAdmission.AdmissionForm.constructor | apps/web/src/components/modals/StudentAdmissionModal.tsx:112-136 | every input empty, no errors, no banner, not loading |
| StudentAdmission.AdmissionForm.Reset | apps/web/src/components/modals/StudentAdmissionModal.tsx:139-169 | every input and error is cleared and nothing else changes |
| StudentAdmission.AdmissionForm.NameChange | apps/web/src/components/modals/StudentAdmissionModal.tsx:171-177 | the capitalised value is stored in that field alone and only that field's error is cleared |
| StudentAdmission.AdmissionForm.DateOfBirthChange | apps/web/src/components/modals/StudentAdmissionModal.tsx:191-196 | the date and its age are stored together, no other input changes, and the date's error is cleared; a non-empty date that does not parse stores the age "NaN" |
| StudentAdmission.AdmissionForm.SelectArm | apps/web/src/components/modals/StudentAdmissionModal.tsx:601-611 | the arm id and the arm's level name are stored and both errors cleared |
| StudentAdmission.AdmissionForm.SelectLevel | apps/web/src/components/modals/StudentAdmissionModal.tsx:682-690 | the level is stored, the arm forgotten and the level's error cleared |
| StudentAdmission.AdmissionForm.Report | apps/web/src/components/modals/StudentAdmissionModal.tsx:376-386 | the field errors become exactly `FieldErrorsOf` the entries (the last message per named field) and the toast carries the summary; with several entries the banner shows the first message, otherwise it is left as it was; the inputs stay |
| StudentAdmission.AdmissionForm.Submit | apps/web/src/components/modals/StudentAdmissionModal.tsx:259-399 | an invalid form gets exactly the field errors and banner of its issues and sends nothing; a missing school sets the banner and sends nothing; otherwise one request with the payload goes out, and success closes the modal with the field errors and the banner cleared, while a rejection leaves the errors its issue list or message gives |
| StudentAdmission.AdmissionForm.Admit | apps/web/src/components/modals/StudentAdmissionModal.tsx:275-325 | the request is recorded; success toasts and closes with loading still on; a rejection stops loading; an issue list leaves exactly its field errors and, for several issues, the first issue's message in the banner (else the banner is kept); any other rejection sets the banner |
| StudentAdmission.AdmissionForm.ShowRejection | apps/web/src/components/modals/StudentAdmissionModal.tsx:326-398 | an issue list leaves exactly the field errors of its issues, the summary toast, and for several issues the first message in the banner, the banner otherwise kept; any other failure sets the banner and toasts it, long for conflicts and transfers |
| StudentAdmission.AdmissionForm.ShowFailure | apps/web/src/components/modals/StudentAdmissionModal.tsx:389-396 | a rejection without an issue list puts its message in the banner and in one toast of the given length, leaving the field errors and everything else as they were |
| CalendarEvent.MarkedIsMilestone | apps/web/src/components/calendar/CustomEvent.tsx:82 | any type holding 'SESSION' or 'TERM' is a milestone |
| CalendarEvent.UnmarkedIsNotMilestone | apps/web/src/components/calendar/CustomEvent.tsx:82 | a type with neither an 'S' nor an 'R', other than HALF_TERM, is not a milestone |
| CalendarEvent.IsMilestone | apps/web/src/components/calendar/CustomEvent.tsx:82 | an event type is a milestone when it contains "SESSION" or "TERM" or is "HALF_TERM"; `MilestoneTypes` proves these are exactly the marker types |
| CalendarEvent.IsAllDay | apps/web/src/components/calendar/CustomEvent.tsx:83-84 | milestones are all-day, and any other event is all-day when it runs from 00:00 to 23:59 |
| CalendarEvent.MilestoneTypes | apps/web/src/components/calendar/CustomEvent.tsx:82 | of the eleven declared types, exactly the two session markers, the two term markers and HALF_TERM are milestones, in both directions |
| CalendarEvent.KnownType | apps/web/src/components/calendar/CustomEvent.tsx:17-73 | a type that is recognised is the declared type of that name |
| CalendarEvent.KnownTypeOfName | apps/web/src/components/calendar/CustomEvent.tsx:17-73 | every declared type is recognised by its own name |
| CalendarEvent.PaletteKey | apps/web/src/components/calendar/CustomEvent.tsx:76 | a declared type uses its own colours and any other string those of EVENT |
| CalendarEvent.LocationText | apps/web/src/components/calendar/CustomEvent.tsx:99-110 | the location row appears exactly when a room or a location is set, and shows the room before the location |
| CalendarEvent.Render | apps/web/src/components/calendar/CustomEvent.tsx:82-112 | the title is bold exactly for milestones, the start time shows exactly for events that are not all-day, and the location row follows LocationText |
| CalendarEvent.MilestoneHasNoTime | apps/web/src/components/calendar/CustomEvent.tsx:82-93 | a milestone tile never shows a start time, whatever its clock times |
| EndTermModal.TermLabel | apps/web/src/components/modals/EndTermModal.tsx:23 | the default 'Term' applies only when no label is passed; a passed label, even '', is kept |
| EndTermModal.DisplayName | apps/web/src/components/modals/EndTermModal.tsx:26-28 | "session - term" when both names are set, else whichever is set, else "the current" and the lower-cased label |
| EndTermModal.CeilDiv | apps/web/src/components/modals/EndTermModal.tsx:33 | the quotient rounded up: the least q with a <= q * d |
| EndTermModal.DaysRemaining | apps/web/src/components/modals/EndTermModal.tsx:32-34 | 0 without a date, NaN for a date that does not parse, and otherwise the days left rounded up, at least 1 when the term ends early |
| EndTermModal.IsEndingEarly | apps/web/src/components/modals/EndTermModal.tsx:31 | a term ends early when a scheduled end is given, parses, and lies after now; an unparseable date never counts as early |
| EndTermModal.DaysText | apps/web/src/components/modals/EndTermModal.tsx:39 | the day count as the template prints it: the decimal digits of a count, "NaN" for a date that does not parse |
| EndTermModal.EarlyWarning | apps/web/src/components/modals/EndTermModal.tsx:38-40 | the warning is empty exactly when the term is not ending early; an early warning opens with the warning sign and closes with the note that the term can be continued later |
| EndTermModal.WarningNamesLabelAndDays | apps/web/src/components/modals/EndTermModal.tsx:39 | an early warning names the lower-cased term label followed by a space and the day count |
| EndTermModal.WarningNamesDaysAndDate | apps/web/src/components/modals/EndTermModal.tsx:39 | an early warning holds the day count followed by " days before its scheduled end date (", the end date and the closing note, in that order, running to its end |
| EndTermModal.Confirm | apps/web/src/components/modals/EndTermModal.tsx:31-53 | ending early gives the "Early?" title, the "Early" button and the danger variant, otherwise the plain title and button and the warning variant; the message is the question, the warning and the standard text in that order |
| EndTermModal.OnTimeMessage | apps/web/src/components/modals/EndTermModal.tsx:31-50 | with no end date, or one already passed, the message is just the question and the standard text, with the warning variant |
| EndTermModal.MessageFraming | apps/web/src/components/modals/EndTermModal.tsx:50 | every message opens with the question and closes with the standard text |
| ProfileAvatarUpload.Initial | apps/web/src/components/profile/ProfileAvatarUpload.tsx:41-42 | a non-empty name gives its first character upper-cased, a missing or empty one '' |
| ProfileAvatarUpload.Initials | apps/web/src/components/profile/ProfileAvatarUpload.tsx:40-44 | 'U' when neither name is set, else the two initials joined |
| ProfileAvatarUpload.InitialsShape | apps/web/src/components/profile/ProfileAvatarUpload.tsx:40-44 | the initials are one or two characters, two exactly when both names are set, led by the first name's initial when there is one |
| ProfileAvatarUpload.Rejection | apps/web/src/components/profile/ProfileAvatarUpload.tsx:50-62 | a bad type is refused first, then an oversized file; a file passes exactly when its type is allowed and it is at most 5 MiB |
| ProfileAvatarUpload.FiveMebibytesExactly | apps/web/src/components/profile/ProfileAvatarUpload.tsx:58-59 | the size limit is inclusive: 5242880 bytes pass, 5242881 do not |
| ProfileAvatarUpload.AvatarUpload.constructor | apps/web/src/components/profile/ProfileAvatarUpload.tsx:31 | the preview starts as the current image when it is set, else none |
| ProfileAvatarUpload.AvatarUpload.HandleFileSelect | apps/web/src/components/profile/ProfileAvatarUpload.tsx:46-104 | no file changes nothing; a refused file only adds its toast; an accepted file is uploaded and the input reset; a successful reply with an image shows it, reports it, updates the signed-in user and toasts; a reply without one keeps the data-URL preview; a failure toasts and restores the current image |
| AutoGenerateSubjects.SchoolTypeLabel | apps/web/src/hooks/useAutoGenerateSubjects.ts:37-39 | primary and secondary get their readable labels, a tertiary school shows its own type name, and no type shows 'School' |
| AutoGenerateSubjects.ResultMessage | apps/web/src/hooks/useAutoGenerateSubjects.ts:67-73 | with subjects created the message counts them and adds the skipped count only when some were skipped; with none created it reports the skipped ones, or that there was nothing to generate |
| AutoGenerateSubjects.ResultMessageCase | apps/web/src/hooks/useAutoGenerateSubjects.ts:67-73 | the message's opening tells which case the counts fell into, in both directions |
| AutoGenerateSubjects.CanAutoGenerate | apps/web/src/hooks/useAutoGenerateSubjects.ts:35 | only primary and secondary schools may generate subjects; `OpenConfirmModal` and `HandleAutoGenerate` act only then |
| AutoGenerateSubjects.AutoGenerator.constructor | apps/web/src/hooks/useAutoGenerateSubjects.ts:30 | the confirm modal starts closed, with no toasts and no requests |
| AutoGenerateSubjects.AutoGenerator.OpenConfirmModal | apps/web/src/hooks/useAutoGenerateSubjects.ts:41-47 | the modal opens exactly for primary and secondary schools; otherwise only the error toast is raised |
| AutoGenerateSubjects.AutoGenerator.CloseConfirmModal | apps/web/src/hooks/useAutoGenerateSubjects.ts:49-51 | the modal closes and nothing else changes |
| AutoGenerateSubjects.AutoGenerator.HandleAutoGenerate | apps/web/src/hooks/useAutoGenerateSubjects.ts:53-80 | without a school id, a type or permission the guard toast is raised and nothing is sent; otherwise one request with the school and its type goes out, success toasts the counts and closes the modal, failure toasts the server's message or the default and leaves the modal |
| ToolAccess.Nullish | apps/web/src/hooks/useToolAccess.ts:30-31 | `?? 0` replaces only an absent value |
| ToolAccess.AiCredits | apps/web/src/hooks/useToolAccess.ts:29-32 | no summary gives zero credits; otherwise each figure is the summary's own, or 0 when absent |
| ToolAccess.SentinelPassesThrough | apps/web/src/hooks/useToolAccess.ts:30-31 | the unlimited-credits value -1 reaches the caller unchanged |
| ToolAccess.Accessible | apps/web/src/hooks/useToolAccess.ts:35-41 | the filter never yields more tools than it was given |
| ToolAccess.AccessibleTools | apps/web/src/hooks/useToolAccess.ts:35 | no summary, or a summary without tools, gives no tools |
| ToolAccess.AccessibleAppend | apps/web/src/hooks/useToolAccess.ts:35-41 | the filter keeps order: the tools of a concatenation are the tools of each part |
| ToolAccess.AccessibleMembers | apps/web/src/hooks/useToolAccess.ts:36-41 | every tool handed out is the copy of one the school has access to, and every such tool is handed out |
| ToolAccess.FullAccessKeepsAll | apps/web/src/hooks/useToolAccess.ts:36-41 | with access to every tool, all come out, in order |
| ToolAccess.NoAccessKeepsNone | apps/web/src/hooks/useToolAccess.ts:36 | with access to none, nothing comes out |
| OperationsApi.ValueOf | apps/web/src/lib/store/api/operationsApi.ts:72-78 | a filter contributes a value only when truthy, and the value is never '' |
| OperationsApi.KeyAt | apps/web/src/lib/store/api/operationsApi.ts:72-78 | each of the seven places in the query holds the key of that rank |
| OperationsApi.Only | apps/web/src/lib/store/api/operationsApi.ts:72-78 | one key contributes a parameter exactly when its filter is truthy, with that filter's value |
| OperationsApi.ParamIf | apps/web/src/lib/store/api/operationsApi.ts:72-78 | a present value gives the one parameter, an absent one none |
| OperationsApi.UptoMeaning | apps/web/src/lib/store/api/operationsApi.ts:72-78 | the parameters of the first n ranks are exactly the truthy filters of those ranks, in rank order |
| OperationsApi.QueryParamsMeaning | apps/web/src/lib/store/api/operationsApi.ts:71-78 | the query has one parameter per truthy filter and none other, in the order severity, status, errorType, startDate, endDate, limit, offset |
| OperationsApi.AppendIf | apps/web/src/lib/store/api/operationsApi.ts:72-78 | `if (value) params.append`: the parameter is added at the end exactly when the value is present |
| OperationsApi.BuildParams | apps/web/src/lib/store/api/operationsApi.ts:71-78 | the seven appends yield the reference parameter list QueryParams |
| OperationsApi.UptoNext | apps/web/src/lib/store/api/operationsApi.ts:72-78 | appending the next rank's parameter extends the reference list by one rank |
| OperationsApi.JoinEmpty | apps/web/src/lib/store/api/operationsApi.ts:80 | a join of non-empty pieces is empty exactly when there are none |
| OperationsApi.QueryString | apps/web/src/lib/store/api/operationsApi.ts:80 | the parameters as key=value pairs joined by "&"; `QueryStringEmpty` proves it empty exactly when there are none |
| OperationsApi.QueryStringEmpty | apps/web/src/lib/store/api/operationsApi.ts:80-82 | the query string is empty exactly when there are no parameters |
| OperationsApi.SchoolErrorsQuery | apps/web/src/lib/store/api/operationsApi.ts:69-85 | a GET of the school's errors path, with `?` and the query only when there is a parameter; missing filters count as none |
| OperationsApi.NoFiltersBarePath | apps/web/src/lib/store/api/operationsApi.ts:70-82 | with no filter set there are no parameters, so the URL is the bare path |
| OperationsApi.ZeroPagingOmitted | apps/web/src/lib/store/api/operationsApi.ts:77-78 | a limit or offset of 0 is left out of the query, like an absent one |
| OperationsApi.UptoSameValues | apps/web/src/lib/store/api/operationsApi.ts:72-78 | filter sets that contribute the same values yield the same parameters |
| OperationsApi.TransformResponse | apps/web/src/lib/store/api/operationsApi.ts:86-89 | the envelope's data when it is truthy, else the whole reply |
| OperationsApi.DataOf | apps/web/src/lib/store/api/operationsApi.ts:88 | the reply's "data" field when the reply is an object that has one, and nothing otherwise |
| OperationsApi.EnvelopeUnwrapped | apps/web/src/lib/store/api/operationsApi.ts:87-88 | a ResponseDto envelope around a truthy payload gives back the payload |
| OperationsApi.FalsyPayloadKeepsEnvelope | apps/web/src/lib/store/api/operationsApi.ts:88 | an empty list is still unwrapped, but a payload of 0 or null leaves the envelope in place |
| OperationsApi.ErrorDetailsRequest | apps/web/src/lib/store/api/operationsApi.ts:96-100 | a GET of the error's own path |
| OperationsApi.ErrorDetailsTags | apps/web/src/lib/store/api/operationsApi.ts:105 | the error details query provides the one Error tag of that error id |
| OperationsApi.UpdateStatusRequest | apps/web/src/lib/store/api/operationsApi.ts:109-117 | a PATCH of its status to the error's status path |
| OperationsApi.UpdateStatusInvalidates | apps/web/src/lib/store/api/operationsApi.ts:122-126 | exactly three tags are invalidated: the error's own details tag and the SchoolErrors and ErrorStats LIST tags |
| OperationsApi.SchoolErrorsTags | apps/web/src/lib/store/api/operationsApi.ts:90-92 | the school error list provides the one SchoolErrors tag of that school id |
| OperationsApi.StatsTags | apps/web/src/lib/store/api/operationsApi.ts:143-145 | the stats query provides the one ErrorStats tag of that school id |
| OperationsApi.ListTagsDifferFromProvided | apps/web/src/lib/store/api/operationsApi.ts:90-126 | the LIST tags the update invalidates are not the tags the school's list and stats queries provide |
| OperationsApi.StatsRequest | apps/web/src/lib/store/api/operationsApi.ts:130-138 | a GET of the school's stats path; days defaults to 30, is sent as text when non-zero and is dropped when 0 |
| SchoolSelection.SchoolSource | apps/web/src/hooks/useSchoolType.ts:27-42 | each school query is skipped unless the user has its role: students run only the student query, teachers only the teacher query, school admins only the admin query, and any other role or no user runs none |
| SchoolSelection.SchoolOf | apps/web/src/hooks/useSchoolType.ts:38-42 | the school read is the data of the one query that runs, and none when every query is skipped |
| SchoolSelection.OtherRoleHasNoTypes | apps/web/src/hooks/useSchoolType.ts:38-57 | a user whose role runs no query has no school and no school types to choose from |
| SchoolSelection.AvailableTypes | apps/web/src/hooks/useSchoolType.ts:65-68 | a type is available exactly when its flag is set, in the order primary, secondary, tertiary |
| SchoolSelection.FromFlags | apps/web/src/hooks/useSchoolType.ts:64-81 | the flags are copied; the school is mixed exactly when more than one type is available; the main type is MIXED, the one type, or PRIMARY when none |
| SchoolSelection.Info | apps/web/src/hooks/useSchoolType.ts:47-82 | no school gives the empty record, a school with the server's type information gives that unchanged, and any other school the flags' computation |
| SchoolSelection.MixedIffSeveralFlags | apps/web/src/hooks/useSchoolType.ts:65-72 | computed from the flags, a school is mixed exactly when at least two flags are set, and a secondary-only school reports SECONDARY |
| SchoolSelection.StoredChoice | apps/web/src/hooks/useSchoolType.ts:90-111 | a stored value is adopted only when it names an available type; when none is adopted, no available type has the stored name |
| SchoolSelection.TypeSelection.constructor | apps/web/src/hooks/useSchoolType.ts:44 | no current type yet, storage as the browser holds it, nothing broadcast |
| SchoolSelection.TypeSelection.Initialise | apps/web/src/hooks/useSchoolType.ts:85-103 | nothing happens without an available type; otherwise the stored type is adopted when available, else the first available type is adopted and written back; either way selection and storage then agree |
| SchoolSelection.TypeSelection.OnTypeChanged | apps/web/src/hooks/useSchoolType.ts:109-114 | the stored type is adopted when available, otherwise the selection stays |
| SchoolSelection.TypeSelection.SetCurrentType | apps/web/src/hooks/useSchoolType.ts:121-127 | an available type is stored, made current and broadcast once; any other changes nothing; agreement of selection and storage is kept |
| ErrorStats.OrZero | apps/web/src/components/schools/ErrorStats.tsx:60 | a falsy count is read as 0: the count when present, 0 when absent |
| ErrorStats.CountOf | apps/web/src/components/schools/ErrorStats.tsx:44-54 | a level's count is the record's entry, or 0 when the record or the entry is missing |
| ErrorStats.Positive | apps/web/src/components/schools/ErrorStats.tsx:48-55 | the filter never yields more slices than it was given |
| ErrorStats.PositiveMembers | apps/web/src/components/schools/ErrorStats.tsx:48-55 | a slice survives exactly when it was there with a positive value |
| ErrorStats.PositiveAppend | apps/web/src/components/schools/ErrorStats.tsx:48-55 | the filter keeps order: filtering a concatenation concatenates the filters |
| ErrorStats.PositiveStep | apps/web/src/components/schools/ErrorStats.tsx:48-55 | the first slice is kept exactly when positive, ahead of the rest |
| ErrorStats.FourSlices | apps/web/src/components/schools/ErrorStats.tsx:43-55 | of four slices each positive one is kept, in place |
| ErrorStats.SeverityDataOrder | apps/web/src/components/schools/ErrorStats.tsx:43-48 | the severity series is Low, Medium, High, Critical in that order, each present exactly when its defaulted count is positive |
| ErrorStats.StatusDataOrder | apps/web/src/components/schools/ErrorStats.tsx:50-55 | the status series is Unresolved, Investigating, Resolved, Ignored in that order, each present exactly when its defaulted count is positive |
| ErrorStats.SeverityData | apps/web/src/components/schools/ErrorStats.tsx:43-48 | the severity series: the four defaulted counts filtered to the positive ones; `SeverityDataOrder` gives its order and membership |
| ErrorStats.StatusData | apps/web/src/components/schools/ErrorStats.tsx:50-55 | the status series: the four defaulted counts filtered to the positive ones; `StatusDataOrder` gives its order and membership |
| ErrorStats.ShowsFailure | apps/web/src/components/schools/ErrorStats.tsx:31 | the failure card shows when there is an error, no stats, or no severity or status record |
| ErrorStats.TrendData | apps/web/src/components/schools/ErrorStats.tsx:58-61 | one point per trend item, in order, with the count defaulting to 0 |
| ErrorStats.TopTen | apps/web/src/components/schools/ErrorStats.tsx:178-187 | the list is shown exactly when present and non-empty, and then as its first ten entries, or all when fewer |
| ErrorStats.Render | apps/web/src/components/schools/ErrorStats.tsx:21-212 | loading shows the loading card; otherwise the failure view shows exactly when there is an error, no stats, or no severity or status record; the charts view carries the four defaulted summary counts, both ordered series, the trend card only when it has points, and the top ten; the trend card carries exactly the recent trends' points |
| ErrorList.QueryFilters | apps/web/src/components/schools/ErrorList.tsx:45-52 | the list's query keeps the chosen filters, sets no dates, and always asks for limit 50 and offset 0 |
| ErrorList.ListQueryPaging | apps/web/src/components/schools/ErrorList.tsx:49-50 | the query string always carries limit=50 and never an offset, because 0 is falsy |
| ErrorList.ParseSeverity | apps/web/src/components/schools/ErrorList.tsx:122 | a recognised option names its level, and All ('') clears the filter |
| ErrorList.ParseStatus | apps/web/src/components/schools/ErrorList.tsx:141 | a recognised option names its status, and All ('') clears the filter |
| ErrorList.TypeFilter | apps/web/src/components/schools/ErrorList.tsx:160 | the type filter is cleared exactly when the box is empty, else holds the text |
| ErrorList.RowActions | apps/web/src/components/schools/ErrorList.tsx:230-247 | resolve is offered exactly when the error is not resolved, investigate exactly when it is unresolved, and nothing else |
| ErrorList.RowActionCases | apps/web/src/components/schools/ErrorList.tsx:230-247 | unresolved rows offer both actions, investigating and ignored rows only resolve, resolved rows none |
| ErrorList.RowActionsEnabledInDetail | apps/web/src/components/schools/ErrorList.tsx:230-247 | every action a row offers is also enabled in the detail modal |
| ErrorList.OccurrencesBadge | apps/web/src/components/schools/ErrorList.tsx:192-196 | the badge shows exactly when the error occurred more than once, as the count and 'x' |
| ErrorList.RequestLine | apps/web/src/components/schools/ErrorList.tsx:217-219 | the row's request line shows exactly when the path is set, and a missing method leaves just the space |
| ErrorList.DetailLineImpliesRowLine | apps/web/src/components/schools/ErrorList.tsx:217-219 | where the modal shows its Method & Path line the row shows the same text, and with a method set both show under the same condition |
| ErrorList.Heading | apps/web/src/components/schools/ErrorList.tsx:87-98 | the heading counts the total, and 0 when it is missing |
| ErrorList.UpdateNotice | apps/web/src/components/schools/ErrorList.tsx:56-63 | success says the status in lower case; failure shows the server's message or the default |
| ErrorList.ErrorListView.constructor | apps/web/src/components/schools/ErrorList.tsx:37-43 | no filters, no selection, filters hidden |
| ErrorList.ErrorListView.ToggleFilters | apps/web/src/components/schools/ErrorList.tsx:104 | the filter panel flips and nothing else changes |
| ErrorList.ErrorListView.ChooseSeverity | apps/web/src/components/schools/ErrorList.tsx:119-123 | just the severity filter changes, and All clears it |
| ErrorList.ErrorListView.ChooseStatus | apps/web/src/components/schools/ErrorList.tsx:138-142 | just the status filter changes, and All clears it |
| ErrorList.ErrorListView.TypeErrorType | apps/web/src/components/schools/ErrorList.tsx:157-160 | just the type filter changes, and an empty box clears it |
| ErrorList.ErrorListView.Select | apps/web/src/components/schools/ErrorList.tsx:226 | the row's error becomes the selection |
| ErrorList.ErrorListView.CloseDetail | apps/web/src/components/schools/ErrorList.tsx:258 | the selection is cleared |
| ErrorList.ErrorListView.HandleStatusUpdate | apps/web/src/components/schools/ErrorList.tsx:56-63 | one update request is sent for the given errorId and status, and one toast for its outcome |
| ErrorList.ErrorListView.RowStatusUpdate | apps/web/src/components/schools/ErrorList.tsx:230-247 | only an offered action can be pressed, and its update is addressed by the row's errorId |
| ErrorList.ErrorListView.DetailStatusUpdate | apps/web/src/components/schools/ErrorList.tsx:259-262 | the modal's update goes to the selected error's errorId and the selection is cleared whatever the outcome |
| ErrorDetail.Buttons | apps/web/src/components/schools/ErrorDetail.tsx:213-238 | three buttons, Mark Resolved, Mark Investigating and Ignore, each enabled exactly when the error does not already have its target status |
| ErrorDetail.EnabledTargetsAreTheOthers | apps/web/src/components/schools/ErrorDetail.tsx:213-238 | the statuses offered are exactly the other members of RESOLVED, INVESTIGATING and IGNORED; UNRESOLVED is never offered |
| ErrorDetail.EnabledTargetCount | apps/web/src/components/schools/ErrorDetail.tsx:213-238 | an unresolved error offers three choices, any other two |
| ErrorDetail.Press | apps/web/src/components/schools/ErrorDetail.tsx:216-235 | a button sends something exactly when enabled, and then its own target, never UNRESOLVED |
| ErrorDetail.OccurrenceBadge | apps/web/src/components/schools/ErrorDetail.tsx:49-53 | the badge shows exactly when the error occurred more than once, with the count |
| ErrorDetail.ContextRows | apps/web/src/components/schools/ErrorDetail.tsx:117-155 | the Method & Path row shows exactly when both are set, the IP and user-agent rows exactly when each is set |
| ErrorDetail.MethodAndPath | apps/web/src/components/schools/ErrorDetail.tsx:126-133 | the line shows exactly when method and path are both set, as method, space, path |
| ErrorDetail.ShownSections | apps/web/src/components/schools/ErrorDetail.tsx:89-117 | the stack trace section shows exactly when there is a trace, the context box exactly when there is a context |
| Text.Lower | apps/web/src/lib/validations/school-forms.ts:207 | `toLowerCase` on ASCII: upper-case letters move to lower case, every other character stays |
| Text.Upper | apps/web/src/components/modals/StudentAdmissionModal.tsx:109 | `toUpperCase` on ASCII: lower-case letters move to upper case, every other character stays |
| Text.LowerStr | apps/web/src/lib/validations/school-forms.ts:207 | lower-casing a string maps each character and keeps the length |
| Text.UpperStr | apps/web/src/lib/constants/roles.ts:39 | upper-casing a string maps each character and keeps the length |
| Text.LowerStrIdempotent | apps/web/src/lib/validations/school-forms.ts:207 | lower-casing twice is lower-casing once |
| Text.LowerOfUpper | apps/web/src/lib/constants/roles.ts:39 | lower-casing forgets an earlier upper-casing |
| Text.LowerStrConcat | apps/web/src/lib/constants/roles.ts:39 | lower-casing distributes over concatenation |
| Text.Trim | apps/web/src/lib/validations/school-forms.ts:202 | `trim` never lengthens the text and leaves no white space at either end |
| Text.TrimStart | apps/web/src/lib/validations/school-forms.ts:202 | leading white space removed: the result is a suffix of the text that does not start with white space |
| Text.TrimEnd | apps/web/src/lib/validations/school-forms.ts:202 | trailing white space removed: the result is a prefix of the text that does not end with white space |
| Text.TrimIdempotent | apps/web/src/lib/validations/school-forms.ts:202-207 | trimming twice is trimming once |
| Text.TrimEmptyIffAllSpace | apps/web/src/components/modals/StudentAdmissionModal.tsx:247-255 | trimming leaves nothing exactly when the text is all white space |
| Text.TrimIsSlice | apps/web/src/lib/validations/school-forms.ts:202 | the trimmed text is a contiguous slice of the original |
| Text.OrElse | apps/web/src/components/modals/StudentAdmissionModal.tsx:349 | the JavaScript fallback on optional text: the text when non-empty, else the default |
| Text.NatToString | apps/web/src/components/modals/StudentAdmissionModal.tsx:188 | decimal text of a count: non-empty, digits only, no leading zero |
| Text.NatToStringRoundTrip | apps/web/src/components/modals/StudentAdmissionModal.tsx:188 | reading the decimal text back gives the number |
| Text.IntToString | apps/web/src/components/modals/StudentAdmissionModal.tsx:188 | the text is non-empty and starts with '-' exactly for a negative number |
| Calendar.AgeOn | apps/web/src/components/modals/StudentAdmissionModal.tsx:183-187 | the age has been reached by today and the next birthday has not |
| Calendar.AgeUnique | apps/web/src/components/modals/StudentAdmissionModal.tsx:183-187 | only one number has that property, so the age is the number of birthdays passed |
| SchoolKinds.ParseSchoolType | apps/web/src/hooks/useSchoolType.ts:91 | a string is recognised only as the type of that name |
| SchoolKinds.ParseName | apps/web/src/hooks/useSchoolType.ts:91 | every type's name is recognised as that type |

## Left out

- Rendering: JSX, styling and the UI primitives (inputs, selects, badges, cards, toolbars, switchers, layouts) are not part of this model. Only the values they are given are modelled.
- Other files of the app: the subscription page, compact event cards, the calendar connection, the session wizard notice, the public API and the configuration files. They only display data or wrap other code.
- Server calls: `fetch`, the RTK Query hooks and `unwrap()` are not modelled. Every reply is an input value.
- RTK Query's cache and its tag matching are not modelled. The model records which tags are provided and which are invalidated, without saying whether they match.
- The `setCredentials` reducer and the Redux store are not modelled. Each dispatch is recorded as a value.
- `localStorage` is a map field. The `schoolTypeChanged` window event is counted, not delivered, and the hooks are assumed to run in a browser.
- `navigator.clipboard` is not modelled. The stack-trace copy button of the error detail has no model.
- The `FileReader` callback is not modelled: its data URL is a parameter, taken to arrive before the upload reply.
- The image upload that the admission modal starts after a successful admission is not modelled (`apps/web/src/components/modals/StudentAdmissionModal.tsx:310-322`). It is a second server call whose outcome only shows a toast.
- Clocks and dates: `new Date()`, `Date.now()` and date parsing are parameters (calendar dates, clock times, milliseconds). Time zones are left out.
- Locale formatting is left out: `toLocaleDateString`, `toLocaleString`, `toLocaleTimeString` and date-fns. The end-of-term date text is a parameter, and trend points keep the date string they were given.
- Timers and React scheduling: `setTimeout` becomes the explicit `OtpVerification.OtpCollector.Tick`. Stale closures, batched state updates and out-of-order resend or verify replies are not modelled.
- Zod is not modelled. The regular expressions are hand-written predicates, and zod's issue order and aggregation are left out: each field reports the first check that fails.
- `URLSearchParams` percent-encoding is not modelled: the query is `key=value` pairs joined by `&`.
- The Request Body row of the error detail is not modelled, because it shows `JSON.stringify` output of the stored body.
- Unicode is not modelled. Case mapping is ASCII only, and strings are sequences of characters without UTF-16 surrogates.
- `String.prototype.localeCompare` is not modelled: the timetable day lists are ordered code unit by code unit.
- TeacherTimetableGrid.SortByStart: states ordering and permutation but not the stability of `Array.prototype.sort`; periods with equal start times may appear in a different relative order.
- CalendarEvent.PaletteKey: a type named after an `Object.prototype` member (such as "constructor") reads an inherited value in the source; the model falls back to the EVENT colours for every undeclared type.
- TeacherTimetableGrid.ColorsFor: the same inherited-member lookup of `PERIOD_TYPE_COLORS` is not modelled; every unlisted type gets the LESSON colours.
- StudentAdmission.FieldLabel: an issue path named after an `Object.prototype` member would pick up an inherited value in the source; the model shows the name itself.
- StudentAdmission.AdmissionForm.NameChange: the source sets the field's error to `undefined`, and the model removes the key. The form shows no error either way. `DateOfBirthChange`, `SelectArm` and `SelectLevel` do the same.
- LoginPage.LoginOutcome: routes a signed-in user with the corrected `RouteFor` (see Findings), so a role named after an inherited `Object.prototype` member, such as "constructor", goes to "/dashboard" where the code at page.tsx:115 pushes the inherited value. The recorded navigation holds strings only.
- LoginPage.VerifyOutcome: routes with the corrected `RouteFor` as `LoginPage.LoginOutcome` does, for the same reason.
- LoginPage.LoginPage.Submit: records the navigation `LoginOutcome` gives, so it carries the corrected route and not the inherited value `LoginPage.PushTargetAsWritten` models.
- LoginPage.LoginPage.Verify: records the navigation `VerifyOutcome` gives, with the corrected route, as `LoginPage.LoginPage.Submit` does.
- LoginPage.LoginPage.Verify: the error recorded for a reply without a user is V8's TypeError text for an absent user (`MissingUserMessage`). A reply whose user is `null`, or another JavaScript engine, throws other wording; the model does not tell an absent user from a `null` one.
- StudentAdmission.AdmissionForm.Submit: the schema's verdict on the form (`safeParse` of the form with its `|| undefined` conversions, StudentAdmissionModal.tsx:202-214) is an argument of the handler rather than computed from the form, because zod's collection of every field's issues is not modelled. The contract states what the handler does with any verdict.
- `ToolStatus` is kept as the server's string, because the hook only copies it.

## Findings

| source | as written | input that shows it | evidently intended | confidence | as-written member | corrected member |
|---|---|---|---|---|---|---|
| apps/web/src/app/auth/login/page.tsx:108-115 | the role is looked up in an object literal, with '/dashboard' only for a falsy result: a role named after an inherited member reads that member, which is truthy, so `router.push` gets a function | a user whose role is "constructor" | every role other than the four listed goes to "/dashboard" | not executed | LoginPage.PushTargetAsWritten, LoginPage.ConstructorRoleIsNotAPath | LoginPage.RouteFor |
