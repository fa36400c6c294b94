# College ERP front end: sign-up, sign-in and session handling

This project is a Dafny model of the authentication core of the college ERP web
front end. It covers the React components that register and sign in students,
professors and heads of department (HODs), the endpoint tables they post to, the endpoint
probe used to find which backend URLs answer, and the `useAuth` session hook.

- **Endpoint tables** (`ApiEndpoints`). These are fixed URLs under `http://localhost:8080/api/`.
  The builders append their argument verbatim. The lemmas prove that the id can be recovered
  from a `GET_BY_ID` URL, that `GET_BY_ID`, `UPDATE` and `DELETE` are each injective, and that
  no update URL is a delete URL. Because nothing is encoded, a `GET_BY_ID` id containing a
  slash can produce an update URL.
- **Registration forms** (`SignUp`, `Registration`, `Validation`, `Multipart`, `Fallback`,
  and one settings module per component):
  - the form state is a class whose handlers update it in place;
  - `validateForm` is a `for` loop proved against a function that picks the first blank field;
  - the humanised field label is proved to be invertible;
  - the e-mail test is proved equal to the regular expression read literally;
  - the multipart body is built by a `FormData` class;
  - the corrected student form tries the primary endpoint first and then its alternatives.
    The first success wins, and when every attempt fails the primary endpoint's error is rethrown.
- **Sign-in forms** (`SignIn`, `StagedSignIn`, `CorrectedStudentSignIn`, and one settings module per component).
  - Each submission is a pure `Attempt` function: the requests sent, the `localStorage` writes
    in order, the navigation and the final error state.
  - The `handleSubmit` method of each form class is proved to perform exactly that `Attempt`.
- **Endpoint probe** (`EndpointTester`). A loop sorts each URL into `working` or `failed`. It
  is proved against a specification function, and the lemmas show that the lists partition the
  probes.
- **Session hook** (`UseAuth`). The `Auth` class holds the restore, login and logout logic. A
  lemma proves that logging in and then restoring gives back the same user.
- **Older HOD page** (`HodSignUpPage`). It puts the file part first, and its `handleSubmit` does not
  validate; the inputs' `required` attributes are markup and are not modelled. It is
  proved to send the same parts as the newer forms, in another order.

The transport is not modelled. Every request a handler sends is returned as a value, and how
that request ends is a parameter (`Outcome`). `localStorage` is a `Storage` object holding a
map. The router records `navigate` calls and delayed `setTimeout` navigations without performing
them. `JSON.stringify` and `JSON.parse` are an abstract `Codec`, and a round-trip property is
assumed only where a lemma states it as a hypothesis.

The newer components live under `college-erp-frontend/src/src/`, and the older HOD page under
`college-erp-frontend/src/College-ERP/`.

## Model

| member | source | states |
|---|---|---|
| ApiEndpoints.Api | college-erp-frontend/src/src/utils/apiEndpoints.ts:2-7 | every endpoint is the base address, then `/api/`, then its path unchanged |
| ApiEndpoints.BuildersAppendVerbatim | college-erp-frontend/src/src/utils/apiEndpoints.ts:8-54 | each builder (`GET_BY_ID`, `UPDATE`, `DELETE`, the attendance lookups and `DOWNLOAD_FILE`) is a fixed prefix followed by its argument, with no encoding |
| ApiEndpoints.GetByIdRoundTrip | college-erp-frontend/src/src/utils/apiEndpoints.ts:8 | removing the `GET_BY_ID` prefix from a built URL gives the id back |
| ApiEndpoints.ParseGetByIdSound | college-erp-frontend/src/src/utils/apiEndpoints.ts:8 | a URL that carries that prefix is exactly the builder's URL for the rest of the URL |
| ApiEndpoints.GetByIdInjective | college-erp-frontend/src/src/utils/apiEndpoints.ts:8-37 | two `GET_BY_ID` URLs coincide only for the same entity and the same id |
| ApiEndpoints.UpdateDeleteDistinct | college-erp-frontend/src/src/utils/apiEndpoints.ts:10-40 | `UPDATE` and `DELETE` of one entity are each injective in the id, and that entity's update URL never equals its delete URL |
| ApiEndpoints.UpdateNeverDelete | college-erp-frontend/src/src/utils/apiEndpoints.ts:10-40 | no update URL of any entity equals a delete URL of any entity |
| ApiEndpoints.GetByIdOverlapsUpdate | college-erp-frontend/src/src/utils/apiEndpoints.ts:8-10 | the id is not encoded, so `GET_BY_ID("update-student/5")` is the student `UPDATE("5")` URL |
| ApiEndpoints.FixedEndpointsUnderBase | college-erp-frontend/src/src/utils/apiEndpoints.ts:5-77 | all 25 fixed URLs lie under the base address followed by `/api/` |
| ApiEndpoints.PrimaryPluralAlternativeSingular | college-erp-frontend/src/src/utils/apiEndpoints.ts:5-77 | the primary login URLs use the plural collection segment; the alternative login, register and profile URLs use the singular one |
| Record.SetKeys | college-erp-frontend/src/src/components/auth/CorrectedStudentSignUp.tsx:67-73 | `{...prev, [name]: value}` keeps every key in place and adds a new key last |
| Record.SetUnique | college-erp-frontend/src/src/components/auth/CorrectedStudentSignUp.tsx:67-73 | the update keeps the keys unique |
| Record.SetLookupSame | college-erp-frontend/src/src/components/auth/CorrectedStudentSignUp.tsx:67-73 | the named field reads back the new value |
| Record.SetLookupOther | college-erp-frontend/src/src/components/auth/CorrectedStudentSignUp.tsx:67-73 | every other field keeps its old value |
| Record.BlankSpec | college-erp-frontend/src/src/components/auth/CorrectedStudentSignUp.tsx:18-34 | the initial form has exactly the declared fields, in order, each holding "" |
| Text.TrimStartSpec | college-erp-frontend/src/src/components/auth/CorrectedStudentSignUp.tsx:109 | leading trim removes a white-space prefix and stops at the first other character |
| Text.TrimEndSpec | college-erp-frontend/src/src/components/auth/CorrectedStudentSignUp.tsx:109 | trailing trim removes a white-space suffix and stops at the last other character |
| Text.TrimIsCore | college-erp-frontend/src/src/components/auth/CorrectedStudentSignUp.tsx:109 | `trim()` returns a contiguous slice of the input with white space around it only, and its ends are not white space |
| Text.TrimEmptyIffAllSpace | college-erp-frontend/src/src/components/auth/CorrectedStudentSignUp.tsx:109 | `!value.trim()` holds exactly when the value is nothing but white space |
| Text.TrimIdempotent | college-erp-frontend/src/src/components/auth/CorrectedStudentSignIn.tsx:58 | trimming a trimmed value changes nothing |
| Text.TrimKeepsCharacters | college-erp-frontend/src/src/components/auth/ImprovedProfessorSignUp.tsx:115 | trimming introduces no character, so a piece without commas stays without commas |
| Text.Split | college-erp-frontend/src/src/components/auth/ImprovedProfessorSignUp.tsx:114 | `split(",")` yields at least one piece, and no piece holds the separator |
| Text.SplitLength | college-erp-frontend/src/src/components/auth/ImprovedProfessorSignUp.tsx:114 | splitting yields one more piece than there are separators |
| Text.JoinSplit | college-erp-frontend/src/src/components/auth/ImprovedProfessorSignUp.tsx:114-116 | joining the pieces with the same separator restores the text |
| Text.SplitJoin | college-erp-frontend/src/src/components/auth/ImprovedProfessorSignUp.tsx:114-116 | splitting a join of separator-free pieces gives the pieces back |
| Text.IncludesIffOccurs | college-erp-frontend/src/src/utils/endpointTester.ts:85 | `includes(sub)` holds exactly when `sub` occurs at some position |
| Text.Utf16Length | college-erp-frontend/src/src/components/auth/CorrectedStudentSignUp.tsx:121 | `length` counts UTF-16 code units: between one and two per character, and exactly one per character when all lie in the Basic Multilingual Plane |
| Text.Utf16LengthConcat | college-erp-frontend/src/src/components/auth/CorrectedStudentSignUp.tsx:121 | the length of a concatenation is the sum of the lengths |
| Text.Utf16LengthOfEmoji | college-erp-frontend/src/src/components/auth/CorrectedStudentSignUp.tsx:121 | three emoji have a `length` of 6 |
| Text.NatToString | college-erp-frontend/src/src/components/auth/CorrectedStudentSignIn.tsx:113 | `toString()` of a number gives decimal digits without a leading zero |
| Text.NatToStringValue | college-erp-frontend/src/src/components/auth/CorrectedStudentSignIn.tsx:113 | the digits written denote the number itself |
| Text.NatToStringInjective | college-erp-frontend/src/src/components/auth/CorrectedStudentSignIn.tsx:113 | distinct numbers give distinct texts, so distinct numeric ids give distinct stored ids and URLs |
| JsValue.OrWithText | college-erp-frontend/src/src/components/auth/CorrectedStudentSignUp.tsx:225 | `x \|\| "text"` is never falsy, and it is `x` exactly when `x` is truthy |
| Validation.HumaniseRoundTrip | college-erp-frontend/src/src/components/auth/CorrectedStudentSignUp.tsx:110 | the label built from a camelCase field name (a space before each capital, then the first letter raised) loses nothing: dropping the spaces and lowering the first letter gives the name back |
| Validation.MissingMessageInjective | college-erp-frontend/src/src/components/auth/CorrectedStudentSignUp.tsx:110 | distinct field names give distinct "… is required" messages |
| Validation.CapitalStartsWord | college-erp-frontend/src/src/components/auth/CorrectedStudentSignUp.tsx:110 | each capital letter, and only a capital, gets a space before it |
| Validation.MajorLabel | college-erp-frontend/src/src/components/auth/CorrectedStudentSignUp.tsx:110 | `major` is reported as "Major is required" |
| Validation.EmailTestSound | college-erp-frontend/src/src/components/auth/CorrectedStudentSignUp.tsx:115-116 | anything the executable e-mail test accepts matches `^[^\s@]+@[^\s@]+\.[^\s@]+$` |
| Validation.EmailTestComplete | college-erp-frontend/src/src/components/auth/CorrectedStudentSignUp.tsx:115-116 | anything that matches the pattern is accepted |
| Validation.EmailTestMatchesPattern | college-erp-frontend/src/src/components/auth/CorrectedStudentSignUp.tsx:115-116 | the test and the pattern agree in both directions |
| Validation.EmailAcceptedExample | college-erp-frontend/src/src/components/auth/CorrectedStudentSignUp.tsx:115-116 | an ordinary address passes |
| Validation.EmailWithoutAt | college-erp-frontend/src/src/components/auth/CorrectedStudentSignUp.tsx:115-116 | an address without "@" fails |
| Validation.EmailWithSpace | college-erp-frontend/src/src/components/auth/CorrectedStudentSignUp.tsx:115-116 | an address with a space fails |
| Validation.MissingFrom | college-erp-frontend/src/src/components/auth/CorrectedStudentSignUp.tsx:108-113 | the index found is that of the first blank required field, with every earlier one filled |
| Validation.FirstMissingField | college-erp-frontend/src/src/components/auth/CorrectedStudentSignUp.tsx:108-113 | the loop with its early return reports the first blank field's message, or nothing |
| Validation.ValidateRegistration | college-erp-frontend/src/src/components/auth/CorrectedStudentSignUp.tsx:105-127 | `validateForm` passes exactly when the registration check finds nothing, and otherwise returns that check's message |
| Validation.FirstBlankFieldReported | college-erp-frontend/src/src/components/auth/CorrectedStudentSignUp.tsx:108-112 | only the first blank required field is reported, whatever follows it |
| Validation.RegistrationAccepted | college-erp-frontend/src/src/components/auth/CorrectedStudentSignUp.tsx:105-127 | a form passes exactly when no required field is blank, the e-mail matches the pattern and the password's `length`, counted in UTF-16 code units, is at least 6 |
| Validation.LaterChecksNeedEarlierOnes | college-erp-frontend/src/src/components/auth/CorrectedStudentSignUp.tsx:105-124 | the e-mail message appears only with every required field filled; the password message appears only when the e-mail passed as well |
| Validation.NotAFieldMessage | college-erp-frontend/src/src/components/auth/CorrectedStudentSignUp.tsx:110-122 | a missing-field message never equals the e-mail or password message |
| Validation.PasswordBoundary | college-erp-frontend/src/src/components/auth/CorrectedStudentSignUp.tsx:121-124 | with everything else valid, a `length` of 5 UTF-16 code units fails and 6 passes |
| Validation.EmojiPasswordPasses | college-erp-frontend/src/src/components/auth/CorrectedStudentSignUp.tsx:121-124 | with everything else valid, a password of three emoji passes, because its `length` is 6 |
| Validation.SignInAccepted | college-erp-frontend/src/src/components/auth/CorrectedStudentSignIn.tsx:29-39 | a sign-in passes exactly when the username has a non-space character and the password is non-empty; a password of spaces passes |
| Validation.ImageAccepted | college-erp-frontend/src/src/components/auth/CorrectedStudentSignUp.tsx:82-93 | a file is accepted exactly when its type starts with `image/` and its size is at most 5 MiB; one byte more is refused |
| Multipart.FormData.constructor | college-erp-frontend/src/src/components/auth/CorrectedStudentSignUp.tsx:141 | a new `FormData` has no parts |
| Multipart.FormData.Append | college-erp-frontend/src/src/components/auth/CorrectedStudentSignUp.tsx:145 | `append` adds one text part at the end |
| Multipart.FormData.AppendFile | college-erp-frontend/src/src/components/auth/CorrectedStudentSignUp.tsx:149-155 | appending a file adds one file part at the end |
| Multipart.FormData.AppendEntries | college-erp-frontend/src/src/components/auth/CorrectedStudentSignUp.tsx:144-146 | the `Object.entries(...).forEach` loop appends one part per entry, in order |
| Multipart.NormaliseListItems | college-erp-frontend/src/src/components/auth/ImprovedProfessorSignUp.tsx:108-121 | the `subjects` value sent has the same comma-separated items, in the same order, each trimmed |
| Multipart.NormaliseKeepsSegments | college-erp-frontend/src/src/components/auth/ImprovedProfessorSignUp.tsx:113-116 | normalising keeps the number of items and of commas |
| Multipart.NormaliseIdempotent | college-erp-frontend/src/src/components/auth/ImprovedProfessorSignUp.tsx:113-116 | normalising a second time changes nothing |
| Multipart.PayloadNames | college-erp-frontend/src/src/components/auth/CorrectedStudentSignUp.tsx:141-158 | the body's part names are the form's keys in order, then `file` |
| Multipart.PayloadFields | college-erp-frontend/src/src/components/auth/CorrectedStudentSignUp.tsx:144-146 | each entry is sent under its own key with the value sent for it |
| Multipart.PayloadSingleFile | college-erp-frontend/src/src/components/auth/CorrectedStudentSignUp.tsx:148-155 | the body holds exactly one file part, found under `file` |
| Multipart.FileUploadChoice | college-erp-frontend/src/src/components/auth/CorrectedStudentSignUp.tsx:148-155 | the file part carries the chosen image when there is one, and otherwise an empty blob under the placeholder name |
| Fallback.Resolve | college-erp-frontend/src/src/components/auth/CorrectedStudentSignUp.tsx:160-191 | the requests sent are the same body sent to each path in order, stopping at the first success; the result is that success, or the primary error once every path has failed |
| Fallback.PrimaryTriedFirst | college-erp-frontend/src/src/components/auth/CorrectedStudentSignUp.tsx:162-164 | at least one request is sent, and at most one per path |
| Fallback.PrimarySuccessShortCircuits | college-erp-frontend/src/src/components/auth/CorrectedStudentSignUp.tsx:162-164 | a successful primary request is the only one sent |
| Fallback.FirstSuccessWins | college-erp-frontend/src/src/components/auth/CorrectedStudentSignUp.tsx:176-185 | the first alternative that succeeds is the result, and nothing after it is tried |
| Fallback.TotalFailureRethrowsPrimary | college-erp-frontend/src/src/components/auth/CorrectedStudentSignUp.tsx:175-190 | when every attempt fails, all paths are tried and the primary's error is rethrown, not the last alternative's |
| Fallback.SucceedsIffSomeAttemptDoes | college-erp-frontend/src/src/components/auth/CorrectedStudentSignUp.tsx:160-191 | the run succeeds exactly when some attempt does |
| Registration.NoRequestUnlessValid | college-erp-frontend/src/src/components/auth/CorrectedStudentSignUp.tsx:129-138 | a request is sent exactly when the validator accepts the form; a refusal carries the validator's message |
| Registration.PostedRequests | college-erp-frontend/src/src/components/auth/CorrectedStudentSignUp.tsx:140-191 | every request of an accepted form is a POST of the same multipart body, the first to the primary endpoint |
| Registration.PostedResult | college-erp-frontend/src/src/components/auth/CorrectedStudentSignUp.tsx:160-191 | an accepted form registers exactly when some attempt succeeds; otherwise the primary error is reported after every path was tried |
| Registration.SingleAttempt | college-erp-frontend/src/src/components/auth/ImprovedStudentSignUp.tsx:154-159 | a form without fallback posts once, and that request's outcome is the result |
| Browser.Router.Navigate | college-erp-frontend/src/src/components/auth/CorrectedStudentSignIn.tsx:136 | `navigate(path)` is recorded after the earlier ones |
| Browser.Router.NavigateAfter | college-erp-frontend/src/src/components/auth/CorrectedStudentSignUp.tsx:216-218 | a delayed `navigate` is recorded with its delay and is not performed |
| Browser.Storage.SetItem | college-erp-frontend/src/src/components/auth/CorrectedStudentSignIn.tsx:112-113 | `setItem` sets one key and leaves the others |
| Browser.Storage.Clear | college-erp-frontend/src/src/hooks/useAuth.ts:66 | `clear` empties the store |
| Browser.ApplyWritesLastWins | college-erp-frontend/src/src/components/auth/CorrectedStudentSignIn.tsx:112-133 | after a series of writes, a key holds the value of its last write |
| Browser.ApplyWritesUntouched | college-erp-frontend/src/src/components/auth/CorrectedStudentSignIn.tsx:112-133 | a key that is never written keeps its old entry, or stays absent |
| SignUp.BlankIsCheckable | college-erp-frontend/src/src/components/auth/CorrectedStudentSignUp.tsx:18-34 | a blank form holds every field the validator reads |
| SignUp.Form.constructor | college-erp-frontend/src/src/components/auth/CorrectedStudentSignUp.tsx:18-41 | the first render has every field blank, no image, no departments, no messages and is not loading |
| SignUp.Form.FetchDepartments | college-erp-frontend/src/src/components/auth/CorrectedStudentSignUp.tsx:47-65 | the list endpoint is tried, then its alternative; the list is the first success's body, and if every request fails only the message is set |
| SignUp.Form.HandleInputChange | college-erp-frontend/src/src/components/auth/CorrectedStudentSignUp.tsx:67-73 | only the named field changes, and every other piece of state is kept |
| SignUp.Form.HandleSelectChange | college-erp-frontend/src/src/components/auth/CorrectedStudentSignUp.tsx:75-80 | the department picker sets `major` and nothing else |
| SignUp.Form.HandleImageChange | college-erp-frontend/src/src/components/auth/CorrectedStudentSignUp.tsx:82-103 | a refused file sets the type or size message and keeps the previous image; an accepted one becomes the image; no file changes nothing |
| SignUp.Form.ValidateForm | college-erp-frontend/src/src/components/auth/CorrectedStudentSignUp.tsx:105-127 | returns the registration check's verdict, and on failure sets exactly its message |
| SignUp.Form.SubmitData | college-erp-frontend/src/src/components/auth/CorrectedStudentSignUp.tsx:141-155 | the `FormData` built holds the entries in order, then the `file` part |
| SignUp.Form.Settle | college-erp-frontend/src/src/components/auth/CorrectedStudentSignUp.tsx:193-237 | on success the message is set, the form, image and preview are reset, and the redirect is scheduled after 2000 ms; on failure the component's error chain sets the message; loading ends either way |
| SignUp.Form.HandleSubmit | college-erp-frontend/src/src/components/auth/CorrectedStudentSignUp.tsx:129-238 | a submit does what `Registration.Submit` describes: a refused form sends nothing and shows the message; an accepted form posts its body to the endpoints in turn and then settles |
| CorrectedStudentSignUp.FailureMessage | college-erp-frontend/src/src/components/auth/CorrectedStudentSignUp.tsx:224-234 | a 409 shows a truthy body, else the conflict text; a 400 shows a truthy body, else "Invalid data provided. Please check all fields."; otherwise a timeout shows the timeout text, a text body is shown verbatim, another truthy body gives "Registration failed", and a falsy body the connection text; the result is always truthy |
| CorrectedStudentSignUp.FailureShowsBody | college-erp-frontend/src/src/components/auth/CorrectedStudentSignUp.tsx:224-234 | the body is shown when it is truthy and came with a 409 or 400, or when it is a non-empty text and the request was neither of those nor a timeout; every other failure shows one of the five fixed texts |
| CorrectedStudentSignUp.TimeoutIgnoresBody | college-erp-frontend/src/src/components/auth/CorrectedStudentSignUp.tsx:224-230 | a timeout without a 409 or 400 gives the timeout text, whatever the body and message |
| CorrectedStudentSignUp.SettingsCoherent | college-erp-frontend/src/src/components/auth/CorrectedStudentSignUp.tsx:106-109 | each required field is a declared field |
| ImprovedStudentSignUp.FailureMessage | college-erp-frontend/src/src/components/auth/ImprovedStudentSignUp.tsx:191-199 | a 409 shows a truthy body, else the conflict text; a 400 shows a truthy body, else "Invalid data provided"; any other failure shows the timeout text when aborted and the generic text otherwise |
| ImprovedStudentSignUp.ChainsAgree | college-erp-frontend/src/src/components/auth/ImprovedStudentSignUp.tsx:191-199 | the two student forms show the same message on a conflict and on a timeout |
| ImprovedStudentSignUp.ChainsDiffer | college-erp-frontend/src/src/components/auth/ImprovedStudentSignUp.tsx:191-199 | they differ on a 400 without a body, and on other failures where the corrected form shows a text body |
| ImprovedStudentSignUp.SettingsCoherent | college-erp-frontend/src/src/components/auth/ImprovedStudentSignUp.tsx:99-123 | each required field is a declared field |
| ImprovedProfessorSignUp.FailureMessage | college-erp-frontend/src/src/components/auth/ImprovedProfessorSignUp.tsx:160-166 | a 409 shows a truthy body, else the conflict text; a 400 shows a truthy body, else "Invalid data provided"; every other failure, a timeout included, shows the generic message |
| ImprovedProfessorSignUp.FailureEchoesBody | college-erp-frontend/src/src/components/auth/ImprovedProfessorSignUp.tsx:160-166 | a truthy body is shown exactly under a 409 or 400; every other failure shows one of the three fixed texts |
| ImprovedProfessorSignUp.FailureIgnoresTimeout | college-erp-frontend/src/src/components/auth/ImprovedProfessorSignUp.tsx:160-166 | there is no timeout branch: two errors with the same response get the same message |
| ImprovedProfessorSignUp.SettingsCoherent | college-erp-frontend/src/src/components/auth/ImprovedProfessorSignUp.tsx:61-92 | each required field is a declared field; `subjects` is optional |
| ImprovedProfessorSignUp.SubjectsNormalised | college-erp-frontend/src/src/components/auth/ImprovedProfessorSignUp.tsx:108-121 | the `subjects` part carries the tidied list, and every other field is sent verbatim |
| ImprovedHodSignUp.FailureMessage | college-erp-frontend/src/src/components/auth/ImprovedHODSignUp.tsx:134-140 | a 409 always shows the fixed conflict text; a 400 shows a truthy body, else "Invalid data provided"; every other failure shows the generic text |
| ImprovedHodSignUp.FailureIgnoresBody | college-erp-frontend/src/src/components/auth/ImprovedHODSignUp.tsx:134-140 | apart from a 400, the message depends only on the status |
| ImprovedHodSignUp.SettingsCoherent | college-erp-frontend/src/src/components/auth/ImprovedHODSignUp.tsx:58-80 | all six fields are required, and the e-mail and password fields are among them |
| SignIn.BlankHasCredentials | college-erp-frontend/src/src/components/auth/CorrectedStudentSignIn.tsx:13-16 | the blank form holds the username and password |
| SignIn.CredentialsSent | college-erp-frontend/src/src/components/auth/CorrectedStudentSignIn.tsx:57-60 | a validated form sends a non-empty, already-trimmed username and the password as typed |
| CorrectedStudentSignIn.FailureMessage | college-erp-frontend/src/src/components/auth/CorrectedStudentSignIn.tsx:143-156 | 401, 404 and 403 get the invalid-credentials, not-found and disabled-account texts; otherwise a timeout gets the timeout text, a text body is shown verbatim, another truthy body gives "Login failed", and a falsy body the connection text; the message is always a non-empty string |
| CorrectedStudentSignIn.ThrownShowsConnectionMessage | college-erp-frontend/src/src/components/auth/CorrectedStudentSignIn.tsx:108-155 | an error the component throws itself has no response, so it shows the connection message |
| CorrectedStudentSignIn.FailureShowsTextBody | college-erp-frontend/src/src/components/auth/CorrectedStudentSignIn.tsx:143-153 | a text body of an unlisted failure is shown verbatim; the listed statuses and a timeout never show the body |
| CorrectedStudentSignIn.StudentIdOf | college-erp-frontend/src/src/components/auth/CorrectedStudentSignIn.tsx:98-109 | an id found is truthy, or it is the body itself and that body is a string |
| CorrectedStudentSignIn.StudentIdAccepted | college-erp-frontend/src/src/components/auth/CorrectedStudentSignIn.tsx:98-109 | an id is found exactly when the body is present and one of the three properties is truthy, or the body is a string; a null or missing body throws a TypeError |
| CorrectedStudentSignIn.StudentIdFirst | college-erp-frontend/src/src/components/auth/CorrectedStudentSignIn.tsx:99-100 | a truthy `studentId` wins over every other shape |
| CorrectedStudentSignIn.StudentIdSecond | college-erp-frontend/src/src/components/auth/CorrectedStudentSignIn.tsx:101-102 | with a falsy `studentId`, a truthy `id` is taken, whatever `student` holds |
| CorrectedStudentSignIn.StudentIdThird | college-erp-frontend/src/src/components/auth/CorrectedStudentSignIn.tsx:103-104 | with `studentId` and `id` falsy, a truthy `student.studentId` is taken |
| CorrectedStudentSignIn.StorageOnlyAfterLogin | college-erp-frontend/src/src/components/auth/CorrectedStudentSignIn.tsx:93-136 | something is stored exactly when the dashboard opens; that happens only after a 200 login with an id, whether or not the profile fetch succeeds |
| CorrectedStudentSignIn.LoginWritesStored | college-erp-frontend/src/src/components/auth/CorrectedStudentSignIn.tsx:112-133 | the store then holds the role and the id, and the profile only when its fetch answered 200; a failed fetch leaves any older profile |
| CorrectedStudentSignIn.Form.constructor | college-erp-frontend/src/src/components/auth/CorrectedStudentSignIn.tsx:13-19 | a blank form, not loading, no message, the box unticked |
| CorrectedStudentSignIn.Form.HandleInputChange | college-erp-frontend/src/src/components/auth/CorrectedStudentSignIn.tsx:21-27 | only the named field changes |
| CorrectedStudentSignIn.Form.SetRememberMe | college-erp-frontend/src/src/components/auth/CorrectedStudentSignIn.tsx:222 | the checkbox sets `rememberMe` and nothing else |
| CorrectedStudentSignIn.Form.HandleSubmit | college-erp-frontend/src/src/components/auth/CorrectedStudentSignIn.tsx:41-160 | a submit sends exactly the requests of `Attempt`, performs its writes in order, opens its pages and ends with its error; the form and the box are kept |
| CorrectedStudentSignIn.Form.Settle | college-erp-frontend/src/src/components/auth/CorrectedStudentSignIn.tsx:93-159 | once the login settled, the state follows the login stage of `Attempt`, and loading ends |
| CorrectedStudentSignIn.Form.LogIn | college-erp-frontend/src/src/components/auth/CorrectedStudentSignIn.tsx:111-136 | the role, the id, the profile (on a 200) and the remember flag are written in that order, then the dashboard opens |
| StagedSignIn.FailureMessage | college-erp-frontend/src/src/components/auth/ImprovedStudentSignIn.tsx:101-113 | a non-string message is exactly a truthy response body; past 401, 404, 403 and a timeout a truthy body is shown verbatim and a falsy one gives the generic text; without a response the timeout or the generic text is shown |
| StagedSignIn.FailureShowsBody | college-erp-frontend/src/src/components/auth/ImprovedStudentSignIn.tsx:101-113 | 401, 404 (the component's not-found text), 403 and a timeout are tried in that order; past them a truthy body is shown verbatim, and otherwise one of the five fixed texts |
| StagedSignIn.NavigatesOnlyWithProfile | college-erp-frontend/src/src/components/auth/ImprovedStudentSignIn.tsx:66-97 | the dashboard opens exactly when the form is valid, the login answers 200 with a readable body and the profile fetch answers 200; the profile is then stored |
| StagedSignIn.HalfSignedIn | college-erp-frontend/src/src/components/auth/ImprovedStudentSignIn.tsx:70-96 | a failed profile fetch after a good login leaves only the role and id stored, opens nothing, and shows an error |
| StagedSignIn.MissingIdBecomesUndefined | college-erp-frontend/src/src/components/auth/ImprovedStudentSignIn.tsx:67-75 | a login body without the id property makes "undefined" the id stored and requested |
| StagedSignIn.Form.constructor | college-erp-frontend/src/src/components/auth/ImprovedStudentSignIn.tsx:12-18 | a blank form, not loading, no message, the box unticked |
| StagedSignIn.Form.HandleInputChange | college-erp-frontend/src/src/components/auth/ImprovedStudentSignIn.tsx:20-26 | only the named field changes |
| StagedSignIn.Form.SetRememberMe | college-erp-frontend/src/src/components/auth/ImprovedStudentSignIn.tsx:179 | the checkbox sets `rememberMe` and nothing else |
| StagedSignIn.Form.HandleSubmit | college-erp-frontend/src/src/components/auth/ImprovedStudentSignIn.tsx:40-117 | a submit sends exactly the requests of `Attempt`, performs its writes in order, opens its pages and ends with its error |
| StagedSignIn.Form.Settle | college-erp-frontend/src/src/components/auth/ImprovedStudentSignIn.tsx:66-116 | once the login settled, the state follows the login stage, and loading ends |
| StagedSignIn.Form.FetchProfile | college-erp-frontend/src/src/components/auth/ImprovedStudentSignIn.tsx:70-96 | the role and id are written, the profile requested, and then the profile and remember flag are stored and the dashboard opened, or the error is set |
| ImprovedStudentSignIn.StricterThanCorrected | college-erp-frontend/src/src/components/auth/ImprovedStudentSignIn.tsx:79-96 | after a good login, a failed profile fetch opens nothing here, but the corrected component still opens the dashboard |
| ImprovedStudentSignIn.SameProfileRequest | college-erp-frontend/src/src/components/auth/ImprovedStudentSignIn.tsx:66-75 | both student sign-ins request the same profile URL and store the same role and id |
| ImprovedHodSignIn.ProfileFromHods | college-erp-frontend/src/src/components/auth/ImprovedHODSignIn.tsx:65-74 | the HOD profile is fetched from the hods collection with the login body's `id` |
| EndpointTester.Probe | college-erp-frontend/src/src/utils/endpointTester.ts:84-101 | a URL containing "login", "register" or "add" is probed with a POST of `{}`; every other URL is probed with a GET |
| EndpointTester.Classify | college-erp-frontend/src/src/utils/endpointTester.ts:85-109 | an endpoint is working exactly when a 400 or 422 came back or a GET succeeded; a successful POST is listed nowhere; every other failure goes to `failed` |
| EndpointTester.TestEndpointGroup | college-erp-frontend/src/src/utils/endpointTester.ts:79-111 | every URL is probed once in order, and `working` and `failed` are the URLs with that verdict, in group order |
| EndpointTester.TestEndpoints | college-erp-frontend/src/src/utils/endpointTester.ts:113-116 | the student, professor, HOD and department groups are probed in that order |
| EndpointTester.ListedIff | college-erp-frontend/src/src/utils/endpointTester.ts:82-110 | a URL is listed under a verdict exactly when its probe at some position gave it |
| EndpointTester.ListedCount | college-erp-frontend/src/src/utils/endpointTester.ts:82-110 | working, failed and unlisted together account for every probe exactly once |
| EndpointTester.WorkingFailedDisjoint | college-erp-frontend/src/src/utils/endpointTester.ts:85-109 | with distinct URLs, `working` and `failed` are disjoint, and a URL whose POST succeeded is in neither |
| EndpointTester.SingleRequest | college-erp-frontend/src/src/utils/endpointTester.ts:123-130 | a GET has no body; a POST always carries a truthy JSON body, which is `data` exactly when `data` is truthy |
| EndpointTester.ProbeIsSingleRequest | college-erp-frontend/src/src/utils/endpointTester.ts:85-100 | a group probe is the request `testSingleEndpoint` sends for that URL and verb with no data |
| EndpointTester.Single | college-erp-frontend/src/src/utils/endpointTester.ts:123-141 | any response counts as success with its status and body; a failure reports the status, if any, and the body, or the error's message when the body is falsy |
| EndpointTester.LoginProbedWithPost | college-erp-frontend/src/src/utils/endpointTester.ts:29-88 | the student group's `/api/student/login` is probed with a POST of `{}` |
| UseAuth.DataKey | college-erp-frontend/src/src/hooks/useAuth.ts:32 | a role's profile key starts with the role and ends with "Data", with nothing between |
| UseAuth.DataKeyInjective | college-erp-frontend/src/src/hooks/useAuth.ts:32-54 | distinct roles keep their profiles under distinct keys |
| UseAuth.UserOf | college-erp-frontend/src/src/hooks/useAuth.ts:36-42 | building the user throws exactly for a null or undefined profile; otherwise the role is the given one and the e-mail and image are copied |
| UseAuth.UserFieldPrecedence | college-erp-frontend/src/src/hooks/useAuth.ts:37-38 | the id is `id` when truthy, else `studentId` when truthy, else `professorId`, and it is truthy exactly when one of the three is; the name is `name` when truthy, else `studName` |
| UseAuth.Restore | college-erp-frontend/src/src/hooks/useAuth.ts:23-50 | nothing is restored exactly when the role is missing or empty; a restored user has the stored role |
| UseAuth.DataKeyIsNotRoleKey | college-erp-frontend/src/src/hooks/useAuth.ts:53-54 | the two keys `login` writes are distinct |
| UseAuth.LoginThenRestore | college-erp-frontend/src/src/hooks/useAuth.ts:23-63 | provided the codec round-trips the values JSON can carry, the profile holds no `undefined`, the role is not empty and the serialised profile is not "" (a real `JSON.stringify` never writes "" for such a value), a login followed by a restore gives back the same user |
| UseAuth.LoginTouchesTwoKeys | college-erp-frontend/src/src/hooks/useAuth.ts:52-54 | `login` changes only the role key and that role's profile key |
| UseAuth.NothingAfterLogout | college-erp-frontend/src/src/hooks/useAuth.ts:23-69 | after the store is cleared, nothing is restored |
| UseAuth.Auth.constructor | college-erp-frontend/src/src/hooks/useAuth.ts:15-16 | the hook starts with no user and loading |
| UseAuth.Auth.IsAuthenticated | college-erp-frontend/src/src/hooks/useAuth.ts:71 | a user is signed in exactly when one is held, and then holds their own role; signed out, no role holds |
| UseAuth.Auth.HasRole | college-erp-frontend/src/src/hooks/useAuth.ts:72 | a role holds only for the held user's role string, compared exactly |
| UseAuth.Auth.HasRoleOnlyWhenAuthenticated | college-erp-frontend/src/src/hooks/useAuth.ts:71-72 | `hasRole` implies `isAuthenticated`, and at most one role holds |
| UseAuth.Auth.Logout | college-erp-frontend/src/src/hooks/useAuth.ts:65-69 | the store is emptied, the user forgotten, and home visited |
| UseAuth.Auth.CheckAuthStatus | college-erp-frontend/src/src/hooks/useAuth.ts:23-50 | a stored profile becomes the user; an unreadable one logs out; with no role or no profile the user is kept; loading ends on every path |
| UseAuth.Auth.Login | college-erp-frontend/src/src/hooks/useAuth.ts:52-63 | both keys are written first; a null or undefined profile then throws and keeps the user, otherwise the user has the given role |
| HodSignUpPage.LegacyPayload | college-erp-frontend/src/College-ERP/src/pages/auth/hod/HODSignUp.jsx:27-38 | the body is the `file` part first, then one text part per entry |
| HodSignUpPage.ResultMessage | college-erp-frontend/src/College-ERP/src/pages/auth/hod/HODSignUp.jsx:46-53 | a success shows a truthy body, whatever its type, and "HOD created successfully" otherwise; a failure shows the conflict text exactly on a 409 and "Failed to create HOD" otherwise |
| HodSignUpPage.SamePartsOtherOrder | college-erp-frontend/src/College-ERP/src/pages/auth/hod/HODSignUp.jsx:27-38 | the older page sends the same parts as the newer forms, as a multiset |
| HodSignUpPage.LegacyNames | college-erp-frontend/src/College-ERP/src/pages/auth/hod/HODSignUp.jsx:27-38 | its part names are `file`, then the form's keys in order |
| HodSignUpPage.FileFoundFirst | college-erp-frontend/src/College-ERP/src/pages/auth/hod/HODSignUp.jsx:27-34 | `get("file")` finds the upload |
| HodSignUpPage.Page.constructor | college-erp-frontend/src/College-ERP/src/pages/auth/hod/HODSignUp.jsx:5-14 | six blank fields, no file, no message |
| HodSignUpPage.Page.HandleChange | college-erp-frontend/src/College-ERP/src/pages/auth/hod/HODSignUp.jsx:16-18 | only the named field changes |
| HodSignUpPage.Page.HandleFileChange | college-erp-frontend/src/College-ERP/src/pages/auth/hod/HODSignUp.jsx:20-22 | any file is taken, with no type or size check |
| HodSignUpPage.Page.HandleSubmit | college-erp-frontend/src/College-ERP/src/pages/auth/hod/HODSignUp.jsx:24-55 | whatever the form holds, it is posted once as the older body to the HOD register URL, and the message follows the outcome |

## Left out

- The `apiClient` helpers are left out: the base URL, the timeouts, the headers and the interceptors, including the one that clears the store on a 401. A request is recorded with the URL the component passes, and relative URLs are not resolved against the base URL.
- Axios decides which statuses reject. The model takes as given whether each request resolved or was rejected.
- The `imageUtils` helpers, the JSX markup and the console logging are not part of this model.
- SignUp.Form.HandleImageChange: it does not model the `FileReader` preview, so `previewUrl` is not set when an image is chosen. The preview is an asynchronous browser callback.
- SignUp.Form.Settle: the 2000 ms redirect is recorded as scheduled but never fired. Timers are not modelled.
- Concurrency is not modelled. Each handler runs to completion with the outcomes of its requests given in advance; interleaved renders and a second submit during loading are not modelled.
- Numbers are integers. There are no fractions and no NaN, and `toUpperCase` is modelled for ASCII letters only.
- Text.IntToString: JavaScript writes a number whose magnitude is at least 10^21 in exponent form, and an integer beyond 2^53 has already lost precision before `toString` is called. The model gives the exact decimal digits of every integer.
- JsValue.Codec: `JSON.stringify` and `JSON.parse` are abstract functions. Serialising `undefined`, which yields `undefined` rather than a string, is not distinguished. The round-trip hypothesis `RoundTrips` covers only values without `undefined` (`JsonSafe`), since `JSON.stringify` drops `undefined` keys and writes `undefined` array items as `null`.
- HodSignUpPage.Page.HandleSubmit: the browser's `required`-attribute check, which blocks submitting an empty input, is markup and is not modelled.
- SignIn.TypeError: the message text of a TypeError is abstract. Only its shape, with no response and no code, matters to the error chains.
- Object key order: a `JObj` response body is a map, so the order of its keys is not kept. No modelled behaviour reads that order.
- Record.Entries: the models do not carry the invariant that form keys stay unique. `Record.SetUnique` proves that the update preserves it, and lemmas that need it take it as a requirement.
- SignUp.Config: the professor and HOD forms have no department picker. Their configurations carry an empty `departmentPaths`, and `FetchDepartments` cannot be called on them.
- The Improved components and the older HOD page write their URLs as literals. The model uses the endpoint table's values, which are the same URLs.
- UseAuth.Auth.CheckAuthStatus: the `useEffect` call on mount is left to the caller. The hook's constructor does not run it.
- UseAuth.Auth.Login: the case where `JSON.stringify` returns `undefined` is modelled only through the abstract codec.
- Validation.IsBlank is defined as "nothing but white space". `Text.TrimEmptyIffAllSpace` proves that this is the same as `trim()` returning the empty string.
- EndpointTester.Probe: the verb is proved only for the student login URL. Proving which of the other literal URLs get a GET is left out, because the negative string searches are too costly for the verifier.
