# Skin-cancer detection web app: a Dafny model of its core

This project models the core of a web application that classifies skin-lesion
images into seven diagnostic categories, plus the services around the classifier.

- **Browser.**
  - The TensorFlow service holds a lesion classifier and a skin-image validator.
  - The detector page validates an image, ranks the seven classes and saves the scan.
  - The persisted application store is the theme, patient form and scan history.
  - The dashboard counts scans by risk level.
  - The patient form validates its fields.
  - The sign-in / sign-up page validates input and redirects.
  - The localStorage account service handles register, login, profile, password and account deletion.
  - The hospital-rates search.
- **Backend.**
  - The scan routes: list, save, delete and clear over the `scan_results` table.
  - The JWT authentication middleware.

The two neural networks are opaque functions from a model and an image to a
vector of reals. JavaScript's own primitives are defined here to the extent the
core relies on them:

- `trim`, `toLowerCase`/`toUpperCase`, `includes`, `split(' ')`, `parseInt`,
  `Number.prototype.toString(36)` (module `JsText`, `Utils`);
- `btoa`, i.e. Base64 encoding of a Latin-1 string as in section 4 of RFC 4648, with
  the `InvalidCharacterError` it throws otherwise (module `Base64`).

Module by module:

| module | file | form |
|---|---|---|
| `Catalogue` | catalogue.dfy | the types and constant tables |
| `TensorFlow` | tensorflow.dfy | ranking as functions; the service as a class |
| `Store` | store.dfy | class `AppStore` over the persisted state |
| `Detector` | detector.dfy | class `DetectorPage` holding a store and a service |
| `Dashboard` | dashboard.dfy | class `DashboardPage`, statistics as functions |
| `Utils` | utils.dfy | image validation and patient ids as functions |
| `PatientForm` | patient_form.dfy | class `PatientFormView` |
| `AuthPage` | auth_page.dfy | validation as functions; class `AuthPageView` |
| `LocalAuth` | local_auth.dfy | class `LocalAuthStore` over the users, passwords, token and current user |
| `Rates` | rates.dfy | the search as functions |
| `ScansRoute` | scans.dfy | row mapping as functions; class `ScansRouter` over the table |
| `AuthMiddleware` | middleware.dfy | the decision as a function; class `Exchange` |
| `JsText`, `Base64`, `Seqs`, `Wrappers` | jstext.dfy, base64.dfy, seqs.dfy, wrappers.dfy | support |

Things the model takes as parameters:

- The clock (`Date.now`, ISO time).
- `Math.random` text.
- `confirm` answers.
- Whether a network or database call throws.
- `JSON.parse`/`JSON.stringify`.
- `jwt.verify`.
- The user query.
- The outcome of loading each network.

## Model

| member | source | states |
|---|---|---|
| `Catalogue.Lookup` | src/types/index.ts:53-131 | the catalogue has an entry exactly for ids 0..6, each carrying its own id |
| `Catalogue.CatalogueKeys` | src/types/index.ts:53-131 | the keys of `CANCER_CLASSES` are exactly 0..6 and every entry's `id` equals its key |
| `Catalogue.CatalogueCodes` | src/types/index.ts:53-131 | entry k has code akiec, bcc, bkl, df, mel, nv, vasc in that order |
| `Catalogue.SeverityTiers` | src/types/index.ts:53-131 | melanoma (4) is the only high class; akiec and bcc are medium; the other four are low |
| `Catalogue.SeverityExclusive` | src/types/index.ts:53-131 | every class has exactly one severity |
| `Catalogue.HospitalRates` | src/types/index.ts:133-142 | eight hospitals, each with a positive rate |
| `TensorFlow.ClassName` | src/lib/tensorflow.ts:119-130 | ids 0..6 map to the catalogue codes, all others to "unknown" |
| `TensorFlow.ClassNameMatchesCatalogue` | src/lib/tensorflow.ts:119-130 | the service's class names agree with the catalogue's codes |
| `TensorFlow.Insert` | src/lib/tensorflow.ts:115 | insertion keeps every element (multiset) and adds one |
| `TensorFlow.Sort` | src/lib/tensorflow.ts:115 | the sort is a permutation of its input |
| `TensorFlow.Rank` | src/lib/tensorflow.ts:107-116 | one prediction per output |
| `TensorFlow.InsertRanked` | src/lib/tensorflow.ts:115 | inserting an element with a larger id into a ranked list keeps it ranked (stable descending) |
| `TensorFlow.SortRanked` | src/lib/tensorflow.ts:115 | sorting predictions in id order gives descending probability, ties by id (stable sort) |
| `TensorFlow.RankCarries` | src/lib/tensorflow.ts:107-116 | every ranked prediction carries the probability its class id had in the output |
| `TensorFlow.RankCovers` | src/lib/tensorflow.ts:107-116 | every class id of the output appears in the ranking |
| `TensorFlow.RankSorted` | src/lib/tensorflow.ts:107-116 | the ranking is in descending probability, equal probabilities by ascending id |
| `TensorFlow.RankDistinct` | src/lib/tensorflow.ts:107-116 | no class id appears twice |
| `TensorFlow.SkinGateThreshold` | src/lib/tensorflow.ts:79-84 | an image counts as skin iff the validator's first output is at most 0.5 (0.5 itself passes); an empty output is not skin |
| `TensorFlow.TensorFlowService.constructor` | src/lib/tensorflow.ts:4-10 | starts with no models and not initialised |
| `TensorFlow.TensorFlowService.LoadModels` | src/lib/tensorflow.ts:19-57 | no-op when initialised; otherwise succeeds iff TF is ready and both networks load, keeps the lesion net when only the validator fails, fails with "Failed to load AI models" |
| `TensorFlow.TensorFlowService.ValidateSkinImage` | src/lib/tensorflow.ts:59-85 | loads on demand; the answer is the skin gate applied to the validator's output; when the validator was not yet loaded, it succeeds iff the load left the service initialised, and each model field holds exactly what that load produced |
| `TensorFlow.TensorFlowService.PredictCancer` | src/lib/tensorflow.ts:87-117 | loads on demand; the answer is the ranking of the lesion net's seven outputs; when the lesion net was not yet loaded, it succeeds iff the load left the service initialised, and each model field holds exactly what that load produced |
| `TensorFlow.TensorFlowService.Dispose` | src/lib/tensorflow.ts:140-150 | both models dropped and the service uninitialised |
| `Store.Toggled` | src/store/useAppStore.ts:50-53 | toggling always changes the theme |
| `Store.ToggleTwice` | src/store/useAppStore.ts:50-53 | toggling twice restores the theme |
| `Store.PrependShape` | src/store/useAppStore.ts:65-68 | the new scan comes first, then the newest older scans, at most 50 in all |
| `Store.WithoutId` | src/store/useAppStore.ts:70-73 | deletion never lengthens the history |
| `Store.WithoutIdSpec` | src/store/useAppStore.ts:70-73 | exactly the scans with a different id remain, in their order, each with as many copies as before |
| `Store.WithoutAbsentId` | src/store/useAppStore.ts:70-73 | deleting an id not in the history changes nothing |
| `Store.MergeFields` | src/store/useAppStore.ts:57-60 | each field of the patch that is present overrides, the others are kept |
| `Store.MergeIdempotent` | src/store/useAppStore.ts:57-60 | applying a patch twice equals applying it once; the empty patch is the identity |
| `Store.AppStore.constructor` | src/store/useAppStore.ts:27-33 | light theme, empty patient, empty history, models not loaded |
| `Store.AppStore.Rehydrate` | src/store/useAppStore.ts:79-85 | the persisted part is restored, the patient starts empty |
| `Store.AppStore.SetTheme` | src/store/useAppStore.ts:40-49 | sets the theme, nothing else |
| `Store.AppStore.ToggleTheme` | src/store/useAppStore.ts:50-53 | switches the theme, nothing else |
| `Store.AppStore.SetPatientData` | src/store/useAppStore.ts:57-60 | merges the patch into the patient, nothing else |
| `Store.AppStore.ResetPatientData` | src/store/useAppStore.ts:61 | restores the empty patient, nothing else |
| `Store.AppStore.AddScanResult` | src/store/useAppStore.ts:65-68 | prepends and caps the history at 50, nothing else |
| `Store.AppStore.ClearHistory` | src/store/useAppStore.ts:69 | empties the history, nothing else |
| `Store.AppStore.DeleteScan` | src/store/useAppStore.ts:70-73 | removes the scans with that id, nothing else |
| `Store.AppStore.SetModelsLoaded` | src/store/useAppStore.ts:77 | sets the flag, nothing else |
| `Store.PatientNotPersisted` | src/store/useAppStore.ts:81-85 | two stores differing only in the patient persist the same state |
| `Detector.BuildScan` | src/app/detector/page.tsx:101-109 | the scan carries the ranking, its first entry as top prediction, the patient and the image |
| `Detector.DetectorPage.constructor` | src/app/detector/page.tsx:19-28 | the page's initial state |
| `Detector.DetectorPage.ModelLoadEffect` | src/app/detector/page.tsx:30-51 | starts a load only when the models are neither loaded nor loading; the flag turns true iff the service was already initialised or the load succeeds; the service keeps its models or holds exactly what the load produced |
| `Detector.DetectorPage.HandleImageSelect` | src/app/detector/page.tsx:53-57 | stores file and image and clears the predictions |
| `Detector.DetectorPage.HandleClearImage` | src/app/detector/page.tsx:59-63 | clears image, file and predictions |
| `Detector.DetectorPage.Record` | src/app/detector/page.tsx:98-127 | the scan is saved to the account iff signed in and the save succeeds, otherwise prepended to the local history |
| `Detector.DetectorPage.HandlePredict` | src/app/detector/page.tsx:65-134 | nothing happens without an image or loaded models; a refused image is never classified; it throws exactly when the validator's on-demand load fails, and then the shown result is unchanged; otherwise the ranking is recorded in exactly one place; the service keeps its models or holds exactly what the on-demand load produced |
| `Dashboard.ComputeStats` | src/app/dashboard/page.tsx:93-104 | defined iff every top class is in the catalogue; then high, medium and low are the counts of scans whose top class is melanoma, of classes 0 and 1, and of classes 2, 3, 5 and 6, and they sum to the total |
| `Dashboard.MelanomaIsHighRisk` | src/app/dashboard/page.tsx:95-97 | one more melanoma scan adds exactly one high-risk scan |
| `Dashboard.Displayed` | src/app/dashboard/page.tsx:258 | at most ten scans are shown, a prefix of the history |
| `Dashboard.NoteIffTruncated` | src/app/dashboard/page.tsx:323-329 | the "Showing 10 of N" note appears iff scans were cut, and then exactly ten are shown |
| `Dashboard.DashboardPage.constructor` | src/app/dashboard/page.tsx:26-28 | empty history, loading |
| `Dashboard.DashboardPage.LoadScans` | src/app/dashboard/page.tsx:34-50 | a successful answer replaces the history (missing scans become empty), anything else keeps it; loading ends |
| `Dashboard.DashboardPage.HandleDeleteScan` | src/app/dashboard/page.tsx:52-64 | the scan leaves the list only when confirmed and the server says success |
| `Dashboard.DashboardPage.HandleClearHistory` | src/app/dashboard/page.tsx:66-78 | the list empties only when confirmed and the server says success |
| `Dashboard.DashboardPage.HandleExportAll` | src/app/dashboard/page.tsx:106-119 | nothing to export iff the history is empty; exported iff not empty and generation succeeds |
| `Utils.ValidateImage` | src/lib/utils.ts:33-53 | valid iff the type is jpeg, jpg or png and the size is at most 5 MiB; the type error takes precedence |
| `Utils.ImageSizeBoundary` | src/lib/utils.ts:43-50 | 5242880 bytes pass, 5242881 do not |
| `Utils.TypeCheckedFirst` | src/lib/utils.ts:35-41 | a GIF gets the type error whatever its size |
| `Utils.Base36` | src/lib/utils.ts:28 | base-36 text is never empty |
| `Utils.Base36Value` | src/lib/utils.ts:28 | the upper-cased base-36 text reads back as the timestamp |
| `Utils.PatientIdShape` | src/lib/utils.ts:26-31 | the id is "PT", then the upper-cased base-36 time, then at most four upper-cased random characters |
| `PatientForm.AgeNotANumberPasses` | src/components/detector/PatientForm.tsx:38-42 | a non-numeric age passes the range check, since NaN compares false |
| `PatientForm.AgeTrailingTextIgnored` | src/components/detector/PatientForm.tsx:40 | an age of 1..120 followed by non-digits passes |
| `PatientForm.AgeWithUnitPasses` | src/components/detector/PatientForm.tsx:40 | "42 years" passes |
| `PatientForm.AgeRangeOfIntegers` | src/components/detector/PatientForm.tsx:40 | an integer age is refused iff it is outside 1..120 |
| `PatientForm.PatientFormView.constructor` | src/components/detector/PatientForm.tsx:16-17 | no errors |
| `PatientForm.FormErrorsOf` | src/components/detector/PatientForm.tsx:23-46 | a name message iff that name is blank after `trim()`; "Gender is required" iff none chosen; "Age is required" for an empty age, "Please enter a valid age" for one out of range, none otherwise |
| `PatientForm.FormAcceptance` | src/components/detector/PatientForm.tsx:23-46 | no message at all iff the patient is acceptable |
| `PatientForm.PatientFormView.ValidateForm` | src/components/detector/PatientForm.tsx:23-46 | the errors set are exactly `FormErrorsOf` the current patient; valid iff no message |
| `PatientForm.PatientFormView.HandleSubmit` | src/components/detector/PatientForm.tsx:48-53 | the errors are `FormErrorsOf` the patient; submits iff the patient is acceptable (names not blank, gender chosen, age given and in range) |
| `PatientForm.PatientFormView.HandleGenerateId` | src/components/detector/PatientForm.tsx:19-21 | only the patient id changes, to a generated id |
| `AuthPage.EmailPatternCore` | src/app/auth/page.tsx:43 | the email regex matches iff some '@' and later '.' have non-space runs around them |
| `AuthPage.EmailPatternUnanchored` | src/app/auth/page.tsx:43 | the regex is unanchored: text around a match still matches |
| `AuthPage.EmailPatternNeedsAtAndDot` | src/app/auth/page.tsx:43 | a match contains an '@' before a '.' |
| `AuthPage.EmailPatternExamples` | src/app/auth/page.tsx:43 | "a@b.c" and "say x@y.z please" match; "a@b" and "a@.c" do not |
| `AuthPage.EmailError` | src/app/auth/page.tsx:41-45 | no email error iff the email is non-empty and matches |
| `AuthPage.LoginErrors` | src/app/auth/page.tsx:38-53 | login validation only sets email and password errors |
| `AuthPage.LoginAcceptance` | src/app/auth/page.tsx:38-53 | login validates iff email non-empty and matching and password non-empty |
| `AuthPage.SignupErrors` | src/app/auth/page.tsx:55-84 | confirm error iff passwords differ; email error as for login |
| `AuthPage.SignupAcceptance` | src/app/auth/page.tsx:55-84 | sign-up validates iff names present, username of 3+ UTF-16 units, email matches, password of 6+ UTF-16 units, confirmation equal |
| `AuthPage.SignupShortPassword` | src/app/auth/page.tsx:72-80 | a short password gets the length message and no mismatch message |
| `AuthPage.SurrogatePairsCount` | src/app/auth/page.tsx:60-64 | a username of two astral characters has `length` 4 and passes the three-character minimum |
| `AuthPage.RedirectTarget` | src/app/auth/page.tsx:100-101 | the stored redirect when non-empty; "/dashboard" when none is stored or it is empty; never empty |
| `AuthPage.AuthPageView.constructor` | src/app/auth/page.tsx:16-36 | login mode unless the mode parameter is "signup" |
| `AuthPage.AuthPageView.ValidateLogin` | src/app/auth/page.tsx:38-53 | the errors shown are the login errors; valid iff none |
| `AuthPage.AuthPageView.ValidateSignup` | src/app/auth/page.tsx:55-84 | the errors shown are the sign-up errors; valid iff none |
| `AuthPage.AuthPageView.Redirect` | src/app/auth/page.tsx:99-103 | navigates to the redirect target and forgets the stored redirect |
| `AuthPage.AuthPageView.HandleLogin` | src/app/auth/page.tsx:86-112 | sends only a valid form; navigates only on a successful answer |
| `AuthPage.AuthPageView.HandleSignup` | src/app/auth/page.tsx:114-147 | sends only a valid form; navigates only on a successful answer |
| `AuthPage.AuthPageView.SwitchMode` | src/app/auth/page.tsx:226-229 | sets the mode and clears the errors |
| `Base64.CharSymbolOfSymbolChar` | src/lib/auth.ts:93 | every Base64 symbol decodes to itself |
| `Base64.SymbolBytesOfSymbols` | src/lib/auth.ts:93 | decoding the symbols of bytes gives the bytes back |
| `Base64.DecodeEncode` | src/lib/auth.ts:93 | decoding an encoding gives the bytes back |
| `Base64.EncodeInjective` | src/lib/auth.ts:93 | different bytes have different encodings |
| `Base64.Btoa` | src/lib/auth.ts:93 | `btoa` succeeds iff every character is Latin-1; it is empty iff its input is |
| `Base64.BtoaInjective` | src/lib/auth.ts:131 | equal `btoa` encodings mean equal strings |
| `LocalAuth.GenerateToken` | src/lib/auth.ts:44-46 | a non-empty token, defined iff the random text is Latin-1 |
| `LocalAuth.PasswordCheck` | src/lib/auth.ts:127-136 | no or empty stored password refuses; throws iff stored is non-empty and the attempt is not Latin-1; accepted only when stored is the attempt's encoding |
| `LocalAuth.PasswordCheckAfterSet` | src/lib/auth.ts:93 | after storing a password, exactly that password is accepted, unless it is empty (then nothing is) |
| `LocalAuth.MergeUser` | src/lib/auth.ts:187-188 | a field absent from the patch keeps its value, including creation and last-login time; the empty patch changes nothing |
| `LocalAuth.MergeUserFields` | src/lib/auth.ts:187-188 | each of the nine fields takes the patch's value when present and keeps the old one otherwise; applying a patch twice equals applying it once |
| `LocalAuth.PasswordResetReply` | src/lib/auth.ts:240-260 | always a success without user or token |
| `LocalAuth.LocalAuthStore.constructor` | src/lib/auth.ts:26-41 | the four stored items |
| `LocalAuth.LocalAuthStore.Register` | src/lib/auth.ts:49-109 | a duplicate email refuses before a duplicate username; otherwise appends the user and stores the encoded password; on success signs in (authenticated); when the token cannot be encoded the account is still stored and the sign-in state is unchanged |
| `LocalAuth.LocalAuthStore.Login` | src/lib/auth.ts:112-152 | unknown email and wrong password get the same message and change nothing; the refusal happens iff the email is unknown or the password does not match; a password that cannot be encoded throws and changes nothing; success updates that user's last login and signs in (authenticated) |
| `LocalAuth.LocalAuthStore.Logout` | src/lib/auth.ts:155-158 | no token, no current user, so not authenticated; accounts untouched |
| `LocalAuth.LocalAuthStore.UpdateProfile` | src/lib/auth.ts:174-199 | "User not found" for an unknown id, otherwise the first user with the id is merged |
| `LocalAuth.LocalAuthStore.ChangePassword` | src/lib/auth.ts:202-237 | "Unauthorized" unless signed in as that user; a password that cannot be encoded throws and changes nothing; "Current password is incorrect" exactly on a mismatch; on a match the new encoding is stored and nothing else changes |
| `LocalAuth.LocalAuthStore.RequestPasswordReset` | src/lib/auth.ts:240-260 | always reports success |
| `LocalAuth.LocalAuthStore.DeleteAccount` | src/lib/auth.ts:263-302 | "Unauthorized" unless signed in as that user; a password that cannot be encoded throws and changes nothing; "Incorrect password" on mismatch; then removes the user and password and signs out |
| `LocalAuth.DeletedAccountsGone` | src/lib/auth.ts:286-289 | exactly the other users remain, in order, each with as many copies as before |
| `Rates.Search` | src/app/rates/page.tsx:13-15 | never more hospitals than the list has |
| `Rates.FilteredHospitals` | src/app/rates/page.tsx:13-15 | never more hospitals than the list has |
| `Rates.Table` | src/app/rates/page.tsx:70-92 | the "No hospitals found" row appears iff nothing matches |
| `Rates.EmptyTermShowsAll` | src/app/rates/page.tsx:13-15 | the empty term lists every hospital |
| `Rates.FilteredInOrder` | src/app/rates/page.tsx:13-15 | results keep the list's order |
| `Rates.FilteredMembership` | src/app/rates/page.tsx:13-15 | a hospital is listed iff the lower-cased term occurs in its lower-cased name |
| `Rates.LowerTwice` | src/app/rates/page.tsx:14 | lower-casing is idempotent |
| `Rates.CaseInsensitive` | src/app/rates/page.tsx:13-15 | the case of the term does not matter |
| `ScansRoute.GetClassName` | backend/routes/scans.js:164-175 | a name other than "unknown" iff the id is 0..6 |
| `ScansRoute.GetClassNameAgrees` | backend/routes/scans.js:164-175 | the backend's class names agree with the browser's and the catalogue's |
| `ScansRoute.StoreAge` | backend/routes/scans.js:85 | the stored age is the parsed age, NULL iff unparsable or zero |
| `ScansRoute.ReadAge` | backend/routes/scans.js:38 | NULL reads back as the empty string |
| `ScansRoute.AgeRoundTrip` | backend/routes/scans.js:38 | a canonical positive age survives storing and reading |
| `ScansRoute.AgeRoundTripInt` | backend/routes/scans.js:85 | every non-zero integer survives |
| `ScansRoute.AgeLost` | backend/routes/scans.js:85 | "0" and unparsable ages come back empty |
| `ScansRoute.EmptyAgeLost` | backend/routes/scans.js:85 | the empty age comes back empty |
| `ScansRoute.ReadPredictions` | backend/routes/scans.js:18-28 | text that does not parse becomes [], parsed values pass through |
| `ScansRoute.FromRow` | backend/routes/scans.js:30-48 | the listed scan carries the row's id, time, age and predictions |
| `ScansRoute.ToRow` | backend/routes/scans.js:71-92 | the inserted row carries the new id, user, time, stored age and serialized predictions |
| `ScansRoute.SaveThenList` | backend/routes/scans.js:17-92 | saving then listing returns the scan with the server's id and time |
| `ScansRoute.FormatScans` | backend/routes/scans.js:17-48 | one listed scan per row, in row order |
| `ScansRoute.ScansRouter.constructor` | backend/routes/scans.js:3 | the table's rows |
| `ScansRoute.ScansRouter.List` | backend/routes/scans.js:9-62 | the user's rows in the query's order (a rearrangement of them), formatted, one scan per row; 500 on a database error |
| `ScansRoute.ScansRouter.Save` | backend/routes/scans.js:67-106 | appends one row with id "scan_" + time and answers 201; 500 changes nothing |
| `ScansRoute.ScansRouter.Delete` | backend/routes/scans.js:111-138 | removes exactly the user's rows with that id; 404 iff there were none |
| `ScansRoute.ScansRouter.Clear` | backend/routes/scans.js:143-161 | removes exactly the user's rows |
| `ScansRoute.ClearRemovesOnlyOwnRows` | backend/routes/scans.js:143-150 | after a clear, a row remains iff it belongs to another user |
| `AuthMiddleware.ExtractToken` | backend/middleware/auth.js:8 | the second space-separated header field when non-empty, else the cookie |
| `AuthMiddleware.BearerToken` | backend/middleware/auth.js:8 | "Bearer t" yields t whatever the cookie |
| `AuthMiddleware.HeaderWithoutSpace` | backend/middleware/auth.js:8 | a header without a space falls back to the cookie |
| `AuthMiddleware.Classify` | backend/middleware/auth.js:37-55 | 401 iff the error is JsonWebTokenError or TokenExpiredError, with their messages; otherwise 500 |
| `AuthMiddleware.AuthenticateOutcomes` | backend/middleware/auth.js:5-56 | a request passes iff it has a token that verifies and whose user exists, with the first row; every refusal is 401 except unknown errors (500) |
| `AuthMiddleware.ExpiredTokenRefused` | backend/middleware/auth.js:43-48 | an expired token gets 401 "Session expired" |
| `AuthMiddleware.Exchange.constructor` | backend/middleware/auth.js:5 | no user, no response, `next` not called |
| `AuthMiddleware.Exchange.Handle` | backend/middleware/auth.js:5-56 | `next` is called iff the request passes, after the user is attached; otherwise the refusal is sent |
| `AuthMiddleware.Exchange.Next` | backend/middleware/auth.js:33-35 | `next` runs with the user attached |
| `JsText.TrimEmptyIffBlank` | src/components/detector/PatientForm.tsx:26 | `trim()` is empty iff the text is all white space |
| `JsText.LowerOfUpper` | src/app/rates/page.tsx:14 | lower-casing forgets an earlier upper-casing |
| `JsText.IncludesIffOccurs` | src/app/rates/page.tsx:14 | `includes` holds iff the text occurs at some index |
| `JsText.IncludesEmpty` | src/app/rates/page.tsx:14 | every text includes the empty text |
| `JsText.Split` | backend/middleware/auth.js:8 | at least one field, none containing the separator |
| `JsText.SplitField` | backend/middleware/auth.js:8 | splitting "w sep rest" yields w then the fields of rest |
| `JsText.JoinSplit` | backend/middleware/auth.js:8 | joining the fields with the separator gives the text back |
| `JsText.ValueOfNatString` | backend/routes/scans.js:38 | the decimal text of n reads back as n |
| `JsText.NatStringOfValue` | backend/routes/scans.js:38 | a canonical decimal text is the text of its value |
| `JsText.ParseIntString` | backend/routes/scans.js:85 | `parseInt` of an integer's decimal text is that integer |
| `JsText.ParseIntStopsAtNonDigit` | src/components/detector/PatientForm.tsx:40 | `parseInt` stops at the first non-digit |
| `JsText.ParseIntCanonical` | backend/routes/scans.js:85 | `parseInt` of canonical positive text gives its value, at least 1 |
| `Seqs.FindIndex` | src/lib/auth.ts:178 | the first index satisfying the predicate, or none iff none does |
| `Seqs.FilterMembership` | src/store/useAppStore.ts:72 | an element survives `filter` iff it was there and satisfies the predicate |
| `Seqs.FilterKeepsAll` | backend/routes/scans.js:120 | `filter` keeps the length iff every element satisfies the predicate |
| `Seqs.FilterIsSubsequence` | src/store/useAppStore.ts:72 | `filter` keeps order |
| `Seqs.FilterMultiset` | src/store/useAppStore.ts:72 | `filter` keeps every copy of an element that satisfies the predicate and none of the others |

## Left out

- The TensorFlow.js pieces: image preprocessing (resize, normalise, batch), tensors and their disposal, the progress callback, `getModelInfo` and the `getInstance` singleton. The networks are functions from a model and an image to a vector of reals.
- TensorFlow.TensorFlowService.constructor: it requires the lesion net to produce seven outputs, one per catalogue class; the source takes this from the model file and does not check it.
- Floating-point arithmetic: probabilities are `real`. The backend's DECIMAL column and its `parseFloat` rounding are not modelled.
- `JSON.parse` and `JSON.stringify` are parameters. `ScansRoute.SaveThenList` requires that they round-trip.
- `ScansRoute.ScansRouter.List`: the SQL `ORDER BY createdAt DESC` is a parameter of the listing, required only to rearrange the rows; the date comparison itself is not modelled.
- Asynchrony, timers, the simulated delays and the timing between awaits are not modelled.
- Toasts and all rendering except the dashboard's ten-row limit and the rates table's empty row are not modelled.
- The detector's wait for `img.onload` is not modelled; the image is decoded by a given function.
- `formatDate`, `compressImage`, `downloadFile`, `cn` and the PDF export are not part of this model, because they are formatting and I/O.
- The REST client, the backend sign-in routes, the server setup and the database configuration are not part of this model.
- `ScansRoute.ScansRouter.Save`, `Delete` and `List`: the table schema is not modelled. The primary key on `id` would turn a second save in the same millisecond into a 500, but the model appends a duplicate id; the `utf8mb4_unicode_ci` collation compares ids ignoring case and trailing spaces, but the model compares them exactly; the BOOLEAN column reads back as 0 or 1, but the model keeps the `bool`.
- bcrypt and JWT internals are not modelled: `jwt.verify` and the user query are parameters of the middleware.
- Character handling covers ASCII case mapping only. A `char` is a Unicode scalar value; where the code reads a string's `length`, `JsText.Utf16Length` counts characters beyond U+FFFF twice, as UTF-16 does. White space for `trim()` and `\S` is exactly ECMAScript's WhiteSpace and LineTerminator characters.
- `parseInt` has no double-precision limit.
- `Utils.PatientIdShape`: `Math.random().toString(36)` is given as text; only the `substring(2, 6)` and upper-casing are modelled.
- `LocalAuth.User`: the optional `dateOfBirth`, `gender` and `avatar` fields are not modelled. A profile patch can set `phone` and `lastLogin` to undefined; the required fields cannot be removed.
- `LocalAuth.LocalAuthStore.Login`: `getCurrentUser`'s JSON copy of the stored user is not modelled.
- `ScansRoute.Row`: the gender column keeps the form's gender value rather than a text column.
