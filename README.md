# Blood bank registration: validators, stores and dashboard in Dafny

This project models the logic of a small blood bank registration app. The
app has an Express/MongoDB backend and a React front end.

- **Donor validation.** The backend's mongoose donor schema decides which
  request bodies are stored. Accepted bodies are normalised: the name is
  trimmed and missing medical answers become `false`. The donor registration
  form runs its own zod schema first. The model states both schemas and
  proves where they agree and where they differ.
- **Hospital validation.** The backend's hospital schema and the hospital
  registration form's zod schema, modelled and compared the same way.
- **The stores.**
  - The donor handlers: register, list, get by id and delete.
  - The hospital handlers: insert and list.
  - The signup and login routes over the user collection.
  Each store is a class whose methods change its fields, under an invariant
  the methods preserve.
- **The admin dashboard.** `calculateBloodGroups` counts donors per blood
  group in a loop, then classifies each group against its minimum.
  `getStatusColor` maps a status to a CSS class.

Request bodies are records of `Option` fields, so "absent" and "present" are
both represented. A failing store call (database unreachable, malformed id)
is a `fault: bool` parameter of each handler. bcrypt is a hash function the
user store is given, and zod's email test is an `isEmail` parameter.
Identifiers come from a counter, so each new one is fresh.

Where the code and the written design disagree, the model follows the code:

- Deleting an identifier that is not stored still answers 200.
- The backend accepts `ageConfirmation = false`. Only the form demands `true`.
- Every failed donor registration answers 400, including a failed write.
- Every failed hospital registration answers 500, including a body the schema
  rejects.

## Model

| member | source | states |
|---|---|---|
| Text.Trim | blood_bank_management/Backend/models/donorModel.js:4 | The trimmed name is a slice s[a..b] of the input, and everything before a and after b is whitespace. The result has no whitespace at either end, so exactly the leading and trailing whitespace is removed. It is empty exactly when the input is all whitespace. A string already trimmed is unchanged. |
| Text.TrimIdempotent | blood_bank_management/Backend/models/donorModel.js:4 | Trimming twice gives the same result as trimming once. |
| Records.ParseGender | blood_bank_management/Backend/models/donorModel.js:6 | Reading a gender inverts GenderName. A string that is no gender's name reads as None. |
| Records.ParseBloodGroup | blood_bank_management/Backend/models/donorModel.js:7 | Reading a group inverts GroupName. A string that is no group's name reads as None. |
| Records.GroupNameRoundTrip | blood_bank_management/Backend/models/donorModel.js:7 | Printing any blood group and reading it back gives the same group. |
| DonorModel.PathValid | blood_bank_management/Backend/models/donorModel.js:4-13 | Defines the check on each validated path. The name must be present and not blank after trimming, and the age must be in 18..65. Gender and blood group must be in their lists, and the phone must match the digit pattern. Email, address, city and state must be present and non-empty. The confirmation must be present. |
| DonorModel.Accepted | blood_bank_management/Backend/models/donorModel.js:4-13 | Defines acceptance as the conjunction of the per-path checks. FailingPathsEmptyIff relates it to the failing paths. |
| DonorModel.FailingPathsEmptyIff | blood_bank_management/Backend/models/donorModel.js:4-13 | No validated path fails exactly when the body is accepted, in both directions. |
| DonorModel.SchemaErrors | blood_bank_management/Backend/models/donorModel.js:4-13 | The error names every validated path whose check fails, and no other path. It is empty exactly when the body is accepted. |
| DonorModel.MedicalDefaults | blood_bank_management/Backend/models/donorModel.js:14-25 | Each of the ten stored flags is the value sent. A flag that was not sent, or a missing answers object, gives false. |
| DonorModel.Normalize | blood_bank_management/Backend/models/donorModel.js:3-26 | The stored document is well formed. The name is the trimmed input name and every other field is kept as sent. Absent medical flags are false. |
| DonorModel.ValidateDonor | blood_bank_management/Backend/models/donorModel.js:3-26 | Validation succeeds exactly when every path passes. The record is then the normalised document, so it is well formed, with the name trimmed and every other field as sent. Otherwise it fails with the non-empty set of failing paths. |
| DonorModel.AgeOutsideRangeRejected | blood_bank_management/Backend/models/donorModel.js:5 | A missing age, or one outside 18..65, is rejected with the age path named. |
| DonorModel.AgeAcceptedIff | blood_bank_management/Backend/models/donorModel.js:5 | The age path passes exactly when the age is present and within 18..65 inclusive. |
| DonorModel.GendersClosed | blood_bank_management/Backend/models/donorModel.js:6 | A string is in the schema's gender list exactly when it names one of the three genders. |
| DonorModel.BloodGroupsClosed | blood_bank_management/Backend/models/donorModel.js:7 | A string is in the schema's blood group list exactly when it names one of the eight groups. |
| DonorModel.EnumsAreClosed | blood_bank_management/Backend/models/donorModel.js:6-7 | The gender path passes exactly when a gender is present and names a Gender. The blood group path passes exactly when a group is present and names a BloodGroup. |
| DonorModel.PhoneAcceptedIff | blood_bank_management/Backend/models/donorModel.js:8 | The phone path passes exactly when the phone is present and is 10 to 15 decimal digits. |
| DonorModel.PresenceOnlyPaths | blood_bank_management/Backend/models/donorModel.js:9-12 | Email, address, city and state each pass exactly when present and non-empty. The email has no format check. |
| DonorModel.NameAcceptedIff | blood_bank_management/Backend/models/donorModel.js:4 | The name path passes exactly when a name is present and is not only whitespace. |
| DonorModel.BlankNameRejected | blood_bank_management/Backend/models/donorModel.js:4 | A name made only of whitespace is rejected with the name path named. |
| DonorModel.UnconfirmedAgeAccepted | blood_bank_management/Backend/models/donorModel.js:13 | An accepted body with the confirmation set to false is still accepted, and the record stores false. |
| DonorModel.JaneDoeExample | blood_bank_management/Backend/models/donorModel.js:3-26 | The example body (Jane Doe, 30, O-, an empty medical answers object) is accepted and stored with blood group "O-". |
| DonorModel.JaneDoeNoMedicalFlags | blood_bank_management/Backend/models/donorModel.js:14-25 | The example body's stored record has all ten medical flags false. |
| DonorModel.UnderageExample | blood_bank_management/Backend/models/donorModel.js:5 | The example body with age 17 is rejected, and the error names the age. |
| DonorForm.PathIssue | blood_bank_management/src/pages/DonorRegistration.tsx:13-38 | Defines the issue on each path with the form's own messages. A missing value gets the library's required issue, and a value outside an enum list gets the invalid-enum issue. |
| DonorForm.FormAccepts | blood_bank_management/src/pages/DonorRegistration.tsx:13-38 | Defines acceptance as no issue on any path. AcceptedIffNoIssues relates it to the issue map. |
| DonorForm.IssuesOn | blood_bank_management/src/pages/DonorRegistration.tsx:13-38 | The issues over a list of paths hold exactly the listed paths that have an issue, each with that issue's message. |
| DonorForm.FormIssues | blood_bank_management/src/pages/DonorRegistration.tsx:13-38 | A path appears among the form's issues exactly when it has an issue, with that issue's message. |
| DonorForm.AcceptedIffNoIssues | blood_bank_management/src/pages/DonorRegistration.tsx:13-38 | The form shows no issue exactly when it accepts the body. |
| DonorForm.FormAcceptsOnly | blood_bank_management/src/pages/DonorRegistration.tsx:14-37 | An accepted body has a name of at least 2 characters and an age in 18..65. Its phone has at least 10 characters, its email passes the email test and its address has at least 5. City and state have at least 2 each. The confirmation is literally true and all ten medical answers are present. |
| DonorForm.UnconfirmedShowsMessage | blood_bank_management/src/pages/DonorRegistration.tsx:23-25 | Any confirmation other than true shows "You must be 18 or older to register". |
| DonorForm.EnumsAgree | blood_bank_management/src/pages/DonorRegistration.tsx:16-17 | On gender and blood group, the form finds no issue exactly when the backend finds none. |
| DonorForm.AgeRangesAgree | blood_bank_management/src/pages/DonorRegistration.tsx:15 | On the age, the form finds no issue exactly when the backend finds none. |
| DonorForm.FormAcceptedBackendErrors | blood_bank_management/src/pages/DonorRegistration.tsx:13-38 | A body the form accepts can fail on the backend only on the name or the phone. The name fails exactly when it is all whitespace. The phone fails exactly when it holds a non-digit or has more than 15 characters. |
| DonorForm.LetterPhonePassesFormOnly | blood_bank_management/src/pages/DonorRegistration.tsx:18 | A phone of ten letters keeps an accepted body accepted by the form, and the backend rejects that phone. |
| DonorForm.BlankNamePassesFormOnly | blood_bank_management/src/pages/DonorRegistration.tsx:14 | A name of two spaces passes the form, and the backend rejects it as missing. |
| DonorForm.UnconfirmedPassesBackendOnly | blood_bank_management/src/pages/DonorRegistration.tsx:23-25 | With the confirmation set to false, the backend still accepts the body and the form shows the confirmation message. |
| DonorForm.MissingAnswersPassBackend | blood_bank_management/Backend/models/donorModel.js:14-25 | A backend-accepted body sending an empty answers object stays accepted, with every flag stored false. |
| DonorForm.MissingAnswerShown | blood_bank_management/src/pages/DonorRegistration.tsx:26-37 | A flag missing from a sent answers object shows the library's required issue. |
| DonorForm.MissingAnswersFailForm | blood_bank_management/src/pages/DonorRegistration.tsx:26-37 | A body whose medical answers object is empty shows an issue on every one of the ten flags. |
| DonorController.Without | blood_bank_management/Backend/controllers/donorController.js:41 | Removing an identifier from the insertion order drops exactly that identifier and keeps every other. Distinct identifiers stay distinct. |
| DonorController.DocumentsCount | blood_bank_management/Backend/controllers/donorController.js:20 | Listing distinct identifiers that are exactly the stored keys gives one entry per document. |
| DonorController.DocumentsMembers | blood_bank_management/Backend/controllers/donorController.js:20 | Such a listing holds every stored document and nothing else. |
| DonorController.InsertKeepsInvariant | blood_bank_management/Backend/controllers/donorController.js:7-8 | The next identifier is not in use, and storing a record under it keeps the store invariant. |
| DonorController.DeleteKeepsInvariant | blood_bank_management/Backend/controllers/donorController.js:41 | Deleting an identifier, whether stored or not, keeps the store invariant. |
| DonorController.DonorStore.Listing | blood_bank_management/Backend/controllers/donorController.js:20 | The full listing has one entry per stored document. It holds every document with its identifier and nothing else. |
| DonorController.DonorStore.RegisterDonor | blood_bank_management/Backend/controllers/donorController.js:4-14 | A rejected body answers 400 with the failing paths, and so does a failed write; neither changes the store. Otherwise the normalised record is stored under a fresh identifier and returned with 201, and every other document is unchanged. |
| DonorController.DonorStore.GetDonors | blood_bank_management/Backend/controllers/donorController.js:18-25 | Answers 200 with every stored document, each once, or 500 on a failure. The store is not changed. |
| DonorController.DonorStore.GetDonorById | blood_bank_management/Backend/controllers/donorController.js:28-36 | Answers 404 "Donor not found" exactly when the identifier is not stored, and otherwise 200 with that document. |
| DonorController.DonorStore.DeleteDonor | blood_bank_management/Backend/controllers/donorController.js:39-46 | Answers 200 whether or not the identifier was stored. Afterwards it is absent, at most one document is gone and all others are unchanged. |
| DonorController.RegisterThenFetch | blood_bank_management/Backend/controllers/donorController.js:7-9 | Registering an accepted body and then fetching the returned identifier gives 200 with the normalised record. |
| DonorController.DeleteThenFetch | blood_bank_management/Backend/controllers/donorController.js:41-42 | Deleting an identifier and then fetching it gives 404 "Donor not found". |
| HospitalServer.Accepted | blood_bank_management/Backend/server.js:31-41 | Defines acceptance: the seven required paths are present and non-empty. SchemaErrors relates it to the failing paths. |
| HospitalServer.SchemaErrors | blood_bank_management/Backend/server.js:31-41 | The error names exactly the required paths that are missing or empty. It is empty exactly when the body is accepted. |
| HospitalServer.ValidateHospital | blood_bank_management/Backend/server.js:31-41 | Validation succeeds exactly when the seven required paths are present and non-empty. Every field is then kept as sent, with blood_group and unit possibly absent. Otherwise it fails with the failing paths. |
| HospitalServer.OptionalPathsNeverFail | blood_bank_management/Backend/server.js:38-39 | blood_group and unit never fail, and dropping them keeps a body accepted. |
| HospitalServer.HospitalStore.PostHospital | blood_bank_management/Backend/server.js:48-56 | A rejected body or a failed write answers 500 and stores nothing. Otherwise the record is appended under a fresh identifier and returned with 201. The old contents are always kept, so the store never shrinks. |
| HospitalServer.HospitalStore.GetHospitals | blood_bank_management/Backend/server.js:59-66 | Answers 200 with every stored hospital in insertion order, or 500 on a failure. The store is not changed. |
| HospitalForm.PathIssue | blood_bank_management/src/pages/HospitalRegistration.tsx:12-22 | Defines the issue on each path: the minimum lengths with the form's messages, the email test, and presence for unit and blood_group. |
| HospitalForm.FormAccepts | blood_bank_management/src/pages/HospitalRegistration.tsx:12-22 | Defines acceptance as no issue on any path. FormIssues relates it to the issue map. |
| HospitalForm.FormIssues | blood_bank_management/src/pages/HospitalRegistration.tsx:12-22 | A path appears among the form's issues exactly when it has an issue, with that issue's message. There are no issues exactly when the form accepts the body. |
| HospitalForm.FormAcceptsOnly | blood_bank_management/src/pages/HospitalRegistration.tsx:13-21 | In an accepted body, name and contact person have at least 2 characters. The phone has at least 10, the address at least 5, and city and state at least 2 each. The email passes the email test, and unit and blood_group are present. |
| HospitalForm.FreeTextPathsAcceptAnyString | blood_bank_management/src/pages/HospitalRegistration.tsx:19-20 | Any strings in unit and blood_group, the empty one included, keep an accepted body accepted. |
| HospitalForm.FormAcceptedImpliesBackendAccepts | blood_bank_management/src/pages/HospitalRegistration.tsx:12-22 | A body the form accepts passes the backend's hospital schema. |
| HospitalForm.BackendAcceptsShortName | blood_bank_management/src/pages/HospitalRegistration.tsx:13 | The converse fails: a one-letter name passes the backend, and the form shows "Hospital name is required". |
| AuthRoutes.FindUser | blood_bank_management/Backend/routes/authRoutes.js:13 | A lookup by email returns a stored user with that email, or None when no user has it. |
| AuthRoutes.FindUserUnique | blood_bank_management/Backend/routes/authRoutes.js:37 | With one user per email, the lookup returns the only user with that email. |
| AuthRoutes.LoginReply | blood_bank_management/Backend/routes/authRoutes.js:32-51 | A 200 answer means some user has the email and the password hashes to that user's hash. It carries only the email. Any other answer is 400 "Invalid Credentials". |
| AuthRoutes.LoginSucceedsIff | blood_bank_management/Backend/routes/authRoutes.js:37-45 | With one user per email, login succeeds exactly when a user has the email and the password hashes to that user's stored hash. |
| AuthRoutes.FailuresIndistinguishable | blood_bank_management/Backend/routes/authRoutes.js:37-42 | An unknown email and a wrong password get the identical answer, 400 "Invalid Credentials". |
| AuthRoutes.SignupThenLogin | blood_bank_management/Backend/routes/authRoutes.js:17-22 | After a signup that adds a new user, logging in with the same email and password succeeds. |
| AuthRoutes.OtherPasswordRefused | blood_bank_management/Backend/routes/authRoutes.js:41-42 | After a signup, any password whose hash differs from the signed-up password's hash is refused. |
| AuthRoutes.UserStore.Signup | blood_bank_management/Backend/routes/authRoutes.js:8-29 | A known email answers 400 "User already exists" and changes nothing. A new email adds exactly one user, holding the hash of the password, and answers 201. A failure answers 500. Emails stay unique. |
| AuthRoutes.UserStore.Login | blood_bank_management/Backend/routes/authRoutes.js:32-51 | The answer is the login reply for the current users, 500 on a failure. An unknown email gives "Invalid Credentials". Without a failure, login answers 200 exactly when a user has the email and the password hashes to that user's stored hash. The store is never changed. |
| AdminDashboard.CountOf | blood_bank_management/src/pages/AdminDashboard.tsx:66-70 | The count for a group is the multiplicity of that value in the donor list, so it is at most the number of donors. |
| AdminDashboard.Unrecognised | blood_bank_management/src/pages/AdminDashboard.tsx:67 | Counts the donors whose value is not a key. The count is 0 exactly when every value is a key, and it equals the number of donors exactly when none is. |
| AdminDashboard.Tally | blood_bank_management/src/pages/AdminDashboard.tsx:55-70 | After counting, the dictionary keeps exactly the eight keys. Each bucket's count is the multiplicity of its key in the donor list, and its minimum is the initial one. |
| AdminDashboard.TallyEmpty | blood_bank_management/src/pages/AdminDashboard.tsx:55-64 | Before any donor is counted, the dictionary is the initial one. |
| AdminDashboard.TallyAppend | blood_bank_management/src/pages/AdminDashboard.tsx:66-70 | Counting one more donor adds one to its group's bucket if its value is a key, and changes nothing otherwise. |
| AdminDashboard.CountDonors | blood_bank_management/src/pages/AdminDashboard.tsx:66-70 | The forEach loop starts from the initial dictionary and ends with exactly the tally of the donor list. Each bucket's count is then its key's multiplicity. |
| AdminDashboard.Classify | blood_bank_management/src/pages/AdminDashboard.tsx:74-78 | The status is critical iff the count is 0, low iff 0 < count < min, excess iff count > 2·min and normal otherwise. The four cases are exclusive and cover every count. |
| AdminDashboard.Rows | blood_bank_management/src/pages/AdminDashboard.tsx:72-86 | There is one row per key, in key order, each summarising that key's bucket. |
| AdminDashboard.Summaries | blood_bank_management/src/pages/AdminDashboard.tsx:54-86 | There are exactly 8 rows in the order A+, A-, B+, B-, O+, O-, AB+, AB-. Each has its group's donor count (the multiplicity of the group in the donor list), its minimum and the status of that count. |
| AdminDashboard.CalculateBloodGroups | blood_bank_management/src/pages/AdminDashboard.tsx:54-94 | Counting and classifying produce exactly the specified rows. totalDonors is the number of donors and totalBloodUnits is twice that. |
| AdminDashboard.MinimumsPerGroup | blood_bank_management/src/pages/AdminDashboard.tsx:56-63 | The minimum is 10 for O+, 8 for O- and 5 for every other group. |
| AdminDashboard.CountsAddUp | blood_bank_management/src/pages/AdminDashboard.tsx:66-70 | The row counts plus the donors with an unrecognised group equal the number of donors. |
| AdminDashboard.CountsAtMostDonors | blood_bank_management/src/pages/AdminDashboard.tsx:66-70 | The row counts add up to at most the number of donors. |
| AdminDashboard.StoredDonorsAllCounted | blood_bank_management/src/pages/AdminDashboard.tsx:66-70 | For donors the backend stored, whose groups are all valid, the row counts add up to exactly the number of donors. |
| AdminDashboard.EightONegativeIsNormal | blood_bank_management/src/pages/AdminDashboard.tsx:61-78 | Eight O- donors give the O- row count 8 and status "normal". |
| AdminDashboard.StatusColor | blood_bank_management/src/pages/AdminDashboard.tsx:96-109 | Defines the class for each status, with a gray default. StatusColorsDistinct and OtherStatusIsGray state its properties. |
| AdminDashboard.StatusColorsDistinct | blood_bank_management/src/pages/AdminDashboard.tsx:96-109 | The four statuses get four distinct classes, none of them the gray default. |
| AdminDashboard.OtherStatusIsGray | blood_bank_management/src/pages/AdminDashboard.tsx:106-107 | Any string that is not a status name gets the gray default class. |
| AdminDashboard.DashboardState.DonorsChanged | blood_bank_management/src/pages/AdminDashboard.tsx:28-32 | A non-empty donor list recomputes the rows and totals. An empty list leaves them as they were; they start empty and zero. |

## Left out

- HTTP, Express routing, CORS, body parsing, the MongoDB connection, async
  execution and concurrent requests. Each handler is one atomic step, and a
  failing store call is the `fault` parameter.
- JSON type coercion, and any value of the wrong type. Mongoose casts `"30"`
  to 30 and `"true"` to true, and a value it cannot cast fails the save with
  a cast error. An uncastable medical flag such as `"maybe"` therefore gets
  a 400 answer. The model's fields already have their target types, so such
  bodies fall outside the model. An absent field is a field that was not
  sent.
- Non-integer and NaN ages. Age is an `int`.
- Lengths. zod's `min(n)` counts UTF-16 code units, and the model counts
  `char`s.
- zod's default messages. The model names these by code (required, invalid
  enum value), not by text.
- zod's email check is the parameter `isEmail`. The lemmas comparing the
  form and the backend assume it rejects the empty string.
- bcrypt salting, and the cost of hashing. The hash is a function the user
  store is given, and a password matches when it hashes to the stored hash.
- OtherPasswordRefused: refuses only passwords whose hash differs from the
  signed-up one. bcrypt reads only the first 72 bytes of a password, so a
  different password that agrees on those bytes logs in as well.
- Generating ObjectIds and `createdAt`/`updatedAt` timestamps. Identifiers
  come from a counter. A malformed identifier (a cast error) is a `fault`.
- `find()` with no sort has no defined order in MongoDB. The model lists
  documents in insertion order.
- Fields the schemas do not declare, which mongoose strips.
- Console logging: the request body and registration error logged in
  `Backend/controllers/donorController.js` (lines 5 and 11), and the signup
  and login errors logged in `Backend/routes/authRoutes.js` (lines 26 and 48).
- `models/User.js` is not part of this model. The user collection is assumed
  to impose no constraint of its own, such as a unique index on the email.
- A lookup with an undefined email. Emails are strings here.
- The React components, their UI state and their network calls.
  - The dashboard works on the list of each fetched donor's `bloodGroup`
    value.
  - A JavaScript object's inherited property names are treated as
    non-keys, like any other unknown group.
  - The output row's `type` field is named `bloodType`.
