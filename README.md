# Employee portal: record lifecycle, authentication and tool selection

This project models the core of a small employee portal in Dafny. A web
client collects an employee's profile and posts it to a backend. The backend
stores it in a document collection keyed by employee ID, hashing the password
before the write. It authenticates logins, lists employees without their
passwords and serves profile images.

Modules, one per component:

- `Wrappers`: `Option` and `Result`.
- `Strings`: JavaScript's `split` with a one-character separator, `join`
  and `startsWith`, with the two round-trip laws between split and join.
- `Bcrypt`: the salted hash and its comparison. This covers only what the
  portal uses: a salt that records its cost, a digest that carries its salt,
  and the law that a candidate matches a hash exactly when it is the
  password that was hashed.
- `EmployeeModel` (backend/models/Employee.js):
  - the schema's required paths;
  - the pre-save hook;
  - the `EmployeeStore` class. It holds the collection as a `map` from
    `empId` to record, plus the insertion order of the keys. `Insert` models
    `save()` of a new document: validation, then the hook, then the unique
    index on `empId`.
- `EmployeeRoutes` (backend/routes/employeeRoutes.js):
  - the upload filter and the 5 MiB limit;
  - the normalisation of `favTools`;
  - the construction of `profileImage`;
  - the create, login, list and image handlers, as methods over the store.
    Each returns a response datatype, and `CreateStatus`/`LoginStatus`/
    `ImageStatus` map responses to HTTP status codes.
- `PortalApp` (frontend/src/App.js):
  - the checkbox updater;
  - the comma-joined `favTools` form field;
  - the "None" fallback on the welcome page.

Modelling choices:

- JavaScript's single string type for the `password` path is split into
  `Secret = Plain(text) | Hashed(digest)`, and `HoldsPlaintext` says the path
  holds `Plain`. Before the hook runs, a document built by the create
  handler holds plaintext exactly when mongoose reports the path modified,
  so the hook's `isModified("password")` test is `HoldsPlaintext`. The
  hook's own assignment keeps the path marked modified until the write; the
  model does not track that flag, only that the path then holds a digest.
  Stored records (`Employee`) only have room for a `Digest`.
- Two `Draft` states arise on no path of the code: an unset `favTools`
  (mongoose gives array paths a default of `[]`, and the create handler
  always supplies a list) and a password already holding a digest (no
  document is re-saved). `MissingPaths` reports `favTools` for the first,
  and `PreSave` leaves the second as it is.
- Mongoose's `required` validator rejects an unset string path and the empty
  string. It accepts an empty array, so `favTools` may be `[]`.
- The random bytes of `genSalt` are a `nonce` parameter. Database failures,
  the clock and the network are not modelled.
- The collection's scan order is modelled as insertion order.

Facts about the code worth noting:

- A duplicate `empId` ends in 500, like every other save failure; the code
  has no 409 path.
- A rejected upload (non-image type, or more than 5 MiB) never reaches the
  create handler. The application's catch-all error middleware answers 500,
  not a client error.
- A `favTools` string is split on `","` without trimming, and empty pieces
  are kept. An empty selection in the client is sent as `""`, which the
  backend stores as `[""]`, not `[]`.
- The 201 response of create carries the saved document, including the
  password digest. It never carries the plaintext.
- An uploaded file of zero bytes is accepted and stored as an image with
  empty data.

## Model

| member | source | states |
|---|---|---|
| Strings.Split | backend/routes/employeeRoutes.js:35 | `split(",")` yields one more piece than there are separators, and no piece contains the separator |
| Strings.SplitWithoutSeparator | backend/routes/employeeRoutes.js:35 | a string without the separator splits into the one-element list of itself |
| Strings.SplitAfterPiece | backend/routes/employeeRoutes.js:35 | splitting `a + "," + rest` with comma-free `a` gives `a` followed by the pieces of `rest` |
| Strings.SplitJoin | frontend/src/App.js:35 | splitting the join of a nonempty list of separator-free strings recovers the list |
| Strings.JoinSplit | backend/routes/employeeRoutes.js:35 | joining the pieces of a split with the same separator gives back the original string |
| Strings.JoinEmpty | frontend/src/App.js:267 | with a nonempty separator, a join is empty exactly for `[]` and `[""]` |
| Bcrypt.Hash | backend/models/Employee.js:20-21 | the digest embeds the salt it was computed with |
| Bcrypt.ChecksumInjective | backend/models/Employee.js:21 | under one salt, equal checksums come from equal passwords |
| Bcrypt.CompareHash | backend/routes/employeeRoutes.js:64 | `compare(p, hash(q, s))` holds exactly when `p == q` |
| EmployeeModel.NewDraft | backend/routes/employeeRoutes.js:31-40 | a new document holds its password as plaintext (so the path is modified) exactly when a password was given |
| EmployeeModel.MissingPaths | backend/models/Employee.js:5-15 | lists exactly the failing required paths (name, designation, empId as non-empty strings; favTools set; password non-empty); it is empty exactly when the document is complete; `profileImage` is never required |
| EmployeeModel.PreSave | backend/models/Employee.js:18-23 | a modified (plaintext) password is replaced by `Hash(plaintext, salt)`; an unmodified one leaves the document unchanged; no other path changes; afterwards the path holds a digest |
| EmployeeModel.Saved | backend/models/Employee.js:18-22 | the stored record has the document's fields, satisfies the schema, and its password is `Hash(plaintext, salt)`, or the existing digest if it was unmodified |
| EmployeeModel.SavedPasswordMatches | backend/models/Employee.js:20-21 | a saved record's digest uses cost 10 and authenticates exactly the plaintext the document carried |
| EmployeeModel.EmployeeStore.Insert | backend/models/Employee.js:5-23 | an incomplete document fails with the missing paths; a present `empId` fails with a duplicate key; either failure leaves the collection unchanged; otherwise exactly the saved record is added under its `empId`, and the key uniqueness and well-formedness invariant is kept |
| EmployeeModel.EmployeeStore.Find | backend/routes/employeeRoutes.js:60 | `findOne({ empId })` finds a record exactly when the key is stored, and it is the record with that `empId` |
| EmployeeModel.InsertTwice | backend/models/Employee.js:8 | a second insert with the same `empId` fails with a duplicate key, and the first record is the only one stored |
| EmployeeRoutes.CheckUpload | backend/routes/employeeRoutes.js:10-20 | an upload passes exactly when there is none, or its mimetype starts with `image/` and it has at most 5*1024*1024 bytes; a non-image is refused for its type first, and an oversize image for its size |
| EmployeeRoutes.NormalizeFavTools | backend/routes/employeeRoutes.js:35 | an array is kept verbatim; a string gives comma-free pieces, one more than its commas, whose comma-join is the string; an absent field throws |
| EmployeeRoutes.ProfileImage | backend/routes/employeeRoutes.js:37-39 | the image is absent exactly without an upload; otherwise its data is the uploaded bytes and its contentType the uploaded mimetype |
| EmployeeRoutes.CreateStatus | backend/routes/employeeRoutes.js:43-51 | create answers 201 exactly on success, and 500 otherwise; there is no other status |
| EmployeeRoutes.LoginStatus | backend/routes/employeeRoutes.js:62-67 | login answers 200 exactly on success, 404 exactly for an unknown employee and 400 exactly for a wrong password, and 500 exactly for the error response |
| EmployeeRoutes.ImageStatus | backend/routes/employeeRoutes.js:98-106 | image fetch answers 200 exactly when bytes are sent and 404 exactly when the image is not found |
| EmployeeRoutes.CreateEmployee | backend/routes/employeeRoutes.js:23-53 | a rejected upload, a missing `favTools`, a failed validation and a duplicate `empId` each end in their own failure with the collection unchanged; otherwise the response carries the saved record, hashed under a cost-10 salt, and the collection gains exactly it |
| EmployeeRoutes.Login | backend/routes/employeeRoutes.js:56-78 | an unknown `empId` gives not-found, and nothing else does; a missing password gives the error response; a failed comparison gives invalid-password; otherwise exactly name, empId, designation and favTools of the stored record are returned |
| EmployeeRoutes.ListEmployees | backend/routes/employeeRoutes.js:81-90 | one entry per stored record, in collection order, each the record without its password; every stored `empId` appears |
| EmployeeRoutes.FetchProfileImage | backend/routes/employeeRoutes.js:93-112 | not-found exactly when the employee is absent or has no image; otherwise the body is the stored bytes, the content type the stored one, and the length the byte count |
| EmployeeRoutes.CreateThenLogin | backend/routes/employeeRoutes.js:42-72 | after a successful create, login answers 200 exactly with the password given at creation, and then returns the submitted name, empId, designation and normalised tools; any other password answers 400 |
| PortalApp.RemoveAll | frontend/src/App.js:23 | the filtered list has no copy of the tool, keeps every other tool with its multiplicity, and is the list itself when the tool was absent |
| PortalApp.HandleToolChange | frontend/src/App.js:18-25 | checking appends the tool after an unchanged prefix; unchecking is the filter `RemoveAll`, so it removes every copy, keeps the counts of all other tools and, by `RemoveAllAppend`, their relative order |
| PortalApp.RemoveAllAppend | frontend/src/App.js:23 | the filter distributes over concatenation, so the remaining tools keep their relative order |
| PortalApp.UncheckIdempotent | frontend/src/App.js:23 | unchecking the same tool twice is unchecking it once |
| PortalApp.CheckThenUncheck | frontend/src/App.js:20-24 | checking and then unchecking a tool that was not selected restores the selection |
| PortalApp.OfferedToolsCommaFree | frontend/src/App.js:154-164 | no offered tool name contains a comma |
| PortalApp.ToolChangeStaysOffered | frontend/src/App.js:154-166 | a change made through a checkbox keeps the selection within the offered tools |
| PortalApp.SelectionRoundTrip | frontend/src/App.js:35 | the backend split of the submitted field recovers any nonempty form selection; an empty selection arrives as `[""]` |
| PortalApp.ToolsDisplay | frontend/src/App.js:267 | the display is the `", "`-join of the tools whenever that join is nonempty; it is never empty, and is "None" exactly for `[]`, `[""]` or a list whose `", "`-join is literally "None" |
| PortalApp.FormSelectionShownNone | frontend/src/App.js:267 | for a selection of offered tools, the display is "None" exactly when nothing is selected |
| PortalApp.WelcomeShowsStoredSelection | frontend/src/App.js:80-83 | a nonempty form selection sent, stored and returned by login is shown as its `", "`-join, and the display is "None" exactly when the selection was empty |

## Left out

- backend/server.js is not part of this model. That covers CORS, security headers, rate limiting, request sanitising, body parsers, the database connection and its exit paths, and shutdown. The catch-all error middleware appears only as the 500 that a rejected upload ends in.
- Bcrypt.Hash: the work factor's cost, the salt and hash text format, constant-time comparison and one-wayness are not modelled. The checksum is an injective stand-in that could be inverted.
- Bcrypt.CompareHash: the real hash reads only the first 72 bytes of a password, so two passwords agreeing on those bytes both match. The law assumes exact equality of passwords.
- Multipart parsing is not modelled: a file under another field name, several files, and repeated text fields other than `favTools`.
- Express routing, JSON serialisation, response message texts, and `async`/`await` sequencing are not modelled.
- Failures of the database itself are not modelled, so the database-failure 500s of login, list and image fetch are left out. The one modelled exception in login is a missing password, which makes the comparison reject.
- EmployeeRoutes.FetchProfileImage: the model reads the test `!employee.profileImage` at backend/routes/employeeRoutes.js:98 at face value, so a stored employee without an image answers 404. `profileImage` is a mongoose nested path, whose getter may return an object even when no image was stored; then line 98's test is false, reading `.data.length` at line 104 throws, and the `catch` answers 500. That 500 for an employee without an image is not modelled.
- EmployeeRoutes.Login: a `password` in the JSON body that is not a string (a number or an object) also makes `compare` reject, ending in 500. `LoginRequest` has no case for it; it is treated like a missing password (`LoginFailed`).
- EmployeeRoutes.Login and EmployeeRoutes.FetchProfileImage take `empId` as a string. The query semantics of `findOne` with an undefined `empId` are not modelled.
- Mongoose's type casting of non-string values, strict-mode dropping of unknown fields, the `_id` and `__v` fields, and re-saving an existing document (an update) are not modelled.
- Concurrent inserts and the atomicity of the unique index are not modelled; uniqueness is a sequential check in `EmployeeStore.Insert`.
- EmployeeRoutes.ListEmployees: the collection's natural order is taken to be insertion order, which the database does not promise.
- A `favTools` that is neither a string nor an array (a JSON number or object, or an object built from bracketed multipart field names) also makes `split` throw; the model treats it like `ToolsAbsent`: 500 with nothing stored. `FavToolsField` has no case of its own for it.
- The create handler logs the request body, plaintext password included, to the console. The model's guarantee that the plaintext is never kept covers only what is stored and what is returned.
- PortalApp.SelectionRoundTrip covers selections made on a fresh form. After a login the client's tool state is the stored list, for example `[""]`, so a later submission can send a list with names outside the offered tools, such as `",Git"`, stored as `["", "Git"]`. Page switching is not modelled.
- React rendering, page switching, the `fetch` calls, form resets after submit, the uncontrolled checkboxes' visual state, and console logging are not modelled.
