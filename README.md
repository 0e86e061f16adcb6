# portal-creditos, modelled in Dafny

portal-creditos is a Next.js portal through which the holder of a labour-court
credit finds the purchase offer made for it, accepts it, and sends their
personal and bank data with five supporting documents. Administrators sign in
and approve or reject the applications. This project models the portal's
core and proves properties of the model:

- **middleware.js**: the request guard in front of the admin pages and the
  admin API. It redirects or refuses a request by its path and by whether the
  session cookie was sent. Module `Middleware`.
- **pages/index.js**: the public wizard, in two modules.
  - `Countdown` covers `formatTime` and proves that its text reads back as
    the count of seconds.
  - `IntakeWizard` covers the `HomePage` component. The views go search ->
    offer -> form -> confirmation. It holds the offer-search handler, the
    24-hour countdown, the pre-fill of the applicant's name, the client-side
    form checks and the submission.
  - The class `IntakeWizard.HomePage` holds the component's state. Each
    handler is a method that updates it.
- **pages/api/offers/search.js**: lookup by case number or by name, of which
  only an `available` offer is ever returned. Module `OfferSearchApi`.
- **pages/api/applications/index.js**: the submission route. Module
  `ApplicationsApi`. It runs four stages:
  - normalises the form fields;
  - checks the required fields, the documents and the bucket name, in order;
  - uploads each document under `documentos/<offerId>/<uuid>-<filename>`;
  - writes the application and its file rows in one transaction.

  Every temporary file recorded along the way is cleaned up however the
  request ends.
- **pages/api/auth/login.js**: looks up the admin by the lower-cased email,
  checks the password hash and writes the session. Module `LoginApi`.
- **pages/api/admin/applications/index.js**: the session-checked listing of
  every application, newest first, with the case number of its offer.
  Module `AdminApplicationsApi`.
- **pages/admin/dashboard.js**: module `AdminDashboard`.
  - `getServerSideProps` guards the page and serialises the listing.
  - The row rules give the status label and the approve/reject buttons.
  - The class `AdminDashboard.Dashboard` holds the page state. Its status
    update and logout handlers are methods that update it.

Shared modules:

- `Wrappers`: `Option`, standing for JavaScript `null`/`undefined`.
- `Text`: prefix and suffix tests, `trim`, lower-casing, decimal digits, `padStart`.
- `Http`: a handler's response, and the outcome of a `fetch` call.
- `Db`: the rows, and the `orderBy: { createdAt: 'desc' }` order.
- `Session`: the session's admin user.

Outside services are inputs to the model, never called from it:

- The database tables are sequences of rows.
- A failing query is a flag or the error it throws.
- The bucket upload's failure for each document is a function of the
  document's position.
- The UUIDs drawn are a function of the document's position.
- The password-hash check is a function parameter.
- The reply a page's `fetch` receives is a `FetchResult` parameter.

The model has no timer. The countdown's interval is the `Tick` method, and
each call to it is one second passing.

Observations from the model:

- The countdown runs only in the offer view. Once the applicant moves on
  to the form, nothing expires the offer.
- The submission route checks neither the offer's status nor its age.
- The PATCH route behind a status update answers with the updated row without its offer. After a successful update, the dashboard row has no `offer`, so its case number shows as `N/A` (dashboard.js line 130). In the model this is the `Row` the reply carries.
- The dashboard component never reads the `serverError` prop. A failed load shows as an empty list of applications.
- The client treats a field of spaces as blank. The server only treats an
  absent or empty field as missing.

## Model

| member | source | states |
|---|---|---|
| Middleware.Guard | middleware.js:23-73 | An admin page other than the login page, requested without a session cookie, is redirected to the login page with `from` set to the path. An admin API path without a cookie gets a 401 "Autenticação necessária.". The login page with a cookie is redirected to the dashboard. Every other request continues. Each outcome is stated with both directions of its condition. An empty cookie counts as absent. |
| Middleware.OnlyPathAndPresenceMatter | middleware.js:27-29 | Two requests with the same path and the same cookie presence get the same outcome: the guard never reads the cookie's contents. |
| Middleware.PrefixGuardsLookalikes | middleware.js:34 | The page test is a plain prefix test, so `/administrator` without a session is redirected to the login page too. |
| Countdown.TwoDigitsValue | pages/index.js:23-25 | `n.toString().padStart(2, '0')` is all digits and denotes `n`. It has at least two characters, and exactly two when `n < 100`. |
| Countdown.TwoDigits | pages/index.js:23-25 | `toString().padStart(2, '0')`: at least two digits; a single digit gets one leading zero, and two or more digits are kept as they are. |
| Countdown.NegativeShowsZero | pages/index.js:22 | A negative count is shown as `00:00:00`. |
| Countdown.SplitSeconds | pages/index.js:23-25 | The hours, minutes and seconds parts add back up to the count, and the minutes are below 60. |
| Countdown.ParseParts | pages/index.js:26 | The `h:m:s` text built from digit strings reads back as the count they denote. |
| Countdown.ParseTwoDigitParts | pages/index.js:23-26 | Zero-padded parts joined by `:` read back as `h*3600 + m*60 + s`. |
| Countdown.FormatTimeRoundTrip | pages/index.js:21-27 | `formatTime(seconds)` reads back as `seconds` for every non-negative integer count: the rendering loses nothing. |
| Countdown.FormatTimeWidth | pages/index.js:21-27 | The text is exactly `HH:MM:SS` (eight characters) if and only if the count is below 100 hours. |
| Countdown.FormatTime | pages/index.js:21-27 | The text is never shorter than eight characters. |
| IntakeWizard.SubmitProblem | pages/index.js:129-145 | The checks run in order: the first blank field (trimmed) of the ten required fields gives "Campo obrigatório não preenchido: <field>". Else the first of the five documents not chosen gives "Documento obrigatório não enviado: <key>". Else a missing offer id gives its message. No problem means every field is filled, every document chosen and an offer id present. |
| IntakeWizard.FieldMissingIsEmptyTrim | pages/index.js:130 | `!formData[field] \|\| !formData[field].trim()`: a field is missing exactly when it is absent or trims to the empty string. |
| IntakeWizard.BlankFieldFrom | pages/index.js:130 | The position found is a blank required field, and every field before it is filled. None means no field from the start position on is blank. |
| IntakeWizard.MissingFileFrom | pages/index.js:135 | The same as `BlankFieldFrom`, for the required documents. |
| IntakeWizard.Chosen | pages/index.js:143 | The multipart body carries exactly the document slots that hold a file, each with its file. |
| IntakeWizard.HomePage.constructor | pages/index.js:33-51 | The initial state: search view, search by case number, an empty term, no offer, 86400 seconds, the empty form with account type `corrente`, no files, not loading. |
| IntakeWizard.HomePage.SetSearchType | pages/index.js:198 | Only the search type changes. |
| IntakeWizard.HomePage.SetSearchTerm | pages/index.js:203 | Only the search term changes. |
| IntakeWizard.HomePage.HandleSearch | pages/index.js:62-91 | A blank term sends nothing and changes nothing. Otherwise the request carries the type and the untrimmed term. On success the offer view shows the offer with a fresh 24-hour window and the term is cleared. On a failure reply the search view shows the reply's message or the fallback, with no offer. On a network failure it shows the connection message. |
| IntakeWizard.HomePage.CountdownEffect | pages/index.js:94-99 | In the offer view with no time left, the offer is dropped and the search view shows the expiry message. Otherwise nothing changes. |
| IntakeWizard.HomePage.Tick | pages/index.js:100 | Outside the offer view a second changes nothing. In the offer view the time left drops by one. At one second left it expires the offer. Before that the offer stays. The form, files and search term never change. |
| IntakeWizard.HomePage.AcceptOffer | pages/index.js:229 | To the form view with the same offer. The pre-fill effect at lines 54-58 sets `fullName` to the offer's name. Nothing else changes. |
| IntakeWizard.HomePage.DeclineOffer | pages/index.js:230 | The offer is dropped, back to the search view, and the message is cleared. |
| IntakeWizard.HomePage.BackToStart | pages/index.js:287 | From the confirmation view back to the search view, with the message cleared. |
| IntakeWizard.HomePage.HandleInputChange | pages/index.js:107-110 | Only the named form field changes, to the new value. |
| IntakeWizard.HomePage.HandleFileChange | pages/index.js:113-120 | The named document slot takes the first chosen file, or none when nothing was chosen. |
| IntakeWizard.HomePage.HandleSubmit | pages/index.js:123-164 | A failed client-side check shows its message, sends nothing and keeps the form. Otherwise the request carries the form, the chosen files and the offer id. On success the confirmation view shows, with the offer dropped and the form and files reset. On a failure reply the form shows the reply's message or the fallback. On a network failure it shows the connection message. On every failure the form and files are kept. In every case the countdown, the search type and the search term are untouched. |
| IntakeWizard.HomePage.SettleSubmit | pages/index.js:148-163 | How the submission's reply changes the page: success resets the form and files and goes to the confirmation view; a failure keeps them and shows its message. The pending request ends. |
| OfferSearchApi.Summary | pages/api/offers/search.js:33-39 | The reply carries the offer's id, case number, name, amount and status, as selected. |
| OfferSearchApi.ByCaseNumber | pages/api/offers/search.js:26-40 | The offer found is in the table and carries the term as its case number. None exactly when no offer does. |
| OfferSearchApi.AvailableByName | pages/api/offers/search.js:50-66 | The offer found is in the table, available, and its name equals the term up to letter case. None exactly when no offer is like that. |
| OfferSearchApi.Selected | pages/api/offers/search.js:24-67 | The offer answered is in the table and available. By case number it carries the term. By name its name equals the term up to letter case. |
| OfferSearchApi.CaseNumberNotFound | pages/api/offers/search.js:25-45 | With unique case numbers, a case-number search finds nothing exactly when every offer with that case number is unavailable. |
| OfferSearchApi.NameSearchIgnoresCase | pages/api/offers/search.js:52-54 | A name search gives the same offer for a term and its lower-cased form. |
| OfferSearchApi.Search | pages/api/offers/search.js:4-84 | Any verb but POST gets a 405 with `Allow: POST`. An absent or empty type or term gets a 400. Otherwise, on the trimmed term: an unknown type gets a 400, a failing lookup a 500, a selected offer a 200 with its summary, and none a 404. A 200 always carries an available offer. The `Allow` header is set only on the 405. |
| ApplicationsApi.Normalized | pages/api/applications/index.js:39 | A single value stays as it is. A list gives its first element, and nothing when it is empty. |
| ApplicationsApi.NormalizedForm | pages/api/applications/index.js:38-40 | Every field keeps its name and takes its normalised value. |
| ApplicationsApi.NormalizeFields | pages/api/applications/index.js:38-40 | The field-by-field loop builds exactly `NormalizedForm(form)`. |
| ApplicationsApi.MissingFieldFrom | pages/api/applications/index.js:52 | The position found is a missing required field (absent, undefined or empty, untrimmed), and every field before it is present. |
| ApplicationsApi.MissingFileFrom | pages/api/applications/index.js:55 | The position found is a required document with no entry, and every document before it has one. |
| ApplicationsApi.Rejection | pages/api/applications/index.js:51-57 | The checks run in order: the first missing field of the eleven gives a 400 naming it. Else the first missing document gives a 400 naming it. Else an unset bucket gives a 500. No rejection means every field and document is present. |
| ApplicationsApi.Document | pages/api/applications/index.js:68-69 | A single file is the document. A non-empty list gives its first file (`fileArray[0]`), and an empty list gives nothing. No entry gives nothing. |
| ApplicationsApi.Uploadable | pages/api/applications/index.js:71 | `file && file.size > 0`: an uploadable document is never a missing one. A single file is uploadable exactly when its size is positive. |
| ApplicationsApi.ObjectKey | pages/api/applications/index.js:73 | The key starts with `documentos/<offerId>/` and ends with `-<originalFilename>`, and its length is the sum of its parts. |
| ApplicationsApi.ObjectKeysDiffer | pages/api/applications/index.js:73 | Tokens of one length that differ give different keys, whatever the file names: two documents never share a key. |
| ApplicationsApi.Uploaded | pages/api/applications/index.js:83-90 | The recorded entry names the document's field and carries its key. |
| ApplicationsApi.TempPath | pages/api/applications/index.js:72 | The path recorded for an uploadable document is that document's temporary `filepath`. |
| ApplicationsApi.StopAt | pages/api/applications/index.js:67-95 | The loop stops at the first document that is missing, empty or fails to upload. Every document before it was uploaded. |
| ApplicationsApi.UploadError | pages/api/applications/index.js:93 | A document that is missing or empty throws a plain error (no code, no meta). |
| ApplicationsApi.RecordedPaths | pages/api/applications/index.js:71-72 | A stop adds the path of the stopping document only when that document was uploadable. |
| ApplicationsApi.UploadDocuments | pages/api/applications/index.js:67-95 | The upload loop runs over the required documents in order. The uploaded entries are exactly the documents before the stop, with keys `ObjectKey(offerId, uuid(i), name)`. There is an error exactly when the loop stopped early, and it is the stopping document's error. The recorded temporary paths are those of every uploadable document reached, in order. |
| ApplicationsApi.ApplicantData | pages/api/applications/index.js:107-116 | The new row has exactly the ten applicant columns, each with the form's value. |
| ApplicationsApi.OfferId | pages/api/applications/index.js:73 | Once the checks pass, `fields.offerId` is present and non-empty. |
| ApplicationsApi.FileRows | pages/api/applications/index.js:129-138 | One file row per uploaded document, in order, each with the new application's id and the document's data. |
| ApplicationsApi.Classify | pages/api/applications/index.js:160-165 | An error with a code and meta gets a 400 naming `meta.target`, or else the code. Every other error gets a 500 with its message. |
| ApplicationsApi.Process | pages/api/applications/index.js:59-178 | Something is saved exactly when every upload and the transaction succeed. The reply is then 201, and what is saved is the application (pending analysis, linked to the offer) and one file row per required document, in order, each with its key. Otherwise the error is classified. The paths cleaned up are exactly those recorded. |
| ApplicationsApi.Handle | pages/api/applications/index.js:27-178 | Any verb but POST gets a 405 with `Allow: POST`. A rejected form saves and cleans nothing. Otherwise the normalised form is processed as in `Process`. |
| LoginApi.UserByEmail | pages/api/auth/login.js:24-26 | The admin found is in the table and has that email. None exactly when no admin has it. |
| LoginApi.Authenticated | pages/api/auth/login.js:24-40 | The admin signed in is the one stored under the lower-cased email, and only when the hash check accepts the password for that admin's hash. Stated in both directions. |
| LoginApi.EmailCaseIgnored | pages/api/auth/login.js:25 | Signing in with an email or with its lower-cased form gives the same result. |
| LoginApi.SessionUserOf | pages/api/auth/login.js:49-53 | The session keeps the admin's id, email and name, and not the password hash. |
| LoginApi.Login | pages/api/auth/login.js:8-75 | Any verb but POST gets a 405. A missing email or password gets a 400. A failing lookup gets a 500. An unknown admin or a wrong password gets the same 401 "Credenciais inválidas.". A failing session save gets a 500. Otherwise the reply is a 200 with `isLoggedIn` and the admin, and the session holds that admin. A session is written only for authenticated credentials. |
| AdminApplicationsApi.WithCaseNumbers | pages/api/admin/applications/index.js:31-38 | Each application, in the same order, joined with its offer's case number when the offer exists. |
| AdminApplicationsApi.Listing | pages/api/admin/applications/index.js:31-38 | The listing has one entry per application, newest `createdAt` first, and an entry carries an offer exactly when the application's offer exists. |
| AdminApplicationsApi.Rows | pages/api/admin/applications/index.js:41 | The application rows of a listing, in its order. |
| AdminApplicationsApi.ListingIsNewestFirst | pages/api/admin/applications/index.js:31-32 | The listing holds every application exactly once (the same multiset), newest `createdAt` first. |
| AdminApplicationsApi.List | pages/api/admin/applications/index.js:6-47 | No signed-in admin gets a 401, checked before the method. Any verb but GET gets a 405 with `Allow: GET`. A failing query gets a 500. Otherwise the reply is a 200 with the listing. |
| Db.OfferById | pages/admin/dashboard.js:173-175 | The offer found is in the table and has that id. None exactly when no offer has it. |
| Db.InsertNewestFirst | pages/admin/dashboard.js:172 | Inserting into a newest-first list keeps it newest first and adds one row. |
| Db.InsertKeepsRows | pages/admin/dashboard.js:172 | Inserting loses no row and adds only the new one. |
| Db.SortNewestFirst | pages/admin/dashboard.js:171-177 | The result is newest first and a permutation of the table. |
| AdminDashboard.Serialize | pages/admin/dashboard.js:181-191 | A row keeps the application's id, data, status and offer id. Its dates become ISO text. Its offer holds the case number and the amount as text, and is null exactly when the offer is missing. |
| AdminDashboard.SerializeAll | pages/admin/dashboard.js:181 | One row per application, in the same order. |
| AdminDashboard.ServerSideProps | pages/admin/dashboard.js:152-214 | No signed-in admin is redirected (not permanently) to the login page, in both directions. A failing query gives no rows and the load error. Otherwise the props hold the serialised newest-first listing and the admin. |
| AdminDashboard.PropsListEveryApplication | pages/admin/dashboard.js:171-202 | The page lists as many rows as there are applications. The order is newest first and a permutation. Each row keeps its application's id and creation time. |
| AdminDashboard.StatusLabel | pages/admin/dashboard.js:133 | The first underscore of the status, and only that one, becomes a space. Every other character stays. |
| AdminDashboard.RowActions | pages/admin/dashboard.js:135 | A row has the approve and reject buttons exactly when its status is `pending_analysis`. |
| AdminDashboard.ReplaceById | pages/admin/dashboard.js:57 | The rows with that id become the updated row. The others stay, in the same order. |
| AdminDashboard.ReplaceByIdIdempotent | pages/admin/dashboard.js:57 | When the updated row carries the same id, replacing twice is the same as once. |
| AdminDashboard.LogoutSucceeded | pages/admin/dashboard.js:74 | `response.ok && data.isLoggedIn === false`: a success needs a 2xx reply. A reply whose `isLoggedIn` is absent or `true` is never a success, and neither is a network failure. |
| AdminDashboard.UpdateErrorText | pages/admin/dashboard.js:60 | The message starts with `Erro ao atualizar <id>: ` and ends with the error's message. |
| AdminDashboard.Dashboard.constructor | pages/admin/dashboard.js:38-42 | The rows are the server's, or none. Nothing is pending and no error is shown. |
| AdminDashboard.Dashboard.HandleUpdateStatus | pages/admin/dashboard.js:45-64 | The PATCH sends the id and status. On success only the rows with that id are replaced. On a failure the rows stay and the error names the id and the reply's message, `Erro <status>` or the network error. The busy marker is cleared. |
| AdminDashboard.Dashboard.HandleLogout | pages/admin/dashboard.js:67-85 | Only a 2xx reply with `isLoggedIn === false` sends the browser to the login page. Anything else leaves it in place with "Erro ao fazer logout: " and the reply's message or the fallback. |
| Http.MessageOr | pages/index.js:82 | `message \|\| fallback`: a non-empty message wins, else the fallback. |

## Left out

- JSX rendering, styling and the icons are left out. `formatCurrency` and `formatDate` are display formatting that depends on the locale.
- React's scheduling is left out. The state setters are applied at once, and an effect runs where the handler that triggers it ends. Only the state after each handler is stated. The `isLoading`, `isUpdating` and `isLoggingOut` flags are set and cleared within one call, so their intermediate values are not observable in the model. In particular, overlapping requests are not modelled. The dashboard disables the buttons only on the row being updated (dashboard.js line 135), so an update on a second row can start while the first is pending, and whichever reply lands first clears `isUpdating` for both. `AdminDashboard.Dashboard.HandleUpdateStatus` and `HandleLogout` require an idle page and model one request at a time.
- IntakeWizard.HomePage.Tick: the one-second interval is one call. The timer's real-time behaviour and the clean-up function are not modelled.
- The multipart parser is left out. So are a parse error (a rejected promise that the route does not catch) and the parser's temporary files. `formidable` output is given as a map of field values and file entries.
- ApplicationsApi.Process: the bucket upload, `fs.createReadStream` and `fs.unlink` are inputs or outputs. The `fs.existsSync` test before each removal is not modelled: `cleaned` is the list of paths the route tries to remove.
- ApplicationsApi.Process: the transaction's atomicity is assumed from the database. A failed transaction is modelled as saving nothing. The uploaded objects are never removed from the bucket, in the source as in the model.
- ApplicationsApi.Classify: `meta.target` is taken as a string. An array target, which the template literal would join with commas, is not modelled.
- Duplicate field names in a multipart body are modelled only as a list value (the first wins). The order of keys in `Object.entries` is not modelled.
- OfferSearchApi.Search: the body is destructured (search.js line 11) and the term trimmed (line 20) outside the `try`. A missing body, or a truthy `searchTerm` that is not a string, throws there and Next.js answers with its default 500. The body is modelled as two optional strings, so this case is not modelled.
- LoginApi.Login: `bcrypt.compare` is a pure function parameter, and its throwing is not modelled. A body that is not an object, or an email that is not a string, would reach the `catch` block with a 500 and is not modelled. `iron-session`'s encryption and the cookie format are left out.
- The session's contents are modelled as an optional admin user. lib/session.js is not part of this model beyond the cookie name.
- Text.ToLower: covers ASCII and Latin-1 letters only. Full Unicode case folding, as the database's case-insensitive match and `toLowerCase` perform, is not modelled.
- Db.SortNewestFirst: rows with equal `createdAt` come out in an order of the model's choosing. The database leaves the order of ties unspecified.
- OfferSearchApi.AvailableByName: `findFirst` without `orderBy` returns some matching row. The model takes the first in table order.
- Timestamps are abstracted to an instant plus its ISO text. Decimals are the text their `toString` gives, so `offerAmount?.toString()` on a null amount is not modelled.
- Countdown.FormatTime: the count is an unbounded integer. In the source it is a double: above 2^53 `Math.floor` rounds, and from 1e21 hours on `toString()` gives exponent notation such as `1e+21`. The page only ever passes 0 to 86400. The `typeof seconds !== 'number'` guard and fractional seconds are not modelled either.
- The `config.matcher` of the middleware is left out. The guard is modelled as if it ran on every path. Paths the matcher skips never reach it, for example `/api/auth/...`, static files and paths with a dot outside `/admin/` and `/api/admin/`.
- The login page, the logout route, the application detail page and its PATCH route, the file download route and `lib/prisma.js` are not part of this model. The logout and PATCH replies appear only as inputs to the dashboard.
- Console logging is left out.
