# SINEW storefront — a Dafny model

SINEW sells a digital book and online courses. Buyers pay through Mercado Pago or PayPal. The backend then records a purchase and issues the grant: a course access, or a single-use, 24-hour download link. This project models, in Dafny, the logic that decides these outcomes:

- **Backend.**
  - The two payment integrations (`backend/mercadoPagoRoutes.js` and `backend/controllers/purchaseController.js`) are modelled with their preference/order payloads, return and webhook handlers, capture, buyer resolution and fulfilment.
  - The simulated purchase routes are modelled in both copies.
  - The download-token routes and the download controller are modelled.
  - The course routes are modelled, including the free/paid lessons gate and the simulated grant.
  - The account routes are modelled: register, log in, authentication, forgot and reset password. So is the older auth controller.
  - The mailer is modelled in both copies. So are the server's start-up configuration and the Mongoose schemas.
- **Front ends** (the main one and `sinew-app-clean`). The page logic of these is modelled:
  - the thank-you page, the profile's course list, sign-up and log-in;
  - checkout, the payment buttons, the course page with its paywall;
  - the community lightbox, settings and password reset;
  - the session contexts with their two token keys.

The database is a `Db.Store` class. Its fields are maps for users, purchases, download tokens, course grants and courses, plus a sequence of reset records. Each unique index is enforced as in MongoDB: a second key fails with code 11000 or is turned into an upsert. The predicate `Valid()` keeps one user per e-mail and keys that agree with their documents. An `online` flag models the database being unreachable.

Several things are parameters rather than code: the clock, random bytes, and bcrypt/sha256/JSON Web Token verification. So are the payment providers' answers, the mail transports' results, URL parsing and the e-mail templates. A React page becomes a class whose fields are its state and whose methods are its handlers. The server's answers are inputs to those methods. Where a handler's request and the server's reply happen in one scenario, a method ties a page to the backend model (for example `ResetPage.SubmitAgainstServer` and `CursoDetalle.LessonsView.FetchFromServer`).

Behaviour of the code worth noting:

- The reset page decides a link's validity from the JSON body's `ok` field, not from the HTTP status.
- `forgot-password` answers 500 when the mail to an existing user fails. It answers 200 for an unknown e-mail, so on that path the answer does reveal whether the account exists (`Accounts.ForgotPassword`).
- In the simulated purchase route the handler's own missing-`JWT_SECRET` check (500) can never run: the middleware in front of it has already refused the request (`PurchaseSim.SecretCheckUnreachable`).
- The older `registerUser` enforces no password rule.
- In `Course.js` the price and currency defaults are on lines 19-20.
- When Mercado Pago reports no payer e-mail, the return and webhook handlers fall back to `external_reference`. That value is always `course:<slug>` or `book:libro-001`, and for a slug without '@' it is never an e-mail address (`MercadoPago.ExternalReferenceIsNoEmail`). So creating the buyer fails the schema's e-mail check, and the purchase and the grant are recorded with no user.

## Model

| member | source | states |
|---|---|---|
| Models.NewUser | backend/models/User.js:5-35 | a user document is accepted exactly when the lower-cased, trimmed e-mail is non-empty and matches `\S+@\S+\.\S+` and a hash is given; the stored e-mail is that normalised form, the name is the given one trimmed or the default |
| Models.EmailSetterIdempotent | backend/models/User.js:23-24 | lower-casing and trimming a stored e-mail again gives it back, so a lookup by a stored e-mail finds its owner |
| Models.DefaultUserNameShape | backend/models/User.js:11-17 | for an e-mail that starts with a visible character the default name is non-empty and contains no `@` |
| Models.DefaultNameShape | backend/models/User.js:11-17 | a user created without a name gets the part of its e-mail before `@` (or "User"): non-empty and without `@` |
| Models.SetPassword | backend/models/User.js:38-41 | `setPassword` replaces the hash by bcrypt's hash of the password with the drawn salt and changes nothing else |
| Models.SetThenValidate | backend/models/User.js:38-44 | when bcrypt's compare accepts a password against its own hash, `validatePassword` after `setPassword` of the same password is true |
| Models.NewPurchase | backend/models/Purchase.js:4-12 | a purchase is refused only for a price the Number cast rejects (NaN); otherwise it keeps user, book, price and order id, and defaults currency "EUR", status "paid" and the date now |
| Models.PurchaseDropsUndeclaredPaths | backend/models/Purchase.js:4-12 | the schema declares no provider or metadata, so the document does not depend on them |
| Models.NewDownloadToken | backend/models/DownloadToken.js:4-9 | a token document is accepted exactly when the token is non-empty and an expiry is given; `used` defaults to false and the user is optional |
| Models.NewStampedDownloadToken | backend/DownloadToken.js:4-15 | the second token schema adds creation and update stamps equal to the insertion time |
| Models.StampedAgrees | backend/DownloadToken.js:4-19 | the second schema accepts exactly the documents the first one accepts and stores the same token fields |
| Models.ParseGrantedBy | backend/models/CourseAccess.js:11-15 | the enum validator accepts a value only if it is the name of one of the seven grant kinds |
| Models.GrantedByRoundTrip | backend/models/CourseAccess.js:13 | every grant kind's name is accepted by the validator and gives the same kind back |
| Models.NewCourseAccess | backend/models/CourseAccess.js:4-20 | a grant is accepted exactly when userId and courseSlug are given and grantedBy, when given, is one of the seven names; grantedBy defaults to "purchase", provider and date are kept as given |
| Models.NewPasswordReset | backend/models/PasswordReset.js:4-10 | a reset record is accepted exactly when userId, tokenHash and expiresAt are given; `used` defaults to false |
| Models.NewCourse | backend/models/Course.js:4-25 | a course is accepted exactly when it has a title, a level among "free" and "pro" when one is given, and lessons all with title and video URL; the accepted course keeps the title and thumbnail given, its level is the one given or "free", price 0 and currency "USD" by default |
| Db.FirstActiveReset | backend/routes/userRoutes.js:212-217 | the reset record found has the digest asked for, is unused and expires strictly after now, and no earlier record qualifies; None exactly when no record qualifies |
| Db.InvalidateFor | backend/routes/userRoutes.js:235-239 | exactly the user's unused, unexpired records become used; all others stay as they were |
| Db.InvalidateForLeavesNoneActive | backend/routes/userRoutes.js:235-239 | after the update no record of that user is active |
| Db.SetGrant | backend/mercadoPagoRoutes.js:44-54 | the `$set` upsert leaves one grant for the pair, with the new provider and date, the old `grantedBy` (or the default "purchase" when new), and every other grant unchanged |
| Db.SetGrantTwice | backend/mercadoPagoRoutes.js:44-54 | repeating the `$set` upsert equals doing only the later one: still one grant, only provider and date refreshed |
| Db.InsertGrant | backend/controllers/purchaseController.js:56-68 | the `$setOnInsert` upsert creates the grant only when the pair has none and never changes an existing one |
| Db.InsertGrantTwice | backend/controllers/purchaseController.js:56-68 | a second `$setOnInsert` upsert of the same pair changes nothing |
| Db.TitleLeTotalPreorder | backend/routes/courseRoutes.js:43-47 | ordering courses by title is total and transitive, so the sort is well defined |
| Db.PutKeepsEmailsUnique | backend/models/User.js:22 | storing a user whose e-mail no other user has keeps e-mails unique |
| Db.Store.EmailOwner | backend/models/User.js:22 | the owner of an e-mail, if any, is the one stored user with that e-mail |
| Db.Store.constructor | backend/models/Course.js:12-25 | a store with the catalogue and all other collections empty satisfies the store invariant |
| Db.Store.FindUserByEmail | backend/routes/userRoutes.js:75 | the query value goes through the e-mail setters; the answer is the owner of the normalised e-mail; an unreachable database fails |
| Db.Store.FindUserById | backend/routes/userRoutes.js:223 | the stored user with that id, or none |
| Db.Store.CreateUser | backend/routes/userRoutes.js:83 | `User.create` fails with the validation error of `NewUser`, else with a duplicate key exactly when the normalised e-mail is taken, else adds exactly that user |
| Db.Store.InsertUser | backend/models/User.js:22 | the unique e-mail index: a second user with a stored e-mail is refused with code 11000 and nothing changes |
| Db.Store.UpdateUserProfile | backend/controllers/authController.js:75-78 | `findByIdAndUpdate` with validators: the name trimmed, the e-mail normalised and validated, another user's e-mail refused; only that user changes |
| Db.Store.ReplaceUser | backend/models/User.js:22 | rewriting a user refuses an e-mail another user holds; otherwise only that user changes |
| Db.Store.SetPasswordHash | backend/controllers/authController.js:105-106 | saving a new hash changes exactly that user's hash |
| Db.Store.CreatePurchase | backend/models/Purchase.js:11 | one purchase per order id: a new id adds the validated document, a stored one fails with code 11000 and changes nothing |
| Db.Store.FindCourse | backend/routes/courseRoutes.js:53 | the course stored under the slug, or none |
| Db.Store.ListCourses | backend/routes/courseRoutes.js:43-47 | every course once, sorted by title |
| Db.Store.CollectCourses | backend/routes/courseRoutes.js:44 | every course of the collection exactly once, in some order |
| Db.Store.FindBook | backend/routes/purchaseRoutes.js:81 | the book stored under the id, or none |
| Db.Store.CreateToken | backend/models/DownloadToken.js:6 | one document per token: a new token adds the validated document, a stored one fails with code 11000 |
| Db.Store.FindToken | backend/routes/downloadRoutes.js:17 | the document stored under the token, or none |
| Db.Store.SaveToken | backend/routes/downloadRoutes.js:47-48 | saving a stored token replaces that one document and no other |
| Db.Store.FindAccess | backend/routes/courseRoutes.js:79 | the grant of the pair, or none |
| Db.Store.UpsertAccessSet | backend/mercadoPagoRoutes.js:44-54 | the grants become `SetGrant` of the old ones |
| Db.Store.UpsertAccessSetOnInsert | backend/controllers/purchaseController.js:56-68 | the grants become `InsertGrant` of the old ones |
| Db.Store.CreateAccess | backend/models/CourseAccess.js:28 | `CourseAccess.create` validates, then refuses a pair that already has a grant with code 11000 |
| Db.Store.CreateReset | backend/routes/userRoutes.js:173 | a valid reset record is appended unused; nothing else changes |
| Db.Store.FindActiveReset | backend/routes/userRoutes.js:213-217 | the position that `FirstActiveReset` names |
| Db.Store.MarkResetUsed | backend/routes/userRoutes.js:232-233 | exactly that record becomes used |
| Db.Store.InvalidateResets | backend/routes/userRoutes.js:236-239 | the records become `InvalidateFor` of the old ones |

| Accounts.StrongMeaning | backend/routes/userRoutes.js:68 | a password is not weak exactly when it has at least 8 characters, an ASCII letter and a digit |
| Accounts.WeakExamples | backend/routes/userRoutes.js:68 | concrete examples only: letters only, digits only and short passwords are weak; eight characters mixing both are not; `Accounts.StrongMeaning` is the all-inputs statement |
| Accounts.NormalizeEmail | backend/routes/userRoutes.js:62 | trim-then-lower-case equals the schema's setters and is a fixed point of them |
| Accounts.Authenticate | backend/routes/userRoutes.js:29-50 | no second field gives missing_token; otherwise a first field other than exactly "Bearer" gives invalid_scheme; otherwise the verifier's payload or invalid_or_expired (each an if-and-only-if) |
| Accounts.BearerHeaderReachesVerify | backend/routes/userRoutes.js:30-45 | "Bearer " followed by a token without spaces reaches the verifier with that token |
| Accounts.Register | backend/routes/userRoutes.js:55-98 | missing field 400, bad e-mail 400 (after trim and lower-case), weak password 422, taken e-mail 409, in that order; registered exactly when all checks pass and the e-mail is free, adding exactly one user and answering its public fields and signed token; the 500 exactly when the checks pass and the store is down or the free e-mail's hash comes out empty; otherwise no user is added |
| Accounts.CreateAccount | backend/routes/userRoutes.js:75-94 | a stored e-mail gives 409; a duplicate key at insertion also gives 409; the error exactly when the store is down or a free e-mail comes with an empty hash; success adds exactly the new user |
| Accounts.Login | backend/routes/userRoutes.js:103-128 | missing field 400; an unknown e-mail, a user without hash and a wrong password all give the same 401, and every other reachable case logs in with the user's public fields |
| Accounts.GetProfile | backend/routes/userRoutes.js:133-150 | the profile of the token's user, 404 when there is none, 500 when the database fails |
| Accounts.ForgotPassword | backend/routes/userRoutes.js:155-193 | no e-mail 400; an unknown e-mail gets the same answer as a known one and writes nothing; a known one gets one reset record holding the digest of the raw token, expiring after one hour, unused, and one mail with the raw link; a throwing mailer makes it 500, and the store error comes exactly when the store is down or a known e-mail's digest is empty |
| Accounts.AfterReset | backend/routes/userRoutes.js:232-239 | the record used and every active record of the user become used; records of other users are unchanged; no record becomes unused |
| Accounts.ResetLinkSingleUse | backend/routes/userRoutes.js:212-239 | after a reset the same link finds no active record of that user, and none at all when only that user holds the digest |
| Accounts.ResetPassword | backend/routes/userRoutes.js:198-246 | missing field, then weak password, both before any lookup and without writes; no active record 400; success exactly when a record is active and its user exists, then only that user's hash changes and the records become `AfterReset`; the 500 exactly when the store is down or the new hash is empty, and then nothing is written |
| Accounts.ValidateReset | backend/routes/userRoutes.js:255-266 | ok exactly when the token is non-empty and an active record holds its digest; a database failure reads as not ok |

| AuthController.LowerThenSetter | backend/controllers/authController.js:14 | looking up by the lower-cased e-mail finds the stored (lower-cased and trimmed) form |
| AuthController.RegisterUser | backend/controllers/authController.js:9-29 | missing field 400; an existing e-mail 400; created exactly when the e-mail is free and passes the schema, with the name trimmed, the e-mail normalised and bcrypt's hash; the 500 exactly when the store is down or a free e-mail fails the schema or hashes empty; no password rule |
| AuthController.LoginUser | backend/controllers/authController.js:31-49 | missing field 400; an unknown e-mail and a wrong password give the same 401; otherwise the user's public fields and token |
| AuthController.UpdateTwiceIsOnce | backend/controllers/authController.js:64-78 | sending the same profile update twice leaves the profile as sending it once |
| AuthController.EmailFree | backend/controllers/authController.js:67-71 | no e-mail given means no lookup; otherwise the e-mail is free exactly when no other user holds its normalised form (the user's own is no clash) |
| AuthController.UpdateProfile | backend/controllers/authController.js:62-87 | a clash gives 400 before anything is written; an unknown user 404; updated exactly when no clash, the user exists and a given e-mail passes the schema; then only that user changes, to the trimmed name and normalised e-mail |
| AuthController.NormalisedUpdate | backend/controllers/authController.js:66-72 | trimming and normalising in the handler and again in the schema gives the same profile as once |
| AuthController.SaveProfile | backend/controllers/authController.js:74-83 | the update of a user once no other user holds the e-mail: 404 for an unknown user, a failed validator a 500, else only that user changes |
| AuthController.ChangePassword | backend/controllers/authController.js:90-112 | missing field 400; a new password shorter than 8 400; unknown user 404; wrong current password 401; the 500 exactly when the store is down or the right current password's new hash is empty; the hash changes exactly on success, to `SetPassword` of the new password, and is untouched otherwise |
| AuthController.ChangeThenLogin | backend/controllers/authController.js:102-106 | after a successful change the new password logs in and, if different, the old one is refused |

| Downloads.Validate | backend/routes/downloadRoutes.js:15-22 | a record is returned exactly when the token is non-empty, stored, unused and its expiry is not before now (expiry equal to now still passes) |
| Downloads.Consume | backend/routes/downloadRoutes.js:47-48 | a successful GET marks the presented token used and leaves every other record as it was |
| Downloads.ConsumedIsRefused | backend/routes/downloadRoutes.js:19 | a spent token is refused at any later time |
| Downloads.UsedIsTerminal | backend/routes/downloadRoutes.js:47-48 | spending a token never makes a used token unused |
| Downloads.ValidateToken | backend/routes/downloadRoutes.js:15-22 | an empty token is refused before any lookup; otherwise the answer is `Validate` of the stored tokens; a database failure is an error |
| Downloads.Head | backend/routes/downloadRoutes.js:25-39 | HEAD answers 200 with the file size exactly when the token validates and the file can be read, 401 for a refused token, and for a given token 500 exactly when the store is down or its validated file cannot be read; it cannot change the store |
| Downloads.Get | backend/routes/downloadRoutes.js:42-55 | GET sends the file exactly when the token validates, after the tokens become `Consume` of the old ones; every other outcome leaves all tokens unchanged; an invalid token is 401, and for a given token the 500 comes exactly when the store is down |
| Downloads.GetThenRetry | backend/routes/downloadRoutes.js:19 | after a GET that sent the file, a later HEAD and a later GET with the same token are both refused |
| Downloads.Classify | backend/controllers/downloadController.js:11-15 | 404 exactly for an unknown token, "ya usado" exactly for a used one, "expirado" exactly for an unused one whose expiry is before now, in that order |
| Downloads.HandlersAgree | backend/controllers/downloadController.js:13-15 | the controller delivers exactly the tokens `validateToken` accepts |
| Downloads.UsedBeforeExpired | backend/controllers/downloadController.js:14-15 | a used and expired token is reported as used |
| Downloads.DownloadBook | backend/controllers/downloadController.js:9-28 | the answer is `Classify` of the tokens; only a delivery changes them, to `Consume`; a database failure rejects the handler |
| Downloads.SecondDownloadRefused | backend/controllers/downloadController.js:14 | a second download of a delivered token is refused as used |

| Courses.ClaimedUser | backend/routes/courseRoutes.js:20 | the user named by a verified token is its `id`, else its `userId` |
| Courses.BearerToken | backend/routes/courseRoutes.js:16-17 | the token is what follows a case-sensitive "Bearer " prefix, "" without it |
| Courses.AuthOptional | backend/routes/courseRoutes.js:14-26 | never refuses: the request names a user exactly when there is a bearer token, a configured secret, a token that verifies and a claimed id; otherwise it is anonymous |
| Courses.AuthRequiredRefuses | backend/routes/courseRoutes.js:28-40 | without a "Bearer " prefix, with an empty token or without a secret, no user is named, which `authRequired` answers with 401 |
| Courses.WithoutLessons | backend/routes/courseRoutes.js:61-62 | the view of a pro course carries no lessons and keeps the other fields |
| Courses.WithLessons | backend/routes/courseRoutes.js:57-58 | the view of a free course carries its lessons |
| Courses.List | backend/routes/courseRoutes.js:43-48 | every course exactly once, without lessons, ordered by title ascending |
| Courses.DetailOf | backend/routes/courseRoutes.js:51-63 | an unknown slug is 404; a free course (level compared case-insensitively) comes with its lessons, a pro one without |
| Courses.ProDetailHidesLessons | backend/routes/courseRoutes.js:61-62 | a pro course's page never includes its lessons |
| Courses.GetDetail | backend/routes/courseRoutes.js:51-63 | the handler answers `DetailOf` of the stored courses |
| Courses.LessonsGate | backend/routes/courseRoutes.js:66-83 | 404 exactly for an unknown slug; lessons exactly for a free course or a user holding a grant of it; 401 exactly for a pro course and no user; 402 exactly for a pro course and a user without a grant |
| Courses.FreeLessonsForAnyone | backend/routes/courseRoutes.js:71-74 | a free course's lessons are returned whoever asks and whatever grants exist |
| Courses.GetLessons | backend/routes/courseRoutes.js:66-83 | the handler answers `LessonsGate` of the stored courses and grants |
| Courses.SimulatedGrant | backend/routes/courseRoutes.js:91-99 | a new pair gets one grant with the schema defaults; an existing grant is kept (the duplicate key is swallowed); no other grant changes |
| Courses.SimulatedGrantIdempotent | backend/routes/courseRoutes.js:91-99 | buying twice leaves what buying once leaves |
| Courses.BuySimulated | backend/routes/courseRoutes.js:86-118 | an unknown slug is 404 with nothing written; a known one always answers granted, leaves the grants as `SimulatedGrant` says and asks for one access mail exactly when the user has an e-mail, with the greeting and title defaults |

| PurchaseSim.AuthMiddleware | backend/routes/purchaseRoutes.js:19-31 | no bearer token 401 "falta token"; authorised exactly when a secret is set, the token verifies and names `id` or `userId`; without a secret never authorised; the same in backend/purchaseRoutes.js:19-31 |
| PurchaseSim.Amount | backend/routes/purchaseRoutes.js:84 | the book's price, or 13.0 when it is falsy (0 included); never 0 |
| PurchaseSim.Currency | backend/routes/purchaseRoutes.js:85 | the book's currency or "USD", upper-cased (upper-casing again changes nothing) |
| PurchaseSim.OrderId | backend/routes/purchaseRoutes.js:86 | the order id starts with "SIM-" followed by the time |
| PurchaseSim.PurchaseInputOf | backend/routes/purchaseRoutes.js:88-97 | the purchase sent: the user, the book, `Amount`, `Currency`, status "paid", provider "manual", the "SIM-" order id and the date now |
| PurchaseSim.PurchaseMailOf | backend/routes/purchaseRoutes.js:119-125 | the mail goes to the user's e-mail, with the trimmed name or "¡Hola!", the thank-you link and the invoice named "Factura-<number>.pdf" |
| PurchaseSim.Buy | backend/routes/purchaseRoutes.js:73-144 | a missing secret 500, an unknown user or book 404, each with nothing written; with the store down the purchase fails with nothing written and no mail; a purchase records exactly one "manual"/"paid" purchase and one unused token expiring 24 hours later, embeds the token in both links, and `emailed` is exactly the mailer's success, which never fails the purchase; the same in backend/purchaseRoutes.js:69-129 |
| PurchaseSim.Fulfil | backend/routes/purchaseRoutes.js:84-139 | once user and book are known: the two writes, one mail request and `emailed` as the mailer's success; any failure before the reply is a 500 and sends no mail |
| PurchaseSim.Record | backend/routes/purchaseRoutes.js:88-102 | the purchase insert, then the token insert; a taken order id stops before the token; success adds exactly those two documents |
| PurchaseSim.SecretCheckUnreachable | backend/routes/purchaseRoutes.js:75 | behind the middleware the handler's own missing-secret check is never reached, because without a secret the middleware refuses |

| MercadoPago.Norm | backend/mercadoPagoRoutes.js:18 | the value, or its default when empty, trimmed; a trailing slash is always removed (one only), and a trimmed text without one is returned as it is |
| MercadoPago.NormDefault | backend/mercadoPagoRoutes.js:18-24 | an unset variable yields its default unchanged when the default is already trimmed and has no trailing slash |
| MercadoPago.ConfigFromEnv | backend/mercadoPagoRoutes.js:23-29 | a client exists exactly when an access token is set; a set URL variable is normalised, an unset one falls back to http://localhost:3000 and http://localhost:5001 |
| MercadoPago.DefaultBackendNotPublic | backend/mercadoPagoRoutes.js:19 | with `BACKEND_URL` unset the backend is not public (the default is not https), so no webhook URL is sent (also lines 24, 112) |
| MercadoPago.PickCourseSlugFromPayment | backend/mercadoPagoRoutes.js:32-37 | the metadata slug first; else, for a first item id starting with "course:" in any letter case, the colon-free second field of that id; else none |
| MercadoPago.PickCourseSlugFromPreference | backend/mercadoPagoRoutes.js:38-39 | none exactly when both metadata fields are empty; `courseSlug` wins over `slug` |
| MercadoPago.ItemIdRoundTrip | backend/mercadoPagoRoutes.js:35 | an item id "course:"+slug (slug without ':') gives that slug back (also line 109) |
| MercadoPago.BookItemIdNoCourse | backend/mercadoPagoRoutes.js:35 | the book item id "libro-001" names no course (also line 109) |
| MercadoPago.BuyerEmail | backend/mercadoPagoRoutes.js:190-194 | payer e-mail, then the additional-info e-mail, then the external reference, then "mp+<id>@sinew.test"; never empty; the same in backend/mercadoPagoRoutes.js:269-273 |
| MercadoPago.BuyerName | backend/mercadoPagoRoutes.js:196-200 | the payer's first name, else the payer's name, else the additional payer first name, else "Cliente MP"; never empty |
| MercadoPago.ReturnTitle | backend/mercadoPagoRoutes.js:205 | the description, else the metadata title, else "Curso SINEW" with a course and "Libro SINEW" without; never empty |
| MercadoPago.WebhookTitle | backend/mercadoPagoRoutes.js:312 | the description, else "Curso SINEW" with a course and "Libro SINEW" without; never empty |
| MercadoPago.TitlesAgree | backend/mercadoPagoRoutes.js:312 | the webhook's title equals the return's exactly when there is a description, no metadata title, or a metadata title equal to the default (also line 205) |
| MercadoPago.PurchaseInputOf | backend/mercadoPagoRoutes.js:219-229 | order id = payment id, the filed user, the amount, currency or "ARS", status "paid"; a book id "libro-001" exactly when no course |
| MercadoPago.PreferenceSlug | backend/mercadoPagoRoutes.js:108 | `metadata.courseSlug`, else `metadata.slug` only when `metadata.type` is "course" |
| MercadoPago.BackUrlsFor | backend/mercadoPagoRoutes.js:112-123 | success goes to the backend return only for a public backend, to the thank-you page otherwise; failure and pending always to the thank-you page |
| MercadoPago.PreferenceBodyOf | backend/mercadoPagoRoutes.js:98-151 | item id and external reference "course:"+slug or the book's; price 12900 when absent; the currency upper-cased or "ARS"; the payer e-mail always has an '@'; metadata extended with slug, item id and title; notification URL and auto-return only for a public backend |
| MercadoPago.CreatePreference | backend/mercadoPagoRoutes.js:94-162 | no client 500; otherwise 201 exactly when the API call succeeds, with the ids from the top level or `body` |
| MercadoPago.PreferenceEncodesCourse | backend/mercadoPagoRoutes.js:35 | the item id a course preference carries makes the later payment name the same course without metadata (also line 109) |
| MercadoPago.ExternalReferenceIsNoEmail | backend/mercadoPagoRoutes.js:190-193 | a payment without payer e-mails files its buyer under the external reference, which the User schema's e-mail rule refuses (also lines 110, 211) |
| MercadoPago.FindOrCreateBuyer | backend/mercadoPagoRoutes.js:208-215 | the user owning the e-mail or a new one with the trimmed name and the "TEMP" hash; a new one exactly when the schema accepts the e-mail; a failure leaves no user and the users unchanged |
| MercadoPago.MailName | backend/mercadoPagoRoutes.js:54-78 | the trimmed name, or "¡Hola!" exactly when it is blank |
| MercadoPago.FulfillCourseAccess | backend/mercadoPagoRoutes.js:42-64 | no slug, no effect; otherwise the grant is upserted with provider "mercadopago" and the date, the course URL returned and one mail requested when there is an e-mail; a store failure changes nothing |
| MercadoPago.FulfillBookDownload | backend/mercadoPagoRoutes.js:67-86 | succeeds exactly when the 64-hex-digit token is new; stores it unused with a 24-hour expiry and returns the thank-you and raw download links |
| MercadoPago.RecordPurchase | backend/mercadoPagoRoutes.js:208-235 | the purchase is keyed by the payment id; a duplicate order id counts as recorded; recording fails exactly when the store is down or the amount is NaN |
| MercadoPago.Grant | backend/mercadoPagoRoutes.js:237-243 | a course slug yields the upserted grant and one course mail to the buyer with the title or the default and the course page; otherwise a new token, failing exactly when that token is already stored, with one purchase mail carrying its download page, and no mail on failure |
| MercadoPago.RecordAndGrant | backend/mercadoPagoRoutes.js:208-243 | file the buyer, record the purchase once, then grant; a failed record grants nothing and sends no mail; a granted course requests the course mail and a granted book the purchase mail of its token, both to the buyer |
| MercadoPago.RecordAndGrantTwice | backend/mercadoPagoRoutes.js:290-317 | the return and the webhook on one payment, each with its own slug (the return may take it from the preference, the webhook only from the payment): the purchase is recorded once; one course grant refreshed by the later run, a grant plus a book token when only the return found a course, or two distinct working tokens (also lines 180-188, 217-243, 267) |
| MercadoPago.PreferenceReadOnlyAsFallback | backend/mercadoPagoRoutes.js:180-188 | the preference is consulted only when the payment names no course and a preference id came; a failed read leaves no course |
| MercadoPago.Return | backend/mercadoPagoRoutes.js:165-248 | no client 500; a missing id, an unapproved payment or a failed read redirect with nothing written and no mail; an approved payment is credited to `BuyerIn` of its e-mail (the holder of the stored e-mail, else a new user when the schema accepts it, else none), who then holds that e-mail; a new payment id is stored as that buyer's purchase; the reply redirects to the course page with the course granted to that buyer and the course mail (the return's title), or to the download link with a fresh token of that buyer and its purchase mail, or to the server error exactly when recording fails or the token is already stored, with no grant and no mail |
| MercadoPago.ProcessPayment | backend/mercadoPagoRoutes.js:264-319 | an unapproved payment is skipped with nothing written; an approved one is credited to `BuyerIn` of its e-mail, who then holds that e-mail, and is refused exactly when recording fails; a new payment id is stored as that buyer's purchase; a processed course is granted to that buyer with the course mail (the webhook's title), a processed book gets a fresh token of that buyer with its purchase mail; a refusal or a throw grants nothing and sends no mail |
| MercadoPago.Topic | backend/mercadoPagoRoutes.js:255 | the query topic, else the body's topic, else the body's type, lower-cased; empty exactly when none is set |
| MercadoPago.NotificationId | backend/mercadoPagoRoutes.js:256 | the query id, else the body's id, else the body's data id; empty exactly when none is set |
| MercadoPago.MerchantOrderStep | backend/mercadoPagoRoutes.js:338-345 | one payment of the order, as `OrderStep` states: refused exactly when an approved payment cannot be recorded; anything not approved writes nothing; a recordable one is recorded; its mails and the token keys after it are those of `StepMails` |
| MercadoPago.ProcessMerchantOrder | backend/mercadoPagoRoutes.js:337-348 | every recordable payment of the order is stored; an `ok: false` answer exactly when some payment is refused; no approved payment, no change; the store becomes `OrderState`, the payments fulfilled one after the other each for its own buyer (`OrderGrantsCourses`, `OrderGrantsBooks`); the mails are `OrderMails` of the payments in order from the stored tokens |
| MercadoPago.OrderMailsPerPayment | backend/mercadoPagoRoutes.js:337-348 | a merchant order requests at most one mail per payment, each to the buyer of an approved payment of the order whose purchase can be recorded |
| MercadoPago.OrderLoopStep | backend/mercadoPagoRoutes.js:338-345 | one payment handled keeps the loop's facts: the store is `OrderState` of the payments so far, the first refusal is recorded, every recordable payment so far is stored, the store is untouched while nothing was approved, the users and purchases only grow, and the mails so far plus those of the rest equal the whole order's |
| MercadoPago.FulfilledCreditsBuyer | backend/mercadoPagoRoutes.js:208-215 | the buyer a payment is credited to exists afterwards and holds the payment's e-mail in its stored form |
| MercadoPago.FulfilledRecordsBuyer | backend/mercadoPagoRoutes.js:218-229 | a new payment id that can be recorded is stored with that buyer as its user and the payment id as its order id |
| MercadoPago.FulfilledGrantsBuyer | backend/mercadoPagoRoutes.js:237-243 | a recorded course is granted to that buyer with provider "mercadopago"; a recorded book whose token is new gets that token, owned by that buyer |
| MercadoPago.FulfilledKeepsBuyer | backend/mercadoPagoRoutes.js:208-215 | once filed, the payment's e-mail leads back to the same buyer, so a second run credits the same user |
| MercadoPago.OrderStateOnline | backend/mercadoPagoRoutes.js:338-345 | handling the payments of a merchant order leaves the store's connection state as it was |
| MercadoPago.OrderGrantsCourses | backend/mercadoPagoRoutes.js:338-345 | after the payments of a merchant order, each recordable payment naming a course has granted it, with provider "mercadopago", to the buyer `findOrCreateBuyer` found for that payment (also lines 237-239) |
| MercadoPago.OrderGrantsBooks | backend/mercadoPagoRoutes.js:338-345 | after the payments of a merchant order, each recordable book payment that drew a new token still holds it, owned by that payment's own buyer (also lines 241-242) |
| MercadoPago.OrderLoopDone | backend/mercadoPagoRoutes.js:337-348 | once every payment is handled, the store is `OrderState` of the whole order and the mails are `OrderMails` of the whole order |
| MercadoPago.Webhook | backend/mercadoPagoRoutes.js:251-358 | after an `ok: false` the later `res.json` calls throw out of the route (`escapes`) exactly when that reply was sent; no client 500; no topic or id, or an unknown topic, acknowledged with nothing written; a payment topic answers `ok: false` exactly when recording fails; an acknowledged approved payment is credited to `BuyerIn` of its e-mail, who holds that e-mail, and grants that buyer its course with the course mail or a fresh book token with its purchase mail; a failure writes no access or token and sends no mail; a merchant order answers per its read and its payments, its store is `OrderState` of the payments (each credited to its own buyer, see `OrderGrantsCourses`) and its mails `OrderMails` |

| Mailer.ReadEnv | backend/utils/mailer.js:10-20 | the settings read at send time: the key and SMTP fields as set; the sender as set, else the default sender; the logo as set, else the default logo; the port the number of SMTP_PORT when set, else 587; the same in backend/mailer.js:10-20 |
| Mailer.Mask | backend/utils/mailer.js:23-27 | empty for an empty secret; one to eight characters become the first, an ellipsis and the last; a longer secret shows its first four, an ellipsis and its last three; the same in backend/mailer.js:23-27 |
| Mailer.MaskHidesMiddle | backend/utils/mailer.js:26 | a secret longer than eight characters is never logged whole |
| Mailer.FindIgnoreCase | backend/utils/mailer.js:210 | the first position where the pattern starts, ignoring ASCII case; none exactly when it occurs nowhere |
| Mailer.StripStyleBlocks | backend/utils/mailer.js:210 | removing `<style>…</style>` blocks never lengthens the text |
| Mailer.StripRemovesBlock | backend/utils/mailer.js:210 | a `<style` … `</style>` block at the front with no closing tag inside is removed, and the rest is stripped the same way |
| Mailer.StripKeepsPlainPrefix | backend/utils/mailer.js:210 | a prefix without a `<` passes through the removal unchanged and the rest is stripped on its own |
| Mailer.ToTextDropsStyleBlock | backend/utils/mailer.js:208-214 | a style block after plain text contributes nothing to the text part: the text of the whole is the text without the block |
| Mailer.ReplaceTags | backend/utils/mailer.js:211 | the result has no tag left and every non-space character comes from the input |
| Mailer.CollapseSpaces | backend/utils/mailer.js:212 | every run of white space becomes one plain space; empty exactly when the input is; no new characters |
| Mailer.CollapseKeepsNoTag | backend/utils/mailer.js:211-212 | collapsing spaces does not make a tag appear |
| Mailer.ToText | backend/utils/mailer.js:208-214 | the text part has no tag, single plain spaces and nothing to trim at either end; the same in backend/mailer.js:183-189 |
| Mailer.StripStyleIdentity | backend/utils/mailer.js:210 | text without a `</style>` passes the first step unchanged |
| Mailer.ReplaceTagsIdentity | backend/utils/mailer.js:211 | text without tags passes the second step unchanged |
| Mailer.CollapseIdentity | backend/utils/mailer.js:212 | already collapsed text passes the third step unchanged |
| Mailer.PlainTextFixed | backend/utils/mailer.js:208-214 | plain text is its own text part |
| Mailer.ToTextIdempotent | backend/utils/mailer.js:208-214 | rendering to text twice is rendering once |
| Mailer.ResendAttachmentOf | backend/utils/mailer.js:242-246 | same file name; content type as given or a non-empty default; a buffer becomes base64 text that decodes back to its bytes |
| Mailer.ResendPayloadOf | backend/utils/mailer.js:232-247 | sender, subject and HTML carried over, the text part is `ToText` of the HTML, one recipient becomes a list, attachments only when there are any |
| Mailer.IdOf | backend/utils/mailer.js:251-268 | no id exactly when the reply carries none |
| Mailer.SendViaResend | backend/utils/mailer.js:227-252 | no key is an error; otherwise it succeeds exactly when the API accepts the payload, with the API's id, via Resend, and a throw is the error with its message; the same in backend/mailer.js:202-226 |
| Mailer.BuildSmtp | backend/utils/mailer.js:216-225 | a transport exactly when host, user and password are set; TLS exactly on port 465; the same in backend/mailer.js:191-200 |
| Mailer.SmtpMessageOf | backend/utils/mailer.js:259-266 | the message keeps recipients, subject, HTML and attachments, with the sender and the text part added |
| Mailer.SendViaSmtp | backend/utils/mailer.js:254-269 | no transport is an error; otherwise it succeeds exactly when the transport accepts, with its message id, via SMTP, and a throw is the error with its message; the same in backend/mailer.js:228-243 |
| Mailer.Deliver | backend/utils/mailer.js:271-282 | with a Resend key the outcome is the Resend send; without one and with an SMTP host it is the SMTP send; without either it fails with no provider; the same in backend/mailer.js:245-256 |
| Mailer.DeliverIgnoresSmtp | backend/utils/mailer.js:275 | with a Resend key, the SMTP settings and transport change nothing |
| Mailer.Greeting | backend/utils/mailer.js:148 | the trimmed name, or the fallback when it is blank (also lines 167, 186) |
| Mailer.Compose | backend/utils/mailer.js:285-311 | one recipient; a purchase mail has its fixed subject, the purchase template's html with the greeting ("¡Hola!" for a blank name) and the download link, and a single PDF attachment exactly when an invoice is given, named as given or by the default name; a course mail's subject ends in the title or "Curso SINEW" and its html is the course template with the greeting, that title and the course URL; a reset mail has its subject, the reset template's html and no attachment; the same in backend/mailer.js:280-284 |
| Mailer.Send | backend/utils/mailer.js:285-311 | the composed mail goes to Resend when its key is set and succeeds exactly when Resend accepts its payload; otherwise to SMTP when a host is set; with neither it fails with no provider |
| Mailer.InvoiceSurvivesResend | backend/utils/mailer.js:290-297 | an invoice reaches Resend as one PDF attachment whose base64 content decodes to the invoice bytes (also lines 242-246) |
| LegacyMailer.ComposeCourseAccess | backend/mailer.js:274-278 | the older course mail interpolates the title as given, reading "undefined" when it is absent; its html is the course template with the trimmed name or "Hola", the title as passed and the course URL |
| LegacyMailer.ComposePurchase | backend/mailer.js:259-272 | the older purchase mail: fixed subject; the html is the purchase template with the trimmed name or "Hola" and the link; an invoice becomes exactly one PDF attachment of its bytes, named as given or "Factura.pdf"; no invoice, no attachment |
| LegacyMailer.PurchaseMailsAgree | backend/mailer.js:132-133 | with the same template, the older and the current purchase mail are identical for a buyer with a name, and differ only in the greeting ("Hola" against "¡Hola!") for a blank one |
| LegacyMailer.CourseSubjectsAgree | backend/mailer.js:275 | the two copies give the same course subject exactly when the title is non-empty |

| AppConfig.NodeEnv | backend/index.js:12 | "production" when unset, otherwise the value lower-cased; always lower case |
| AppConfig.AllowNoDbMeaning | backend/index.js:51 | running without a database is allowed exactly for "true" in any letter case, never when unset |
| AppConfig.Port | backend/index.js:11 | 5001 when `PORT` is unset |
| AppConfig.TrimAll | backend/index.js:26 | each entry trimmed, same length and order |
| AppConfig.DropEmpty | backend/index.js:27 | exactly the non-empty entries are kept |
| AppConfig.ParseCorsOrigins | backend/index.js:24-27 | every origin is non-empty, trimmed and comma-free; every non-blank comma-separated field appears trimmed, and every origin is the trimmed form of some field |
| AppConfig.ParseEmptyIsEmpty | backend/index.js:24-27 | an unset list parses to no origins |
| AppConfig.AllowedOrigins | backend/index.js:29 | the configured origins when there is one, else the six defaults; never empty |
| AppConfig.UnsetUsesDefaults | backend/index.js:15-29 | with `CORS_ORIGINS` unset the defaults apply |
| AppConfig.OriginDecision | backend/index.js:32-38 | allowed exactly when the request has no Origin or the origin is whitelisted; never an error |
| AppConfig.DbStateLabel | backend/index.js:64 | "connected" exactly for state 1, "connecting" exactly for 2, otherwise "not_connected" |
| AppConfig.Startup | backend/index.js:154-161 | with a URI it connects; without one it aborts exactly when neither `ALLOW_NO_DB` nor development allows running without a database |
| AppConfig.AfterConnect | backend/index.js:165-174 | a connection listens with the database; a failure aborts under the same rule, otherwise listens without it |
| AppConfig.ProductionNeedsDb | backend/index.js:154-174 | with the default environment the server never listens without a database (also lines 12, 51) |

| PayPal.FrontendFromEnv | backend/controllers/purchaseController.js:18 | the variable or http://localhost:3000, untrimmed; a trailing slash is always removed (one only), and a value without one is kept as it is |
| PayPal.EnvironmentOf | backend/controllers/purchaseController.js:29-36 | the live API exactly when `PAYPAL_ENV` is "live" in any letter case, the sandbox otherwise |
| PayPal.ConfigFromEnv | backend/controllers/purchaseController.js:18-20 | PayPal credentials exactly when both client id and secret are set; mail credentials exactly when SMTP user and password are set; the SMTP user kept; the front-end URL is the normalised variable when set, else the default |
| PayPal.SimpleItem | backend/controllers/purchaseController.js:157-171 | the simple payload's item: type from metadata or "book", sku from `courseSlug`, `slug` or "libro-001", the title or "Producto SINEW", quantity 1, the price and the upper-cased currency or "USD" |
| PayPal.EffectiveItems | backend/controllers/purchaseController.js:152-171 | the one simple item exactly when there are no items and the price is truthy, the body's items otherwise |
| PayPal.EffectiveMeta | backend/controllers/purchaseController.js:153-175 | `metadata` replaces `meta` only for the simple payload with an empty `meta` |
| PayPal.CustomId | backend/controllers/purchaseController.js:182 | "course:"+slug when `meta.courseSlug` is set, otherwise "libro-001" |
| PayPal.OrderBodyOf | backend/controllers/purchaseController.js:179-202 | the first item's amount (35 when absent), currency upper-cased or "USD" and name or "Producto SINEW"; the custom id from the effective meta |
| PayPal.SimplePayloadOrder | backend/controllers/purchaseController.js:156-181 | a simple payload yields an order whose amount is the price and whose currency is the given one upper-cased |
| PayPal.FirstApprove | backend/controllers/purchaseController.js:206 | the position of the first "approve" link, none exactly when there is no such link |
| PayPal.ApproveUrl | backend/controllers/purchaseController.js:206 | empty without an "approve" link; otherwise the href of the first link whose rel is "approve" |
| PayPal.CreateOrder | backend/controllers/purchaseController.js:146-218 | no credentials 500; otherwise 201 exactly when the API call succeeds, with its id, links and approve URL |
| PayPal.PayerName | backend/controllers/purchaseController.js:280-282 | given name and surname joined by a space, or whichever is present |
| PayPal.CaptureSlug | backend/controllers/purchaseController.js:287-290 | the second field of a custom id starting with "course:" (case-sensitive) when non-empty, otherwise the body's slug |
| PayPal.CustomIdRoundTrip | backend/controllers/purchaseController.js:287-290 | a course order's custom id gives its course back whatever the body says; the book's gives the body's slug (also line 182) |
| PayPal.PurchaseInputOf | backend/controllers/purchaseController.js:308-318 | order id, buyer and amount carried over, status "paid", the currency upper-cased or "USD"; a book id exactly when no course |
| PayPal.CaptureBuyer | backend/controllers/purchaseController.js:293-305 | the authenticated user first; without one and without an e-mail no user; otherwise the user owning the e-mail, or a new one when the schema accepts it; a store error is passed on with the users unchanged |
| PayPal.BuyerByEmail | backend/controllers/purchaseController.js:295-305 | the user stored under the e-mail, else a new one with the "TEMP" hash; a store error, or an e-mail the schema refuses, leaves the users unchanged |
| PayPal.FulfillCourseAccess | backend/controllers/purchaseController.js:53-87 | no slug, no effect; otherwise an insert-only grant (an existing one keeps its provider, origin and date), the course URL and one mail with the name or "Alumno" |
| PayPal.FulfillBookDownload | backend/controllers/purchaseController.js:89-132 | succeeds exactly when the token is new: a 24-hour unused token, the thank-you URL, a mail with the name or "Buyer", and the plain SMTP fallback only when the mailer throws and mail credentials exist |
| PayPal.BookMails | backend/controllers/purchaseController.js:100-126 | no mail without an e-mail; otherwise the purchase mail to the buyer named by the name or "Buyer", followed by the plain SMTP fallback exactly when the mailer threw and mail credentials exist |
| PayPal.CaptureOrder | backend/controllers/purchaseController.js:230-357 | no credentials 500; no order id 400; an order not APPROVED or a capture not COMPLETED 400 with nothing written; a capture succeeds with the purchase recorded once, a second capture of the order fails, and the course page with `CourseMails` or the download link with `BookMails` is returned, to the final e-mail and name; without an authenticated user the buyer is none for an empty e-mail, the stored holder of the e-mail when there is one, and otherwise a user holding that e-mail |
| PayPal.CaptureAuth | backend/routes/paypalRoutes.js:17-29 | no Bearer token, no secret or a token that does not verify is refused; a verified token gives the claims' `id`, else their `userId` |
| PayPal.CaptureRoute | backend/routes/paypalRoutes.js:41 | a request the authentication refuses answers 401 with nothing written and no PayPal call; for an accepted one, every outcome of `CaptureOrder` holds with the token's user as the buyer: a refused order or capture writes nothing and sends no mail, a new capture records the purchase, grants the course under `AccessKey(user, slug)` or a token of that user, and sends `CourseMails` or `BookMails`, and a failed capture writes no access or token |
| PayPal.RecordCapture | backend/controllers/purchaseController.js:293-318 | the purchase is inserted under the order id only when it is new and the amount is a number; an authenticated buyer is kept as is; without one, an empty e-mail gives no buyer, a stored e-mail gives its holder, and any buyer found holds the stored form of the e-mail |
| PayPal.RecordAndGrant | backend/controllers/purchaseController.js:293-345 | the capture's writes in order; any store error is a 500 with no grant and no mail; success grants the course with `CourseMails` or a new token with `BookMails` of its download link; the buyer is the authenticated user, else as `RecordCapture` states |

| Text.LeadingSpaces | backend/models/User.js:10-24 | the count of white-space characters the string starts with; the next character is not white space |
| Text.TrailingStart | backend/models/User.js:10-24 | where the trailing white space begins; the character before it is not white space |
| Text.Trim | backend/models/User.js:10-24 | `trim`: never longer, and neither end of the result is white space |
| Text.TrimRemovesOnlySpace | backend/models/User.js:10-24 | trimming removes white space at the two ends and nothing else |
| Text.TrimOfTrimmed | backend/models/User.js:10-24 | a string with no white space at either end is its own trim |
| Text.TrimIdempotent | backend/models/User.js:10-24 | trimming twice is trimming once |
| Text.ToLower | backend/models/User.js:23 | `lowercase`: same length, each ASCII letter lowered, every other character kept |
| Text.ToUpper | backend/controllers/purchaseController.js:158 | `toUpperCase`: same length, each ASCII letter raised (also lines 180, 276) |
| Text.ToLowerIdempotent | backend/models/User.js:23 | lower-casing twice is lower-casing once |
| Text.ToUpperIdempotent | backend/controllers/purchaseController.js:180 | upper-casing twice is upper-casing once |
| Text.TrimLowerCommute | backend/models/User.js:23-24 | trimming and lower-casing commute, so the order of the two setters does not matter |
| Text.IndexOf | backend/controllers/purchaseController.js:289 | the first position of the character, the length when it is absent |
| Text.Split | backend/index.js:25 | `split` on one character: at least one field, none containing the separator |
| Text.JoinSplit | backend/index.js:25 | joining the fields of a split with the separator gives the string back |
| Text.SplitHead | backend/controllers/purchaseController.js:289 | the first field is the text before the first separator |
| Text.SplitNoSep | backend/mercadoPagoRoutes.js:35 | text without the separator splits into itself alone |
| Text.SplitAtFirst | backend/mercadoPagoRoutes.js:35 | the first separator ends the first field and the rest splits on its own |
| Text.NatToString | backend/routes/purchaseRoutes.js:86 | the decimal form of a number: non-empty, digits only |
| Text.HexValue | backend/controllers/purchaseController.js:91 | the value of a hex digit, which maps back to the digit |
| Text.HexEncode | backend/controllers/purchaseController.js:91 | `toString('hex')`: two lower-case hex digits per byte |
| Text.HexRoundTrip | backend/controllers/purchaseController.js:91 | hex decoding gives the bytes back |
| Text.HexInjective | backend/controllers/purchaseController.js:91 | different random bytes never give the same token |
| Text.EncodeUriComponent | backend/controllers/purchaseController.js:97 | `encodeURIComponent`: only unreserved characters and '%' in the result; unreserved text is left unchanged |
| Text.EncodeHexIsIdentity | backend/controllers/purchaseController.js:91-97 | a hex token is left unchanged by `encodeURIComponent`, so links carry it verbatim |
| Text.Base64RoundTrip | backend/utils/mailer.js:244 | `toString('base64')` yields well-formed base64 text that decodes back to the bytes |
| Sorting.StringLeTotal | backend/routes/courseRoutes.js:46 | any two titles are ordered one way or the other |
| Sorting.StringLeTransitive | backend/routes/courseRoutes.js:46 | the title order is transitive |
| Sorting.Insert | frontend/src/pages/Perfil.jsx:196 | inserting into a sorted sequence keeps it sorted and adds exactly the one element |
| Sorting.SortBy | frontend/src/pages/Perfil.jsx:196-203 | the result is sorted by the order and is a permutation of the input |

| Gracias.ApiBase | frontend/src/pages/Gracias.jsx:9 | the configured API base or http://localhost:5001, without one trailing slash |
| Gracias.ResolveDownloadUrl | frontend/src/pages/Gracias.jsx:14-20 | none exactly for an empty value; an absolute http(s) URL as it is; a path on the API; a raw token percent-encoded under the API's download route |
| Gracias.RawTokenAndPathAgree | frontend/src/pages/Gracias.jsx:14-20 | a backend token and its `/api/download/<token>` path resolve to the same URL |
| Gracias.DownloadUrl | frontend/src/pages/Gracias.jsx:33-37 | the `?download=` value wins over the navigation state's link; none exactly when both are empty |
| Gracias.NoticesExclusive | frontend/src/pages/Gracias.jsx:5-6 | the pending and failure notices never show together, and an `?error=` hides both (also lines 42-43) |
| Gracias.StatusCaseIgnored | frontend/src/pages/Gracias.jsx:28-43 | the status is compared lower-cased |
| Gracias.TicksFloorAtZero | frontend/src/pages/Gracias.jsx:49 | after k ticks from a count s the count is max(s-k, 0) |
| Gracias.RawTokenResolves | frontend/src/pages/Gracias.jsx:14-20 | a raw hex token from the backend resolves to the API base, `/api/download/` and the token unchanged |
| Gracias.PathResolves | frontend/src/pages/Gracias.jsx:17 | a `/api/download/<token>` path resolves to the API base followed by the path |
| Gracias.Countdown.constructor | frontend/src/pages/Gracias.jsx:39-40 | the countdown starts at 3, not started, with no interval, no timeout, no download and no effect run yet |
| Gracias.Countdown.Commit | frontend/src/pages/Gracias.jsx:45-72 | the effect runs again only when its dependencies changed; then the last run's cleanup clears the interval and the timeout, and with a URL and not yet started the run marks the start and sets both; otherwise both stay cleared |
| Gracias.Countdown.OnTick | frontend/src/pages/Gracias.jsx:49 | while the interval is set, one tick lowers the count by one, never below zero; a cleared interval changes nothing |
| Gracias.Countdown.OnTimeout | frontend/src/pages/Gracias.jsx:51-69 | a timeout still set starts the download once (the click and its 600 ms fallback); a cleared one does nothing |
| Gracias.AsWrittenRun | frontend/src/pages/Gracias.jsx:45-72 | as written, the re-render caused by `setAutoStarted(true)` re-runs the effect, whose cleanup clears the interval and the timeout: after three seconds the count still shows 3 and no download started |
| Gracias.CorrectedRun | frontend/src/pages/Gracias.jsx:45-72 | with `[downloadUrl]` as the dependencies, the timers survive the re-render: after three seconds the count is 0 and the download started exactly once |

| Perfil.ResolveThumb | frontend/src/pages/Perfil.jsx:89-98 | a local image for the slug wins over the backend thumbnail; an empty thumbnail gives ""; otherwise the URL resolved against the API base, or the thumbnail unchanged when it does not parse |
| Perfil.OwnedOfRaw | frontend/src/pages/Perfil.jsx:125-133 | a bare slug entry becomes a course with that slug and no title or thumbnail; an object keeps its slug |
| Perfil.OwnedList | frontend/src/pages/Perfil.jsx:124-133 | a response without a course array gives no owned courses; otherwise one owned course per entry, in order |
| Perfil.CatalogMap | frontend/src/pages/Perfil.jsx:140-142 | every catalogue slug is a key, each key maps to a catalogue course with that slug, and every value comes from the list |
| Perfil.Access200 | frontend/src/pages/Perfil.jsx:145-155 | the set of accessible slugs is exactly the catalogue slugs whose lessons request answered 200, each once |
| Perfil.Put | frontend/src/pages/Perfil.jsx:162-182 | setting a slug in the insertion-ordered map keeps slugs distinct, adds only that slug, stores the new card under it and leaves every other card in its place |
| Perfil.AccessCard | frontend/src/pages/Perfil.jsx:170-188 | the card for an accessible slug keeps the non-empty title, thumbnail and level the owned pass already wrote |
| Perfil.OwnedPass | frontend/src/pages/Perfil.jsx:158-168 | after the owned loop the slugs present are exactly the owned slugs, each once |
| Perfil.AccessStep | frontend/src/pages/Perfil.jsx:171-188 | one access step keeps slugs distinct and adds exactly its slug |
| Perfil.AccessPass | frontend/src/pages/Perfil.jsx:170-189 | after the access loop the slugs present are the earlier ones plus the accessible ones, each once |
| Perfil.AccessStepKeeps | frontend/src/pages/Perfil.jsx:180-187 | an access step never empties a title, thumbnail or level already present |
| Perfil.AccessPassKeeps | frontend/src/pages/Perfil.jsx:170-189 | an owned course keeps its title, thumbnail and level from the owned pass through the whole access loop |
| Perfil.Merge | frontend/src/pages/Perfil.jsx:158-191 | the two loops over the map compute the access pass applied to the owned pass |
| Perfil.CardOrderTotalPreorder | frontend/src/pages/Perfil.jsx:196-201 | the comparator (owned first, then titles) is total and transitive whenever the title order is |
| Perfil.OwnedFirst | frontend/src/pages/Perfil.jsx:194-201 | in the sorted list no merely accessible course precedes an owned one, and titles are in order within each group |
| Perfil.Load | frontend/src/pages/Perfil.jsx:103-203 | without a user or a stored token the list is empty; otherwise it is a permutation of the merged cards, sorted by the comparator, holding exactly the owned and the accessible slugs, each once |
| Perfil.SameSlugsDistinct | frontend/src/pages/Perfil.jsx:196 | sorting the merged cards keeps their slugs distinct |

| RegisterForm.StrictIsLoose | frontend/src/pages/Register.jsx:31 | every address the form's pattern accepts also matches the user schema's looser e-mail pattern |
| RegisterForm.CleanEmail | frontend/src/pages/Register.jsx:29 | the e-mail the form checks and sends is the one the user schema stores (also line 56) |
| RegisterForm.PasswordError | frontend/src/pages/Register.jsx:33-39 | missing, too short, missing a letter or digit, or both joined by the separator; no error exactly when the server would not call the password weak |
| RegisterForm.Validate | frontend/src/pages/Register.jsx:24-46 | the error object built key by key is the field-by-field error function, and the form is valid exactly when it has no key |
| RegisterForm.AcceptedMeans | frontend/src/pages/Register.jsx:24-46 | the form is accepted exactly when the trimmed name has two characters, the cleaned e-mail passes the pattern, the password is present and strong and repeated |
| RegisterForm.Payload | frontend/src/pages/Register.jsx:54-58 | the body sends the trimmed name, the stored form of the e-mail and the password unchanged |
| RegisterForm.AcceptedPassesServerChecks | frontend/src/pages/Register.jsx:52-65 | a body the form lets through never meets the register route's missing-field, bad-e-mail or weak-password answers |
| RegisterForm.ErrorText | frontend/src/pages/Register.jsx:72-86 | a 409 or a duplicate-key message shows "already registered"; a 400 or 422 shows the server's words or its own default; any other status shows the message, the error or the generic failure, which is also what no response at all shows; the text is never empty |
| RegisterForm.TakenShownAsRegistered | frontend/src/pages/Register.jsx:78-79 | the route's e-mail-taken answer is always shown as "already registered" |

| Checkout.FindCourse | frontend/src/pages/Checkout.jsx:74-85 | the course found has the slug asked for and is its first occurrence in the table; none is found exactly when no entry has that slug |
| Checkout.CurrentUSD | frontend/src/pages/Checkout.jsx:71-74 | the book's dollar price, else the chosen course's, else the default 35.00 |
| Checkout.CurrentARS | frontend/src/pages/Checkout.jsx:76-79 | the book's peso price, else the chosen course's, else the default 35000 |
| Checkout.CurrentTitle | frontend/src/pages/Checkout.jsx:82-85 | never empty: the book's title, else the chosen course's, else the default course title |
| Checkout.PriceTable | frontend/src/pages/Checkout.jsx:71-85 | a single concrete example: the prices and titles the page shows for the book, each listed course and an unknown course; `Checkout.FindCourse` is the all-inputs lookup (also lines 8-11, 18-19) |
| Checkout.Metadata | frontend/src/pages/Checkout.jsx:88-91 | the book sends only its source tag; a course sends its type and its slug under both keys |
| Checkout.StoredToken | frontend/src/pages/Checkout.jsx:23-26 | the "token" key wins when set; otherwise the "auth_token" value when stored, else empty; any token comes from storage |
| Checkout.PreferenceRequestOf | frontend/src/pages/Checkout.jsx:101-110 | the preference is asked in pesos at the current price and title, for the buyer typed (name defaulting to APRO), with the product's metadata |
| Checkout.PreferenceNamesProduct | frontend/src/pages/Checkout.jsx:88-110 | the preference the server builds from that request names the chosen course as its item, or the book, with the page's title and currency |
| Checkout.CheckoutUrl | frontend/src/pages/Checkout.jsx:112-121 | an empty answer and an answer without links are errors; otherwise the production link before the sandbox one, never empty |
| Checkout.MercadoPagoResult | frontend/src/pages/Checkout.jsx:101-129 | a link found is the redirect; every failure, thrown or returned, is shown under the Mercado Pago error prefix with the response error, the message or the default |
| Checkout.OrderRequestOf | frontend/src/pages/Checkout.jsx:254-270 | one item of quantity one in dollars at the parsed current price, typed and keyed as book or course, and the meta carrying the buyer e-mail and the course |
| Checkout.CaptureRequestOf | frontend/src/pages/Checkout.jsx:287-294 | the capture body carries the order, the buyer, and the course only for a course |
| Checkout.OrderAndCaptureAgree | frontend/src/pages/Checkout.jsx:254-294 | the order's custom id and the capture body together make the server grant the chosen course, or the book |
| Checkout.CaptureLinks | frontend/src/pages/Checkout.jsx:302-305 | a redirect, when present, suppresses the download link; otherwise the link is kept when present |
| Checkout.NextAfterCapture | frontend/src/pages/Checkout.jsx:302-317 | a redirect replaces the page; otherwise the thank-you page gets the download link and the payer's name |
| Checkout.CaptureErrorText | frontend/src/pages/Checkout.jsx:319-323 | the response's error, then the message, then the default, which is what shows when both are empty; never empty |
| Checkout.CheckoutPage.constructor | frontend/src/pages/Checkout.jsx:34-35 | no banner, no spinner, no redirect and no navigation |
| Checkout.CheckoutPage.OnChange | frontend/src/pages/Checkout.jsx:52-55 | typing clears the banner and nothing else |
| Checkout.CheckoutPage.RequireLoginAndForm | frontend/src/pages/Checkout.jsx:57-68 | passes exactly when logged in with a valid form; a missing login is reported first and sends the visitor to the login page, an invalid form only sets the banner |
| Checkout.CheckoutPage.HandleMercadoPago | frontend/src/pages/Checkout.jsx:94-133 | a blocked click only reports the gate; otherwise the browser goes to the checkout link or the banner shows the prefixed error; the spinner is off at the end |
| Checkout.CheckoutPage.OnApprove | frontend/src/pages/Checkout.jsx:285-325 | a redirect replaces the location, otherwise the thank-you page is navigated to with the download link and the payer's name as its state; a failure shows the capture error text |
| Checkout.CheckoutPage.OnPayPalError | frontend/src/pages/Checkout.jsx:326-328 | the error's message or the PayPal default is shown |

| BuyButtons.ButtonsFollowPrices | frontend/src/components/BuyButtons.jsx:124-126 | the free notice shows exactly when neither price is positive, and otherwise at least one payment button shows |
| BuyButtons.Metadata | frontend/src/components/BuyButtons.jsx:37-39 | a course card sends its type and its slug under both keys; any other card sends the book type (also line 75) |
| BuyButtons.PreferenceRequestOf | frontend/src/components/BuyButtons.jsx:32-40 | the preference is asked in pesos at the card's price and title, for the buyer given, with the card's metadata |
| BuyButtons.PreferenceNamesProduct | frontend/src/components/BuyButtons.jsx:32-40 | the preference the server builds names the card's course as its item, or the book |
| BuyButtons.OrderRequestOf | frontend/src/components/BuyButtons.jsx:69-76 | the order is the simple payload: no items or meta, the dollar price, the title and the card's metadata |
| BuyButtons.CaptureRequestOf | frontend/src/components/BuyButtons.jsx:90-96 | the capture body carries the order, the buyer, and the course only on a course card |
| BuyButtons.OrderAndCaptureAgree | frontend/src/components/BuyButtons.jsx:65-96 | with a PayPal price shown, the server's order has the card's price in dollars and, once the capture gets past the route's authentication, the capture body makes it grant the card's course or the book |
| BuyButtons.CreateOrderResult | frontend/src/components/BuyButtons.jsx:78-82 | the order id exactly when the answer is ok and has an id; otherwise the server's error or the default |
| BuyButtons.ApproveTarget | frontend/src/components/BuyButtons.jsx:99-117 | a failure unless the answer is ok and successful; then the redirect, else the download link, else the thank-you page |
| BuyButtons.Buttons.constructor | frontend/src/components/BuyButtons.jsx:16 | no spinner, no redirect, no alert |
| BuyButtons.Buttons.BuyWithMercadoPago | frontend/src/components/BuyButtons.jsx:29-52 | the browser goes to the production link, else the sandbox link; with neither, or a failed call, one alert is shown; the spinner is off at the end |
| BuyButtons.Buttons.OnApprove | frontend/src/components/BuyButtons.jsx:85-122 | the browser goes where the approve target says; a failed call or refusal shows one alert and stays put |
| BuyButtons.Buttons.Approve | frontend/src/components/BuyButtons.jsx:85-122 | a capture the route refuses shows the alert and stays put; an accepted one goes where the controller's answer sends it |
| BuyButtons.CaptureRefusedAsWritten | frontend/src/components/BuyButtons.jsx:87-89 | the capture the buttons post carries no token, so the route refuses it for every secret and verifier and the buttons fail with "UNAUTHORIZED" |
| BuyButtons.CaptureAcceptedWithBearer | frontend/src/pages/Checkout.jsx:296-300 | with the token in a Bearer header, as the checkout page sends it, the route accepts the capture as the token's user |
| BuyButtons.Buttons.OnPayPalError | frontend/src/components/BuyButtons.jsx:200-203 | one alert is shown |

| CursoDetalle.RemoveFirstSlash | sinew-app-clean/src/pages/CursoDetalle.jsx:13 | only the first slash goes: a text without one is unchanged, and a leading one is dropped |
| CursoDetalle.ToYouTubeEmbed | sinew-app-clean/src/pages/CursoDetalle.jsx:9-24 | a short link embeds its path, a YouTube host with a non-empty `v` embeds that id, anything else (an unparsable link included) is returned as given |
| CursoDetalle.EmbedForms | sinew-app-clean/src/pages/CursoDetalle.jsx:9-24 | the short and the watch link of one video give the same embed, and an embed link is left as it is |
| CursoDetalle.MpPriceARS | sinew-app-clean/src/pages/CursoDetalle.jsx:27-30 | the known peso price for the slug, else 0; never negative (also line 118) |
| CursoDetalle.PpPriceUSD | sinew-app-clean/src/pages/CursoDetalle.jsx:119 | the course price when its currency is USD in any letter case, else 0 |
| CursoDetalle.CurrencyCaseIgnored | sinew-app-clean/src/pages/CursoDetalle.jsx:119 | a lower-case usd currency still offers PayPal at the course price |
| CursoDetalle.AfterFetch | sinew-app-clean/src/pages/CursoDetalle.jsx:55-68 | a 200 stores the lessons and lifts the paywall; a 401 or 402 raises it; a network error or other status clears the lessons and keeps the flag |
| CursoDetalle.GateDecidesPaywall | sinew-app-clean/src/pages/CursoDetalle.jsx:55-68 | against the lessons route, a visitor without access to a paid course sees the paywall, and one served a non-empty lesson list does not (also lines 99-100) |
| CursoDetalle.LessonsView.constructor | sinew-app-clean/src/pages/CursoDetalle.jsx:39-40 | no lessons and no paywall |
| CursoDetalle.LessonsView.FetchLessons | sinew-app-clean/src/pages/CursoDetalle.jsx:55-68 | the lessons and the paywall flag become what the fetch outcome function gives for the old state and the answer |
| CursoDetalle.LessonsHeader | sinew-app-clean/src/pages/CursoDetalle.jsx:43-56 | no header for an empty token; otherwise a Bearer header from which the server reads that token back |
| CursoDetalle.BuyerSeesPaywallAsWritten | sinew-app-clean/src/pages/CursoDetalle.jsx:37-56 | as written, a signed-in buyer of a paid course is anonymous to the lessons route, which asks for a login, so the paywall goes up |
| CursoDetalle.BuyerSeesLessons | sinew-app-clean/src/pages/CursoDetalle.jsx:37-61 | with the stored token, the same buyer is the route's user, gets the lessons and sees no paywall |
| CursoDetalle.LessonsView.FetchFromServer | sinew-app-clean/src/pages/CursoDetalle.jsx:55-68 | the page as written: the request carries the undefined token, and the lessons and the paywall follow the route's gate for the user found (none) |

| Comunidad.ArrowsInverse | frontend/src/pages/Comunidad.jsx:121-129 | on an open picture both arrows stay in the gallery, each undoes the other, and they step by one around the circle |
| Comunidad.NextTimesWraps | frontend/src/pages/Comunidad.jsx:126-129 | up to a gallery's worth of right-arrow presses advance that many pictures, wrapping past the last once |
| Comunidad.FullCircle | frontend/src/pages/Comunidad.jsx:31-66 | ten right-arrow presses over the ten pictures come back to the picture opened (also lines 126-129) |
| Comunidad.Lightbox.constructor | frontend/src/pages/Comunidad.jsx:117 | no picture open |
| Comunidad.Lightbox.Open | frontend/src/pages/Comunidad.jsx:119 | clicking a thumbnail opens that picture (also line 218) |
| Comunidad.Lightbox.Close | frontend/src/pages/Comunidad.jsx:118 | no picture open |
| Comunidad.Lightbox.Prev | frontend/src/pages/Comunidad.jsx:121-124 | the previous picture opens, the last one after the first, staying in the gallery |
| Comunidad.Lightbox.Next | frontend/src/pages/Comunidad.jsx:126-129 | the next picture opens, the first one after the last, staying in the gallery |
| Comunidad.Lightbox.OnKey | frontend/src/pages/Comunidad.jsx:132-137 | nothing while closed; Escape closes, the arrow keys move, any other key changes nothing |
| Comunidad.Lightbox.Counter | frontend/src/pages/Comunidad.jsx:300 | the counter reads the position plus one (between one and the gallery size) over the gallery size |

| LoginPage.FromText | frontend/src/pages/Login.jsx:28-34 | a string origin is used as given; an object gives its path (default "/") and its query; nothing usable gives "/" |
| LoginPage.Delete | frontend/src/pages/Login.jsx:37 | every pair with the key is removed and every other pair is kept |
| LoginPage.DeleteAbsent | frontend/src/pages/Login.jsx:37 | deleting a key no pair has changes nothing |
| LoginPage.Search | frontend/src/pages/Login.jsx:38 | the query text is empty exactly when no pair is left |
| LoginPage.SafeDest | frontend/src/pages/Login.jsx:27-42 | an origin that does not parse sends the visitor home; otherwise its path and remaining query, never empty |
| LoginPage.SafeDestDropsBuy | frontend/src/pages/Login.jsx:37-38 | the destination carries no `buy` pair and keeps every other pair of the origin |
| LoginPage.Page.constructor | frontend/src/pages/Login.jsx:11-18 | no error, not loading, no navigation, no forgot-password message or request |
| LoginPage.Page.HandleSubmit | frontend/src/pages/Login.jsx:44-65 | a success stores the token under both keys, gives the context the user and leaves for `SafeDest` of where the visitor came from (never carrying `buy`), with the context's token then the new one; a failure shows the server's message, its error or the default and changes no session state |
| LoginPage.Page.HandleForgot | frontend/src/pages/Login.jsx:73-96 | a blank e-mail shows the hint, sends nothing and leaves the spinner as it was; otherwise one request, then the server's message or the default, or on failure its message, its error or the default, with the spinner off |

| UserContext.ReadToken | frontend/src/context/UserContext.jsx:8 | the "auth_token" key when set, otherwise the legacy "token" key |
| UserContext.TokenStorage | frontend/src/context/UserContext.jsx:8-17 | writing a token then reading gives it back under both keys; an empty token writes nothing; clearing leaves no token and every other key as it was, and undoes any write |
| UserContext.HeaderFor | frontend/src/context/UserContext.jsx:19-25 | a Bearer header exactly when there is a token, carrying that token |
| UserContext.HeaderReachesServer | frontend/src/context/UserContext.jsx:19-25 | the header the context installs is one the server's authentication reads the same token from |
| UserContext.Provider.constructor | frontend/src/context/UserContext.jsx:52-57 | mounting installs the stored token's header and loads the profile: no token, no user; a profile answer sets the user; a failed call forgets the token |
| UserContext.Provider.LoadProfile | frontend/src/context/UserContext.jsx:31-50 | no token means no user; a profile answer sets the user and keeps storage; a failure clears both keys and the header; loading ends; the header always matches the stored token |
| UserContext.Provider.WriteToken | frontend/src/context/UserContext.jsx:9-13 | storage becomes the written storage; nothing else changes |
| UserContext.Provider.ClearToken | frontend/src/context/UserContext.jsx:14-17 | storage loses both keys; nothing else changes |
| UserContext.Provider.Login | frontend/src/context/UserContext.jsx:59-65 | a given token is stored and installed as the header; the user is set from the fields given, without a profile call |
| UserContext.Provider.Logout | frontend/src/context/UserContext.jsx:67-71 | no token, no header, no user, and the header still matches storage |
| UserContext.LoginThenLogout | frontend/src/context/UserContext.jsx:59-71 | after a login with a token and a later logout, no token, header or user is left |

| ResetPage.SameRuleAsServer | frontend/src/pages/ResetPassword.jsx:37 | the page's password rule accepts exactly the non-empty passwords the server does not call weak |
| ResetPage.AnswerOf | frontend/src/pages/ResetPassword.jsx:43-49 | the reset route's answer is ok exactly for a done reset, with a message and no error; every refusal carries an error and no message |
| ResetPage.ErrorText | frontend/src/pages/ResetPassword.jsx:49 | the body's error, then its message, then the default; never empty |
| ResetPage.ServerWordsShown | frontend/src/pages/ResetPassword.jsx:49-51 | against the route the page shows the server's own error for each refusal and its message for the success |
| ResetPage.Page.constructor | frontend/src/pages/ResetPassword.jsx:13-18 | checking, not valid, not submitting, no messages, nothing sent or scheduled |
| ResetPage.Page.Check | frontend/src/pages/ResetPassword.jsx:20-32 | without a token the link is invalid and nothing is asked; otherwise one validate call, valid exactly when its body says ok; checking ends; the same in sinew-app-clean/src/pages/ResetPassword.jsx:22-44 |
| ResetPage.Page.Submit | frontend/src/pages/ResetPassword.jsx:34-59 | a password outside the rule shows its error and posts nothing; otherwise one post of the token and password, then the error text, or the message and a redirect to the login page after this page's delay; the same in sinew-app-clean/src/pages/ResetPassword.jsx:46-78 |
| ResetPage.OpenAgainstServer | frontend/src/pages/ResetPassword.jsx:20-32 | against the validate route the form is offered exactly when the link's digest names an active reset record |
| ResetPage.SubmitAgainstServer | frontend/src/pages/ResetPassword.jsx:34-59 | a refused password never reaches the server and changes nothing; one that does is never refused as weak or missing, and the page shows the server's error or its success message and schedules the login page |

| Ajustes.PageToken | frontend/src/pages/Ajustes.jsx:25-31 | the token the page reads is the one the session context reads, present exactly when either key holds one |
| Ajustes.ProfileBodyIsStoredForm | frontend/src/pages/Ajustes.jsx:67 | the body sent is already in the stored form: resending it sends the same body, and the server's update gives the same profile as from the raw fields |
| Ajustes.PasswordCheck | frontend/src/pages/Ajustes.jsx:84-91 | a missing or short new password first, then a mismatch with the repetition; nothing is refused otherwise |
| Ajustes.SentPasswordPassesLengthCheck | frontend/src/pages/Ajustes.jsx:84-91 | a new password the page lets through is never one the server calls missing or too short |
| Ajustes.ProfileOutcomeAsWritten | frontend/src/pages/Ajustes.jsx:70-74 | as written, every save keeps the old user and reports an error, the default one after a successful request (also line 8) |
| Ajustes.ProfileOutcome | frontend/src/pages/Ajustes.jsx:64-77 | as intended, a success gives the user the saved name and e-mail under its id and confirms; a failure keeps the user and shows the server's message or the default |
| Ajustes.ProfileSaveReportsFailure | frontend/src/pages/Ajustes.jsx:70-74 | both agree on every failed request; on every successful one the page as written reports a failure where the intended page confirms (also line 8) |
| Ajustes.ProfileSaveExample | frontend/src/pages/Ajustes.jsx:70-74 | a concrete rename that the page as written reports as failed (also line 8) |
| Ajustes.Settings.constructor | frontend/src/pages/Ajustes.jsx:9-31 | the token read once from storage, empty fields, loading, no message and no request |
| Ajustes.Settings.Load | frontend/src/pages/Ajustes.jsx:33-53 | one profile request with the page's header; an answer fills the form, a failure shows the loading error; loading ends |
| Ajustes.Settings.OnSaveProfile | frontend/src/pages/Ajustes.jsx:60-78 | the page as written: one save request with the page's header; the user and the message as `Ajustes.ProfileOutcomeAsWritten` says; the form is unchanged |
| Ajustes.Settings.OnSavePassword | frontend/src/pages/Ajustes.jsx:80-110 | a refused new password shows its error, sends nothing and leaves the saving flag as it was; otherwise one request, then the three fields cleared and a confirmation, or the server's message, its error or the default, with the flag off |

| CleanUserContext.CleanProvider.constructor | sinew-app-clean/src/context/UserContext.jsx:49-52 | mounting loads the profile: no token, no user; an answer sets the user; a failed call forgets the token |
| CleanUserContext.CleanProvider.LoadProfile | sinew-app-clean/src/context/UserContext.jsx:31-47 | no token means no user; a profile answer sets the user and keeps storage; a failure clears both keys; loading ends |
| CleanUserContext.CleanProvider.Login | sinew-app-clean/src/context/UserContext.jsx:58-61 | a given token is stored under both keys; the user is set without a profile call |
| CleanUserContext.CleanProvider.Logout | sinew-app-clean/src/context/UserContext.jsx:64-67 | no token and no user |
| CleanUserContext.SameSessionAsMain | sinew-app-clean/src/context/UserContext.jsx:31-67 | on the same storage and answers, mounting, login and logout take this context and the main one through the same storage and user: the given user after login, no user and no token after logout |


## Left out

- Provider SDKs and remote calls are inputs: the Mercado Pago preference/payment/merchant-order reads, PayPal's `execute`, the Resend and nodemailer transports, and the front ends' `fetch`/`axios` calls.
- `frontend/src/services/mercadopago.js`, both `api` clients, `Book.js`, the JWT middleware files and the router mounting files are not part of this model. Where a route sits behind `authRequired`, the authenticated user is an input, except for `capture-order`, whose `authRequired` is `PayPal.CaptureAuth`.
- Cryptography, randomness and the clock are parameters: bcrypt, sha256, `crypto.randomBytes`, `jwt.sign`/`verify` and `Date.now()`.
- The PDF invoice and the HTML e-mail templates are parameters. They are presentation only.
- The start-up `diag()` of the mailer, console logging, mongoose connection events, `flattenRoutes` and the `/__routes`, ping and test routes are left out. They are diagnostics.
- Concurrency: the Mercado Pago return/webhook race is modelled as the two calls in sequence (`MercadoPago.RecordAndGrantTwice`), not as simultaneous execution.
- Timers are left out:
  - the settings page's 3.5-second message reset;
  - the register, reset and thank-you redirects and their delays;
  - the thank-you page's interval and timeout fire as explicit events (`Gracias.Countdown.OnTick`, `Gracias.Countdown.OnTimeout`) rather than on a clock, and the 600 ms fallback counts with the click as one download;
  - the course page's 600 ms retry after `?paid=1`.
- Neither download-token schema declares a TTL index (the one in backend/DownloadToken.js is commented out), so the model never purges expired tokens; expiry is only checked on download.
- Floating-point formatting (`toFixed`, `Intl.NumberFormat`) is left out. `parseFloat` of a price is a parameter.
- `localeCompare` is a given total order on titles.
- Document ids are abstracted: a user id is a natural number (`UserId`) and books are keyed by their string id, so every id is well formed. A malformed Mongo ObjectId makes `findById` throw a CastError: in the simulated purchase a bad book id gives 500 "Error en la compra" (backend/routes/purchaseRoutes.js:81 and 140-142), where the model answers `BookNotFound` (404) through `Db.Store.FindBook` and `PurchaseSim.Buy`. The same holds for `User.findById` on a malformed id in a token's claims, which the model reads as an unknown user.
- AppConfig.DropEmpty: states which entries are kept, not that they keep their order; the origin list is only ever tested for membership.
- RegisterForm: the success message state `okMsg` (frontend/src/pages/Register.jsx:17 and 102-104) is display only and is not modelled.
- The `short` and `long` description fields of `Course.js` (lines 17-18) are not modelled; no modelled route reads or writes them.
- The store fails only as a whole, through its `online` flag. A save that fails after a successful read of the same document (Downloads.Get) therefore cannot happen in the model.
- The profile page's sort is modelled on a sequence with `Sorting.SortBy`, not on the array in place.
- Sorting.SortBy: stability is not stated. `Array.prototype.sort` keeps tied cards in their input order; the model promises a sorted permutation only, so the order among cards the comparator ties is left open (`Perfil.Load` inherits this).
- The profile page's `mounted` flag, the settings page's `mounted` guard and the reset page's `alive` guard all stop updates after unmount; they are left out.
- The page rendering, the DOM, the 3D tilt, the particles, the lightbox's `stopPropagation` and `openForgot` (which copies the e-mail into the modal) are left out.
- The course page's detail request is left out: the non-JSON or `error` body that shows "not found", and the `?buy=1` clean-up of the address bar.
- The Perfil page's 120 ms wait for a late token is left out. The model reads the token once.
- `URLSearchParams` re-encodes the pairs it writes back. `LoginPage.Query` joins them as given.
- `new URL` is a parameter everywhere it is used.
- The auth controller's `getProfile` is not part of this model. It is a plain read.
- The `PATCH /users/profile` and `PATCH /users/password` paths the settings page calls are modelled as requests only. This copy of the account routes does not mount them, and the server side of those two pages is `AuthController.UpdateProfile`/`ChangePassword`.
- Ajustes.Settings.OnSaveProfile: records the form's raw name and e-mail in its request log; the body actually sent is `Ajustes.ProfileBody` of them.
- PayPal.SimplePayload: the price is the body's JSON number; a price sent as a string is not part of this model.
- Strings are sequences of code points. JavaScript's `.length` counts UTF-16 units, so lengths differ for characters outside the Basic Multilingual Plane.
- Case mapping (`toLowerCase`/`toUpperCase`) is ASCII only.
- Text.Base64RoundTrip: the encoder is a reference definition proved to round-trip, not Node's `Buffer` itself.
- MercadoPago.Webhook: after `processApprovedPayment` has answered `ok: false` (backend/mercadoPagoRoutes.js:308), the handler's own `res.json` (line 324 for a payment, line 349 after a merchant order's loop) and the outer catch's `res.json` (line 356) throw because the reply is already sent, and the rejection leaves the async route. The model reports this as the `escapes` output; what follows it is not modelled, because it depends on the Express and Node versions: under Express 4 the rejection is unhandled, and Node 15 or later then ends the process, dropping every other request in flight.
- The sinew-app-clean Comunidad page is presentation only and is not modelled. The lightbox is the main front end's.

## Findings

| source | as written | input that shows it | evidently intended | confidence | as-written member | corrected member |
|---|---|---|---|---|---|---|
| frontend/src/pages/Ajustes.jsx:70 | the page calls `setUser` from the session context (line 8), which does not provide one; the call throws after a successful save, the `catch` finds no response and the page reports "No se pudo actualizar el perfil." with the user unchanged | any profile save the server accepts, e.g. renaming "Ana" to "Ana María" | update the session user with the saved name and e-mail and confirm the save | not executed | Ajustes.ProfileOutcomeAsWritten | Ajustes.ProfileOutcome |
| sinew-app-clean/src/pages/CursoDetalle.jsx:37-56 | the page takes `token` from the second front end's session context, which exposes none, so the lessons request never carries an `Authorization` header | a signed-in buyer of a paid course opens its page: the route answers 401 and the paywall shows | send the stored token, as the main front end's context exposes it | not executed | CursoDetalle.BuyerSeesPaywallAsWritten | CursoDetalle.BuyerSeesLessons |
| frontend/src/components/BuyButtons.jsx:87-89 | `onApprove` posts `capture-order` with only a `Content-Type` header, while the route puts `authRequired` in front of the capture (backend/routes/paypalRoutes.js:41), which answers 401 `UNAUTHORIZED` to a request without a Bearer token | any approval of a PayPal payment from a product card: the capture is refused and the buyer sees "Ocurrió un problema al confirmar el pago en PayPal." | send the session's token as `Authorization: Bearer …`, as the checkout page does | not executed | BuyButtons.CaptureRefusedAsWritten | BuyButtons.CaptureAcceptedWithBearer |
| frontend/src/pages/Gracias.jsx:45-72 | the effect lists `autoStarted` among its dependencies and sets it itself, so the re-render re-runs the effect: the cleanup (line 71) clears the interval and the three-second timeout, and the new run returns at line 46 | any visit to `/gracias?download=<token>`: the count stays at 3 and the automatic download never starts | keep the timers of the first run, e.g. with `[downloadUrl]` as the dependencies | not executed | Gracias.AsWrittenRun | Gracias.CorrectedRun |
