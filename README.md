# NGO platform: a Dafny model of its donation, moderation and registration core

The platform lets organisations apply to be listed, lets administrators
approve, reject or restore their applications, and lets donors pay a listed
organisation through a card gateway. This project models that core as
Dafny code and proves what it promises.

- **The store.** The six tables (pending, verified and rejected
  organisations; payments with their success and failure specialisations)
  are maps from row id to record. A `Tables` value is a snapshot of all
  six; the class `Database.Db` holds them as fields.
- **What the database enforces.** The modelled backend is SQLite, the
  store the development and testing configurations name
  (`config.py:31-47`). That is an assumption: production takes its
  database URL from the environment, and may be PostgreSQL. SQLite enforces
  NOT NULL, UNIQUE and primary keys, and gives a new row the id one past
  the largest (1 in an empty table). It does not enforce `VARCHAR` widths
  or foreign keys, since foreign-key checking is never switched on. The
  model checks exactly the constraints SQLite enforces.
- **Routes.** Every route that changes the store is a function from the old
  snapshot (and its inputs) to a `Step`: the new snapshot and what the route
  answers. A method on `Db` performs the route in place and is proved to
  leave the database in exactly that `Step`'s snapshot. A commit either
  assigns all of a route's writes or none of them.
- **What the model cannot see.** The payment gateway, the signed
  registration token, the document store and every point where an
  exception can occur are inputs:
  - the gateway's answer: a session, or an error;
  - a map from token to the e-mail it was issued for;
  - the path a saved file got, if any;
  - booleans such as `commitFails` and `notifyFails` for a commit or a
    notification e-mail that raises.
- **Money** is in whole cents.

Modules:

- `Common`: optional values, Python truthiness, `strip()` (over Python's
  Unicode whitespace), and ASCII
  case-folding substring search (SQL `ILIKE '%t%'`).
- `Ordering`: `ORDER BY` as a sorted permutation, `LIMIT`, and the
  row-id order of a table scan.
- `Payments`, `SuccessfulPayments`, `FailedPayments`, `VerifiedNgos`,
  `TempNgos`, `RejectedNgos`: the table records, their defaults, and their
  inserts as the database checks them.
- `Database`: the snapshot, the invariant `Valid`, row-id allocation and
  the `Db` class.
- `Forms`: the validator chains of the four forms.
- `Donations`, `Admin`, `Registration`, `Search`, `Home`: the routes.

Where what the code evidently intends and what it does disagree, the model
follows the code, except for settlement:

- Settling a payment, as written, cannot succeed (see Findings). Only
  `Donations.FinalizeAsWritten` and `Donations.AsWrittenLeavesPaymentPending`
  model that code. Every other settlement member models the intended
  settlement, as the code's own writes at `backend/routes/donations.py`
  lines 41-49 and 64-65 describe it: a settled payment gains one success or
  failure record, its status changes and a success credits its
  organisation. The mapped classes as
  declared cannot produce that state by any choice of constructor keywords
  (see Findings). Their rows below say "intended settlement".
- A failure after the success writes are staged issues no rollback, because
  the in-memory status is already SUCCESS. The writes are simply never
  committed.
- A notification that fails after a successful commit makes the route
  return nothing, although the payment is settled.
- An invalid token and an expired one are not told apart.

## Model

| member | source | states |
|---|---|---|
| Common.ContainsIgnoringCase | backend/routes/search.py:31-34 | `s ILIKE '%t%'` holds exactly when lower-cased `t` occurs at some position of lower-cased `s` |
| Payments.NewPayment | backend/models/payments.py:9-23 | a new payment has currency "USD", status PENDING unless given, no donor account and no gateway session, and keeps the given organisation, donor, amount and discriminator |
| Payments.SessionLookup | backend/routes/donations.py:24 | the lookup by gateway session finds a payment carrying that session id, finds nothing exactly when no payment carries it, and finds the lowest such id |
| Payments.SessionLookupUnique | backend/models/payments.py:18 | under the UNIQUE session-id constraint the lookup finds the one payment carrying the id |
| Payments.SessionLookupKept | backend/routes/donations.py:24 | changing payments without touching their ids or session ids leaves every lookup unchanged |
| Payments.SessionsKept | backend/models/payments.py:18 | changing payments without touching their ids or session ids keeps the session ids unique |
| SuccessfulPayments.Insert | backend/models/successful_payments.py:8-11 | a success record is accepted exactly when it has a charge id, its payment has no record yet and no record has that charge id; it adds exactly that record and keeps charge ids unique |
| SuccessfulPayments.IdentityMatchesKind | backend/models/successful_payments.py:13-15 | the specialisation's polymorphic identity is "success", the discriminator that settlement writes |
| FailedPayments.Insert | backend/models/failed_payments.py:8-11 | a failure record is accepted exactly when its payment has none yet, and adds exactly that record |
| FailedPayments.IdentityMatchesKind | backend/models/failed_payments.py:13-15 | the specialisation's polymorphic identity is "failure" |
| VerifiedNgos.NewVerified | backend/models/verified_ngos.py:8-20 | a new verified organisation is active, has a zero total, is stamped with the approval time and keeps the given fields |
| VerifiedNgos.Insert | backend/models/verified_ngos.py:8-10 | an insert is refused exactly when a row has the same name or e-mail; otherwise it adds exactly that row and keeps names and e-mails unique |
| VerifiedNgos.Credit | backend/routes/donations.py:46-49 | crediting raises the organisation's total by exactly the amount when it exists and changes no other row and no name or e-mail |
| VerifiedNgos.ActiveRows | backend/routes/search.py:16 | the active rows are exactly the table's rows whose flag is set |
| TempNgos.Insert | backend/models/temp_ngos.py:14-15 | a pending insert under a fresh id is always accepted, even with an e-mail already pending; the row is then found by e-mail |
| Database.NextRowId | backend/models/payments.py:7 | a new integer primary key is fresh, larger than every id in use, one past the largest, and 1 in an empty table |
| Database.Db.constructor | seed.py:16 | a new database has six empty tables and satisfies the store invariant |
| Forms.DotlessRejected | backend/services/forms.py:45-53 | a chosen file whose name has no dot is refused whatever the allowed extensions, since the lower-cased name must end with "." and an extension |
| Forms.UpperCaseAccepted | backend/services/forms.py:50-53 | the name is lower-cased before the test, so any `stem.PDF` is an allowed financial report |
| Forms.EmailFormValid | backend/services/forms.py:18-23 | an accepted e-mail is present, not blank, at most 120 characters, and passed the syntax and CSRF checks |
| Forms.NgoFormValid | backend/services/forms.py:27-53 | an accepted application has a name of at most 128 characters and a mission of 50 to 1000 when given, a type among the choice values, a registration document whose lower-cased name ends in ".pdf", ".jpg" or ".png", and a financial report whose lower-cased name ends in ".pdf"; blank means only Unicode whitespace, as `str.strip()` sees it |
| Forms.DonationFormValid | backend/services/forms.py:72-88 | an accepted donation has an amount of at least 1.00, an e-mail of 1 to 120 characters and, when given, a name of at most 100 |
| Forms.SearchFormValid | backend/services/forms.py:65-69 | an accepted search has a term of at most 100 characters, a location of at most 50 and a blank or listed category |
| Forms.AmountCentsTruncates | backend/routes/donations.py:105 | an accepted amount becomes at least 100 cents; when the product with 100 has at most 28 significant digits it is truncated to whole cents, never rounded up |
| Forms.RoundHalfEvenNearest | backend/routes/donations.py:105 | dropping digits from the product rounds to the nearest multiple, a tie going to the even one, so the result is the truncation or one more |
| Forms.CentsAtLeastHundred | backend/routes/donations.py:105 | a product of at least 100 stays at least 100 cents after rounding to 28 digits and truncation |
| Forms.UnroundedTruncates | backend/routes/donations.py:105 | a product of at most 28 digits is truncated toward zero to whole cents |
| Forms.RoundedBeforeTruncation | backend/routes/donations.py:105 | 1.2399999999999999999999999999 becomes 124 cents, not 123: the product is rounded to 28 digits before `int()` truncates |
| Forms.CategoryAccepted | backend/services/forms.py:67 | the search form accepts a category exactly when it is blank or one of the organisation types' values; the extra '' choice admits nothing more |
| Search.ByNameIsTotalPreorder | backend/routes/search.py:44 | ordering by name under the binary collation is a total preorder |
| Search.DefaultList | backend/routes/search.py:16-18 | the default list holds 12 active organisations, or all of them when there are fewer, none twice, newest approval first, and any active organisation left out is outranked by all 12 |
| Search.NewestTwelve | backend/routes/search.py:16-18 | the first 12 of a list sorted newest first number 12 or all, repeat nothing the list does not, keep its order and outrank every row they leave out |
| Search.Found | backend/routes/search.py:24-42 | the rows a search finds are exactly the active rows every applied filter lets through, each once |
| Search.Index | backend/routes/search.py:9-51 | results are always active and never repeated; a valid POST applying a filter gives a permutation of the matching active rows ordered by name; otherwise the default list |
| Search.WhitespaceTermShowsDefault | backend/routes/search.py:28-29 | a term of Unicode whitespace alone (no-break space, ideographic space) applies no filter, so without a category the default list is shown |
| Home.Index | backend/routes/home.py:9-22 | every active organisation, largest total first, as a permutation of the active rows; on a query error an empty list and "Failed to load NGOs." |
| Admin.Guard | backend/routes/admin.py:77-81 | an anonymous caller is sent to log in and a non-administrator is refused; only an administrator goes on |
| Admin.Approved | backend/routes/admin.py:88-98 | the verified row copies the application's name, type, mission and e-mail, has no phone or location, and is active with a zero total |
| Admin.Rejected | backend/routes/admin.py:133-142 | the rejected row copies the application's fields and document paths and records the administrator and the fixed reason |
| Admin.Restored | backend/routes/admin.py:210-218 | the restored application copies the rejected row's fields and paths with a fresh submission time and no website |
| Admin.Approve | backend/routes/admin.py:76-121 | the application moves exactly when an administrator approves an existing one whose name and e-mail are both new and the commit succeeds; a name or e-mail collision, a missing id, a refusal or a failure changes nothing; a move deletes the application and adds its verified row under a fresh id |
| Admin.Reject | backend/routes/admin.py:123-155 | the application moves exactly when an administrator rejects an existing one and the commit succeeds; otherwise nothing changes; a move deletes it and adds the rejected row |
| Admin.Restore | backend/routes/admin.py:200-231 | a rejected application moves back exactly when an administrator restores an existing one and the commit succeeds; otherwise nothing changes |
| Admin.ApproveConserves | backend/routes/admin.py:100-102 | an approval neither creates nor loses an application across the three organisation tables |
| Admin.RejectConserves | backend/routes/admin.py:144-146 | a rejection neither creates nor loses an application |
| Admin.RestoreConserves | backend/routes/admin.py:220-222 | a restoration neither creates nor loses an application |
| Admin.ApproveOnce | backend/routes/admin.py:83-102 | once approved, the same id is not found and nothing changes |
| Admin.RejectThenRestore | backend/routes/admin.py:133-222 | rejecting then restoring gives back the application with only its website and submission time changed, and leaves the other tables as they were |
| Admin.ApproveNgo | backend/routes/admin.py:76-121 | the database ends in exactly the state `Approve` gives and reports its outcome |
| Admin.RejectNgo | backend/routes/admin.py:123-155 | the database ends in exactly the state `Reject` gives |
| Admin.RestoreNgo | backend/routes/admin.py:200-231 | the database ends in exactly the state `Restore` gives |
| Admin.PendingList | backend/routes/admin.py:58-73 | an administrator sees every application exactly once, oldest submission first; others are redirected |
| Admin.VerifiedList | backend/routes/admin.py:158-173 | an administrator sees every verified organisation, newest approval first |
| Admin.RejectedList | backend/routes/admin.py:182-197 | an administrator sees every rejected application, newest rejection first |
| Admin.AfterScheme | backend/routes/admin.py:31 | the scheme is removed exactly when the text before the first ':' is non-empty, starts with a letter and holds only letters, digits, '+', '-' or '.'; the rest then follows that ':', and otherwise the whole address is kept |
| Admin.Authority | backend/routes/admin.py:31 | once any scheme is removed, the text `urlparse` takes as the network location is non-empty exactly when the rest starts with "//" and a non-delimiter; it is then the longest run after "//" holding no '/', '?' or '#' |
| Admin.Netloc | backend/routes/admin.py:31 | parsing raises exactly when that text holds '[' without ']' or ']' without '['; otherwise the network location is that text |
| Admin.LoginRedirect | backend/routes/admin.py:28-34 | the login follows `next` exactly when it is present, non-empty, parses and names no host; it ends in an error response exactly when `next` is present, non-empty and parsing raises; otherwise it goes to the dashboard |
| Admin.UnclosedBracketFails | backend/routes/admin.py:28-31 | `next=//[x` makes parsing raise after `login_user` has run, and nothing catches it, so the request ends in an error response |
| Admin.ProtocolRelativeRejected | backend/routes/admin.py:31 | a `//host...` target is never followed, and without brackets in the host the login goes to the dashboard |
| Admin.AbsoluteUrlRejected | backend/routes/admin.py:31 | an `https://host...` target is never followed, and without brackets in the host the login goes to the dashboard |
| Registration.Register | backend/routes/registration.py:15-44 | an invalid form is shown again; an e-mail with a pending application gets no link; otherwise the link goes to exactly that e-mail, or its sending failure is reported without raising |
| Registration.TokenEmail | backend/routes/registration.py:49-54 | a token gives an e-mail exactly when it is valid and bound to a non-empty e-mail |
| Registration.SavedPath | backend/routes/registration.py:72-79 | a document path exists only when a file was chosen, and is then what saving returned |
| Registration.DocumentPath | backend/routes/registration.py:82 | the stored document path is the saved path, or "N/A (File Optional)" when there is none; never empty |
| Registration.Website | backend/routes/registration.py:85-86 | an empty website is stored as none, a non-empty one as given |
| Registration.NewApplication | backend/routes/registration.py:88-96 | the application row carries the token's e-mail and the form's name, type and mission; it fails the NOT NULL check exactly when one of those three is missing |
| Registration.NgoForm | backend/routes/registration.py:47-125 | an invalid token and an e-mail already pending file nothing; with a usable token, a GET or an invalid form shows the form, a missing name, type or mission fails the NOT NULL check, a failing commit reports a save failure, and otherwise the application is filed; a filed application is stored under a fresh id with the token's e-mail, whatever the form carried; anything but filing leaves the store unchanged |
| Registration.FilingKeepsOnePerEmail | backend/routes/registration.py:56-58 | filing never puts two pending applications under one e-mail |
| Registration.LinkFilesOnce | backend/routes/registration.py:56-58 | after a link has filed an application, every later use of it answers "already pending" and changes nothing |
| Registration.SubmitApplication | backend/routes/registration.py:47-125 | the database ends in exactly the state `NgoForm` gives |
| Donations.ClientSession.constructor | backend/routes/donations.py:128-131 | a new browser session holds no donation data |
| Donations.Donate | backend/routes/donations.py:95-123 | a missing or inactive organisation is refused; a valid form proceeds with the organisation, the donor's details and the amount in cents as `int(amount * 100)` gives it: at least 100, and the truncated value whenever the product has at most 28 digits |
| Donations.DonateNgo | backend/routes/donations.py:95-116 | a valid form stores the donation in the browser session; otherwise the session is untouched |
| Donations.Initiated | backend/routes/donations.py:136-145 | the first payment row is PENDING_INITIATION with the base discriminator, no session, the chosen amount and the donor's details |
| Donations.Checkout | backend/routes/donations.py:126-192 | no donation data or a gateway error changes nothing; the donor goes to the gateway exactly when the gateway answers, the commit succeeds and the session id is new, and the payment is then stored PENDING under a fresh id with that session id |
| Donations.CheckoutKeepsValid | backend/routes/donations.py:136-171 | checkout keeps the store invariant |
| Donations.AddPaymentKeepsValid | backend/models/payments.py:18 | a new unsettled payment with a fresh id and session id keeps the store invariant |
| Donations.CreateCheckoutSession | backend/routes/donations.py:126-192 | the database ends in exactly the state `Checkout` gives, and the donation data is cleared only when the donor goes to the gateway |
| Donations.SettleSuccess | backend/routes/donations.py:33-51 | intended settlement: the success writes are accepted exactly when the charge id is present and new and the payment has no record; they mark the payment SUCCESS, add its record and credit its organisation |
| Donations.SettleFailure | backend/routes/donations.py:57-68 | intended settlement: the failure writes are accepted exactly when the payment has no failure record; they mark it FAILED, add the fixed message and leave every total alone |
| Donations.Finalize | backend/routes/donations.py:15-92 | intended settlement: an unknown session or a gateway error returns nothing and changes nothing; a terminal payment is returned unchanged; otherwise the writes are committed or nothing changes, the payment is returned only after a commit and a sent notification, and a rollback is issued only in the failure branch |
| Donations.SuccessSettles | backend/routes/donations.py:33-51 | intended settlement: a committed success makes exactly that payment SUCCESS, adds exactly one success record, and raises its organisation's total by exactly the payment's amount |
| Donations.FailureSettles | backend/routes/donations.py:57-68 | intended settlement: a committed failure makes exactly that payment FAILED with one failure record holding the fixed message, and changes no total |
| Donations.MarkedSuccessConsistent | backend/routes/donations.py:41-44 | intended settlement: marking an unsettled payment SUCCESS together with its record keeps records and statuses consistent |
| Donations.MarkedFailureConsistent | backend/routes/donations.py:64-67 | intended settlement: marking an unsettled payment FAILED together with its record keeps records and statuses consistent |
| Donations.SettleSuccessKeepsValid | backend/routes/donations.py:33-51 | intended settlement: the success writes keep the store invariant |
| Donations.SettleFailureKeepsValid | backend/routes/donations.py:57-68 | intended settlement: the failure writes keep the store invariant |
| Donations.FinalizeKeepsValid | backend/routes/donations.py:15-92 | intended settlement: settling keeps the store invariant |
| Donations.CommitSuccess | backend/routes/donations.py:33-51 | intended settlement: the database takes the success writes exactly when they are accepted and the commit succeeds |
| Donations.CommitFailure | backend/routes/donations.py:57-68 | intended settlement: the database takes the failure writes exactly when they are accepted and the commit succeeds |
| Donations.FinalizePayment | backend/routes/donations.py:15-92 | intended settlement: the database ends in exactly the state `Finalize` gives, with its return value and rollback |
| Donations.SettlesOnce | backend/routes/donations.py:30-31 | intended settlement: after a commit, any later settlement of the same session changes nothing, so the organisation is credited once |
| Donations.CommitMarksSettled | backend/routes/donations.py:43-67 | intended settlement: after a commit the session finds the same payment, now SUCCESS or FAILED |
| Donations.StagedMarksSettled | backend/routes/donations.py:43-67 | intended settlement: the staged writes change only the settled payment among the payments |
| Donations.CheckoutThenSettleable | backend/routes/donations.py:169-171 | after checkout the gateway's session id finds the new PENDING payment, ready to settle |
| Donations.PaymentSuccess | backend/routes/donations.py:195-210 | intended settlement: no session id is ambiguous and changes nothing; otherwise a receipt is shown exactly when settlement returns a payment that is SUCCESS, for that payment, which carries the session |
| Donations.PaymentFailed | backend/routes/donations.py:213-224 | intended settlement: no session id is ambiguous; otherwise the failure page shows whatever settlement returned |
| Donations.CancelAfterSuccessKeepsSuccess | backend/routes/donations.py:213-224 | intended settlement: reaching the cancel address after a success shows the failure page but keeps the payment SUCCESS with no failure record |
| Donations.FinalizeAsWritten | backend/routes/donations.py:34-90 | as written, settlement never changes the store, and a settleable payment returns nothing after a rollback |
| Donations.ExampleSettles | backend/routes/donations.py:33-51 | intended settlement: the example's success settles payment 1 and credits 500 cents |
| Donations.AsWrittenLeavesPaymentPending | backend/routes/donations.py:34-40 | as written, the same settleable payment stays PENDING and uncredited |

## Left out

- The card gateway's SDK: creating and retrieving a checkout session are
  inputs. The contents of the creation request are not modelled: line
  items, return addresses and metadata.
- Logging, including the extra message for an authentication error from
  the gateway.
- Signing and expiry of registration tokens: a map from token to e-mail.
- Saving uploaded documents, which is file-system I/O with random names:
  an optional path. A document saved before a failed commit is not removed
  from disk.
- The e-mail thread. Only a notification that raises while the message is
  built is modelled; delivery failures inside the thread are invisible to
  the routes.
- Flask routing, `flash` messages and templates. The browser session is
  modelled only through `donation_data`.
- Routes outside the core:
  - login's credential check (`backend/models/users.py` is not part of this
    model);
  - `logout`, `dashboard` and `manage_verified_ngo`;
  - `confirmation`.
- Floating-point amounts and totals: every amount is whole cents. A
  checkout stores `cents / 100` as a float; the model keeps the cents.
- E-mail syntax (`Email()`) and the CSRF token: their verdicts are inputs.
- Non-finite or non-numeric decimal input is folded into "no amount".
- `%` and `_` inside a search term or category are taken literally, not as
  SQL wildcards.
- Case folding is ASCII only, as in SQLite.
- `urlparse` is simplified:
  - the whitespace and control-character stripping it performs is not
    modelled;
  - the scheme is any letter followed by letters, digits, '+', '-' or '.'
    before the first ':';
  - the network location is the text after "//" up to '/', '?' or '#';
  - Admin.Netloc and Admin.LoginRedirect: of the `ValueError`s `urlsplit`
    raises, only the unbalanced bracket is modelled. Two others are not,
    and for them the model goes to the dashboard where the source ends in
    an error response. Newer Python versions reject a bracketed host that
    is not an IP literal, such as `//[x]`. They also reject a non-ASCII
    network location whose NFKC form gains '/', '?', '#', '@' or ':'. Both
    depend on the Python version, IP-address parsing and Unicode
    normalisation.
- Concurrency and transaction isolation, e.g. two administrators moving the
  same application, or two returns from the gateway at once.
- Column widths and foreign keys, which SQLite does not enforce here.
- A PostgreSQL backend, which production may use instead. It would change:
  - `VARCHAR` widths are enforced, so a pending name of 101 to 128
    characters fails approval (`String(128)` pending, `String(100)`
    verified);
  - new ids come from sequences, not from one past the largest id;
  - a unique violation's text does not contain "UNIQUE constraint failed",
    so `Admin.Approve` would report it as a generic failure, not as a
    name or e-mail collision.
- Timestamps are natural numbers supplied by the caller.
- The decimal context's exponent limits: an amount whose exponent would make
  `amount * 100` overflow the default context is not modelled; only its
  28-digit precision and half-even rounding are.
- Donations.Finalize: models the intended settlement, as the code's own
  writes describe it, which the mapped classes as declared cannot produce; the code as written is
  `Donations.FinalizeAsWritten` (see Findings). The same holds for the
  members built on it, such as `FinalizePayment`, `PaymentSuccess` and
  `PaymentFailed`.
- Payments.SessionLookup: `first()` without `ORDER BY` is modelled as the
  lowest matching id (SQLite's row-id scan order). Under the UNIQUE
  constraint there is only one match anyway.

## Findings

| source | as written | input that shows it | evidently intended | confidence | as-written member | corrected member |
|---|---|---|---|---|---|---|
| backend/routes/donations.py:34-40, 58-63 | `SuccessfulPayment(...)` and `FailedPayment(...)` are given the keywords `payment`, `confirmed_at` and `failed_at`, which neither mapped class declares. The declarative constructor raises `TypeError`, the generic handler at lines 86-90 rolls back and returns `None`, and no pending payment is ever settled. Passing only declared keywords would not help: with joined-table inheritance each constructor inserts a new `payments` row whose required `ngo_id`, `donor_email` and `amount` (backend/models/payments.py:10-15) are unset, and reusing the payment's id collides with its existing row | payment 1 PENDING with session "cs_1" and 500 cents for organisation 1 (total 0); the success return with payment intent "pi_1" leaves it PENDING with total 0 and returns nothing | the payment becomes SUCCESS with a success record, its organisation's total rises by 500, and the payment is returned | high, not executed | Donations.AsWrittenLeavesPaymentPending | Donations.ExampleSettles |
