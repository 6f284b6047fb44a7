# Single sign-on service: a verified model

The service keeps accounts, per-project access, OAuth credentials, signing keys and a change log in PostgreSQL.
This project models its repository and use cases in Dafny and proves what whole runs of it keep.

## How the model is built

| layer | files | what it is |
|---|---|---|
| rows and statements | Schema, Repository, Import | the tables as one value; one function per repository transaction |
| the object | Postgres, Flows, LegacyImport, Server, Operation | a class with one field per table; methods carry out the source's statements in place, with loops and rollbacks, and are proved against the functions |
| the run machine | Service, Burns | requests, starts, answers, clock, fresh random values; a run is a sequence of them; lost event ids do not matter |
| the change log | ChangeLog, Transactions, Bootstrap, History, Replica, Consumer, Replacing, LostOldId, Paging, AccountWide | log refines table, replica convergence, paging, account-wide events |
| credentials | Credentials, Revocation, Accounts | families, codes, sessions, epochs, logins, passwords, import |
| row by row | OneAccount, OneSeat, OneCredential, Clients, Lifetimes | what every request makes of one account, seat, credential or client, told from the request and its answer and not from the repository functions; what ends a credential |
| answers | SignIn, Issuing, Disabled, Profiles, Onboarding, Administration | in every reachable state, which logins, password changes, codes, tokens, profile changes, registrations and administration requests are accepted, and what they leave behind |
| time | Cleanup, Sweeping, Keys, Limiter | clean-up as a simulation and row by row, key rotation, fixed windows |
| interleavings | Cursors, Publisher, DeliveryChannels, Keys | transactions step by step: locks, sequences, sends, crashes |
| codecs and order | Order, Text, Password, Uuid, Roles | string order, PHC strings, UUIDv7, role lists |
| beginnings | Genesis | the invariants hold of the migrated database and of every state reached from it; what a restart can do |

`Operation.ServeAll` connects the two: requests served by the object are a run of the machine, admissible exactly when
the requests are, so the theorems about runs apply to the object; `Operation.Operate` and `Operation.ServeEpoch` are two
of them said of the object. `Genesis.EveryReachableState` shows that their hypotheses hold in every reachable state.

## Assumptions

- The database clock never goes back and counts microseconds. The Go process has a clock of its own in `RotateRefresh`
  (`hostNow`); the clean-up theorem needs it at most a day behind. Keys and the limiter read one clock.
- `RandomToken` never repeats, and a token stands for its SHA-256 hash.
- Outside Cursors, Publisher and Keys each repository call is one step; a whole `Exchange` or `Refresh` is one step,
  while the second statement of a login (the bcrypt upgrade) is a step of its own. Anomalies of read-committed
  statements are not modelled.
- Account and project ids are not empty, and a configured administrator has a real address in lower case.
- A query by address that may answer several rows and is read once answers the one with the least id; in reachable
  states there is one at most. The preflight of the import may read any.
- Argon2 and bcrypt are parameters; a stored password is modelled by the password it was made from, its salt and its kind.
- Length limits count characters. `Lower` folds ASCII letters.

## What the proofs found

- **A restart can contradict the log.** `EnsureBootstrap` inserts `project_access` without an event. A start is a
  request of the machine and keeps every invariant, but the log explains it exactly when it gives no new seat
  (`Bootstrap.BootstrapIsExplained`, `History.HandleKeeps`); it does not, for instance, on the start after the
  administrator's access was revoked (`Genesis.RestartAfterRevoke`). The theorems on the log and the replica are about
  runs whose starts give no new seat; all others hold with starts anywhere.
- **Key publication counts from the beginning of the rotating transaction.** `now()` is the time the transaction began,
  and it may wait for the advisory lock. No token is stranded if and only if the delay between reading the key and
  stamping the token, together with the duration of the rotation, is at most five minutes
  (`Keys.NoTokenIsStranded`, `Keys.LongRotationStrands`). A delay of five minutes alone is too much.
- **The limiter's bound is 2L - 1.** A window's first try is admitted at its opening, so two windows cannot fill an
  interval of their length completely. A window of one instant admits L. Both are reached for every limit
  (`Limiter.FixedWindowBound`, `Limiter.TheBoundIsMet`).
- **A consumer that replaces rows loses `old_id`.** Payloads of `profile.updated` lack `old_id`, while the integration
  guide speaks of applying the full payload. The merging consumer converges exactly; the replacing one has everything
  else, and has `old_id` exactly for the users whose last write was a page or a full payload
  (`Replacing.ReplacingConverges`, `LostOldId.UpdateLosesOldId`).
- **The hash parser is laxer than the printer.** It takes any first field, a version without `v=`, with a sign or with
  leading zeros, blanks and leading zeros before the costs, text after them, line ends in base64 and set unused bits,
  and the decodable strings that are printed are exactly those with none of these (`Password.PrintedIsCanonical`,
  `Password.LaxStringsDecodeAlike`).

## Model

| member | source | states |
|---|---|---|
| Consumer.Convergence | docs/integration.ru.md:95-102 | A consumer that stores snapshot pages read at different times with the first page's cursor and then drains `Changes`, merging payloads, holds exactly the snapshot query's user map, `old_id` included, as soon as a poll answers fewer than 200 events, whatever requests (but starts that give an unlogged seat), failures, repeated deliveries and new loads come in between |
| Replacing.ReplacingConverges | docs/integration.ru.md:102 | The consumer that replaces rows by the payload has the same users, profiles and roles, and has exactly the user map if and only if no listed user with an `old_id` had a payload without one as the last thing written |
| LostOldId.UpdateLosesOldId | docs/integration.ru.md:102 | The runs in which it loses one: a user is imported, the page is read, the profile changes |
| Consumer.LogRefinesTable | internal/repository/postgres/events.go:14-72 | After any run whose starts give no new seat, a project's view is its earlier view with the project's new events applied in order; the log only grows |
| History.RunKeeps | internal/repository/postgres/events.go:12-39 | Over any run whose starts give no new seat, for every project and user at once, the appended events explain the change of the listed row, ids ascend and `old_id` never changes |
| History.RunStands | internal/repository/postgres/admin.go:116-150 | Over any run, starts included, a seat always has an active, verified account behind it |
| History.HandleKeeps | internal/repository/postgres/events.go:12-39 | Each request keeps that standing, and the log explains what it does to the user lists if and only if it is not a start that gives a new seat |
| Replica.ReplayAgain | docs/integration.ru.md:102 | A row that later events bring to where a stretch of the log leads is brought there by the whole stretch as well: receiving events again does no harm |
| Replica.ReplayTwice | docs/integration.ru.md:95 | Replaying a stretch of the log over the row it led to leads to the same row: reading a page late does no harm |
| AccountWide.DisableTellsEveryProject | internal/repository/postgres/admin.go:139-147 | Disabling logs exactly one `access.revoked` for each project of the account and nothing else |
| AccountWide.PasswordTellsEveryProject | internal/repository/postgres/identity.go:152-161 | A new password logs exactly one `sessions.revoked` for each project of the account and nothing else |
| AccountWide.ProfileTellsEveryProject | internal/repository/postgres/identity.go:221-230 | A profile change logs exactly one `profile.updated` for each project of the account and nothing else |
| AccountWide.LegacyProfileTellsEveryProject | internal/repository/postgres/management.go:23-35 | The legacy profile change logs the calling project and the rest, each once; without a seat in the calling project it is refused |
| AccountWide.GrantTellsNewFromChanged | internal/repository/postgres/admin.go:170-190 | A grant logs one event, `access.granted` exactly when the user was not listed before, with the row listed afterwards |
| Bootstrap.BootstrapIsExplained | internal/repository/postgres/clients.go:8-25 | A start keeps the directory sound; the log explains what it did to the user lists if and only if no administrator is configured or the bootstrap gives no new seat |
| Genesis.RestartAfterRevoke | internal/repository/postgres/clients.go:23-24 | The concrete failure: revoke the administrator's access and restart; the seat is back, the last event says revoked |
| Genesis.FirstStartIsSound | internal/repository/postgres/clients.go:8-25 | After the first start every invariant holds |
| Genesis.EveryReachableState | internal/app/app.go:34-61 | Every state that any run reaches from the migrated database, with starts and restarts anywhere, satisfies all invariants that the theorems about runs and answers ask for |
| Genesis.WholeLogIsView | internal/repository/postgres/events.go:12-39 | From the first start on, as long as no later start gives a new seat, each view is the first one with the whole log applied |
| Paging.PagesAreExact | internal/repository/postgres/events.go:101-131 | On an unchanging database, following `NextAfterUser` terminates and lists every user of the project once, in id order |
| Paging.SnapshotIsStep | internal/repository/postgres/events.go:101-131 | Each `Snapshot` answer is one step of that walk; the 201st row decides whether there is a next page |
| Paging.ChangesAreExact | internal/repository/postgres/events.go:134-154 | Pages of `Changes` concatenate to a prefix of the pending events with a cursor that never goes back, and to all of them after enough polls |
| Cursors.NothingBelowIsCommittedLater | internal/repository/postgres/events.go:34-38 | With transactions interleaved under the advisory lock, once a maximum id is visible no event with an id up to it is ever committed later |
| Cursors.PollingIsExact | internal/repository/postgres/events.go:34-38 | Polling `id > after` around commits and aborts delivers every committed event of the project once, in commit order, nothing passed over |
| Cursors.WithoutTheLockEventsAreMissed | internal/repository/postgres/events.go:34-38 | Without the lock a run exists in which a committed event is missed for good |
| Cleanup.CleanUpIsUnobservable | internal/repository/postgres/maintenance.go:29-45 | Take the clean-up statements out of any run: the run stays possible, gives the same answers (a refused refresh may be refused for another reason), and ends in the same tables but for rows past their clean-up time |
| Cleanup.PassIsRun | internal/repository/postgres/maintenance.go:29-45 | A whole clean-up pass is a run of its eight statements, so the theorem above covers it |
| Credentials.RunOk | internal/repository/postgres/oauth.go:24-87 | Over any run: at most one live token a family, tokens bound to the grant and end of their family, live tokens have a seat, a code is used exactly when it was consumed |
| Revocation.FamiliesHold | internal/repository/postgres/oauth.go:46-87 | In every reachable state members of a family share account, client, project, scopes and an end seven days after its beginning, one at most is live, and behind a live one stand a seat and a verified, active account |
| Revocation.RotationIsEntitled | internal/service/oauth.go:142-159 | A rotation that succeeds is never turned down by the account and access checks of `issue` |
| Revocation.ReuseIsFinal | internal/repository/postgres/oauth.go:63-71 | After reuse is detected no token of the family is accepted for the rest of the run |
| Revocation.FamiliesTraceToCodes | internal/repository/postgres/oauth.go:24-39 | Over any run no code is consumed twice, each family comes from a consumed code with its account, client and scopes, and two families from two codes |
| Revocation.ExchangeSpendsExactly | internal/repository/postgres/oauth.go:24-39 | An exchange uses up the code exactly when it is unused and unexpired and client, redirect and challenge match; otherwise nothing changes |
| Revocation.CodesBuyWhatWasAuthorized | internal/service/oauth.go:86-121 | Whatever happens in between, a code is exchanged only by its client and redirect, with the verifier of its challenge, within two minutes, for the user and scopes that were authorized |
| Revocation.NoLifetimeIsExtended | internal/repository/postgres/oauth.go:72-81 | However often a family is rotated, no refresh is accepted seven days after it began |
| Revocation.EpochIsFinal | internal/repository/postgres/identity.go:137-162 | After a password change, a reset or a disablement no session, refresh token, code or reset link held before is ever accepted again, even after re-activation |
| Revocation.DeadForever | internal/repository/postgres/identity.go:137-162 | A credential that is used up, revoked, expired or deleted stays so for the rest of any run |
| Accounts.LastPasswordCounts | internal/repository/postgres/identity.go:97-100 | In every reachable state a login succeeds only with the last password set, wherever delayed bcrypt upgrades fall |
| Accounts.UpgradeIsInvisible | internal/service/identity.go:112-119 | Finishing an upgrade at any time after its login changes no account's password |
| Accounts.LoginIsUnambiguous | internal/repository/postgres/identity.go:72 | In every reachable state an identifier matches one account at most |
| Accounts.ImportSucceeds | cmd/import_octopus_users/main.go:100-153 | When the preflight can find no conflict, the import breaks no constraint, commits, and every user of the file is imported |
| Accounts.SecondImportIsNothing | cmd/import_octopus_users/main.go:107-114 | Importing the same users again changes nothing |
| OneAccount.AccountStep | internal/repository/postgres/identity.go:17-235 | Told without the repository functions, for all requests and starts: an account is changed by the requests that name it, its address or a ticket of its own, in the field they ask for, and by nothing else; a refused request changes none; accounts appear by registration, import and start alone |
| OneSeat.SeatStep | internal/repository/postgres/admin.go:116-214 | The same for seats: the roles of every user in every project become what grant, approval, change of roles, revocation, disablement, admin grant or start asks for, and nothing else touches them |
| OneCredential.CredentialStep | internal/repository/postgres/oauth.go:19-87 | The same for sessions, codes, refresh tokens and reset links: which request makes one, for whom and until when, which uses it up, revokes or removes it |
| Lifetimes.LastsExactly | internal/repository/postgres/identity.go:137-162 | Over any run a stored credential keeps its row exactly until its time is over or something ends it: a new password, reset or disablement of the holder, a logout, the one exchange of a code, a refresh in the family, the loss of the seat |
| SignIn.LoginAnswers | internal/service/identity.go:88-122 | In every reachable state a login answers an account if and only if it is the one of that address or login, verified and not disabled, and the attempt is the last password set; then the one change is its session of seven days |
| SignIn.SessionsLastExactly | internal/repository/postgres/identity.go:65-95 | Whatever is served after a login, its session is accepted if and only if seven days are not over and there was no logout and no end of the epoch in between |
| SignIn.ChangeAnswers | internal/repository/postgres/identity.go:183-207 | In every reachable state a password change is accepted if and only if the attempt is the last password set, the account is not disabled and the new password is acceptable; it changes that password, ends that account's credentials and logs; any other leaves the tables as they were |
| SignIn.ResetAnswers | internal/repository/postgres/identity.go:164-181 | A reset is accepted if and only if its link is stored, unused and in time; then the password of the link's account is the new one; any other leaves the tables as they were |
| SignIn.LinksLastExactly | internal/service/identity.go:154-180 | A reset link works for twenty minutes, until the epoch of its account ends, whatever is served in between |
| Issuing.AuthorizeAnswers | internal/service/oauth.go:35-88 | A code is given out if and only if the request is well formed for known scopes, the redirect is registered for the client, and the client's project lists the user, who stands well; it is for that user, client, redirect, challenge and scopes, and good for two minutes |
| Issuing.ExchangeAnswers | internal/service/oauth.go:106-122 | In every reachable state tokens are answered exactly for a code that its own client redeems in time for its redirect and challenge while the project lists the user; they name the user and scopes authorized and the roles of the seat; a failed exchange changes nothing but the use of the code |
| Issuing.ExchangedRoles | internal/service/oauth.go:142-183 | An accepted exchange: the user stands well, has the seat in the client's project, and the roles are those of the seat |
| Issuing.RefreshAnswers | internal/repository/postgres/oauth.go:46-82 | In every reachable state a refresh is accepted exactly for the client's own live token within seven days of the family's beginning; its successor has the same grant and end; a dead token of the client's own takes the family with it; any other presentation changes nothing |
| Issuing.OthersChangeNothing | internal/repository/postgres/oauth.go:60-62 | In all tables whatever, a token presented by another client or for another project is answered as unknown and leaves the tables as they were, also when it is used or revoked |
| Issuing.RefreshedRoles | internal/service/oauth.go:124-183 | An accepted refresh: client, account and scopes are those of the family's beginning, the user stands well and has the seat, and the roles are those of the seat |
| Issuing.CodesLastExactly | internal/service/oauth.go:86-121 | Whatever is served in between, a code is redeemed if and only if its client, redirect and challenge are presented within two minutes, it was not redeemed before and the user's epoch did not end |
| Issuing.TokensLastExactly | internal/repository/postgres/oauth.go:46-87 | Whatever is served in between, a live refresh token is accepted from its client if and only if the family's time is not over and nothing ended it: the converse of `Revocation` |
| Disabled.DisabledIsOut | internal/repository/postgres/admin.go:116-155 | After a disablement, through any run in which nobody activates the account and no start promotes its address: it stays disabled, no login, session, exchange or refresh answers for it, it has no session, reset link, live token or seat, and no project lists it |
| Profiles.UpdateAnswers | internal/repository/postgres/identity.go:209-235 | A profile change is accepted if and only if the account is active and the trimmed fields and the login are acceptable and free; then every field is the trimmed one asked for, the address is the old one, no other account changes, and each project shows exactly that profile |
| Profiles.LegacyAnswers | internal/repository/postgres/management.go:9-37 | The legacy change, field by field: accepted exactly with a seat in the calling project |
| Profiles.ProfileIsShown | internal/repository/postgres/events.go:89-132 | Whatever is served after a profile change, other than another one for that account, whoever lists the user shows that profile |
| Onboarding.RegisterAnswers | internal/service/identity.go:37-66 | A registration is accepted exactly when form, address, login and id are acceptable and new; then the new account has each field of the form, is unverified and pending, with one link of one hour |
| Onboarding.LinksLastExactly | internal/repository/postgres/identity.go:43-57 | Whatever is served after a registration, its link verifies the account if and only if the hour is not over and it was not followed before |
| Onboarding.ImportAnswers | cmd/import_octopus_users/main.go:100-153 | A successful import leaves the accounts already there alone and stores each new user of the file field by field, with a seat exactly when approved; a failed one changes nothing |
| Onboarding.AdministratorIsInserted | internal/repository/postgres/clients.go:20-24 | An account that a start inserts is the configured administrator, active, verified, global, and with the role `admin` |
| Administration.AdminAnswers | internal/repository/postgres/admin.go:97-214 | In every reachable state, exactly which activations, disablements, grants, revocations, approvals and admin grants are accepted; a refused one changes nothing |
| Administration.RolesAreStored | internal/repository/postgres/management.go:58-102 | A grant, an approval or a change of roles stores exactly the roles asked for in exactly the seat asked for, the project lists the user with them and the old profile, and the one event of the right kind carries them |
| Administration.SeatsAreCommanded | internal/repository/postgres/admin.go:157-214 | Over any run, a user's roles in a project are those last commanded by the requests that were accepted |
| Administration.TokensSayWhatWasCommanded | internal/service/oauth.go:142-183 | The roles in the tokens of an exchange or refresh are those last commanded for the user in the client's project |
| Administration.RevocationTakesOneSeat | internal/repository/postgres/admin.go:194-214 | One seat goes, the user's tokens for that project are revoked and no others, one event is logged |
| Administration.AskingAnswers | internal/service/identity.go:137-152 | Who may ask for access; one request a user and project, waiting again when decided before; others stay |
| Administration.RequestsAreSettled | internal/repository/postgres/management.go:58-79 | A grant settles the user's requests for the project, an approval the one it names, and nothing else does |
| Clients.ClientAnswers | internal/service/operator.go:49-57 | A client is registered exactly when id, project, secret and redirects are acceptable and the id is new, as asked for |
| Clients.ClientStep | internal/repository/postgres/clients.go:8-40 | A client appears by a registration or by the first start configured with it, as asked for; nothing else touches clients |
| Clients.ClientsLast | internal/repository/postgres/clients.go:8-40 | Over any run a client keeps the project, secret and redirects it was registered with |
| Sweeping.PassSweepsExactly | internal/repository/postgres/maintenance.go:29-45 | A clean-up pass removes exactly the rows past their time from each of the eight tables and changes nothing else |
| Sweeping.RoundRecords | internal/repository/postgres/outbox.go:17-44 | A round records the send of one of the oldest unpublished rows, published exactly when acknowledged |
| Keys.RetiredKeysAreAcceptedExactly | internal/repository/postgres/keys.go:17-60 | Whatever follows a rotation, the retired key is published exactly until ten minutes after the rotation began, and its token accepted exactly until the earlier of that and its five minutes in whole seconds |
| Keys.NoTokenIsStranded | internal/repository/postgres/keys.go:8-24 | With rotations and clean-ups interleaved, a token is accepted until it expires, provided reading lag and rotation time together stay within five minutes |
| Keys.LongRotationStrands | internal/repository/postgres/keys.go:17-20 | When they do not, a run exists in which an unexpired token has lost its key: the bound is exact |
| Keys.BeforeIsReached | internal/repository/postgres/keys.go:8-24 | That run is reached from a store with one active key |
| Keys.OneActiveKey | internal/token/keys.go:78-87 | However many rotations and `Ensure` calls overlap, there is exactly one active key from the first commit on |
| Limiter.FixedWindowBound | internal/service/limits.go:12-18 | Over any run with other keys and clean-ups, a call is admitted exactly when it is among the first L of its window, and an interval of the window's length admits at most 2L - 1 calls (L when the window is one instant) |
| Limiter.WindowAdmits | internal/repository/postgres/maintenance.go:8-16 | A window admits exactly the smaller of L and its number of tries |
| Limiter.WindowsAreApart | internal/repository/postgres/maintenance.go:11-13 | Two windows open more than the window's length apart, and a try lies within its window |
| Limiter.TheBoundIsMet | internal/service/limits.go:12-18 | For every limit and every window that is not empty, a run meets that bound |
| Publisher.AtLeastOnce | internal/repository/postgres/outbox.go:17-44 | With publishers, failures, crashes, clean-ups and the whole service interleaved: a row is published or gone only after an acknowledgement, has one holder, is acknowledged at most once more than rounds were spoiled, and is the twin of its event |
| DeliveryChannels.HandleGrows | internal/repository/postgres/events.go:31-38 | Whatever a request does, new outbox rows and new events are the same (id, project, kind, payload) records, and new rows are unsent and dated now |
| Password.HashRoundTrip | internal/security/password.go:38-133 | `decodeHash` of the printed string gives back parameters, salt and digest, for all values in range, and the string is never taken for bcrypt |
| Password.VerifyOfHash | internal/security/password.go:63-82 | A password verifies against its own hash; another exactly when Argon2 gives it the same key |
| Password.Base64RoundTrip | internal/security/password.go:49-50 | Unpadded base64 decodes to what was encoded, for all byte strings |
| Password.PrintedIsCanonical | internal/security/password.go:96-133 | A string that decodes is the printed string of what it decodes to if and only if its text is canonical: empty first field, `v=19`, decimals without blanks or leading zeros and nothing after them, no line ends, unused bits zero |
| Password.LaxStringsDecodeAlike | internal/security/password.go:96-133 | Other strings for every hash, one for each way in which the parser is laxer, that decode to the same; unused bits exist when the salt leaves one byte over, as sixteen bytes do |
| Password.LaxStringsAreOthers | internal/security/password.go:96-133 | None of them is the printed string |
| Uuid.NewUUIDv7 | internal/security/uuidv7.go:9-23 | The loop and the masks produce the layout the lemmas below are about |
| Uuid.ShapeIsRight | internal/security/uuidv7.go:19-22 | Length, hyphens, version and variant digits |
| Uuid.TimeIsRecovered | internal/security/uuidv7.go:14-18 | The time is read back from the string, up to 48 bits |
| Uuid.LaterIsGreater | internal/security/uuidv7.go:14-22 | A later millisecond gives a greater string, whatever the random bits |
| Roles.ParseRoles | internal/service/admin.go:33-51 | Succeeds exactly when the trimmed parts pass the check on lists, and answers them |
| Roles.ValidateRoleSlice | internal/service/management.go:144-156 | One to ten distinct names of the role pattern |
| Roles.RolesRoundTrip | internal/repository/postgres/admin.go:61 | A list that passes the check is read back from its text joined with a comma and any blanks |
| LegacyImport.ReadUsers | cmd/import_octopus_users/main.go:158-181 | Accepts exactly the files whose normalized records are well formed with distinct addresses |
| LegacyImport.Preflight | cmd/import_octopus_users/main.go:66-88 | The counting loop; of several matching rows any may be read |
| LegacyImport.TallyMeans | cmd/import_octopus_users/main.go:66-88 | Whichever rows the queries read: each user is counted once in each breakdown, and no conflicts means each user is new or imported |
| LegacyImport.InsertUser | cmd/import_octopus_users/main.go:107-149 | One record: account, then seat and event when it is active |
| LegacyImport.Apply | cmd/import_octopus_users/main.go:100-153 | The loop in one transaction; the first failure rolls everything back |
| LegacyImport.Tool | cmd/import_octopus_users/main.go:41-156 | A dry run or a failed run changes nothing; an applied run had no conflicts; exactly when it fails |
| Server.Serve | internal/app/app.go:34-88 | Each request that the services and workers put to the one database object has the effect and the answer of a step of the run machine; this covers the small methods that have no row of their own |
| Burns.BurnsAreInvisible | internal/repository/postgres/events.go:37 | Ids used up by rolled-back transactions: a run is admissible if and only if it is without those losses, gives the same answers, and ends in the same tables up to ids |
| Operation.ServeAll | internal/app/app.go:34-88 | Any requests on the object, with time passing, are a run of the machine, admissible exactly when the requests are, with the replies and up to ids the tables of those requests alone |
| Operation.Operate | internal/app/app.go:34-88 | From a new object, through starts, restarts and requests: its tables satisfy every invariant |
| Operation.ServeEpoch | internal/repository/postgres/identity.go:137-162 | The object refuses a credential held before a password change, reset or disablement, whatever it served in between |
| Postgres.Database.QueueEvent | internal/repository/postgres/events.go:14-39 | One record in both channels, or nothing; a `profile.updated` carries the roles of the seat |
| Postgres.Database.Snapshot | internal/repository/postgres/events.go:89-132 | The page the pure query describes, rows in id order, 200 at most |
| Postgres.Database.Changes | internal/repository/postgres/events.go:134-154 | The first 200 pending events and the cursor after them |
| Postgres.Database.DisableAccount | internal/repository/postgres/admin.go:116-155 | Whole effect of the seven statements in order; a failing event rolls all back; what the effect is for, `Disabled.DisabledIsOut` says |
| Postgres.Database.GrantAccess | internal/repository/postgres/admin.go:157-192 | Whole effect, with the kind decided by the earlier seat; rolled back on error |
| Postgres.Database.RevokeAccess | internal/repository/postgres/admin.go:194-214 | Whole effect; also of `RevokeProjectAccess` |
| Postgres.Database.CreatePendingAccount | internal/repository/postgres/identity.go:17-30 | Whole effect; unique columns checked; rolled back on error |
| Postgres.Database.VerifyEmail | internal/repository/postgres/identity.go:43-57 | Whole effect, and no change on error |
| Postgres.Database.WithLogin | internal/repository/postgres/identity.go:65-84 | Session only after password, verification and status; no change on error |
| Postgres.Database.UpgradePasswordHash | internal/repository/postgres/identity.go:97-100 | Compare and swap on the stored hash |
| Postgres.Database.RevokePasswordSessions | internal/repository/postgres/identity.go:137-162 | Password, four revocations, one event per project |
| Postgres.Database.ResetPassword | internal/repository/postgres/identity.go:164-181 | Whole effect; rolled back on error |
| Postgres.Database.ChangePassword | internal/repository/postgres/identity.go:183-207 | Whole effect, after the current password verified; rolled back on error; `SignIn.ChangeAnswers` says when and what |
| Postgres.Database.UpdateProfile | internal/repository/postgres/identity.go:211-235 | Whole effect; rolled back on error; `Profiles.UpdateAnswers` says it field by field |
| Postgres.Database.UpdateLegacyProfile | internal/repository/postgres/management.go:9-37 | Whole effect, calling project first; rolled back on error |
| Postgres.Database.ApproveRequest | internal/repository/postgres/management.go:58-79 | Whole effect; rolled back on error |
| Postgres.Database.SetProjectRoles | internal/repository/postgres/management.go:81-102 | Whole effect; rolled back on error |
| Postgres.Database.EnsureBootstrap | internal/repository/postgres/clients.go:8-25 | Four statements that commit one by one, and the error exactly when the administrator cannot be inserted |
| Postgres.Database.RegisterClient | internal/repository/postgres/clients.go:27-40 | Project and client, or neither |
| Postgres.Database.GrantProjectAdmin | internal/repository/postgres/clients.go:42-64 | `admin` added to the seat's roles; rolled back on error |
| Postgres.Database.ConsumeAuthorizationCode | internal/repository/postgres/oauth.go:24-39 | Marked used and rolled back on a mismatch |
| Postgres.Database.RotateRefresh | internal/repository/postgres/oauth.go:46-82 | Successor or family revocation, and the answer for each; `Issuing.RefreshAnswers` says which, from the token's history |
| Postgres.Database.IncrementAttempt | internal/repository/postgres/maintenance.go:8-16 | The upsert and the count it returns |
| Postgres.Database.CleanupExpired | internal/repository/postgres/maintenance.go:29-45 | The loop does the eight statements in order |
| Postgres.Database.RotateSigningKey | internal/repository/postgres/keys.go:8-24 | Active keys retired as of the transaction's beginning, one inserted, or nothing |
| Postgres.Database.ActiveSigningKey | internal/repository/postgres/keys.go:26-31 | The newest active key; none only when no key is active |
| Postgres.Database.PublishNext | internal/repository/postgres/outbox.go:17-44 | One of the oldest unpublished rows is sent and recorded; none only when none waits |
| Flows.Authorize | internal/service/oauth.go:35-88 | A code only after the checks on type, scope, state, nonce, challenge, client, redirect and account, in order |
| Flows.Exchange | internal/service/oauth.go:106-122 | Consume, check, issue; what stays done on each failure; what the tokens say is in `Issuing.ExchangeAnswers` |
| Flows.Refresh | internal/service/oauth.go:124-140 | Rotate, check, issue; what the tokens say is in `Issuing.RefreshAnswers` |
| Flows.Login | internal/service/identity.go:88-122 | The login transaction, and the upgrade it leaves exactly for a bcrypt hash |
| Flows.Register | internal/service/identity.go:37-66 | Normalization, limits, then the transaction |
| Flows.ResendVerification | internal/service/identity.go:68-79 | A new ticket for the unverified account of an address; an unknown one is answered alike |
| Flows.ForgotPassword | internal/service/identity.go:154-167 | A reset ticket for a verified account that is not disabled; the caller learns nothing |
| Flows.UpdateProfile | internal/service/identity.go:199-206 | Normalization, limits, then the transaction |
| Flows.Allow | internal/service/limits.go:12-18 | Counts the call and compares with the limit; an error denies |
| Flows.Sign | internal/token/keys.go:95-116 | Active key and time claims in whole seconds |
| Flows.Verify | internal/token/keys.go:117-173 | Published key, expiry, not-before |

## Left out

- Postgres.Database.PublishNext: the send is an outcome, acknowledged or not; `last_error` is not kept.
- Flows.Sign: the signature, the issuer and the other claims.
- Flows.Verify: decoding, the signature, issuer, audience and type; key choice, expiry and not-before are modelled.
- Flows.Register: `mail.ParseAddress` is represented by a necessary condition, an `@` in the address; mail is not sent.
- Flows.RegisterClient: `ValidateRedirects`.
- Flows.Refresh: of the tokens issued, account, roles and scopes are kept; the other claims are not. The same goes for
  `Exchange`.
- Flows.Exchange: the verifier's pattern; the challenge presented is an input, standing for its S256 transform.
- LegacyImport.ReadUsers: `bcrypt.Cost`; a record's hash is a legacy hash or not. `created_at` is not kept.
- Publisher.AtLeastOnce: holds from a database whose two channels are empty.
- Server.Serve: rounds of a publisher are not among the requests; Publisher models them beside the whole service.
- Operation.ServeAll: the same.
- `audit_events`: written beside events and never read by modelled code.
- `used_at`, `revoked_at`, `email_verified_at`, `retired_at`: booleans, since their values are never read.
- The random id of an outbox row: the row is named by the id of the event written with it.
- HTTP and gRPC handlers, cookies, CSRF, Fosite, redirects, metrics and pages.
- Sending mail, the Kafka client, and the connection pool.
- RSA, SHA-256, JSON and PEM.
- `Migrate`, configuration, start-up and shutdown, except what the bootstrap of a start writes.
- `AdminView` listings, `UserProjects`, `PendingRequests`, `OutboxMetrics` and `Userinfo`: reports that change nothing.
- `Management` guards on the caller: the model allows every call they allow, and more.
