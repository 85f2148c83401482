# Story journal: a verified model of its server and client logic

Story is a personal journal web application. The server keeps entries, their
tags and "body maps" in Postgres through Drizzle, and signs users in with
one-time passcodes (OTPs) sent by mail. The browser client has:

- a sign-in page with sign-up, log-in and verify modes;
- a form to write new entries;
- a card per entry that can be edited in place or deleted;
- a tag panel that counts tags;
- a search box whose text and selected tag form the query key.

This project models that logic in Dafny and proves properties of the model.
Each module follows one source file:

| module | file | form |
|---|---|---|
| `OtpAuth` | `server/auth.ts` | each route is a step function from a state and the request's inputs to a new state and a reply; class `AuthServer` runs the same routes as in-place updates of its tables |
| `Schema` | `db/schema.ts` | one datatype per row, with the key, unique and foreign-key constraints as predicates |
| `EntryStore` | `server/routes.ts` | class `Store` holds the four tables and their serial counters; each route is a method; tag resolution, relinking and search are specification functions with lemmas |
| `MailConfig` | `server/utils/email.ts` | the missing-variable list, the transport choice, `parseInt` of the port, and the sender, subject and text of a code mail |
| `AuthPage` | `client/src/pages/auth.tsx` | a page state, an event type and a `Step` function; class `Page` has one method per handler |
| `TagText` | `client/src/components/entry-card.tsx`, `entry-editor.tsx` | `join(", ")`, `split(",")`, ECMAScript `trim`, the parse, and its round trip |
| `ClientTypes` | `client/src/lib/types.ts` | the entry shape the client receives |
| `EntryCard` | `client/src/components/entry-card.tsx` | class `Card` with the form's state cells |
| `EntryEditor` | `client/src/components/entry-editor.tsx` | class `Editor` with the form's state cells |
| `Timeline` | `client/src/components/timeline-view.tsx` | the nested counting loops as methods, proved against `Count` and `Dedup` |
| `Home` | `client/src/pages/home.tsx` | the query-key template and the two setters |

`Base` (options, results, filtering) and `Ordering` (`ORDER BY … DESC` as a sort
into non-increasing order) are shared helpers.

Several values come into the model as parameters:

- the clock: `now`, in milliseconds;
- the random draw behind a code: `r`, with the range `randomInt` can return;
- whether sending the mail succeeded: `sendOk`;
- the bcrypt hash of the password: `hash`;
- whether destroying the session failed: `destroyFails`;
- the Ethereal test account;
- the transport's `sendMail`: `deliver`;
- whether the user confirmed a delete: `confirmed`.

Some of the code's behaviour is easy to misread; the model follows the code:

- Codes are six decimal digits, and they are compared by exact string
  equality on the server. Nothing on the server folds case; only the client
  upper-cases what is typed.
- A code is accepted up to and including its expiry instant
  (`isBefore(expiresAt, now)` rejects only a strictly earlier expiry).
- Only the first otp row of a user is examined. The `type` of the row is
  never checked.
- A failed mail send answers 500 and keeps every write the request made. No
  write is rolled back.

The model also fixes decisions the code leaves to its libraries:

- A field absent from the JSON body is `None`.
  - On create, an absent `title` or `content` is a NOT NULL violation, and the
    transaction rolls back.
  - On update, Drizzle leaves the column of an absent field unchanged.
- Two new tag names that are equal in one request make the multi-row insert
  violate the unique name constraint, and the transaction rolls back.
- The entry id drawn by a create is used up even when the transaction rolls
  back, because Postgres sequences are not transactional.
- Search treats `LIKE '%q%'` as a literal, case-sensitive substring test.

## Model

| member | source | states |
|---|---|---|
| OtpAuth.GenerateOtp | server/auth.ts:22-24 | for a draw in [100000, 999998] the code is exactly six decimal digits, does not start with 0, and denotes the draw |
| OtpAuth.DigitChar | server/auth.ts:23 | the digit character of `d < 10` is in '0'..'9' and denotes `d` |
| OtpAuth.DecimalRoundTrip | server/auth.ts:23 | `toString` of a natural gives only digits, and reading them back gives the number |
| OtpAuth.DecimalLength | server/auth.ts:23 | a number in [10^k, 10^(k+1)) renders as k+1 characters with no leading 0 |
| OtpAuth.RequireAuthRejects | server/auth.ts:47-51 | the guard refuses exactly an absent or zero (falsy) `session.userId` |
| OtpAuth.RequireAuth | server/auth.ts:47-51 | the guard: `session.userId` is truthy, so a bound non-zero id passes (partner: RequireAuthRejects) |
| OtpAuth.OtpAccepts | server/auth.ts:126-130 | the test of both verify routes: the user's first otp row exists, holds exactly the code and has not expired; it rests on the first row alone (partners: OnlyFirstRowExamined, ExpiryIsInclusive) |
| OtpAuth.UserByEmail | server/auth.ts:66-68 | the `findFirst` by email of the signup request, and the same lookup at lines 118-120, 164-166 and 204-206: the first user with the email (partners: Base.FirstIndex, SignupVerifySucceeds, LoginRequestRejects) |
| OtpAuth.UserById | server/auth.ts:250-252 | the `findFirst` by id behind `/me` (partners: MeStep, MeReturnsSessionUser) |
| OtpAuth.FirstOtpOf | server/auth.ts:126-128 | the `findFirst` of the user's otp row at lines 126-128 and 213-215, taken as the first row in table order (partners: OnlyFirstRowExamined, MatchingSecondRowRefused) |
| OtpAuth.ReissueOtps | server/auth.ts:79-83 | the update that rewrites every otp row of an existing user to the new code, expiry and type "signup" (partner: SignupRequestReusesUser) |
| OtpAuth.DropOtps | server/auth.ts:141-142 | the delete of the user's otp rows, also at lines 221-222 (partners: SignupVerifyEffects, LoginVerifyEffects, SecondSignupVerifyFails) |
| OtpAuth.MarkVerified | server/auth.ts:135-139 | the update that stores the hash and sets `isVerified` on the user with the id (partner: SignupVerifyEffects) |
| OtpAuth.SendReply | server/auth.ts:97-105 | 200 "OTP sent successfully" after a successful send, 500 "Failed to send OTP" when it throws, also at lines 183-191 (partners: SignupSendFailureKeepsWrites, LoginSendFailureKeepsWrites) |
| OtpAuth.Enrolled | server/auth.ts:84-95 | the insert of the new user with the next id and of its one "signup" otp row (partners: SignupRequestNewUser, EnrolledValid) |
| OtpAuth.EnrolledValid | server/auth.ts:84-95 | enrolling an email no user has keeps ids and emails unique and every otp row owned by an existing user |
| OtpAuth.EnrolledLookups | server/auth.ts:84-95 | after enrolling an email no user has, the lookup by email finds the new user and its first otp row is the one just inserted |
| OtpAuth.SignupRequestStep | server/auth.ts:57-106 | the session is kept; a 400 changes nothing; any other reply is the send reply; users are only appended, at most one, and otp rows are never removed |
| OtpAuth.SignupVerifyStep | server/auth.ts:109-152 | the reply is 200, or 400 with nothing changed; no user is added or removed and no otp row is added; a 200 binds the session to a user whose first row accepts the code |
| OtpAuth.LoginRequestStep | server/auth.ts:155-192 | users, session and serial are kept; it answers 400 exactly when it changes nothing; otherwise the send reply, with at most one otp row appended behind the old ones |
| OtpAuth.LoginVerifyStep | server/auth.ts:195-235 | users and serial are kept; the reply is 200, or 400 with nothing changed; a 200 carries the user whose first row accepts the code and binds the session to it |
| OtpAuth.LogoutStep | server/auth.ts:238-245 | only the session can change; a 200 clears it; otherwise nothing changes and the reply is 500 |
| OtpAuth.InitialStateValid | server/auth.ts:55 | the empty tables with an anonymous session satisfy the users/otps invariant |
| OtpAuth.SignupRequestRejects | server/auth.ts:61-72 | an empty email answers 400 "Email is required" and a verified email answers 400 "Email already registered"; in both cases the state is unchanged |
| OtpAuth.SignupRequestReusesUser | server/auth.ts:79-83 | for a known unverified user: no user is added; every otp row of that user, and no other row, gets the new code, an expiry ten minutes from now and type signup |
| OtpAuth.SignupRequestNewUser | server/auth.ts:84-96 | for a new email: exactly one unverified user with the next id and no hash is appended, and exactly one signup otp row for it, expiring ten minutes from now |
| OtpAuth.SignupSendFailureKeepsWrites | server/auth.ts:98-105 | a failed send leaves the same state as a successful one; the reply becomes 500 "Failed to send OTP" exactly where the successful reply would be 200 |
| OtpAuth.SignupRequestWithoutRows | server/auth.ts:79-83 | an unverified user with no otp rows gets 200 "OTP sent successfully", the state is unchanged, and no code then verifies |
| OtpAuth.SignupVerifySucceeds | server/auth.ts:113-132 | signup verify answers 200 iff email, otp and password are non-empty, the email has a user, and that user's first otp row holds exactly the code and has not expired; otherwise it answers 400 and changes nothing |
| OtpAuth.ExpiryIsInclusive | server/auth.ts:130 | a row is accepted at its expiry instant and refused one millisecond later |
| OtpAuth.OnlyFirstRowExamined | server/auth.ts:126-130 | once a user has an otp row, rows appended after it, whatever they hold, do not change whether a code is accepted |
| OtpAuth.MatchingSecondRowRefused | server/auth.ts:126-130 | a matching second row does not help when the user's first row holds another code |
| OtpAuth.VerifyIgnoresLaterRows | server/auth.ts:126-130 | for a user with an otp row, appending rows changes neither verify route's reply |
| OtpAuth.FirstOtpIgnoresKind | server/auth.ts:126-128 | the first row of a user is found whatever its `type` |
| OtpAuth.VerifyIgnoresKind | server/auth.ts:213-217 | changing the `type` of every otp row changes neither verify route's reply |
| OtpAuth.SignupVerifyEffects | server/auth.ts:134-147 | a successful signup verify marks that user verified with the hash, leaves the other users alone, removes exactly that user's otp rows (same multiset as the filter) and binds the session to the user |
| OtpAuth.SecondSignupVerifyFails | server/auth.ts:141-142 | after a successful signup verify the same code fails with 400 "Invalid or expired OTP", on both verify routes |
| OtpAuth.LoginRequestRejects | server/auth.ts:163-170 | for a non-empty email, the reply is 400 "Invalid email" with nothing changed iff no verified user has that email (unknown and unverified are not told apart) |
| OtpAuth.LoginRequestAppends | server/auth.ts:172-187 | a successful login request appends exactly one login otp row expiring ten minutes from now and keeps every earlier row |
| OtpAuth.LoginSendFailureKeepsWrites | server/auth.ts:184-191 | a failed send leaves the same state as a successful one; the reply becomes 500 "Failed to send OTP" exactly where it would be 200 |
| OtpAuth.LoginVerifySucceeds | server/auth.ts:199-219 | login verify answers 200 iff email and otp are non-empty, the email has a user, and that user's first otp row holds exactly the code and has not expired; otherwise 400 with nothing changed |
| OtpAuth.LoginVerifyEffects | server/auth.ts:221-230 | a successful login verify leaves the users unchanged, drops that user's otp rows, binds the session, and returns the user's id and email |
| OtpAuth.SecondLoginVerifyFails | server/auth.ts:221-222 | the code of a successful login verify fails the second time with 400 "Invalid or expired OTP" |
| OtpAuth.LogoutThenMe | server/auth.ts:238-245 | logout clears the session, after which `me` answers 401; a failed destroy answers 500 "Failed to logout" and changes nothing |
| OtpAuth.MeStep | server/auth.ts:248-263 | `me` never changes the state; it answers 401 exactly when the guard refuses, otherwise 200 or 404; a 200 carries the id the session is bound to |
| OtpAuth.MeReturnsSessionUser | server/auth.ts:248-258 | with a bound session whose user exists, `me` answers 200 with that user's id |
| OtpAuth.SignupRequestValid | server/auth.ts:57-106 | the signup request keeps user ids and emails unique and every otp row owned by an existing user |
| OtpAuth.SignupVerifyValid | server/auth.ts:109-152 | signup verify keeps that invariant |
| OtpAuth.LoginRequestValid | server/auth.ts:155-192 | login request keeps that invariant |
| OtpAuth.LoginVerifyValid | server/auth.ts:195-235 | login verify keeps that invariant |
| OtpAuth.SignupThenVerify | server/auth.ts:57-152 | enrolling a new email and verifying within ten minutes with the mailed code answers "Signup completed successfully", creates the verified user with the hash, and binds the session to it |
| OtpAuth.ReenrolReplacesCode | server/auth.ts:79-83 | after a second signup request with a different draw, the first code is refused |
| OtpAuth.OtherDrawRefused | server/auth.ts:79-83 | once a signup request has rewritten an unverified user's rows with a new draw, the code of any other draw is refused |
| OtpAuth.LoginVerifyAdmitsUnverified | server/auth.ts:204-225 | as written, the pending signup code of a user who never completed signup logs that user in |
| OtpAuth.LoginVerifyIntendedOnlyVerified | server/auth.ts:168 | the corrected login verify lets in only verified users, and agrees with the written route for them |
| OtpAuth.LoginVerifyIntended | server/auth.ts:195-235 | the corrected login verify keeps users and serial, and answers 200 or 400 with nothing changed |
| OtpAuth.LockedOutAfterExpiredCode | server/auth.ts:177-219 | as written, a verified user whose first otp row has expired gets 400 for the freshly mailed code after a login request, and the first row stays first, so every later attempt fails the same way |
| OtpAuth.LoginRequestIntendedStep | server/auth.ts:155-192 | the corrected login request keeps users, session and serial; a 400 changes nothing; otherwise the send reply, with the new code last |
| OtpAuth.LoginRequestIntendedThenVerify | server/auth.ts:155-235 | with the corrected request a verified user who verifies with the mailed code within ten minutes gets 200 and is bound to the session, whatever rows were there before |
| OtpAuth.AuthServer.constructor | server/auth.ts:55 | the server starts from the empty state |
| OtpAuth.AuthServer.SignupRequest | server/auth.ts:57-106 | the in-place tables and the reply equal the signup request step, and the invariant is kept |
| OtpAuth.AuthServer.SignupVerify | server/auth.ts:109-152 | the in-place tables, session and reply equal the signup verify step, and the invariant is kept |
| OtpAuth.AuthServer.LoginRequest | server/auth.ts:155-192 | the in-place tables and reply equal the login request step, and the invariant is kept |
| OtpAuth.AuthServer.LoginVerify | server/auth.ts:195-235 | the in-place tables, session and reply equal the login verify step, and the invariant is kept |
| OtpAuth.AuthServer.Logout | server/auth.ts:238-245 | the session and reply equal the logout step |
| OtpAuth.AuthServer.Me | server/auth.ts:248-263 | 401 iff the session is falsy; 404 iff it is bound to no existing user; a 200 carries the id and email of the session's user |
| Base.FirstIndex | server/auth.ts:118-120 | `findFirst`: the first row satisfying the condition, or none iff no row does |
| Base.Filter | server/routes.ts:137-138 | a `WHERE` keeps exactly the rows that satisfy it, in table order |
| Ordering.SortDesc | server/routes.ts:13 | `ORDER BY date DESC` gives a non-increasing order that is a permutation of its input |
| EntryStore.ResolveTagsFails | server/routes.ts:57-65 | tag resolution fails, with a unique violation, exactly when a missing name is requested twice |
| EntryStore.ResolveTags | server/routes.ts:52-65 | the tag work: fetch the named rows, insert the missing names, link what was found and inserted (partners: ResolveTagsFails, ResolvedTagTable, ResolvedNames, LinkedTagNames) |
| EntryStore.ExistingTags | server/routes.ts:53-55 | the `findMany` of the tag rows whose name is requested, in table order, also at lines 104-106 (partners: ResolvedNames, LinkedTagNames) |
| EntryStore.MissingNames | server/routes.ts:57-58 | the requested names with no existing row, a repeated name kept twice, also at lines 108-109 (partners: ResolveTagsFails, ResolvedNames) |
| EntryStore.NewTagRows | server/routes.ts:61-63 | the rows the multi-row tag insert returns, with consecutive serial ids, also at lines 112-114 (partners: NewTagRowsFacts, ResolvedTagTable) |
| EntryStore.NewTagRowsFacts | server/routes.ts:61-63 | inserted tag rows carry requested names that were not in the table, ids from the next serial on, and are pairwise distinct |
| EntryStore.ResolvedTagTable | server/routes.ts:52-65 | after resolution the old rows are a prefix, the serial only grows, the ids and names stay unique, and the added rows have new names |
| EntryStore.ResolvedTagKeys | db/schema.ts:14-17 | appending the inserted rows keeps tag ids and names unique and below the next serial |
| EntryStore.ResolvedTagsDistinct | db/schema.ts:16 | the old and inserted rows together have distinct names |
| EntryStore.ResolvedNames | server/routes.ts:52-65 | after resolution the table's names are exactly the old names plus the requested ones |
| EntryStore.LinkedTagNames | server/routes.ts:64-72 | the rows to link carry exactly the requested names |
| EntryStore.RequestedNamesLinked | server/routes.ts:64 | every requested name is among the linked rows |
| EntryStore.LinkedNamesRequested | server/routes.ts:53-55 | every linked row carries a requested name |
| EntryStore.ResolvedLinks | server/routes.ts:64-72 | the rows to link are rows of the new table, each id at most once |
| EntryStore.ResolvedLinksInTable | server/routes.ts:64 | every row to link is in the new table |
| EntryStore.ResolvedLinksDistinct | server/routes.ts:57-64 | no row to link is repeated |
| EntryStore.AppendedLinkIds | server/routes.ts:67-72 | links appended for an entry with no links give it exactly the linked tag ids |
| EntryStore.LinkedNames | server/routes.ts:67-72 | links appended for an entry with no links give it exactly the linked tags' names |
| EntryStore.UnlinkSelf | server/routes.ts:100-101 | deleting an entry's links leaves it with none |
| EntryStore.UnlinkOther | server/routes.ts:100-101 | deleting one entry's links leaves every other entry's links unchanged |
| EntryStore.Links | server/routes.ts:67-72 | one link row per resolved tag for the entry, also at lines 118-123 (partners: ResolvedLinks, AppendedLinkIds) |
| EntryStore.Unlink | server/routes.ts:100-101 | the delete of the entry's link rows, also at lines 135-136 (partners: UnlinkSelf, UnlinkOther) |
| EntryStore.AppendedLinksOf | server/routes.ts:118-123 | the appended links belong to the updated entry only |
| EntryStore.RelinkSpec | server/routes.ts:100-123 | after unlinking and appending, the entry has exactly the new links and every other entry keeps its links |
| EntryStore.RelinkEntryFails | server/routes.ts:100-123 | relinking fails exactly on a unique violation from tag resolution, and only when tags are given |
| EntryStore.RelinkEntry | server/routes.ts:100-123 | delete the entry's links, then resolve and link the given names (partners: RelinkEntryValid, RelinkEntryNames, RelinkEntryOthers) |
| EntryStore.RelinkEntryValid | server/routes.ts:100-123 | relinking keeps tag keys and the foreign keys of links, and only appends tag rows |
| EntryStore.RelinkEntryNames | server/routes.ts:100-123 | after relinking, the entry's tag names are exactly the requested ones, and none when no tags are given |
| EntryStore.RelinkEntryOthers | server/routes.ts:100-123 | relinking one entry leaves the links of every other entry as they were |
| EntryStore.EntryUpdatesCompose | server/routes.ts:86-92 | two updates in a row equal one update that gives each field the later value when the later update gives it, and the earlier one otherwise |
| EntryStore.EntryUpdateIdempotent | server/routes.ts:86-92 | repeating an entry update at the same time changes nothing more |
| EntryStore.EmptyEntryUpdate | server/routes.ts:86-92 | an update that gives no field only sets `updatedAt` |
| EntryStore.BodyMapUpdatesCompose | server/routes.ts:206-213 | two body-map updates in a row equal one that takes each field from the later update when given there, else from the earlier |
| EntryStore.BodyMapUpdateIdempotent | server/routes.ts:206-213 | repeating a body-map update at the same time changes nothing more |
| EntryStore.EmptyBodyMapUpdate | server/routes.ts:206-213 | a body-map update that gives no field only sets `updatedAt` |
| EntryStore.LinksReferenceGrow | db/schema.ts:20-21 | link rows keep their foreign keys when the entry and tag tables only gain ids |
| EntryStore.PrefixTagIds | db/schema.ts:15 | the ids of a prefix of the tag table are ids of the table |
| EntryStore.LinksAppendedReference | db/schema.ts:20-21 | links from an existing entry to existing tags keep the foreign keys |
| EntryStore.NoLinksForNewEntry | db/schema.ts:6 | with entry ids below the serial and foreign keys intact, no link names the next entry id |
| EntryStore.AppendEntryKeys | db/schema.ts:6 | appending the row with the next id keeps entry ids unique and below the serial |
| EntryStore.ReplaceEntryKeys | db/schema.ts:6 | replacing a row by one with the same id keeps the entry ids |
| EntryStore.UnlinkReference | db/schema.ts:20-21 | deleting link rows keeps the foreign keys of the rest |
| EntryStore.DeleteEntryValid | server/routes.ts:133-139 | deleting an entry's links and then the entry keeps every schema constraint |
| EntryStore.DeleteBodyMapValid | server/routes.ts:224-226 | deleting body maps keeps their ids unique |
| EntryStore.AppendBodyMapKeys | server/routes.ts:191-198 | inserting the body map with the next id keeps the ids unique |
| EntryStore.ReplaceBodyMapKeys | server/routes.ts:206-215 | replacing a body map by one with the same id keeps the ids unique |
| EntryStore.UpdatedTablesValid | server/routes.ts:85-127 | after a successful entry update the whole database obeys the schema, the entry has exactly the requested names, and other entries keep their links |
| EntryStore.SearchResults | server/routes.ts:147-167 | search results are newest first, and each entry occurs as often as in the table if its content contains `q` and, when a tag is given, it is linked to a tag of that name; otherwise it does not occur |
| EntryStore.SearchMatch | server/routes.ts:147-158 | the search condition: the content holds the `LIKE` pattern and, when a tag is given, the entry has a link to a tag of that name (partner: SearchResults) |
| EntryStore.LikePattern | server/routes.ts:150 | the text between the `%` of `%${q}%`, where a missing `q` renders as "undefined" (partners: SearchWithoutQuery, IntendedSearchWithoutQuery) |
| EntryStore.FilterMultiplicity | server/routes.ts:147-158 | a `WHERE` keeps each matching row as often as it occurs and drops every other row |
| EntryStore.SearchWithoutQuery | server/routes.ts:150 | as written, a search without `q` does not find an entry whose content lacks the word "undefined" |
| EntryStore.IntendedSearchResults | server/routes.ts:147-167 | the corrected search is newest first and keeps exactly the entries that contain `q` (any content when `q` is absent) and carry the tag |
| EntryStore.IntendedSearchWithoutQuery | server/routes.ts:147-158 | the corrected search without `q` and `tag` returns every entry |
| EntryStore.TagById | server/routes.ts:15-19 | the joined tag of a link is the row with its id, and is missing iff no row has that id |
| EntryStore.ViewOf | server/routes.ts:14-20 | one entry with its links, each link with the tag row of its id (partners: ViewShowsLinkedNames, ViewNamesLinked, LinkedNamesViewed) |
| EntryStore.Views | server/routes.ts:12-21 | `with: { entryTags: { with: { tag: true } } }` over a row list (partner: ViewsKeepEntries) |
| EntryStore.ViewsKeepEntries | server/routes.ts:12-21 | loading relations keeps the rows and their order, each with its own links |
| EntryStore.ViewShowsLinkedNames | server/routes.ts:14-20 | in a consistent database every loaded link finds its tag, and the names shown are exactly the entry's tag names |
| EntryStore.ViewLinksResolve | db/schema.ts:37-40 | every loaded link belongs to the entry and finds its tag |
| EntryStore.ViewNamesLinked | server/routes.ts:15-19 | each name shown is the name of one of the entry's linked tags |
| EntryStore.LinkedNamesViewed | server/routes.ts:15-19 | each linked tag's name is shown |
| EntryStore.SameIdSameTag | db/schema.ts:15 | two tag rows with one id are one row |
| EntryStore.Store.constructor | db/schema.ts:5-22 | the database starts empty, with every serial at 1 |
| EntryStore.Store.ListEntries | server/routes.ts:11-23 | every entry exactly once as in the table, newest first, each with its own links and tags |
| EntryStore.Store.GetEntry | server/routes.ts:26-39 | 404 iff no entry has the id; otherwise an entry with that id, with its links and tags |
| EntryStore.Store.Search | server/routes.ts:144-170 | the entries returned are the search results, each with its links and tags |
| EntryStore.Store.CreateEntry | server/routes.ts:42-79 | the entry serial always advances; create fails iff title or content is absent or a new name repeats, and then no table changes; on success the new row with the next id is appended, the tags are resolved, and exactly the requested names are linked (none when no tags are given) |
| Schema.NewEntry | db/schema.ts:5-12 | the row the entry insert at server/routes.ts:46-50 produces: the next serial id and `date` and `updated_at` both now (partner: EntryStore.Store.CreateEntry) |
| EntryStore.Store.UpdateEntry | server/routes.ts:82-130 | fails with "Entry not found" iff no row has the id, or with a unique violation, and then nothing changes; on success it writes the fields, replaces the entry's links with the requested names, and keeps other entries' links |
| EntryStore.Store.DeleteEntry | server/routes.ts:133-141 | always 204; drops the entry's links and the entry, and touches no tag row |
| EntryStore.Store.ListBodyMaps | server/routes.ts:173-178 | every body map as in the table, newest first |
| EntryStore.Store.GetBodyMap | server/routes.ts:180-186 | 404 iff no body map has the id; otherwise one with that id |
| EntryStore.Store.CreateBodyMap | server/routes.ts:188-201 | appends the row with the next id and the given fields, and touches no other table |
| EntryStore.NewBodyMap | server/routes.ts:191-198 | the inserted body-map row: the given fields, omitted ones NULL, both timestamps the insertion time (partner: Store.CreateBodyMap) |
| EntryStore.Store.UpdateBodyMap | server/routes.ts:203-222 | 404 with nothing changed iff no row has the id; otherwise that row alone is updated |
| EntryStore.Store.DeleteBodyMap | server/routes.ts:224-228 | always 204; drops the rows with that id and nothing else |
| MailConfig.MissingVarsInOrder | server/utils/email.ts:5-6 | the missing list is SMTP_HOST, SMTP_PORT, SMTP_USER, SMTP_PASS in that order, each present exactly when unset or empty |
| MailConfig.MissingVars | server/utils/email.ts:5-6 | the filter over the four names (partners: MissingVarsInOrder, NothingMissing) |
| MailConfig.IsSet | server/utils/email.ts:6 | `process.env[name]` is truthy: present and not empty (partners: NothingMissing, FallbackTransport, SenderChoice) |
| MailConfig.NothingMissing | server/utils/email.ts:8 | nothing is missing iff all four variables are set and non-empty |
| MailConfig.FallbackTransport | server/utils/email.ts:8-27 | the fallback is taken iff some variable is missing, and is smtp.ethereal.email:587, not secure, with the test account |
| MailConfig.ConfiguredTransport | server/utils/email.ts:31-39 | a full configuration is used as given, with the port through `parseInt` and `secure` iff SMTP_PORT is exactly "465" |
| MailConfig.CreateTransporter | server/utils/email.ts:3-40 | the transport options: Ethereal with the test account when a variable is missing, else the configuration (partners: FallbackTransport, ConfiguredTransport) |
| MailConfig.DigitRun | server/utils/email.ts:33 | the run `parseInt` reads is the longest digit prefix: within the string, all digits, and followed by a non-digit or the end |
| MailConfig.ReadDigits | server/utils/email.ts:33 | after the sign a number comes out exactly when the text starts with a digit |
| MailConfig.ParseInt | server/utils/email.ts:33 | an empty string is NaN; a string that starts with a digit reads as a non-negative number |
| MailConfig.DigitRunOf | server/utils/email.ts:33 | the run of a digit string followed by a non-digit or the end is that digit string |
| MailConfig.ParseDigits | server/utils/email.ts:33 | a digit string followed by anything not starting with a digit reads as the number it denotes; with `+` in front too, and with `-` as its negation |
| MailConfig.ParsePlusDigits | server/utils/email.ts:33 | a leading `+` before such digits is dropped |
| MailConfig.ParseMinusDigits | server/utils/email.ts:33 | a leading `-` before such digits negates the number |
| MailConfig.ParseUnsigned | server/utils/email.ts:33 | text starting with a digit is read from its first character |
| MailConfig.ParseSigned | server/utils/email.ts:33 | after a sign, the rest is read as digits, negated for `-` |
| MailConfig.NotWhite | server/utils/email.ts:33 | digits and signs are not white space, so `parseInt` does not skip them |
| MailConfig.ParseSkipsWhite | server/utils/email.ts:33 | a leading ECMAScript white-space character is skipped |
| MailConfig.ParseSecurePort | server/utils/email.ts:33 | "465" reads as 465 |
| MailConfig.ParseNoDigits | server/utils/email.ts:33 | a port that starts with no digit, blank or sign reads as NaN |
| MailConfig.ComposeMail | server/utils/email.ts:50-54 | the mail goes to the recipient; its subject is the registration one iff the kind is signup; the text carries the code right after the prompt; a configured user stands in the sender |
| MailConfig.SubjectChoice | server/utils/email.ts:43 | "Complete your registration" for signup and "Login verification code" for login, which differ |
| MailConfig.SenderChoice | server/utils/email.ts:51 | `"Story" <SMTP_USER>` when it is set, else `"Story" <no-reply@story.app>` |
| MailConfig.SenderCarriesUser | server/utils/email.ts:51 | a configured user appears in the sender right after `"Story" <` |
| MailConfig.Sender | server/utils/email.ts:51 | the `from` address (partners: SenderChoice, SenderCarriesUser) |
| MailConfig.Subject | server/utils/email.ts:43 | the subject by kind (partner: SubjectChoice) |
| MailConfig.MailText | server/utils/email.ts:54 | the plain-text body (partner: MailTextCarriesCode) |
| MailConfig.MailTextCarriesCode | server/utils/email.ts:54 | the text holds the code right after the prompt and, on the next line, the ten-minute expiry |
| MailConfig.SendWithConfiguration | server/utils/email.ts:47-83 | with a full configuration the result, error included, is what sending the composed mail over the configured transport gives |
| MailConfig.SendWithFallback | server/utils/email.ts:47-83 | on the fallback path a failure to create the test account is passed on unchanged; otherwise the mail goes to Ethereal |
| MailConfig.SendOtpEmail | server/utils/email.ts:42-83 | the transport is built, then the mail composed and handed to `deliver`; a test-account failure is passed on (partners: SendWithConfiguration, SendWithFallback) |
| TagText.Split | client/src/components/entry-card.tsx:46 | `split(",")` gives at least one piece and no piece holds a comma |
| TagText.LeadEnd | client/src/components/entry-card.tsx:46 | the run of white space that `trim` cuts in front: everything before the returned index is white space, and the character at it is not |
| TagText.TrailStart | client/src/components/entry-card.tsx:46 | the run of white space that `trim` cuts at the end: everything from the returned index on is white space, and the character before it is not |
| TagText.TrimEach | client/src/components/entry-card.tsx:46 | `.map(t => t.trim())` keeps the number of pieces and leaves each piece without surrounding white space |
| TagText.Trim | client/src/components/entry-card.tsx:46 | `trim` gives a string that neither starts nor ends with white space and is the slice of its input after the leading white space, with only white space cut on both sides |
| TagText.ParseTags | client/src/components/entry-card.tsx:46 | `split(",").map(t => t.trim()).filter(Boolean)` (partners: ParsedTags, ParseTagLine) |
| TagText.Join | client/src/components/entry-card.tsx:28 | `join(", ")`; on non-empty, comma-free, trimmed names ParseTags undoes it (partner: ParseTagLine) |
| TagText.TrimmedIffFixed | client/src/components/entry-card.tsx:46 | `trim` gives a string without surrounding white space, and leaves a string alone iff it has none |
| TagText.TrimIdempotent | client/src/components/entry-card.tsx:46 | trimming twice is trimming once |
| TagText.TrimKeepsChars | client/src/components/entry-card.tsx:46 | trimming adds no character |
| TagText.TrimLeadingBlank | client/src/components/entry-card.tsx:28 | the blank that ", " leaves before a trimmed name is removed by `trim` |
| TagText.ParsedTags | client/src/components/entry-card.tsx:46 | every parsed tag is non-empty, has no comma and has no surrounding white space |
| TagText.ParseEmpty | client/src/components/entry-editor.tsx:35 | an empty field parses to no tags |
| TagText.SplitNoSeparator | client/src/components/entry-card.tsx:46 | text without a comma splits into itself |
| TagText.SplitAfterPiece | client/src/components/entry-card.tsx:46 | a comma ends the first piece |
| TagText.SplitTagLine | client/src/components/entry-card.tsx:27-29 | the pieces of a ", "-joined line are its first name, then each later name with one leading blank |
| TagText.TagLinePieces | client/src/components/entry-card.tsx:27-29 | the same, for the card's tag line itself |
| TagText.TrimPieces | client/src/components/entry-card.tsx:46 | trimming those pieces gives the names back |
| TagText.ParseTagLine | client/src/components/entry-card.tsx:27-46 | round trip: names that are non-empty, comma-free and trimmed come back unchanged from parsing their ", "-joined line |
| TagText.CommaSplitsName | client/src/components/entry-card.tsx:27-46 | the round trip needs its condition: a name holding a comma comes back as two tags |
| EntryCard.UpdateRequestOf | client/src/components/entry-card.tsx:42-47 | the PUT body carries the form's title, content and image URL and, as tags, the parse of the tag field: non-empty, comma-free, trimmed names |
| EntryCard.UntouchedTagsResent | client/src/components/entry-card.tsx:27-46 | saving an untouched tag field sends the entry's own tag names, in link order, when they are non-empty, comma-free and trimmed |
| EntryCard.InitialTags | client/src/components/entry-card.tsx:27-29 | the tag field's first value, the entry's tag names joined by ", " (partners: Card.constructor, UntouchedTagsResent) |
| EntryCard.Card.constructor | client/src/components/entry-card.tsx:24-30 | the card starts read-only with the entry's fields and its tag names joined by ", " |
| EntryCard.Card.StartEdit | client/src/components/entry-card.tsx:150 | the edit button enters edit mode and keeps the fields |
| EntryCard.Card.SetTitle | client/src/components/entry-card.tsx:100 | sets the title only |
| EntryCard.Card.SetContent | client/src/components/entry-card.tsx:107 | sets the content only |
| EntryCard.Card.SetImageUrl | client/src/components/entry-card.tsx:113 | sets the image URL only |
| EntryCard.Card.SetTags | client/src/components/entry-card.tsx:118 | sets the tag field only |
| EntryCard.Card.SubmitUpdate | client/src/components/entry-card.tsx:131-132 | pressable only when no update is pending; it sends the update request built from the current fields and marks it pending |
| EntryCard.Card.UpdateSucceeded | client/src/components/entry-card.tsx:53-55 | a 2xx reply leaves edit mode and ends the pending state; the fields stay as sent |
| EntryCard.Card.UpdateFailed | client/src/components/entry-card.tsx:50-67 | any other reply only ends the pending state |
| EntryCard.Card.Cancel | client/src/components/entry-card.tsx:125 | cancel leaves edit mode, sends nothing and does not restore the fields |
| EntryCard.Card.DeleteClicked | client/src/components/entry-card.tsx:157-161 | a delete of this entry's id is sent iff the user confirms |
| EntryEditor.CreateRequestOf | client/src/components/entry-editor.tsx:31-36 | the POST body carries the title, content and image URL as typed and the parsed tags: non-empty, comma-free and trimmed |
| EntryEditor.EmptyTagFieldSendsNoTags | client/src/components/entry-editor.tsx:18-35 | an untouched tag field sends an empty tag list |
| EntryEditor.Editor.constructor | client/src/components/entry-editor.tsx:16-19 | the four fields start empty, so save is disabled |
| EntryEditor.Editor.SetTitle | client/src/components/entry-editor.tsx:71 | sets the title only |
| EntryEditor.Editor.SetContent | client/src/components/entry-editor.tsx:77 | sets the content only |
| EntryEditor.Editor.SetImageUrl | client/src/components/entry-editor.tsx:82 | sets the image URL only |
| EntryEditor.Editor.SetTags | client/src/components/entry-editor.tsx:87 | sets the tag field only |
| EntryEditor.Editor.Save | client/src/components/entry-editor.tsx:92-93 | pressable only when enabled; it sends the create request from the fields and disables the button while pending |
| EntryEditor.Editor.SaveSucceeded | client/src/components/entry-editor.tsx:42-47 | success resets all four fields to "", which disables save |
| EntryEditor.Editor.SaveFailed | client/src/components/entry-editor.tsx:53-59 | failure leaves the fields unchanged, and save is enabled again iff title and content are non-empty |
| Timeline.Dedup | client/src/components/timeline-view.tsx:27 | the badge names are the names that occur, each once |
| Timeline.CountTags | client/src/components/timeline-view.tsx:11-18 | the map's keys, in insertion order, are the distinct names in order of first occurrence; a name is a key iff it occurs; each count is its number of occurrences over all links of all entries |
| Timeline.CountLinks | client/src/components/timeline-view.tsx:14-17 | the inner loop adds one entry's links to the counter |
| Timeline.Bump | client/src/components/timeline-view.tsx:15-16 | one callback adds one occurrence of the name, reading a missing name as 0 |
| Timeline.TallyStep | client/src/components/timeline-view.tsx:15-16 | the counter's invariant is kept by one callback |
| Timeline.NoEntriesNoTags | client/src/components/timeline-view.tsx:11 | no entries give no badges |
| Timeline.DedupCountsSum | client/src/components/timeline-view.tsx:13-18 | summed over the distinct names, the counts give the number of names counted |
| Timeline.CountDistinct | client/src/components/timeline-view.tsx:27 | a name occurs once among the badge names iff it is one of them, else not at all |
| Timeline.CountsAddUp | client/src/components/timeline-view.tsx:13-18 | the counts add up to the number of links over all entries |
| Timeline.BadgeClicked | client/src/components/timeline-view.tsx:32 | a click hands `onTagSelect` a name among the badges |
| Timeline.BadgeNamesShownTag | client/src/components/timeline-view.tsx:27-32 | a clicked badge names a tag that some shown entry carries, with a count of at least 1 |
| Timeline.CountPositive | client/src/components/timeline-view.tsx:15-16 | a name that occurs has a positive count |
| AuthPage.CodeInput | client/src/pages/auth.tsx:122-124 | the stored code is the first six typed characters, each upper-cased, so it has no lower-case letter |
| AuthPage.CodeInputIdempotent | client/src/pages/auth.tsx:122-124 | re-entering the stored code changes nothing |
| AuthPage.InitialPageFacts | client/src/pages/auth.tsx:11-13 | the page starts in signup mode with the submit button disabled and the invariant holding |
| AuthPage.Offered | client/src/pages/auth.tsx:112-169 | the events the rendered page can deliver: the email form and toggle outside verify mode, the code form inside it, enabled buttons only, and a request's outcome only while it is pending (partner: StepKeepsInvariant) |
| AuthPage.Step | client/src/pages/auth.tsx:27-169 | only typing changes the email or the code; the mode changes only by the toggle, a login success or a signup reply with `action: "verify"`; a request becomes pending only by its own button |
| AuthPage.StepKeepsInvariant | client/src/pages/auth.tsx:27-169 | every event the page offers keeps the invariant: the code is at most six characters with no lower case, and a verification is pending only in verify mode |
| AuthPage.RunKeepsInvariant | client/src/pages/auth.tsx:27-169 | every reachable state keeps the invariant |
| AuthPage.ToggleSwaps | client/src/pages/auth.tsx:159-169 | the toggle swaps signup and login and changes nothing else |
| AuthPage.VerifyStays | client/src/pages/auth.tsx:112-133 | no event offered in verify mode leaves it |
| AuthPage.VerifyAbsorbing | client/src/pages/auth.tsx:112-169 | once in verify mode, the page stays there for any run of offered events |
| AuthPage.EnteringVerify | client/src/pages/auth.tsx:47-70 | verify mode is entered exactly by a login success or a signup success whose reply says `action: "verify"` |
| AuthPage.SignupWithoutAction | client/src/pages/auth.tsx:47-50 | a signup success without that action keeps the mode and ends the pending state |
| AuthPage.SubmitSends | client/src/pages/auth.tsx:142-150 | an enabled email button has a non-empty email, posts it for the current mode, and is disabled while that request is pending |
| AuthPage.SubmitEnabled | client/src/pages/auth.tsx:147-150 | the email button is enabled iff the current mode's request is not pending and the email is not empty (partners: SubmitSends, InitialPageFacts) |
| AuthPage.VerifyEnabled | client/src/pages/auth.tsx:129 | the code button is enabled iff the verification is not pending and the code is not empty (partner: VerifySends) |
| AuthPage.VerifySends | client/src/pages/auth.tsx:126-129 | an enabled verify button sends an upper-cased code of one to six characters and is disabled while pending |
| AuthPage.HandleError | client/src/pages/auth.tsx:16-18 | the toast text is empty exactly for a thrown empty string; a thrown `Error` never gives an empty text; the text is the fallback sentence, the error's non-empty message, or the thrown string |
| AuthPage.FailureToast | client/src/pages/auth.tsx:66 | a thrown `Error(text)` shows `text`, or the fallback when `text` is empty: never an empty message |
| AuthPage.SignupTry | client/src/pages/auth.tsx:37-39 | the `try` block never completes normally: it always throws an `Error` |
| AuthPage.CatchRethrow | client/src/pages/auth.tsx:40-42 | the bare `catch` turns every throw into `Error(text)` and lets a normal completion through |
| AuthPage.SignupErrorAsWritten | client/src/pages/auth.tsx:35-43 | as written, the failed signup throws the raw reply text whatever `JSON.parse` gives, derived from the two blocks above |
| AuthPage.SignupErrorShowsRawJson | client/src/pages/auth.tsx:37-41 | the server's `{"message":"Email already registered"}` is shown as that raw JSON, not as its message |
| AuthPage.SignupErrorIntended | client/src/pages/auth.tsx:38-39 | the corrected message is the raw text or the JSON's own non-empty `message`, preferring the latter; it is non-empty whenever the text is |
| AuthPage.IntendedDiffersFromWritten | client/src/pages/auth.tsx:35-43 | the two derivations differ exactly on a JSON reply whose non-empty `message` is not the raw text |
| AuthPage.SignupErrorIntendedShowsMessage | client/src/pages/auth.tsx:38-39 | with the corrected derivation the toast shows "Email already registered" |
| AuthPage.VerifyToastAlwaysLogin | client/src/pages/auth.tsx:89-93 | the success toast tests `mode === "signup"`, but verification only completes in verify mode, so it always says "Logged in successfully" |
| AuthPage.VerifyToast | client/src/pages/auth.tsx:92 | the success toast's text by mode (partners: VerifyToastAlwaysLogin, Page.VerifySucceeded) |
| AuthPage.Page.constructor | client/src/pages/auth.tsx:11-13 | the page starts in the initial state |
| AuthPage.Page.ToggleMode | client/src/pages/auth.tsx:163 | the state becomes the toggle step, keeping the invariant |
| AuthPage.Page.SetEmail | client/src/pages/auth.tsx:140 | the state becomes the email-typing step |
| AuthPage.Page.SetCode | client/src/pages/auth.tsx:122 | the state becomes the code-typing step, so the code is stored upper-cased and at most six long |
| AuthPage.Page.PressEmailButton | client/src/pages/auth.tsx:144-146 | sends the request `Sent` names and marks it pending |
| AuthPage.Page.PressVerifyButton | client/src/pages/auth.tsx:128 | sends the verify request with the email and code and marks it pending |
| AuthPage.Page.SignupSucceeded | client/src/pages/auth.tsx:47-50 | the state becomes the signup-success step |
| AuthPage.Page.SignupFailed | client/src/pages/auth.tsx:35-56 | the state becomes the signup-error step, and the toast shows `handleError` of the raw text |
| AuthPage.Page.LoginSucceeded | client/src/pages/auth.tsx:69-70 | the state becomes the login-success step, in verify mode |
| AuthPage.Page.LoginFailed | client/src/pages/auth.tsx:66-76 | the toast shows `handleError` of the reply text |
| AuthPage.Page.VerifySucceeded | client/src/pages/auth.tsx:89-93 | the toast says "Logged in successfully" |
| AuthPage.Page.VerifyFailed | client/src/pages/auth.tsx:86-96 | the toast shows `handleError` of the reply text |
| Home.EmptySearchKey | client/src/pages/home.tsx:17-21 | with an empty search and no tag the key is exactly "/api/search"; with an empty query, a tag gives that key only when it is empty |
| Home.SearchKey | client/src/pages/home.tsx:17-21 | the key template as written (partners: EmptySearchKey, QueryOnlyKey, QueryAndTagKey, TagOnlyKeyLacksQuestionMark, IntendedAgrees) |
| Home.HomeStep | client/src/pages/home.tsx:52-64 | the two setters (partners: TagOnlySetBySelection, BadgeSelectsTag) |
| Home.QueryOnlyKey | client/src/pages/home.tsx:18 | a query alone gives "/api/search?q=" followed by the raw query |
| Home.QueryAndTagKey | client/src/pages/home.tsx:18-20 | a query and a tag give "?q=" and the query, then "&tag=" and the tag |
| Home.TagOnlyKeyLacksQuestionMark | client/src/pages/home.tsx:18-20 | as written, a tag without a query gives "/api/search&tag=…", which has no "?" |
| Home.SearchKeyIntended | client/src/pages/home.tsx:17-21 | the corrected key opens the first parameter with "?" and joins a second one with "&" in all four cases |
| Home.IntendedAgrees | client/src/pages/home.tsx:18-20 | the corrected key equals the written one whenever a query is typed or no tag is selected |
| Home.TagOnlySetBySelection | client/src/pages/home.tsx:14-64 | only `onTagSelect` changes the selected tag, and nothing clears it |
| Home.BadgeSelectsTag | client/src/pages/home.tsx:64 | clicking badge k selects its name, and the key then ends with "&tag=" and that name |

## Left out

- Sending mail: the nodemailer transports, `sendMail` and the Ethereal test account are parameters (`deliver`, `account`, `sendOk`). The HTML part of the mail is not modelled.
- `server/auth.ts` has its own transporter and `sendOTP` (lines 11-44). Its routes use that helper, not `server/utils/email.ts`. Only success or failure of that send is modelled.
- bcrypt hashing: the hash is an opaque string parameter.
- `randomInt` and `new Date()` are parameters: `r` has the range `randomInt(100000, 999999)` can return, and `now` is in milliseconds.
- Express, express-session and Drizzle plumbing: only `session.userId` is modelled. Logout clears it. A failed destroy is assumed to keep the session.
- The bodyMaps table is not declared in `db/schema.ts` either. Its columns, their nullability and the `date`/`updatedAt` defaults are inferred from `server/routes.ts`.
- Create and update run inside `db.transaction` with no `try`/`catch` (`server/routes.ts:44-76`, `84-127`). A NOT NULL violation, a unique violation or "Entry not found" rejects the handler's promise, and no route code answers. `Failure(...)` from `Store.CreateEntry` and `Store.UpdateEntry` stands for that rejection with every table rolled back. What the client then receives is up to Express (no reply in Express 4, a 500 from the default error handler in Express 5) and is not modelled.
- `tags.name.in(tagNames)` and `entries.id.in(...)` (`server/routes.ts:53`, `106`, `150`) are taken to be SQL `IN`. Drizzle documents this test as the `inArray` helper; if the columns have no `.in` method, every request that carries tags or a tag filter throws instead, which the model does not capture.
- The users and otps tables are not in the schema file. Their fields are inferred from their use in `server/auth.ts`. The only constraints assumed are unique ids and emails, and otp rows owned by existing users.
- Row order: every table is a sequence in insertion order, and a `findFirst` or `findMany` with no `orderBy` is modelled as returning rows in that order (`server/auth.ts:118-120`, `126-128`, `213-215`; the tag lookups at `server/routes.ts:53-55` and `104-106`; the `entryTags` relation the card joins into its tag field). The database does not guarantee this: an UPDATE writes a new row version and space freed by VACUUM can be reused by a later INSERT, so an older row may come back after a newer one. OnlyFirstRowExamined, MatchingSecondRowRefused, VerifyIgnoresLaterRows, ReenrolReplacesCode, LockedOutAfterExpiredCode and the order of the names in the card's tag field rest on this assumption.
- Concurrency: the handlers run one at a time. Races between two verifies, or between two inserts of one email, are not modelled.
- SQL `LIKE`: wildcard characters in `q` and collation or case rules are not modelled. Search is a literal substring test.
- `parseInt(req.params.id)` of a non-numeric id (NaN) is not modelled: ids are integers. In the SMTP port reading, `parseInt` skips the ECMAScript white space and line terminators and reads an optional sign and decimal digits; its `0x` hex prefix is left out.
- JSON `null` in a request body is treated like an absent field.
- The tag serial values a rolled-back tag insert would consume are not modelled. The tag counter is restored with the rest of the transaction.
- The client posts to `/api/auth/signup`, `/login` and `/verify` with `{ email, code }`, which the server does not serve. The server serves `/signup/request`, `/signup/verify` and siblings. Each side is modelled as written and the two are not connected.
- `client/src/hooks/use-auth.ts` and `use-auth.tsx` are not part of this model: they are query-cache wrappers.
- Toasts, query invalidation, JSX and rendering are left out. The other pages are not part of this model: insights, story compilation, body graph, calendar, memory tool and the navigation bar.
- AuthPage.CodeInput: `toUpperCase` is modelled for ASCII letters only. Characters outside ASCII are kept as typed.
- AuthPage.CodeInput: the input's `maxLength` is modelled as truncating the typed value to six characters. A browser blocks further typing rather than truncating a paste, but the stored results agree.
- Home.SearchKey: nothing in the key is URL-encoded, in the code or in the model.
- Timeline.CountTags: `Map` iteration order is modelled as the key sequence `keys`. Rendering of the badges is left out.
- EntryStore.Store.UpdateBodyMap: an absent field leaves its column unchanged; the four fields are not replaced by NULL. Drizzle skips undefined values in `.set`.

## Findings

| source | as written | input that shows it | evidently intended | confidence | as-written member | corrected member |
|---|---|---|---|---|---|---|
| server/auth.ts:204-225 | login verify looks the user up by email and accepts the first otp row without checking `isVerified` | an unverified user `a@x.com` with a pending signup code `123456`, verified through `/api/auth/login/verify`, is logged in | only verified users log in, as the login request route demands at line 168 | not executed | OtpAuth.LoginVerifyAdmitsUnverified | OtpAuth.LoginVerifyIntended |
| server/routes.ts:150 | the pattern is `%${q}%`, so a missing `q` becomes `%undefined%` | `GET /api/search` with no query on an entry whose content is "hello" returns nothing | a missing `q` applies no content filter | not executed | EntryStore.SearchWithoutQuery | EntryStore.IntendedSearchResults |
| client/src/pages/home.tsx:18-20 | the tag parameter is always joined with "&", even when no "?" precedes it | an empty search with tag "work" gives the key "/api/search&tag=work" | "?tag=work" when the query is empty | not executed | Home.TagOnlyKeyLacksQuestionMark | Home.SearchKeyIntended |
| server/auth.ts:177-219 | a login request appends its code behind the user's earlier rows and never deletes them, while both verify routes read only the user's first row | a verified user whose first login code expired unused: every later login request mails a code that verify refuses with 400, and a signup request is refused for a verified user (lines 68-72), so the user is locked out; this assumes the database returns the oldest row first, which a `findFirst` with no `orderBy` does not promise | a new login code replaces the user's old rows, as the signup routes do | not executed | OtpAuth.LockedOutAfterExpiredCode | OtpAuth.LoginRequestIntendedThenVerify |
| client/src/pages/auth.tsx:37-41 | the `Error` thrown inside the `try` is caught by the bare `catch`, which throws the raw text again | a 400 reply `{"message":"Email already registered"}` shows the raw JSON in the toast | the JSON `message` is shown | not executed | AuthPage.SignupErrorShowsRawJson | AuthPage.SignupErrorIntended |
