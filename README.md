# Job board: a Dafny model of its API rules and client helpers

This project models the core of a small job board. Employers register, log
in and manage their own job postings. Job seekers browse the postings in a
browser client. The model covers:

- the job service (`createJob`, `getJobs`, `getJobById`, `updateJob`,
  `deleteJob`) over an in-memory job collection, as the class
  `JobController.JobBoard`;
- the Job schema (`JobModel`): the record, its defaults, the validators that
  run on save, the unique (title, company, employerId) index and the
  `isExpired` virtual;
- the URL test the service applies to application links (`UrlPattern`):
  the regular expression is stated as a language and decided by a
  hand-written scan that is proved equal to it;
- the auth service (`Auth.UserStore`): `register` and `login` over a user
  collection keyed by unique email;
- the `protect` middleware (`AuthGate`): token extraction from the
  Authorization header, then verification;
- the cross-origin predicate `isAllowedOrigin` (`Cors`);
- the client's home page filters, counters and local delete (`Home`), and
  the job card's day count, flags and link formatting (`JobCard`).

Time is an integer number of milliseconds (`now`), passed in by the caller.
Ids are natural numbers that only need equality and freshness. Password
hashing and token signing are handed in as the functions of a `Crypto`
value. The model relies on one fact about them, `Crypto.Sound()`: a signed
token verifies to its own payload. `UserStore` keeps that as part of its
invariant.

Behaviour of the code that the model keeps as written:

- A deadline equal to `now` is accepted, because the code only rejects
  `deadline < now` (`jobController.js` lines 18 and 85).
- `createJob` copies the whole body into the new document (line 39). Only
  `employerId` is overridden, so a body may set `status` (for example
  `"closed"`), `createdAt` and `type`.
- `updateJob` merges the body field by field with `Object.assign`
  (line 112). That includes `employerId` and `createdAt`, so an owner can
  hand a job to another employer id.
- The duplicate lookup in `createJob` (line 34) passes the body's title and
  company as they are. A filter key whose value is `undefined` constrains
  nothing, so a body without a title is refused as a duplicate whenever the
  caller already has a job at that company.
- The unique index is enforced when the document is saved. `updateJob`
  runs its own duplicate lookup only when the patch carries both title and
  company (line 100). A patch that changes only the title into a clash
  passes the lookup, is refused by the index, and ends in the generic 500
  reply.
- A present but empty link in an update skips the URL check, which only
  tests truthy links (line 91). The save then fails the `required`
  validator, so the reply is also a 500. In both cases the store is
  unchanged.

## Model

| member | source | states |
|---|---|---|
| `Text.Lower` | FRONTEND/src/pages/Home.jsx:50-52 | lower-casing keeps the length and maps each ASCII letter to its lower case |
| `Text.LowerIdempotent` | FRONTEND/src/pages/Home.jsx:50-52 | lower-casing twice is lower-casing once |
| `Text.Includes` | FRONTEND/src/pages/Home.jsx:50-52 | the scan answers true exactly when the needle occurs at some offset of the haystack |
| `Text.IncludesEmpty` | FRONTEND/src/pages/Home.jsx:47-53 | the empty term occurs in every string |
| `UrlPattern.UrlShape` | BACKEND/src/controllers/jobController.js:28 | the language of the pattern: an optional `http://` or `https://`, then host characters, a dot, two to six tld characters and path characters (a definition, no contract of its own) |
| `UrlPattern.PathFrom` | BACKEND/src/controllers/jobController.js:28 | true exactly when every character from the given position on is a path character |
| `UrlPattern.DotAt` | BACKEND/src/controllers/jobController.js:28 | a reading with the host ending at `i` exists iff a dot is at `i`, two tld characters follow, and only path characters come after them |
| `UrlPattern.ScanFrom` | BACKEND/src/controllers/jobController.js:28 | the scan from `i` succeeds iff some reading host "." tld path has its dot at `i` or later |
| `UrlPattern.MatchesHostTldPath` | BACKEND/src/controllers/jobController.js:28 | the scan decides the scheme-less part of the pattern exactly |
| `UrlPattern.IsValidUrl` | BACKEND/src/controllers/jobController.js:28-29 | `urlPattern.test(link)` holds exactly for links in the pattern's language, with or without an `http://` or `https://` scheme |
| `UrlPattern.ForeignCharRejected` | BACKEND/src/controllers/jobController.js:28-31 | a character outside every class of the pattern (`?`, `=`, `:`, `#`, ...) anywhere after the `http://` or `https://` the link starts with, or anywhere in a link that starts with neither, makes the link invalid |
| `UrlPattern.NoDotRejected` | BACKEND/src/controllers/jobController.js:28 | text with no dot after its first character has no host.tld reading |
| `UrlPattern.TypicalLinkAccepted` | BACKEND/src/controllers/jobController.js:28-29 | `https://acme.com/apply` is accepted |
| `UrlPattern.LooseShapeAccepted` | BACKEND/src/controllers/jobController.js:28 | the pattern is loose: `....` is accepted |
| `UrlPattern.UpperCaseHostRejected` | BACKEND/src/controllers/jobController.js:28-31 | an upper-case host (`https://Acme.com`) is refused |
| `JobModel.SchemaValid` | BACKEND/src/models/Job.js:4-33 | the validators run on save: every required string non-empty, type and status within their enums (a definition, no contract of its own) |
| `JobModel.Assign` | BACKEND/src/controllers/jobController.js:112 | the merge never changes the document id |
| `JobModel.Construct` | BACKEND/src/models/Job.js:9-34 | a new document belongs to the caller whatever the body says, takes the body's title, company, link and deadline, and defaults type to full-time, status to open and createdAt to now |
| `JobModel.ConstructValidIff` | BACKEND/src/models/Job.js:4-33 | a new document passes the validators iff title, description, company, location and link are given non-empty, and any type or status given is in its enum |
| `JobModel.AssignNothing` | BACKEND/src/controllers/jobController.js:112 | merging an empty body changes nothing |
| `JobModel.AssignIdempotent` | BACKEND/src/controllers/jobController.js:112 | merging the same body twice is merging it once |
| `JobModel.IsExpired` | BACKEND/src/models/Job.js:39-41 | a job is expired when now is strictly after its deadline (a definition, no contract of its own) |
| `JobModel.ExpiresJustAfterDeadline` | BACKEND/src/models/Job.js:39-41 | a job is not expired at its deadline and is expired one millisecond later |
| `JobModel.ExpiryIgnoresStatus` | BACKEND/src/models/Job.js:29-33 | changing the status does not change `isExpired` |
| `JobModel.Taken` | BACKEND/src/controllers/jobController.js:101-106 | the duplicate lookup: some job other than `except`, of that owner, whose title and company equal the given ones; an absent title or company constrains nothing (a definition, no contract of its own) |
| `JobModel.AbsentTitleMatchesCompany` | BACKEND/src/controllers/jobController.js:34 | a lookup without a title finds any job of that owner at that company |
| `JobModel.InsertKeepsUnique` | BACKEND/src/models/Job.js:37 | inserting a document whose triple no document holds keeps triples unique |
| `JobModel.ReplaceKeepsUnique` | BACKEND/src/models/Job.js:37 | replacing a document by one whose triple no other document holds keeps triples unique |
| `JobModel.RemoveKeepsUnique` | BACKEND/src/models/Job.js:37 | removing a document keeps triples unique |
| `JobController.InsertKeepsNewestFirst` | BACKEND/src/controllers/jobController.js:52 | inserting a job after all newer-or-equal ones and before the first older one keeps a newest-first list ordered |
| `JobController.InsertKeepsListing` | BACKEND/src/controllers/jobController.js:52 | inserting a stored job with a new id adds exactly its id and keeps the listing duplicate-free |
| `JobController.JobBoard.constructor` | BACKEND/src/models/Job.js:3-37 | an empty collection satisfies the store invariant |
| `JobController.JobBoard.CreateJob` | BACKEND/src/controllers/jobController.js:4-47 | 403 for non-employers before anything else; 400 for a missing or past deadline, a missing or malformed link, a duplicate (title and company compared only when present), in that order; 500 "Server error" exactly when all these guards pass and the schema refuses the document; the store is unchanged on every failure; on success exactly one new job, owned by the caller, and the uniqueness, schema and URL invariants still hold |
| `JobController.JobBoard.GetJobs` | BACKEND/src/controllers/jobController.js:50-58 | the list holds every stored job exactly once, each as stored, ordered by createdAt descending |
| `JobController.JobBoard.GetJobById` | BACKEND/src/controllers/jobController.js:61-70 | the stored job with status 200 when the id exists, 404 "Job not found" otherwise |
| `JobController.JobBoard.UpdateJob` | BACKEND/src/controllers/jobController.js:73-120 | 404 for an absent id, then 403 for a non-owner; the deadline and link re-checked only when present; the duplicate lookup only when title and company are both present, excluding the job itself; once all these guards pass, every failure is 500 "Server error", which happens exactly when validation or the unique index refuses the merge; on success only the target job changes, to the field merge of the patch; invariants kept |
| `JobController.JobBoard.DeleteJob` | BACKEND/src/controllers/jobController.js:123-138 | 404 for an absent id, then 403 for a non-owner, with the store unchanged; otherwise exactly that job is removed |
| `JobController.PostReadClose` | BACKEND/src/controllers/jobController.js:4-138 | an employer's job due tomorrow is created with 201, open and dated now; a second post at the same company without a title is refused as a duplicate; closing it succeeds and leaves its expiry unchanged; another employer's delete gets 403 |
| `Auth.CompareOwnHash` | BACKEND/src/controllers/authController.js:35-37 | a password compares equal to its own hash |
| `Auth.View` | BACKEND/src/controllers/authController.js:20-23 | the user view carries id, fullname, email and role, and has no password field |
| `Auth.Crypto.Compare` | BACKEND/src/controllers/authController.js:36 | bcrypt's compare as equality of the password's hash with the stored hash (a definition, no contract of its own) |
| `Auth.UserStore.constructor` | BACKEND/src/controllers/authController.js:5-16 | an empty user collection satisfies the invariant (unique emails and ids) |
| `Auth.UserStore.Register` | BACKEND/src/controllers/authController.js:5-27 | an existing email gives 400 "Email already exists" and no change; otherwise exactly one user is added with a fresh id and the hash of the password, and the 201 reply carries a token that verifies to {id, role} and the user view |
| `Auth.UserStore.Login` | BACKEND/src/controllers/authController.js:29-48 | succeeds iff the email is stored and the password compares to its hash; both failures are the same 400 "Invalid credentials"; the token verifies to the user's {id, role}; nothing is written |
| `Auth.RegisterThenLogin` | BACKEND/src/controllers/authController.js:5-48 | on a store without the email, a registration succeeds with 201, a second registration with the same email gets 400 "Email already exists", and a login with the first password succeeds and returns the same user view |
| `AuthGate.UpToSpace` | BACKEND/src/middlewares/authMiddleware.js:8 | the result is the longest space-free prefix |
| `AuthGate.ExtractToken` | BACKEND/src/middlewares/authMiddleware.js:8 | after a "Bearer " prefix the token is the text up to the next space; any other header is the token verbatim |
| `AuthGate.UpToSpaceWhole` | BACKEND/src/middlewares/authMiddleware.js:8 | a space-free string is its own longest space-free prefix |
| `AuthGate.BearerRoundTrip` | BACKEND/src/middlewares/authMiddleware.js:8 | extracting from "Bearer " + t gives back t for every space-free t |
| `AuthGate.RawTokenUsedVerbatim` | BACKEND/src/middlewares/authMiddleware.js:8 | a header without the prefix is used as the token |
| `AuthGate.Authenticate` | BACKEND/src/middlewares/authMiddleware.js:3-17 | a missing or empty header is refused with 401 "No token, authorization denied"; otherwise the verified payload is admitted, or 401 "Token is not valid" |
| `AuthGate.IssuedTokenAdmits` | BACKEND/src/middlewares/authMiddleware.js:8-13 | a token signed for some claims, sent raw or with the Bearer prefix, admits exactly those claims |
| `AuthGate.Request.constructor` | BACKEND/src/middlewares/authMiddleware.js:3-4 | a new request has no user, no response, and `next` not yet called |
| `AuthGate.Protect` | BACKEND/src/middlewares/authMiddleware.js:3-17 | on refusal the 401 reply is sent, `req.user` is untouched and `next` is not called; on success `req.user` is the decoded payload and `next` is called once |
| `Cors.IsAllowedOrigin` | BACKEND/src/app.js:15-21 | the result is the disjunction of: no origin, a listed origin, an origin ending in `.vercel.app` |
| `Cors.NoOriginAllowed` | BACKEND/src/app.js:16 | an absent or empty origin is allowed |
| `Cors.ListedOriginsAllowed` | BACKEND/src/app.js:9-17 | each listed origin is allowed |
| `Cors.PlatformSubdomainAllowed` | BACKEND/src/app.js:19 | every `https://<name>.vercel.app` origin is allowed |
| `Cors.FirstListedIsPlatform` | BACKEND/src/app.js:10-19 | the first listed origin is already covered by the suffix rule |
| `Cors.OthersRejected` | BACKEND/src/app.js:15-21 | `http://localhost:8080` and `https://vercel.app` are refused |
| `JobCard.DaysRemaining` | FRONTEND/src/components/JobCard.jsx:6-12 | the day count is the ceiling of (deadline - now) / 86 400 000 |
| `JobCard.CardExpired` | FRONTEND/src/components/JobCard.jsx:15 | the card's expired flag: fewer than zero days left (a definition, no contract of its own) |
| `JobCard.CardUrgent` | FRONTEND/src/components/JobCard.jsx:16 | the card's urgent flag: zero to three days left (a definition, no contract of its own) |
| `JobCard.ShowsApply` | FRONTEND/src/components/JobCard.jsx:143-153 | the Apply button is shown exactly when the card is not expired (a definition, no contract of its own) |
| `JobCard.CardExpiredIff` | FRONTEND/src/components/JobCard.jsx:15 | the card counts a job as expired iff its deadline is at least one full day past |
| `JobCard.CardUrgentIff` | FRONTEND/src/components/JobCard.jsx:16 | urgent iff the deadline is less than a day past or at most three days ahead |
| `JobCard.FlagsExclusive` | FRONTEND/src/components/JobCard.jsx:15-16 | a card is never both expired and urgent |
| `JobCard.CardVersusSchemaExpiry` | FRONTEND/src/components/JobCard.jsx:14-16 | a card-expired job is schema-expired; a job an hour past its deadline is schema-expired yet still shows Apply |
| `JobCard.FormatVerificationLink` | FRONTEND/src/components/JobCard.jsx:18-24 | an empty or missing link gives `#`; a link with an http(s) scheme is kept; any other gets `https://` in front |
| `JobCard.FormattedIsHttp` | FRONTEND/src/components/JobCard.jsx:18-24 | every formatted link is `#` or starts with `http://` or `https://` |
| `JobCard.FormatIdempotent` | FRONTEND/src/components/JobCard.jsx:18-24 | formatting a non-empty link twice is formatting it once |
| `Home.Filter` | FRONTEND/src/pages/Home.jsx:47-65 | the filtered list is no longer than the list and holds exactly the elements that satisfy the condition |
| `Home.FilterIsSubsequence` | FRONTEND/src/pages/Home.jsx:45-67 | a filtered list is an order-preserving subsequence of its input |
| `Home.FilterFusion` | FRONTEND/src/pages/Home.jsx:45-65 | two filters in a row equal one filter on the conjunction |
| `Home.FilterKeepsAll` | FRONTEND/src/pages/Home.jsx:45-65 | a filter whose condition holds everywhere returns the list unchanged |
| `Home.FilterIdempotent` | FRONTEND/src/pages/Home.jsx:45-65 | filtering twice with one condition is filtering once |
| `Home.FilterPartition` | FRONTEND/src/pages/Home.jsx:80-84 | a condition and its negation split a list: the two results together are as long as the list |
| `Home.MatchesSearch` | FRONTEND/src/pages/Home.jsx:47-53 | the lower-cased term occurs in the lower-cased title, company or location (a definition, no contract of its own) |
| `Home.MatchesType` | FRONTEND/src/pages/Home.jsx:56-58 | the job's type equals the selected type (a definition, no contract of its own) |
| `Home.MatchesStatus` | FRONTEND/src/pages/Home.jsx:60-65 | "open" keeps jobs with now <= deadline, any other value keeps jobs with now > deadline (a definition, no contract of its own) |
| `Home.Visible` | FRONTEND/src/pages/Home.jsx:44-68 | the filter effect: search, type and status filters in turn, each skipped at its neutral value (a definition; its properties are the lemmas below) |
| `Home.VisibleIsOneFilter` | FRONTEND/src/pages/Home.jsx:44-68 | the chain of search, type and status filters is one filter on the conjunction of the three controls |
| `Home.VisibleSubsequence` | FRONTEND/src/pages/Home.jsx:44-68 | the shown list is a subsequence of the jobs, and a job is shown iff its lowercased title, company or location contains the lowercased term (when a term is set), its type equals the selected type (unless "all"), and its deadline matches the status (open: now <= deadline, otherwise now > deadline; unless "all") |
| `Home.NeutralControlsShowAll` | FRONTEND/src/pages/Home.jsx:44-68 | with an empty term, type "all" and status "all" the shown list is the job list |
| `Home.StatusViewsPartition` | FRONTEND/src/pages/Home.jsx:60-65 | the "open" and "expired" views together are as long as the list |
| `Home.JobStats` | FRONTEND/src/pages/Home.jsx:80-84 | total is the list length, open + expired == total, and open equals the size of the "open" view |
| `Home.WithoutJob` | FRONTEND/src/pages/Home.jsx:74 | the list after a delete holds exactly the jobs with another id, in their order |
| `Home.HomePage.constructor` | FRONTEND/src/pages/Home.jsx:8-14 | the page starts with empty lists, an empty term and both selectors at "all" |
| `Home.HomePage.FetchJobs` | FRONTEND/src/pages/Home.jsx:20-37 | a fetched array replaces both lists; any other payload empties them; a failed request only sets the error |
| `Home.HomePage.RefreshFilter` | FRONTEND/src/pages/Home.jsx:44-68 | the shown list becomes the filter chain of the current list and controls |
| `Home.HomePage.HandleDelete` | FRONTEND/src/pages/Home.jsx:70-78 | after a confirmed, successful delete the list loses exactly the jobs with that id; otherwise nothing changes |

## Left out

- Rendering, styling and the theme toggle: every JSX tree, `Navbar.jsx`, `main.jsx`.
- The login, register, post-job and edit-job page handlers: network calls, local storage, timers and navigation. Their deadline and link guards repeat the server's.
- `FRONTEND/src/api/jobs.js`, `App.jsx`, the router and the Express/`cors` wiring. Create, update and delete take the verified claims as a parameter, since they run behind `protect`.
- bcrypt and JSON Web Token internals: salts, expiry times and signatures. Hashing is a deterministic function, and token expiry is not modelled.
- `models/User.js` is not part of this model. Register does not model its field validators (missing fields, a role outside the enum) or any email normalisation.
- Persistence: `populate` of the employer's name and email, ObjectId formatting, the database's own failures, and the 500 catch-all replies they lead to. The 500 replies that come from the schema's validators and the unique index on save are modelled.
- Date parsing. Deadlines are integers. An unparsable date string becomes an invalid date, and `invalid < now` is false, so the source lets it through the deadline check. The model cannot express that input.
- A patch that sets the deadline to `null` or `""` cannot be expressed, because `None` means the field is absent. (The source would assign it and fail the `required` validator with a 500.) A missing deadline in a create body is modelled.
- A body value of the wrong type, such as a non-numeric salary, would fail Mongoose's casting with a 500. This is not modelled.
- An `_id` in a create body: the source spreads the body into the new document, so a well-formed `_id` becomes the job's id. The model always takes the next free id; the body has no id field.
- A missing email in register or login: `findOne({ email: undefined })` would match an arbitrary user. Emails are strings in the model, so that request cannot be expressed.
- Clock reads: one instant `now` stands for every clock read of a request or a render. The source reads the clock separately in the deadline check and for `createdAt` (`Job.js` line 34), and once per job in each client filter and counter (`Home.jsx` lines 62, 82 and 83). So `Home.JobStats`'s `open + expired == total` holds for one instant only: in the source a deadline passing between the reads on lines 82 and 83 is counted in both.
- The race between the duplicate lookup and the save: it is a concurrency concern. The model is sequential.
- `Math.ceil` on doubles: the day count is integer ceiling division. The two agree for any realistic deadline.
- `toLowerCase` and `includes` beyond ASCII.
- `window.confirm`, `alert` and the loading flag on the home page. Confirmation and the server's answer are parameters of `HandleDelete`.
- `JobController.JobBoard.GetJobs`: jobs with equal `createdAt` may come in any order, as MongoDB leaves that order open.
