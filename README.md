# copy-roles-api, modelled in Dafny

This is a small Express service in front of the Genesys Cloud identity API. It has two endpoints:

- `POST /api/copy-roles` checks that `sourceUserID` and `targetUserID` are UUIDs and that the three credential fields are present. It then logs in with the caller's client credentials and reads the source user's authorization subject. The subject's grants are flattened to `{roleId, divisionId}` pairs. Unless that list is empty, one bulk-replace call overwrites the target user's grants with it.
- `POST /api/users` checks the credentials and logs in. It then requests pages of active users, 100 per page, until the page number passes the page bound the platform reports. Each user is reduced to `id`, `name`, `email` and `state`.

The model replaces the platform SDK with abstract inputs:

- a login outcome;
- the outcome of the subject fetch;
- the outcome of the bulk replace;
- for the user listing, an oracle from a request's options to the page it answers.

Each handler returns the response it sends and the trace of remote calls it makes, in order.

Files:

- `api.dfy` (module `Api`): request bodies, the platform records, responses, the remote-call trace, and the fixed strings and constants.
- `validation.dfy` (module `Validation`): the UUID check and the credentials check. Both endpoints share the credentials check.
- `copy_roles.dfy` (module `CopyRoles`): the copy-roles handler as a pure function and grant flattening. It also gives the effect of a trace on the platform's grants, with overwrite and idempotence lemmas.
- `user_listing.dfy` (module `UserListing`): the pagination do-while loop as a method with invariants (`CollectActiveUsers`), the users handler (`ListUsers`), the page-bound update, and the user projection.

The user listing never caps the number of pages. So `CollectActiveUsers` takes a ghost page `last` at which the loop would stop: either that page is rejected, or its number plus one exceeds the bound. The method proves that the loop stops at the FIRST such page.

Points worth noting about the code (`index.js`), which the model follows:

- A failed login is reported with the fixed detail "Authentication failed" (index.js:49, 102), not the upstream message.
- `totalPages` is re-derived after every page, not fixed from the first page (index.js:122-126).
- `region` is only checked for truthiness, not against a table of known regions (index.js:29, 86).
- A first page with no entities does not end the loop by itself. Only the bound decides, so a reported page count of 3 still fetches pages 2 and 3.

## Model

| member | source | states |
|---|---|---|
| Validation.CheckCredentials | index.js:25-32 | accepts exactly when `credentials` exists and `clientId`, `clientSecret`, `region` are all non-empty strings; otherwise it yields 400 "Missing credentials"; the accepted values are the request's own |
| Validation.ValidateCopy | index.js:19-32 | a source or target ID that is absent or fails the UUID test gives 400 "Invalid UUID format", before the credentials are looked at; valid IDs with missing credentials give 400 "Missing credentials"; it accepts iff both checks pass, and then carries the request's IDs and credentials |
| CopyRoles.FlattenGrants | index.js:59-62 | same length and order as the remote grants; element i is `{roleId: grants[i].role.id, divisionId: grants[i].division.id}` |
| CopyRoles.SubjectGrants | index.js:59-62 | a subject without `grants` flattens to the empty list; otherwise element-wise flattening of its grants |
| CopyRoles.CopyValidated | index.js:34-79 | login is always the first call and uses the request's credentials; a failed login gives 500 "Authentication failed" and no other call; a failed fetch gives 500 with its message; an empty grant list gives 200 "No roles found for source user" with no replace; bulk replace is made (once, as the third call) iff login and fetch succeed and the list is non-empty, on the target ID with exactly the flattened list and subject type PC_USER; on success `assigned_roles` is that list, on failure 500 with the message |
| CopyRoles.CopyRolesHandler | index.js:18-80 | invalid UUIDs give 400 "Invalid UUID format" with no remote call; valid IDs with missing credentials give 400 "Missing credentials" with no remote call; an accepted request behaves as CopyValidated; the status is 400 iff no remote call was made, and is always 200, 400 or 500 |
| CopyRoles.ApplyCallsOverwrites | index.js:69 | a trace of bulk replaces overwrites the grants of each user it writes with the last list written, and leaves every other user unchanged |
| CopyRoles.CopyOverwritesTarget | index.js:69-74 | after a successful copy, the target holds exactly `assigned_roles`, and no other user's grants change |
| CopyRoles.CopyIsIdempotent | index.js:57-74 | when a copy answers 200, running it twice with unchanged source grants leaves the platform's grants as one run does |
| UserListing.CeilDiv | index.js:125 | the ceiling of total / pageSize for whole numbers: the least r with r * pageSize >= total |
| UserListing.NextTotalPages | index.js:122-126 | a truthy `pageCount` becomes the bound; else, when `pageCount` is undefined and `pageSize` and `total` are truthy, the bound is the ceiling of total / pageSize; else it is unchanged; a positive bound stays positive |
| UserListing.TotalPagesAfter | index.js:111-126 | the bound after any number of pages, starting from 1, is never below 1 |
| UserListing.CollectActiveUsers | index.js:108-128 | the loop requests pages 1, 2, 3, ... in turn (page size 100, state "active"), at least page 1; it stops at the first page that is rejected or after which `pageNumber > totalPages`; on success `allUsers` is the in-order concatenation of every fetched page's entities, where a page without entities adds nothing; on rejection the error message is passed on |
| UserListing.ProjectUsers | index.js:131-136 | same length and order as `allUsers`; element i keeps exactly `id`, `name`, `email` and `state` of record i |
| UserListing.ListUsers | index.js:83-141 | missing credentials give 400 "Missing credentials" with no remote call; login is the first call and uses the request's credentials; a failed login gives 500 "Authentication failed" and no other call; otherwise call i+1 requests page i for i = 1, 2, ..., ending at the first stopping page; the response is 200 with the projected users, or 500 with the rejecting page's message |
| UserListing.StopsAtReportedBound | index.js:112-128 | when every page reports the same bound k, the loop fetches exactly pages 1..k |
| UserListing.ThreePagesListed | index.js:112-128 | three pages reporting a page count of 3 are all fetched; the result is their entities in page order |
| UserListing.FallbackFetchesTwoPages | index.js:124-125 | with no page count, total 150 and page size 100, exactly two pages are fetched |

## Left out

- Express setup, CORS, JSON parsing, the health-check route and `app.listen` with its `PORT`/`RENDER` logging: HTTP framework and process I/O.
- The platform SDK (`loginClientCredentialsGrant`, `getAuthorizationSubject`, `postAuthorizationSubjectBulkreplace`, `getUsers`): network calls, modelled only as outcomes (`CopyRemote`) and an oracle (`UsersOracle`).
- `ApiClient.instance`, `setEnvironment` and the `PureCloudRegionHosts` lookup: process-wide SDK state, and the region table is not part of this model. Because this state is shared across requests, its concurrency hazard is not modelled.
- `uuid.validate`: the format test is the abstract `isUUID`. Only its rule that a non-string is never a UUID is modelled, as an absent field.
- `console.log` / `console.error` and async scheduling: logging and the event loop.
- JavaScript values outside the modelled shapes are left out:
  - credential fields and IDs are strings or absent (`Option<string>`);
  - page metadata is absent, null or a whole number;
  - `entities` is an array of user records or absent.
- Non-string credential values are not modelled. In the code a truthy one (such as the number 42) passes the check at index.js:25-32 and index.js:86 and is handed to the login call; a falsy one (such as 0) gets 400 "Missing credentials".
- Negative or fractional page metadata is not modelled. In the code a negative `pageCount` is truthy and becomes `totalPages` (index.js:122-123), so the loop ends after that page; a fractional `total` or `pageSize` simply goes through `Math.ceil` (index.js:125). None of these throw.
- A null page, a null subject, a grant without `role` or `division`, and a null element of `entities` are not modelled. Each raises a TypeError (at index.js:122, 59, 60-61 and 132 respectively) that the handler reports as 500; the message depends on the JavaScript engine.
- UserListing.CeilDiv: `Math.ceil` on floating point is modelled as integer ceiling division, which agrees for the whole-number totals and page sizes the platform reports.
- UserListing.CollectActiveUsers: termination is assumed through the ghost page `last` at which the loop stops. The code itself would loop forever if the reported bound kept growing.
- `err.message` of a rejection is modelled as the message string of a failed `Outcome`. An error without a message, which JSON would render without `detail`, is not modelled.
- The effect of a failed bulk replace on the platform is unknown. `ApplyCalls` describes the effect of a trace whose calls all succeeded.
