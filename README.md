# Genesys Cloud API client — request decomposition and result assembly

This project models the core of the `GenesysCloud` client class (`src/index.ts`),
a thin TypeScript wrapper over the Genesys Cloud REST API. The core turns a
caller's bulk intent into bounded physical calls and reassembles the answers:

- **Bulk user lookup** (`getUsersByEmail`): the emails are deduplicated in
  first-occurrence order (`[...new Set(emails)]`), cut into groups of 50
  (lodash `chunk`), one EXACT-match search is posted per group, and the
  `results` of all searches are concatenated in group order (`Promise.all`
  followed by `flatMap`).
- **Bulk presence update** (`setBulkUserStatus`): the user ids, not
  deduplicated, are cut into groups of 50. Each group becomes a bulk presence
  document, one entry per id with source `PURECLOUD` and the status's
  presence definition id. The responses are concatenated in order.
- **Queue-member paginator** (`getQueueMembers`): a `while (uri)` loop fetches
  `/api/v2/routing/queues/{id}/members?pageSize=999`, then every `nextUri` in
  turn. It accumulates the members in page order and returns their
  `user.email`. Any failed fetch discards the list: a 404 becomes a
  `NotFoundError` naming the queue, anything else a plain
  `Error('failed to get queue members')`.
- **Envelope and body helpers**: the exactly-one check of `getUserByEmail`,
  the bodies of `joinQueuesForUser` and `addQueuesToUser`, and the
  `Authorization: Bearer …` header that `setAccessToken` and
  `loginWithClientCredentials` store on the client.

Files and modules:

- `seqs.dfy`, module `Seqs`: `Dedupe` (a JavaScript `Set` spread back into an
  array), `Chunk` (lodash `chunk`) and `Flatten`, with their lemmas.
- `http.dfy`, module `Http`: `Option`, `Result`, the axios rejection
  `HttpError`, the client's error kinds `ClientError`, requests as values
  (`Request`, carrying the Authorization header), and `JoinAll`, which models
  `Promise.all`.
- `genesys.dfy`, module `Genesys`: the payload shapes the core builds or
  reads (from `src/interfaces/genesyscloud.ts` and `src/enums/index.ts`),
  trimmed to the fields it touches.
- `client.dfy`, module `Client`: the class `GenesysCloud`. Its field
  `authorization` is the header that the token methods update in place. Its
  functions build the requests of each call from that field. Its method
  `GetQueueMembers` is the paginator loop.

The HTTP transport is a function parameter from a request to a response (or
an `HttpError`), one per endpoint shape. Because of this, a lookup's outcome
is a function of the transport's answers, and only the order of results is
observable. `Promise.all` becomes an order-preserving join that fails when
any request fails.

Three behaviours a reader might expect from such a client are not what the
code does, and the model follows the code:

- A single-user lookup whose `total` is not 1 throws a plain `Error`, not a
  not-found error (src/index.ts:50).
- No `InvalidArgument` error exists. The chunk size is always the constant
  50, and lodash `chunk` returns no groups for a size below 1, which `Chunk`
  keeps.
- `UnauthorizedError` is declared but never thrown.

## Model

| member | source | states |
|---|---|---|
| `Seqs.Dedupe` | src/index.ts:55 | the result has no repeated email, holds every input email and nothing else, and is no longer than the input |
| `Seqs.DedupeKeepsFirstOccurrenceOrder` | src/index.ts:55 | the distinct emails keep the order of their first occurrences in the input |
| `Seqs.DedupeOfDistinct` | src/index.ts:55 | a list with no repeats passes through deduplication unchanged |
| `Seqs.DedupeIdempotent` | src/index.ts:55 | deduplicating twice is the same as deduplicating once |
| `Seqs.Chunk` | src/index.ts:56 | there are no groups exactly when the input is empty (or the size is 0); every group holds 1 to `size` elements, and every group but the last holds exactly `size` |
| `Seqs.FlattenChunk` | src/index.ts:56 | concatenating the groups gives back the input: nothing lost, repeated or reordered |
| `Seqs.ChunkCount` | src/index.ts:56 | the number of groups is ceil(length / size) |
| `Seqs.FlattenMember` | src/index.ts:68 | every value of every response's list appears in the `flatMap` result |
| `Seqs.MemberOfFlatten` | src/index.ts:68 | every value of the `flatMap` result comes from one of the responses' lists |
| `Seqs.FlattenDistinctParts` | src/index.ts:56-59 | if the concatenation of the groups has no repeats, no group has repeats and no value lies in two groups |
| `Http.JoinAll` | src/index.ts:67 | succeeds exactly when every request succeeds, with the values in request order; otherwise fails with the error of one of the failed requests |
| `Client.EmailChunksPartitionInput` | src/index.ts:55-59 | every input email lies in exactly one search group, each group has distinct input emails only, the groups number ceil(distinct/50), and together they are the deduplicated input |
| `Client.ClientCredentialsRequest` | src/index.ts:29-34 | the token request goes to `https://login.mypurecloud.de/oauth/token` with body `grant_type=client_credentials` as a url-encoded form, the id as basic-auth username and the secret as password |
| `Client.SingleEmailSearchBody` | src/index.ts:44-48 | a single-user search is one EXACT criterion on the `email` field with the email as its `value`, expands `groups` only, enforces permissions and sends no paging fields |
| `Client.EmailSearchBody` | src/index.ts:58-64 | a group search is one EXACT criterion on the `email` field with the group as its `values`, expands `groups`, `presence` and `station`, enforces permissions and asks for page 1 of size 999 |
| `Client.GenesysCloud.UserSearchRequests` | src/index.ts:57-65 | one POST to `/api/v2/users/search` per email group, in group order, with the current Authorization header, whose body is the EXACT `email` search of exactly that group |
| `Client.GenesysCloud.GetUsersByEmail` | src/index.ts:67-68 | the lookup succeeds exactly when every search succeeds, and then returns the searches' `results` concatenated in request order; otherwise it fails with one failed search's error |
| `Client.GenesysCloud.UserByEmailRequest` | src/index.ts:44-49 | the single-user lookup is one POST to `/api/v2/users/search` with the current Authorization header and the single-email search body |
| `Client.GenesysCloud.GetUserByEmail` | src/index.ts:43-51 | succeeds exactly when the search succeeds and reports a total of exactly 1, returning the first result, or nothing when the result list is empty; any other total (0, 2, …) is a plain error whose message is `user with email `, then the email, then ` not found in genesys cloud`, never a NotFoundError; a transport failure propagates |
| `Client.PresenceEntries` | src/index.ts:89-95 | one entry per user id, in order, each with source `PURECLOUD` and the status's presence definition id |
| `Client.GenesysCloud.BulkPresenceRequestsCoverIds` | src/index.ts:87-96 | the bulk PUTs number ceil(ids/50); each carries 1 to 50 entries and all but the last carry exactly 50; their ids in order are the input ids, with no deduplication; every entry sets the status from PURECLOUD; every PUT carries the current Authorization header |
| `Client.GenesysCloud.BulkPresenceOf120` | src/index.ts:87-96 | 120 ids go out as three bulk calls of 50, 50 and 20 ids, in input order |
| `Client.GenesysCloud.SetBulkUserStatus` | src/index.ts:98-99 | the update succeeds exactly when every bulk call succeeds, and then returns the responses concatenated in request order; otherwise it fails with one failed call's error |
| `Client.GenesysCloud.JoinQueuesRequest` | src/index.ts:107-109 | one PATCH to `/api/v2/users/{userId}/queues` whose body has one `{id, joined}` per input queue, in order, all with the same `joined` flag |
| `Client.GenesysCloud.JoinQueuesForUser` | src/index.ts:107-110 | succeeds exactly when that PATCH succeeds; its failure propagates |
| `Client.GenesysCloud.AddQueueRequests` | src/index.ts:146-150 | one POST per queue id, in order, to that queue's `/members`, each with body `[{id: userId}]` and the current Authorization header |
| `Client.GenesysCloud.AddQueuesToUser` | src/index.ts:146-152 | succeeds exactly when every member-add request succeeds; otherwise fails with one failed request's error |
| `Client.Emails` | src/index.ts:130 | one email per queue member, in member order, each the member's `user.email` |
| `Client.MembersUri` | src/index.ts:123 | the first page is `/api/v2/routing/queues/`, then the queue id, then `/members?pageSize=999` |
| `Client.MembersError` | src/index.ts:131-133 | a NotFoundError exactly for status 404, its message `queue with id `, then the queue id, then ` not found`; any other failure becomes the plain error `failed to get queue members` |
| `Client.MembersOutcome` | src/index.ts:130-133 | a finished walk succeeds exactly when every fetch did, giving one email per member in member order; a failed walk gives the mapped error of its failed fetch |
| `Client.GenesysCloud.MembersRequest` | src/index.ts:126 | every page fetch is a GET of the URI exactly as given (the start URI or a page's `nextUri`) with the current Authorization header |
| `Client.GenesysCloud.Walk` | src/index.ts:125-129 | with no fetch budget nothing is known; a failed first fetch is the outcome, with that fetch's error; a successful walk starts with the first page's members |
| `Client.GenesysCloud.Trace` | src/index.ts:125-127 | a walk fetches no more URIs than its budget, and the first one is the start URI |
| `Client.GenesysCloud.LastPageEndsWalk` | src/index.ts:125-127 | a page whose `nextUri` is absent or the empty string ends the loop after that single fetch, with that page's members |
| `Client.GenesysCloud.WalkFuelIrrelevant` | src/index.ts:125-129 | once the `nextUri` chain has ended, a larger fetch budget changes neither the outcome nor the fetched URIs |
| `Client.GenesysCloud.WalkFollowsNextUri` | src/index.ts:123-129 | the first fetch is at the start URI and each later fetch at the previous page's non-empty `nextUri`; fetching stops at the first failure or the first page without a `nextUri`; a successful walk collects the pages' entities in fetch order; a failed one reports the last fetch's error |
| `Client.GenesysCloud.GetQueueMembers` | src/index.ts:121-135 | when the `nextUri` chain ends, the method fetches exactly the URIs of that chain and returns the members' emails in page order; on any failed fetch it returns no list but the mapped error |
| `Client.ThreePageQueue` | src/index.ts:123-130 | over a three-page queue the client fetches exactly the three linked pages, needs all three, and returns the emails of pages 1, 2 and 3 in order |
| `Client.SecondPageMissing` | src/index.ts:131-132 | when the second page answers 404, the first page's members are dropped and the call fails with NotFoundError `queue with id q2 not found` |
| `Client.GenesysCloud.constructor` | src/index.ts:23-26 | a new client has no Authorization header |
| `Client.GenesysCloud.SetAccessToken` | src/index.ts:39-41 | the Authorization header becomes `Bearer ` followed by the token |
| `Client.GenesysCloud.LoginWithClientCredentials` | src/index.ts:28-37 | posts the client-credentials form to the OAuth endpoint; on success it returns the token and sets the header to `Bearer ` followed by the token; on failure the error propagates and the header is unchanged |

## Left out

- Rate limiting (src/index.ts:23-26) is done by the `axios-rate-limit` library. It is based on time and a queue, and it only delays requests. It changes neither a request nor the order of results.
- The axios transport, the base URL and the OAuth HTTP exchange are I/O. They are function parameters from request to response. Headers other than Authorization are not modelled.
- Http.JoinAll: `Promise.all` issues every request at once and rejects with the failure that arrives first in time. The model reports the first failure in request order. Its contract, and the lemmas that use it, promise only the error of some failed request.
- Every request of a bulk call is issued, as in the source. Once one has failed, the outcomes of the others are not observable to the caller, so no contract speaks of them.
- Client.GenesysCloud.GetQueueMembers: the method requires that the `nextUri` chain ends after a finite number of fetches. The source loop has no bound, so a cyclic chain makes it fetch forever; that case is not modelled.
- Client.GenesysCloud.GetQueueMembers: calls are modelled as if no other call on the same client runs while they wait, so every page fetch carries the Authorization header held when the call started. In the source the loop awaits each page before the next GET (src/index.ts:125-126), and axios reads the instance's default header at each GET. A token set by `setAccessToken` or `loginWithClientCredentials` between two pages therefore reaches the later fetches. The bulk calls are not affected, because they build all their requests before the first wait (src/index.ts:57-66, 88-97, 147-150).
- JavaScript `TypeError`s caught by the same `catch` in `getQueueMembers` (a page without `entities`, a member without `user`) are not modelled. The payload types guarantee those fields.
- Client.GenesysCloud.GetUserByEmail: when the envelope reports a total of 1 with an empty `results` list, the source returns `undefined`. The model returns `Success(None)`.
- The class's other calls are out of scope. Each issues a single request with no decomposition or assembly:
  - `getUserStatus`, `setUserStatus` and `createCallback` return the response body.
  - `getQueuesForUser`, `getAllRoutingSkills` and `getAllQueues` return the response's `entities` (src/index.ts:104, 114, 143).
  - `addRoutingSkillsToUser` and `clearAssociatedStation` return nothing.
- Payload records keep only the fields the core builds or reads. The vendor's other fields are passed through opaquely.
