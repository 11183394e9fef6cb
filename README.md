# atproto-basic-notifications, modelled in Dafny

This is a Dafny model of the notification relay in `index.ts`. The relay watches a Jetstream
feed of record-creation events. It picks out the events that mention one target DID and
looks up the author's profile. When the record points at a Tangled repository or issue, it
also looks that up. It then POSTs a notification to an ntfy endpoint. All lookups go through
one module-level timed cache.

The model covers these parts:

- **TimedCache** (`timed_cache.dfy`) models `getWithCache`. `CacheGet` is the operation as a
  function on the map of entries. `Cache` is the object that holds the map and updates it in
  place. Expiry is lazy: an entry is used while `now - timestamp < lifetime`, and an expired
  entry is only overwritten.
- **Pds** (`pds.dfy`) models the fetcher inside `clientGetRecord`. It resolves the DID
  document, picks the first `#atproto_pds` / `AtprotoPersonalDataServer` service and checks
  that its endpoint is a non-empty string. It then calls `getRecord`, and the `catch` turns a
  thrown error into a failed response.
- **Resolvers** (`resolvers.dfy`) models `getProfile`, `clientGetRecord`, `getTangledRepo`
  and `getTangledIssue`. Each one maps the cache before the call to its result and the cache
  after it. The module also has the cache keys, the lifetimes (4× for profiles, 24× for
  `getRecord` responses, 1× for repositories and issues) and the sentinels `errorRepo` and
  `errorIssue`.
- **Formatters** (`formatters.dfy`) models `getId`, the post verb, the embed label, the
  message/URL/priority of each handler, and the headers that `sendNotification` builds.
- **MentionFilter** (`mention_filter.dfy`) models the watched collections, the handler table
  and the five-part test in the event loop.
- **Relay** (`relay.dfy`) models one iteration of the event loop (`HandleStep`) and a run
  over a finite stretch of the stream (`RunSpec`). The class `Relay` does the same work with
  methods on the shared cache object.
- **Text** (`text.dfy`) models the two JavaScript primitives used: `includes` and the
  `toString` of a priority.

The outside world is a value of type `Env`. It holds four functions: the URI parser,
DID-document resolution, `getRecord` against a PDS endpoint, and the public profile API. The
clock is the parameter `now`. A run pairs each event with its own clock reading.

Three parts of the intended behaviour do not hold in the code:

- An intended 24-hour cache for everything fetched from a repository. Here the model
  follows the code: only the `getRecord` responses live for 24 default lifetimes. The
  repository and issue values cached under their URIs use the default lifetime
  (index.ts:156, 176).
- A sentinel on every failed repository or issue lookup, and one cache entry per record.
  Here the model uses the corrected behaviour: the '/'-separated record key and the
  sentinel tests that accept any failed response. The members whose names end in
  `AsWritten` keep the code as written and show where it differs. See "Findings". Rows
  marked "(corrected)" below are about the corrected behaviour.

## Model

| member | source | states |
|---|---|---|
| Text.ContainsIff | index.ts:243-244 | `includes` is true exactly when the substring occurs at some index |
| Text.NatToString | index.ts:201 | `priority.toString()` is a non-empty string of decimal digits with no leading zero |
| Text.ParseNatToString | index.ts:201 | reading the priority header back as a number gives the priority |
| TimedCache.CacheGet | index.ts:52-71 | the fetcher runs exactly when there is no unexpired entry; a hit returns the stored value and leaves the map unchanged; a miss returns the fetched value and stores it stamped with `now` and `lifetime ?? CACHE_LIFETIME`; no other key changes and no key is removed |
| TimedCache.CacheGetWithinLifetime | index.ts:57-62 | a read within the lifetime of the entry a previous miss stored returns that value without fetching |
| TimedCache.CacheGetAfterLifetime | index.ts:60-70 | once that lifetime has passed, the next read fetches again and replaces the entry |
| TimedCache.Cache.constructor | index.ts:47-50 | the cache starts empty |
| TimedCache.Cache.Get | index.ts:52-71 | the in-place `getWithCache` returns and stores what `CacheGet` describes |
| TimedCache.Cache.Set | index.ts:65-69 | `cache.set` overwrites one entry, stamped with `now` |
| Pds.FindFirstPds | index.ts:96-99 | `find` returns the first service with id `#atproto_pds` and type `AtprotoPersonalDataServer`, or nothing when no service matches |
| Pds.PdsEndpoint | index.ts:96-103 | the endpoint is the first matching service's endpoint when that is a non-empty string; otherwise (no service list, no matching service, endpoint absent, not a string or empty) the result is the "No PDS service endpoint found" error |
| Pds.FetchRecord | index.ts:93-110 | an identity routed to a PDS gets exactly that PDS's answer; a record or XRPC error comes only from the PDS that the DID document advertises; an identity that does not resolve or has no PDS gives a thrown-error response and makes no request |
| Resolvers.ProfileKeyInjective | index.ts:122 | two different identities never share a profile entry |
| Resolvers.RecordCacheKeyInjective | index.ts:92 | (corrected) with '/' between the parts, two different (collection, repo, rkey) triples never share a response entry |
| Resolvers.RecordCacheKeyAsWrittenCollides | index.ts:92 | with the key as written, two different records in one collection share an entry, and the second is answered from the first's cached response |
| Resolvers.FetchProfile | index.ts:124-140 | an error body becomes the placeholder profile for that DID; a found profile is used as is |
| Resolvers.RepoFromResponse | index.ts:159-161 | (corrected) the repository name when the response is a record with a `name`, else `errorRepo` |
| Resolvers.IssueFromResponse | index.ts:179-184 | (corrected) for a record with a `title`, the record's title and its `repo` (absent when the record has none); `errorIssue` for anything else |
| Resolvers.UnroutableThrowsAsWritten | index.ts:157-159 | whenever the fetcher throws (the DID does not resolve, it has no PDS, or the request fails), the source's tests throw a TypeError, where the corrected tests give the sentinels |
| Resolvers.CorrectedAgreesAsWritten | index.ts:159-184 | wherever the source returns a value, the corrected tests return the same value |
| Resolvers.SentinelIsAmbiguous | index.ts:146-168 | a real repository named "Repository not found" looks the same as a failed lookup; the issue sentinel's title is that same text |
| Resolvers.ProfileStepPlaceholder | index.ts:120-143 | when nothing is cached and the profile API answers with an error, the result is the placeholder, cached for four lifetimes |
| Resolvers.UnparsableUriSentinel | index.ts:153-174 | an unparsable URI gives `errorRepo` / `errorIssue` and leaves the cache untouched |
| Resolvers.RepoStepHit | index.ts:156 | an unexpired entry under the repository URI is returned without any fetch, and the cache is unchanged |
| Resolvers.RepoStepUnroutable | index.ts:150-163 | (corrected) when the owner cannot be reached and nothing is cached, the result is `errorRepo`, and that failure is cached under the URI for the default lifetime |
| Resolvers.IssueStepUnroutable | index.ts:170-186 | (corrected) the same for issues: `errorIssue`, titled "Repository not found", is returned and cached |
| Resolvers.RepoStepFound | index.ts:150-163 | (corrected) on a miss, a repository record with a `name` gives that name; it is cached under the URI for the default lifetime, and the `getRecord` response under its record key for 24 lifetimes |
| Resolvers.IssueStepFound | index.ts:170-186 | (corrected) on a miss, an issue record with a `title` gives its title and `repo`; it is cached under the URI for the default lifetime, and the response under its record key for 24 lifetimes |
| Resolvers.ProfileStepKeepsKeys | index.ts:120-144 | `getProfile` removes no cache key |
| Resolvers.RecordStepKeepsKeys | index.ts:83-114 | `clientGetRecord` removes no cache key |
| Resolvers.RepoStepKeepsKeys | index.ts:150-163 | `getTangledRepo` removes no cache key |
| Resolvers.IssueStepKeepsKeys | index.ts:170-186 | `getTangledIssue` removes no cache key |
| Formatters.GetId | index.ts:116-118 | the result is the handle or the DID; it is the handle unless the handle is "handle.invalid"; it is "handle.invalid" only if the DID itself is |
| Formatters.GetIdPlaceholder | index.ts:132-138 | a placeholder profile is shown by its DID |
| Formatters.PostVerbSpec | index.ts:242-246 | the verb is "replied" exactly when the target DID occurs in the reply's parent or root URI, else "mentioned you" |
| Formatters.EmbedLabel | index.ts:232-238 | exactly the five listed embed types have a label |
| Formatters.PostMessagePrefix | index.ts:252-253 | a post message starts with "id verb: text", and without an embed that is the whole message |
| Formatters.PostMessageEmbed | index.ts:252-257 | with an embed the message is exactly "id verb: text", then a space only when the text is not empty, then "[label]" |
| Formatters.RepliedHello | index.ts:242-258 | a reply to the target saying "hello" contains "replied: hello" and links to `BSKY_URL/profile/did/post/rkey` |
| Formatters.ImagePostLabel | index.ts:254-256 | a post that is not a reply and has images ends with "[Image]" |
| Formatters.StarredWidgets | index.ts:297-307 | a star on repository "widgets" reads "starred widgets" and is sent at priority 2 |
| Formatters.CommentOnSentinelIssue | index.ts:336 | a comment on the sentinel issue still gives a message, naming "Repository not found" |
| Formatters.ToRequest | index.ts:196-205 | missing header fields become empty strings; the Priority header is the decimal priority with no leading zero, or 3 when there is none; the message is the body |
| MentionFilter.HandlerFor | index.ts:224-340 | a handler is found only under its own collection, which is a watched one |
| MentionFilter.HandlerTable | index.ts:213-222 | every handler is registered under its collection; the only watched collection without a handler is `sh.tangled.repo.issue.state` |
| MentionFilter.Dispatch | index.ts:351-366 | an event is dispatched only if it passes the filter, and then to the handler for its collection; every eligible event outside the issue-state collection is dispatched |
| MentionFilter.DispatchRequires | index.ts:351-361 | no event is dispatched when it is by the target, not a commit, not a creation, in an unwatched collection, or when the target DID does not occur in its serialised record |
| Relay.RejectedEventIsSilent | index.ts:351-366 | a rejected event, or one in the watched collection that has no handler, sends nothing and does not touch the cache |
| Relay.SentOnlyWhenDispatched | index.ts:362-366 | a notification is produced only for an eligible event with a handler |
| Relay.DispatchedIsSent | index.ts:224-366 | (corrected) handlers never give up: an event produces a notification exactly when it is dispatched and its record has the fields its handler reads, whatever the lookups return |
| Relay.PriorityByHandler | index.ts:201-306 | Bluesky follows, verifications and stars are sent at priority "2"; posts, Tangled follows, issues and comments at the default "3" |
| Relay.HandleStepKeepsKeys | index.ts:47-71 | handling an event never removes a cache entry |
| Relay.StarOnWidgets | index.ts:297-307 | (corrected) a star whose subject resolves on a miss to a repository named "widgets" is announced as "starred widgets" at priority 2, and the repository is cached under the subject URI |
| Relay.CommentOnUnreachableIssue | index.ts:324-339 | (corrected) a comment whose issue URI does not parse, or whose owner has no reachable PDS, is still announced with the sentinel title "Repository not found" |
| Relay.RunAppend | index.ts:350-370 | events are handled one after another: a run over `a + b` is a run over `a`, then a run over `b` from the cache that `a` left |
| Relay.RunSendsOnlyForDispatched | index.ts:350-370 | a run sends at most one request per dispatched event; a run where nothing passes the filter sends nothing and leaves the cache as it was |
| Relay.RunSendsPerDeliverable | index.ts:350-370 | (corrected) a run sends exactly one request per dispatched event whose record fits its handler, and none for any other |
| Relay.RunKeepsKeys | index.ts:350-370 | over a run the cache only grows |
| Relay.Relay.constructor | index.ts:47-50 | the relay starts with an empty cache |
| Relay.Relay.GetProfile | index.ts:120-144 | `getProfile` returns and stores what `ProfileStep` describes |
| Relay.Relay.ClientGetRecord | index.ts:83-114 | (corrected) `clientGetRecord` returns and stores what `RecordStep` describes |
| Relay.Relay.GetTangledRepo | index.ts:150-163 | (corrected) `getTangledRepo` returns and stores what `RepoStep` describes |
| Relay.Relay.GetTangledIssue | index.ts:170-186 | (corrected) `getTangledIssue` returns and stores what `IssueStep` describes |
| Relay.Relay.Notify | index.ts:224-340 | each handler makes the lookups of `HandlerStep`, in order, and produces its payload |
| Relay.Relay.HandleEvent | index.ts:350-369 | one loop iteration, with the cheap tests before the serialised-record test, does what `HandleStep` describes |
| Relay.Relay.Run | index.ts:350-370 | the loop over a finite stretch of events sends, in order, what `RunSpec` describes and leaves the cache it describes |

## Left out

- The Jetstream subscription and the unbounded `for await` loop (index.ts:345-350). `Run` handles a finite sequence of events. Stream closure and transport errors are not modelled.
- Network I/O (DID resolution, XRPC calls, the POST to ntfy) is replaced by the functions in `Env` and by the `Request` value that `sendNotification` would send. The oracles do not change during a run.
- Concurrency: handlers are called without `await`, so their lookups can interleave in the source. The model handles each event to completion before the next one.
- The clock: each event has one clock reading, which every cache read during that event uses. In the source, a fetcher's inner `getWithCache` reads `Date.now()` again, later.
- `process.env` (index.ts:34-43): the model uses the default values as constants.
- `JSON.stringify`: the serialised record is the field `recordText`. `parseCanonicalResourceUri` is `Env.parse`. When an issue has no `repo`, the model passes the string "undefined" to the parser, assuming the library coerces its argument that way.
- Logging, and the `"error" in res` check on the ntfy response (index.ts:208-210).
- A network exception thrown by the profile API. `getProfile` has no `catch`, so the handler's promise would reject. The model covers only an answer or an error body.
- Records whose shape does not match their collection's lexicon. For those, the post, star, issue and comment handlers give no payload and make no lookup. The source would read the missing fields. The follow and verification handlers work on any record, as in the source.
- Record fields that are not strings (for instance a numeric `name`): `RecordData` holds string-valued fields only.
- Cache hits on a value that another resolver stored under the same key. The model reads such a value the way the source's unchecked cast does: a missing field becomes "undefined". The source's exact behaviour for such a value is not captured.
- Capacity-based eviction does not exist in the source. The cache only grows, and the model proves that.

## Findings

| source | as written | input that shows it | evidently intended | confidence | as-written member | corrected member |
|---|---|---|---|---|---|---|
| index.ts:92 | the cache key of a `getRecord` response is `collection + repo + rkey`, with nothing between the parts | collection `sh.tangled.repo` with repo `did:web:a.com` and rkey `3x`, and the same collection with repo `did:web:a.com3` and rkey `x`: both give the key `sh.tangled.repodid:web:a.com3x`, so the second record is served the first record's response for 24 hours | one cache entry per (collection, repository, record key) | medium, not executed | Resolvers.RecordCacheKeyAsWrittenCollides | Resolvers.RecordCacheKeyInjective |
| index.ts:159 | the failure value `{ok: false, data: err}` built at index.ts:109 has no `error` field, so `"error" in repo` is false and `"name" in repo.value` is evaluated on `undefined`, which throws a TypeError; `getTangledRepo` then rejects instead of returning `errorRepo`, and the star, issue or comment handler sends nothing | a repository whose DID document has no `#atproto_pds` service (index.ts:101-102), or whose DID does not resolve | return `errorRepo` | high, not executed | Resolvers.UnroutableThrowsAsWritten | Resolvers.RepoStepUnroutable |
| index.ts:179 | the same for issues: `"title" in repo.value` throws on the failure value, so `getTangledIssue` rejects instead of returning `errorIssue` | an issue whose owner's DID document has no `#atproto_pds` service | return `errorIssue` | high, not executed | Resolvers.UnroutableThrowsAsWritten | Resolvers.IssueStepUnroutable |

In the model, `RecordCacheKeyAsWritten`, `RepoFromResponseAsWritten` and
`IssueFromResponseAsWritten` are the code as written. `RecordCacheKey`, `RepoFromResponse`
and `IssueFromResponse` are the corrected versions, and the rest of the model uses them.
`CorrectedAgreesAsWritten` shows that the corrected tests differ from the source only where
the source throws.
