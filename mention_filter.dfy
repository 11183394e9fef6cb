/** Which Jetstream events become notifications, and which formatter
    handles each watched collection. */
module MentionFilter {
  import opened Wrappers
  import opened Text
  import opened Atproto

  /** The collections the subscription watches. */
  const WANTED_COLLECTIONS: seq<string> := [
    "app.bsky.feed.post",
    "app.bsky.feed.follow",
    "app.bsky.graph.verification",
    "sh.tangled.graph.follow",
    "sh.tangled.feed.star",
    "sh.tangled.repo.issue",
    "sh.tangled.repo.issue.comment",
    "sh.tangled.repo.issue.state"
  ]

  /** The entries of the handler table. */
  datatype Handler =
    | BskyPost | BskyFollow | BskyVerification
    | TangledFollow | TangledStar | TangledIssue | TangledIssueComment

  /** The collection each handler is registered under. */
  function CollectionOf(h: Handler): string {
    match h
    case BskyPost => "app.bsky.feed.post"
    case BskyFollow => "app.bsky.feed.follow"
    case BskyVerification => "app.bsky.graph.verification"
    case TangledFollow => "sh.tangled.graph.follow"
    case TangledStar => "sh.tangled.feed.star"
    case TangledIssue => "sh.tangled.repo.issue"
    case TangledIssueComment => "sh.tangled.repo.issue.comment"
  }

  /** `notificationHandlers[collection]`: the handler, or `undefined`. */
  function HandlerFor(collection: string): (h: Option<Handler>)
    ensures h.Some? ==> CollectionOf(h.value) == collection && collection in WANTED_COLLECTIONS
  {
    if collection == "app.bsky.feed.post" then Some(BskyPost)
    else if collection == "app.bsky.feed.follow" then Some(BskyFollow)
    else if collection == "app.bsky.graph.verification" then Some(BskyVerification)
    else if collection == "sh.tangled.graph.follow" then Some(TangledFollow)
    else if collection == "sh.tangled.feed.star" then Some(TangledStar)
    else if collection == "sh.tangled.repo.issue" then Some(TangledIssue)
    else if collection == "sh.tangled.repo.issue.comment" then Some(TangledIssueComment)
    else None
  }

  /** Every handler is found under its own collection, and the one wanted collection
      without a handler is the issue-state collection. */
  lemma HandlerTable(h: Handler, collection: string)
    ensures HandlerFor(CollectionOf(h)) == Some(h)
    ensures collection in WANTED_COLLECTIONS && HandlerFor(collection).None? <==>
            collection == "sh.tangled.repo.issue.state"
  {
  }

  /** The test the event loop makes before dispatching: not by the target, a commit,
      a creation, a watched collection, and the serialised record mentions the target. */
  predicate Eligible(e: Event) {
    && e.did != TARGET_DID
    && e.CommitEvent?
    && e.commit.operation == Create
    && e.commit.collection in WANTED_COLLECTIONS
    && Contains(e.commit.recordText, TARGET_DID)
  }

  /** The handler an event is dispatched to, if any. */
  function Dispatch(e: Event): (h: Option<Handler>)
    ensures h.Some? ==> Eligible(e) && CollectionOf(h.value) == e.commit.collection
    ensures Eligible(e) && e.commit.collection != "sh.tangled.repo.issue.state" ==> h.Some?
  {
    if Eligible(e) then HandlerFor(e.commit.collection) else None
  }

  /** An event is dispatched only if every one of the five conditions holds; the mention
      test is substring occurrence of the target's DID in the serialised record. */
  lemma DispatchRequires(e: Event)
    ensures e.did == TARGET_DID ==> Dispatch(e).None?
    ensures !e.CommitEvent? ==> Dispatch(e).None?
    ensures e.CommitEvent? && e.commit.operation != Create ==> Dispatch(e).None?
    ensures e.CommitEvent? && e.commit.collection !in WANTED_COLLECTIONS ==> Dispatch(e).None?
    ensures e.CommitEvent? && (forall i :: !OccursAt(e.commit.recordText, TARGET_DID, i)) ==> Dispatch(e).None?
  {
    if e.CommitEvent? {
      ContainsIff(e.commit.recordText, TARGET_DID);
    }
  }
}
