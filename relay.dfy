/** The relay itself: per event, the filter, the handler, the lookups it makes
    through the shared cache, and the request sent to the push endpoint.
    `HandleStep` and `RunSpec` say what one event and a run of events do to
    the cache and what they send; the class `Relay` does the same in place. */
module Relay {
  import opened Wrappers
  import opened Text
  import opened Atproto
  import opened TimedCache
  import opened Resolvers
  import opened Formatters
  import opened MentionFilter

  /** One handler on one record: the lookups it makes, in order, and its payload. A record
      that lacks the fields its collection's handler reads gives no payload. */
  function HandlerStep(h: Handler, m: CacheMap, did: string, rkey: string, record: Record,
                       now: int, env: Env): (Option<Payload>, CacheMap)
  {
    match h
    case BskyPost =>
      if !record.PostRecord? then (None, m)
      else
        var pr := ProfileStep(m, did, now, env);
        (Some(PostPayload(pr.0, rkey, record.text, record.reply, record.embedType)), pr.1)
    case BskyFollow =>
      var pr := ProfileStep(m, did, now, env);
      (Some(BskyFollowPayload(pr.0)), pr.1)
    case BskyVerification =>
      var pr := ProfileStep(m, did, now, env);
      var uri := if record.VerificationRecord? then record.uri else None;
      (Some(VerificationPayload(pr.0, uri)), pr.1)
    case TangledFollow =>
      var pr := ProfileStep(m, did, now, env);
      (Some(TangledFollowPayload(pr.0)), pr.1)
    case TangledStar =>
      if !record.StarRecord? then (None, m)
      else
        var pr := ProfileStep(m, did, now, env);
        var rr := RepoStep(pr.1, record.subject, now, env);
        (Some(StarPayload(pr.0, rr.0)), rr.1)
    case TangledIssue =>
      if !record.IssueRecord? then (None, m)
      else
        var pr := ProfileStep(m, did, now, env);
        var rr := RepoStep(pr.1, record.repo, now, env);
        (Some(IssuePayload(pr.0, rr.0, record.title, record.body)), rr.1)
    case TangledIssueComment =>
      if !record.IssueCommentRecord? then (None, m)
      else
        var pr := ProfileStep(m, did, now, env);
        var ir := IssueStep(pr.1, record.issue, now, env);
        var rr := RepoStep(ir.1, Show(ir.0.repo), now, env);
        (Some(IssueCommentPayload(pr.0, ir.0, rr.0, record.body)), rr.1)
  }

  /** One iteration of the event loop. */
  function HandleStep(m: CacheMap, e: Event, now: int, env: Env): (Option<Payload>, CacheMap) {
    match Dispatch(e)
    case None => (None, m)
    case Some(h) => HandlerStep(h, m, e.did, e.commit.rkey, e.commit.record, now, env)
  }

  /** An event together with the clock reading at which it is handled. */
  datatype Arrival = Arrival(event: Event, at: int)

  /** The requests one payload turns into. */
  function Sent(payload: Option<Payload>): seq<Request> {
    if payload.Some? then [ToRequest(payload.value)] else []
  }

  /** What the loop does with one arrival: the payload it produces and the cache afterwards. */
  type Stepper = (CacheMap, Arrival) -> (Option<Payload>, CacheMap)

  /** A stepper applied to each arrival in turn: the requests sent, in order, and the
      cache afterwards. */
  function Fold(m: CacheMap, arrivals: seq<Arrival>, step: Stepper): (seq<Request>, CacheMap)
    decreases |arrivals|
  {
    if arrivals == [] then ([], m)
    else
      var first := step(m, arrivals[0]);
      var rest := Fold(first.1, arrivals[1..], step);
      (Sent(first.0) + rest.0, rest.1)
  }

  /** The loop's own stepper: `HandleStep` at the arrival's clock reading. */
  function EventStep(env: Env): Stepper {
    (c: CacheMap, x: Arrival) => HandleStep(c, x.event, x.at, env)
  }

  /** A run of the event loop over `arrivals`, one event at a time. */
  function RunSpec(m: CacheMap, arrivals: seq<Arrival>, env: Env): (seq<Request>, CacheMap) {
    Fold(m, arrivals, EventStep(env))
  }

  // ---------------------------------------------------------------- properties

  /** An event the filter rejects, or one in a watched collection without a handler, sends
      nothing and leaves the cache as it was. */
  lemma RejectedEventIsSilent(m: CacheMap, e: Event, now: int, env: Env)
    requires !Eligible(e) || e.commit.collection == "sh.tangled.repo.issue.state"
    ensures HandleStep(m, e, now, env) == (None, m)
  {
  }

  /** Something is sent only for an eligible event in a handled collection. */
  lemma SentOnlyWhenDispatched(m: CacheMap, e: Event, now: int, env: Env)
    requires HandleStep(m, e, now, env).0.Some?
    ensures Eligible(e) && HandlerFor(e.commit.collection).Some?
  {
  }

  /** The record carries the fields its handler reads; the follow and verification
      handlers read none, so any record will do for them. */
  predicate Shaped(h: Handler, record: Record) {
    match h
    case BskyPost => record.PostRecord?
    case TangledStar => record.StarRecord?
    case TangledIssue => record.IssueRecord?
    case TangledIssueComment => record.IssueCommentRecord?
    case _ => true
  }

  /** A dispatched event whose record fits its handler. */
  predicate Deliverable(e: Event) {
    Dispatch(e).Some? && Shaped(Dispatch(e).value, e.commit.record)
  }

  /** Handlers never give up: a notification is produced exactly for the dispatched events
      whose record fits the handler, whatever the lookups return. */
  lemma DispatchedIsSent(m: CacheMap, e: Event, now: int, env: Env)
    ensures HandleStep(m, e, now, env).0.Some? <==> Deliverable(e)
  {
  }

  /** Follows, verifications and stars go out at priority 2, everything else at the default 3. */
  lemma PriorityByHandler(h: Handler, m: CacheMap, did: string, rkey: string, record: Record, now: int, env: Env)
    requires HandlerStep(h, m, did, rkey, record, now, env).0.Some?
    ensures ToRequest(HandlerStep(h, m, did, rkey, record, now, env).0.value).priority ==
            if h in {BskyFollow, BskyVerification, TangledStar} then "2" else "3"
  {
    assert NatToString(2) == "2";
  }

  /** Handling an event never removes a cache entry. */
  lemma HandleStepKeepsKeys(m: CacheMap, e: Event, now: int, env: Env)
    ensures m.Keys <= HandleStep(m, e, now, env).1.Keys
  {
    match Dispatch(e)
    case None =>
    case Some(h) =>
      var did, rkey, record := e.did, e.commit.rkey, e.commit.record;
      var pr := ProfileStep(m, did, now, env);
      ProfileStepKeepsKeys(m, did, now, env);
      match h
      case TangledStar =>
        if record.StarRecord? { RepoStepKeepsKeys(pr.1, record.subject, now, env); }
      case TangledIssue =>
        if record.IssueRecord? { RepoStepKeepsKeys(pr.1, record.repo, now, env); }
      case TangledIssueComment =>
        if record.IssueCommentRecord? {
          var ir := IssueStep(pr.1, record.issue, now, env);
          IssueStepKeepsKeys(pr.1, record.issue, now, env);
          RepoStepKeepsKeys(ir.1, Show(ir.0.repo), now, env);
        }
      case _ =>
  }

  /** A comment on an issue whose owner cannot be routed to a PDS (or whose URI does not
      parse) is still announced, with the sentinel title "Repository not found". */
  lemma CommentOnUnreachableIssue(m: CacheMap, e: Event, now: int, env: Env)
    requires Dispatch(e) == Some(TangledIssueComment) && e.commit.record.IssueCommentRecord?
    requires var issueUri := e.commit.record.issue;
             var pm := ProfileStep(m, e.did, now, env).1;
             && FreshValue(pm, issueUri, now).None?
             && (env.parse(issueUri).None? ||
                 (Pds.FetchRecord(env, env.parse(issueUri).value).Thrown? &&
                  FreshValue(pm, RecordCacheKey(env.parse(issueUri).value), now).None?))
    ensures HandleStep(m, e, now, env).0.Some?
    ensures Contains(HandleStep(m, e, now, env).0.value.message.value, "Repository not found")
  {
    var issueUri := e.commit.record.issue;
    var pr := ProfileStep(m, e.did, now, env);
    if env.parse(issueUri).None? {
      UnparsableUriSentinel(pr.1, issueUri, now, env);
    } else {
      IssueStepUnroutable(pr.1, issueUri, now, env);
    }
    var ir := IssueStep(pr.1, issueUri, now, env);
    var rr := RepoStep(ir.1, Show(ir.0.repo), now, env);
    CommentOnSentinelIssue(pr.0, rr.0, e.commit.record.body);
  }

  /** A star by someone else on a repository that resolves to "widgets" is announced as
      "starred widgets" at priority 2, with the repository looked up and cached on the way. */
  lemma StarOnWidgets(m: CacheMap, e: Event, now: int, env: Env)
    requires Dispatch(e) == Some(TangledStar) && e.commit.record.StarRecord?
    requires var subject := e.commit.record.subject;
             var pm := ProfileStep(m, e.did, now, env).1;
             && env.parse(subject).Some?
             && subject != RecordCacheKey(env.parse(subject).value)
             && FreshValue(pm, subject, now).None?
             && FreshValue(pm, RecordCacheKey(env.parse(subject).value), now).None?
             && var data := Pds.FetchRecord(env, env.parse(subject).value);
                data.RecordData? && "name" in data.value && data.value["name"] == "widgets"
    ensures var (payload, m') := HandleStep(m, e, now, env);
            && payload.Some?
            && Contains(payload.value.message.value, "starred widgets")
            && ToRequest(payload.value).priority == "2"
            && m'[e.commit.record.subject] == Entry(RepoValue(Repo("widgets")), now, CACHE_LIFETIME)
  {
    var pr := ProfileStep(m, e.did, now, env);
    RepoStepFound(pr.1, e.commit.record.subject, now, env);
    StarredWidgets(pr.0);
  }

  /** Folding over `a + b` is folding over `a`, then over `b` from where `a` left off. */
  lemma {:induction false} FoldAppend(m: CacheMap, a: seq<Arrival>, b: seq<Arrival>, step: Stepper)
    ensures var first := Fold(m, a, step);
            var second := Fold(first.1, b, step);
            Fold(m, a + b, step) == (first.0 + second.0, second.1)
    decreases |a|
  {
    if a == [] {
      assert a + b == b;
      var out := Fold(m, b, step).0;
      assert [] + out == out;
    } else {
      assert (a + b)[1..] == a[1..] + b;
      assert (a + b)[0] == a[0];
      var first := step(m, a[0]);
      FoldAppend(first.1, a[1..], b, step);
      var rest := Fold(first.1, a[1..], step);
      var after := Fold(rest.1, b, step);
      assert Sent(first.0) + (rest.0 + after.0) == (Sent(first.0) + rest.0) + after.0;
    }
  }

  /** Events are processed strictly one after another: a run over `a + b` is a run over `a`
      followed by a run over `b` from the cache `a` left behind. */
  lemma RunAppend(m: CacheMap, a: seq<Arrival>, b: seq<Arrival>, env: Env)
    ensures var first := RunSpec(m, a, env);
            var second := RunSpec(first.1, b, env);
            RunSpec(m, a + b, env) == (first.0 + second.0, second.1)
  {
    FoldAppend(m, a, b, EventStep(env));
  }

  /** A run from position `i` handles the event at `i`, then runs from `i + 1`. */
  lemma RunFrom(m: CacheMap, arrivals: seq<Arrival>, i: nat, env: Env)
    requires i < |arrivals|
    ensures var step := HandleStep(m, arrivals[i].event, arrivals[i].at, env);
            var rest := RunSpec(step.1, arrivals[i + 1..], env);
            RunSpec(m, arrivals[i..], env) == (Sent(step.0) + rest.0, rest.1)
  {
    assert arrivals[i..][0] == arrivals[i];
    assert arrivals[i..][1..] == arrivals[i + 1..];
  }

  /** The number of arrivals the filter dispatches to a handler. */
  function Dispatched(arrivals: seq<Arrival>): nat
    decreases |arrivals|
  {
    if arrivals == [] then 0
    else (if Dispatch(arrivals[0].event).Some? then 1 else 0) + Dispatched(arrivals[1..])
  }

  /** At most one request per dispatched event: a run in which the filter passes nothing
      sends nothing and leaves the cache untouched. */
  lemma {:induction false} RunSendsOnlyForDispatched(m: CacheMap, arrivals: seq<Arrival>, env: Env)
    ensures |RunSpec(m, arrivals, env).0| <= Dispatched(arrivals)
    ensures Dispatched(arrivals) == 0 ==> RunSpec(m, arrivals, env) == ([], m)
    decreases |arrivals|
  {
    if arrivals != [] {
      var step := HandleStep(m, arrivals[0].event, arrivals[0].at, env);
      RunSendsOnlyForDispatched(step.1, arrivals[1..], env);
    }
  }

  /** The number of arrivals that are deliverable. */
  function Delivered(arrivals: seq<Arrival>): nat
    decreases |arrivals|
  {
    if arrivals == [] then 0
    else (if Deliverable(arrivals[0].event) then 1 else 0) + Delivered(arrivals[1..])
  }

  /** A run sends exactly one request per deliverable event, and none for any other. */
  lemma {:induction false} RunSendsPerDeliverable(m: CacheMap, arrivals: seq<Arrival>, env: Env)
    ensures |RunSpec(m, arrivals, env).0| == Delivered(arrivals)
    decreases |arrivals|
  {
    if arrivals != [] {
      var step := HandleStep(m, arrivals[0].event, arrivals[0].at, env);
      DispatchedIsSent(m, arrivals[0].event, arrivals[0].at, env);
      RunSendsPerDeliverable(step.1, arrivals[1..], env);
    }
  }

  /** The cache only grows over a run: nothing is ever evicted. */
  lemma {:induction false} RunKeepsKeys(m: CacheMap, arrivals: seq<Arrival>, env: Env)
    ensures m.Keys <= RunSpec(m, arrivals, env).1.Keys
    decreases |arrivals|
  {
    if arrivals != [] {
      HandleStepKeepsKeys(m, arrivals[0].event, arrivals[0].at, env);
      var step := HandleStep(m, arrivals[0].event, arrivals[0].at, env);
      RunKeepsKeys(step.1, arrivals[1..], env);
    }
  }

  // ---------------------------------------------------------------- the running relay

  class Relay {
    const env: Env
    const cache: Cache<CachedValue>

    constructor (env: Env)
      ensures this.env == env && fresh(cache) && cache.entries == map[]
    {
      this.env := env;
      cache := new Cache<CachedValue>();
    }

    /** `getProfile`. */
    method GetProfile(did: string, now: int) returns (profile: Profile)
      modifies cache
      ensures (profile, cache.entries) == ProfileStep(old(cache.entries), did, now, env)
    {
      var value, _ := cache.Get(ProfileKey(did), ProfileValue(FetchProfile(env, did)), Some(PROFILE_LIFETIME), now);
      profile := AsProfile(value);
    }

    /** `clientGetRecord`. */
    method ClientGetRecord(uri: ParsedUri, now: int) returns (data: ResponseData)
      modifies cache
      ensures (data, cache.entries) == RecordStep(old(cache.entries), uri, now, env)
    {
      var value, _ := cache.Get(RecordCacheKey(uri), ResponseValue(Pds.FetchRecord(env, uri)), Some(RECORD_LIFETIME), now);
      data := AsResponse(value);
    }

    /** `getTangledRepo`: its fetcher calls `clientGetRecord`, so the cache read and the
        cache write of `getWithCache` happen around that call. */
    method GetTangledRepo(uri: string, now: int) returns (repo: Repo)
      modifies cache
      ensures (repo, cache.entries) == RepoStep(old(cache.entries), uri, now, env)
    {
      var parsed := env.parse(uri);
      if parsed.None? {
        return ERROR_REPO;
      }
      if uri in cache.entries && IsFresh(cache.entries[uri], now) {
        return AsRepo(cache.entries[uri].value);
      }
      var data := ClientGetRecord(parsed.value, now);
      repo := RepoFromResponse(data);
      cache.Set(uri, RepoValue(repo), None, now);
    }

    /** `getTangledIssue`. */
    method GetTangledIssue(uri: string, now: int) returns (issue: Issue)
      modifies cache
      ensures (issue, cache.entries) == IssueStep(old(cache.entries), uri, now, env)
    {
      var parsed := env.parse(uri);
      if parsed.None? {
        return ERROR_ISSUE;
      }
      if uri in cache.entries && IsFresh(cache.entries[uri], now) {
        return AsIssue(cache.entries[uri].value);
      }
      var data := ClientGetRecord(parsed.value, now);
      issue := IssueFromResponse(data);
      cache.Set(uri, IssueValue(issue), None, now);
    }

    /** The entry of `notificationHandlers` for `h`, applied to one record. */
    method Notify(h: Handler, did: string, rkey: string, record: Record, now: int) returns (payload: Option<Payload>)
      modifies cache
      ensures (payload, cache.entries) == HandlerStep(h, old(cache.entries), did, rkey, record, now, env)
    {
      match h
      case BskyPost =>
        if !record.PostRecord? { return None; }
        var profile := GetProfile(did, now);
        payload := Some(PostPayload(profile, rkey, record.text, record.reply, record.embedType));
      case BskyFollow =>
        var profile := GetProfile(did, now);
        payload := Some(BskyFollowPayload(profile));
      case BskyVerification =>
        var profile := GetProfile(did, now);
        payload := Some(VerificationPayload(profile, if record.VerificationRecord? then record.uri else None));
      case TangledFollow =>
        var profile := GetProfile(did, now);
        payload := Some(TangledFollowPayload(profile));
      case TangledStar =>
        if !record.StarRecord? { return None; }
        var profile := GetProfile(did, now);
        var repo := GetTangledRepo(record.subject, now);
        payload := Some(StarPayload(profile, repo));
      case TangledIssue =>
        if !record.IssueRecord? { return None; }
        var profile := GetProfile(did, now);
        var repo := GetTangledRepo(record.repo, now);
        payload := Some(IssuePayload(profile, repo, record.title, record.body));
      case TangledIssueComment =>
        if !record.IssueCommentRecord? { return None; }
        var profile := GetProfile(did, now);
        var issue := GetTangledIssue(record.issue, now);
        var repo := GetTangledRepo(Show(issue.repo), now);
        payload := Some(IssueCommentPayload(profile, issue, repo, record.body));
    }

    /** The body of the event loop: the cheap tests first, the serialised-record test
        only for watched creations, then the handler lookup. */
    method HandleEvent(e: Event, now: int) returns (payload: Option<Payload>)
      modifies cache
      ensures (payload, cache.entries) == HandleStep(old(cache.entries), e, now, env)
    {
      payload := None;
      if e.did != TARGET_DID && e.CommitEvent? {
        var commit := e.commit;
        if commit.operation == Create && commit.collection in WANTED_COLLECTIONS {
          if Contains(commit.recordText, TARGET_DID) {
            var handler := HandlerFor(commit.collection);
            if handler.Some? {
              payload := Notify(handler.value, e.did, commit.rkey, commit.record, now);
            }
          }
        }
      }
    }

    /** The event loop over a finite stretch of the stream: each event is handled to the
        end, and its notification sent, before the next is taken. */
    method Run(arrivals: seq<Arrival>) returns (sent: seq<Request>)
      modifies cache
      ensures (sent, cache.entries) == RunSpec(old(cache.entries), arrivals, env)
    {
      sent := [];
      var i := 0;
      assert arrivals[0..] == arrivals;
      assert [] + RunSpec(cache.entries, arrivals, env).0 == RunSpec(cache.entries, arrivals, env).0;
      while i < |arrivals|
        invariant 0 <= i <= |arrivals|
        invariant RunSpec(old(cache.entries), arrivals, env) ==
                  (sent + RunSpec(cache.entries, arrivals[i..], env).0, RunSpec(cache.entries, arrivals[i..], env).1)
      {
        ghost var before := cache.entries;
        var payload := HandleEvent(arrivals[i].event, arrivals[i].at);
        RunFrom(before, arrivals, i, env);
        ghost var rest := RunSpec(cache.entries, arrivals[i + 1..], env);
        assert sent + (Sent(payload) + rest.0) == (sent + Sent(payload)) + rest.0;
        sent := sent + Sent(payload);
        i := i + 1;
      }
      assert arrivals[i..] == [];
      assert sent + [] == sent;
    }
  }
}
