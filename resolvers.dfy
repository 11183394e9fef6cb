/** Profile and record resolution through the shared timed cache:
    `getProfile`, `clientGetRecord`, `getTangledRepo` and `getTangledIssue`.
    Each resolver is a function from the cache contents before the call to
    its result and the cache contents after it; the class `Relay` runs the
    same steps in place on a `Cache` object. */
module Resolvers {
  import opened Wrappers
  import opened Atproto
  import opened TimedCache
  import Pds

  /** Profiles live four default lifetimes, `getRecord` responses twenty-four. */
  const PROFILE_LIFETIME: nat := CACHE_LIFETIME * 4
  const RECORD_LIFETIME: nat := CACHE_LIFETIME * 24

  /** The part of a repository record the relay reads. */
  datatype Repo = Repo(name: string)
  /** The part of an issue record the relay reads; `repo` may be absent. */
  datatype Issue = Issue(title: string, repo: Option<string>)

  /** The sentinel values returned when a repository or an issue cannot be read. */
  const ERROR_REPO: Repo := Repo("Repository not found")
  const ERROR_ISSUE: Issue := Issue("Repository not found", Some("at://did:web:fake/nope.nada/nada"))

  /** The profile that stands in when the profile API answers with an error. */
  function PlaceholderProfile(did: string): Profile {
    Profile(did, INVALID_HANDLE, Some("silent error!"), None)
  }

  /** What the one shared cache holds: each resolver stores its own kind of value. */
  datatype CachedValue =
    | ProfileValue(profile: Profile)
    | ResponseValue(data: ResponseData)
    | RepoValue(repo: Repo)
    | IssueValue(issue: Issue)

  type CacheMap = Entries<CachedValue>

  // A hit always returns the stored object, cast without a check. When the key was
  // stored by another resolver, the fields the caller reads are missing and render
  // as "undefined"; an object without `error` or `value` reads as a thrown error would.

  function AsProfile(v: CachedValue): Profile {
    if v.ProfileValue? then v.profile else Profile(UNDEFINED, UNDEFINED, None, None)
  }

  function AsResponse(v: CachedValue): ResponseData {
    if v.ResponseValue? then v.data else Thrown(UNDEFINED)
  }

  function AsRepo(v: CachedValue): Repo {
    if v.RepoValue? then v.repo else Repo(UNDEFINED)
  }

  function AsIssue(v: CachedValue): Issue {
    if v.IssueValue? then v.issue else Issue(UNDEFINED, None)
  }

  // ---------------------------------------------------------------- cache keys

  /** The key of a cached profile. */
  function ProfileKey(did: string): string {
    "bskyProfile_" + did
  }

  /** Distinct identities never share a profile entry. */
  lemma ProfileKeyInjective(a: string, b: string)
    requires ProfileKey(a) == ProfileKey(b)
    ensures a == b
  {
    assert a == ProfileKey(a)[12..];
    assert b == ProfileKey(b)[12..];
  }

  /** The key of a cached `getRecord` response as the source writes it:
      `collection + repo + rkey`, with nothing between the parts. */
  function RecordCacheKeyAsWritten(uri: ParsedUri): string {
    uri.collection + uri.repo + uri.rkey
  }

  /** Two different records in the same collection share that key: a `did:web` identity
      may be a prefix of another, so the second record is answered from the first's entry. */
  lemma RecordCacheKeyAsWrittenCollides(first: ResponseData, second: ResponseData, now: int)
    ensures var p := ParsedUri("did:web:a.com", "sh.tangled.repo", "3x");
            var q := ParsedUri("did:web:a.com3", "sh.tangled.repo", "x");
            var stored := CacheGet(map[], RecordCacheKeyAsWritten(p), ResponseValue(first), Some(RECORD_LIFETIME), now);
            && p != q
            && RecordCacheKeyAsWritten(p) == RecordCacheKeyAsWritten(q)
            && CacheGet(stored.entries, RecordCacheKeyAsWritten(q), ResponseValue(second), Some(RECORD_LIFETIME), now)
               == Got(ResponseValue(first), stored.entries, false)
  {
    var p := ParsedUri("did:web:a.com", "sh.tangled.repo", "3x");
    var q := ParsedUri("did:web:a.com3", "sh.tangled.repo", "x");
    assert RecordCacheKeyAsWritten(p) == "sh.tangled.repodid:web:a.com3x";
    assert RecordCacheKeyAsWritten(q) == "sh.tangled.repodid:web:a.com3x";
  }

  /** No '/' occurs in `s`: true of DIDs, collection NSIDs and record keys. */
  predicate NoSlash(s: string) {
    forall i :: 0 <= i < |s| ==> s[i] != '/'
  }

  /** The key of a cached `getRecord` response, with the parts separated by '/'. */
  function RecordCacheKey(uri: ParsedUri): string {
    uri.collection + "/" + uri.repo + "/" + uri.rkey
  }

  /** The index of the first '/' in `s` (`|s|` when there is none). */
  function FirstSlash(s: string): nat {
    if s == [] || s[0] == '/' then 0 else 1 + FirstSlash(s[1..])
  }

  lemma {:induction false} FirstSlashAfter(a: string, x: string)
    requires NoSlash(a)
    ensures FirstSlash(a + "/" + x) == |a|
  {
    if a != [] {
      assert (a + "/" + x)[1..] == a[1..] + "/" + x;
      FirstSlashAfter(a[1..], x);
    }
  }

  /** Splitting at the first '/' is unambiguous. */
  lemma SplitAtSlash(a: string, x: string, b: string, y: string)
    requires NoSlash(a) && NoSlash(b)
    requires a + "/" + x == b + "/" + y
    ensures a == b && x == y
  {
    var s := a + "/" + x;
    FirstSlashAfter(a, x);
    FirstSlashAfter(b, y);
    assert a == s[..|a|];
    assert b == (b + "/" + y)[..|b|];
    assert x == s[|a| + 1..];
    assert y == (b + "/" + y)[|b| + 1..];
  }

  /** Different records never share a response entry. */
  lemma RecordCacheKeyInjective(p: ParsedUri, q: ParsedUri)
    requires NoSlash(p.collection) && NoSlash(p.repo) && NoSlash(p.rkey)
    requires NoSlash(q.collection) && NoSlash(q.repo) && NoSlash(q.rkey)
    requires RecordCacheKey(p) == RecordCacheKey(q)
    ensures p == q
  {
    assert RecordCacheKey(p) == p.collection + "/" + (p.repo + "/" + p.rkey);
    assert RecordCacheKey(q) == q.collection + "/" + (q.repo + "/" + q.rkey);
    SplitAtSlash(p.collection, p.repo + "/" + p.rkey, q.collection, q.repo + "/" + q.rkey);
    SplitAtSlash(p.repo, p.rkey, q.repo, q.rkey);
  }

  // ---------------------------------------------------------------- fetchers

  /** `getProfile`'s fetcher: the profile, or the placeholder for an error body. */
  function FetchProfile(env: Env, did: string): (p: Profile)
    ensures env.getProfile(did).ProfileError? ==> p == PlaceholderProfile(did)
    ensures env.getProfile(did).ProfileFound? ==> p == env.getProfile(did).profile
  {
    match env.getProfile(did)
    case ProfileFound(profile) => profile
    case ProfileError(_) => PlaceholderProfile(did)
  }

  /** `getTangledRepo`'s test as the source writes it: `"error" in data` is false for the
      `{ok: false, data: err}` of a thrown error, so `"name" in data.value` is evaluated on
      `undefined` and throws a TypeError. */
  function RepoFromResponseAsWritten(data: ResponseData): Result<Repo, string> {
    match data
    case ErrorData(_) => Success(ERROR_REPO)
    case RecordData(value) => Success(if "name" in value then Repo(value["name"]) else ERROR_REPO)
    case Thrown(_) => Failure("TypeError: Cannot use 'in' operator to search for 'name' in undefined")
  }

  /** The same test for issues (`"title" in data.value`). */
  function IssueFromResponseAsWritten(data: ResponseData): Result<Issue, string> {
    match data
    case ErrorData(_) => Success(ERROR_ISSUE)
    case RecordData(value) => Success(if "title" in value then IssueOf(value) else ERROR_ISSUE)
    case Thrown(_) => Failure("TypeError: Cannot use 'in' operator to search for 'title' in undefined")
  }

  /** Whenever the fetcher throws (the DID does not resolve, its document advertises no PDS,
      or the request itself fails), the source's repository and issue lookups throw instead
      of returning their sentinels. */
  lemma UnroutableThrowsAsWritten(env: Env, uri: ParsedUri)
    requires Pds.FetchRecord(env, uri).Thrown?
    ensures RepoFromResponseAsWritten(Pds.FetchRecord(env, uri)).Failure?
    ensures IssueFromResponseAsWritten(Pds.FetchRecord(env, uri)).Failure?
    ensures RepoFromResponse(Pds.FetchRecord(env, uri)) == ERROR_REPO
    ensures IssueFromResponse(Pds.FetchRecord(env, uri)) == ERROR_ISSUE
  {
  }

  /** The issue fields of a record that has a `title`. */
  function IssueOf(value: map<string, string>): Issue
    requires "title" in value
  {
    Issue(value["title"], if "repo" in value then Some(value["repo"]) else None)
  }

  /** A repository's name, or the sentinel for anything that is not a record with a name. */
  function RepoFromResponse(data: ResponseData): (r: Repo)
    ensures data.RecordData? && "name" in data.value ==> r.name == data.value["name"]
    ensures !(data.RecordData? && "name" in data.value) ==> r == ERROR_REPO
  {
    if data.RecordData? && "name" in data.value then Repo(data.value["name"]) else ERROR_REPO
  }

  /** An issue's title and repository, or the sentinel for anything that is not a record with a title. */
  function IssueFromResponse(data: ResponseData): (r: Issue)
    ensures data.RecordData? && "title" in data.value ==> r.title == data.value["title"]
    ensures data.RecordData? && "title" in data.value ==>
      r.repo == (if "repo" in data.value then Some(data.value["repo"]) else None)
    ensures !(data.RecordData? && "title" in data.value) ==> r == ERROR_ISSUE
  {
    if data.RecordData? && "title" in data.value then IssueOf(data.value) else ERROR_ISSUE
  }

  /** Wherever the source returns a value rather than throwing, the corrected tests agree with it. */
  lemma CorrectedAgreesAsWritten(data: ResponseData)
    ensures RepoFromResponseAsWritten(data).Success? ==> RepoFromResponseAsWritten(data).value == RepoFromResponse(data)
    ensures IssueFromResponseAsWritten(data).Success? ==> IssueFromResponseAsWritten(data).value == IssueFromResponse(data)
  {
  }

  /** The sentinel is a value a real repository can also have: a repository named
      "Repository not found" cannot be told apart from a failure. */
  lemma SentinelIsAmbiguous()
    ensures RepoFromResponse(RecordData(map["name" := "Repository not found"])) == RepoFromResponse(ErrorData("RecordNotFound"))
    ensures ERROR_ISSUE.title == ERROR_REPO.name
  {
  }

  // ---------------------------------------------------------------- resolvers

  /** `getProfile(did)`: the cached profile, or a fresh fetch cached for `PROFILE_LIFETIME`. */
  function ProfileStep(m: CacheMap, did: string, now: int, env: Env): (Profile, CacheMap) {
    var got := CacheGet(m, ProfileKey(did), ProfileValue(FetchProfile(env, did)), Some(PROFILE_LIFETIME), now);
    (AsProfile(got.value), got.entries)
  }

  /** `clientGetRecord(uri)`: the cached response, or a fresh fetch cached for `RECORD_LIFETIME`. */
  function RecordStep(m: CacheMap, uri: ParsedUri, now: int, env: Env): (ResponseData, CacheMap) {
    var got := CacheGet(m, RecordCacheKey(uri), ResponseValue(Pds.FetchRecord(env, uri)), Some(RECORD_LIFETIME), now);
    (AsResponse(got.value), got.entries)
  }

  /** `getTangledRepo(uri)`: the sentinel for an unparsable URI, else the value cached under
      the URI, else a `clientGetRecord` whose outcome is cached under the URI. */
  function RepoStep(m: CacheMap, uri: string, now: int, env: Env): (Repo, CacheMap) {
    match env.parse(uri)
    case None => (ERROR_REPO, m)
    case Some(parsed) =>
      match FreshValue(m, uri, now)
      case Some(v) => (AsRepo(v), m)
      case None =>
        var fetched := RecordStep(m, parsed, now, env);
        var repo := RepoFromResponse(fetched.0);
        (repo, Stored(fetched.1, uri, RepoValue(repo), None, now))
  }

  /** `getTangledIssue(uri)`, the same steps for issues. */
  function IssueStep(m: CacheMap, uri: string, now: int, env: Env): (Issue, CacheMap) {
    match env.parse(uri)
    case None => (ERROR_ISSUE, m)
    case Some(parsed) =>
      match FreshValue(m, uri, now)
      case Some(v) => (AsIssue(v), m)
      case None =>
        var fetched := RecordStep(m, parsed, now, env);
        var issue := IssueFromResponse(fetched.0);
        (issue, Stored(fetched.1, uri, IssueValue(issue), None, now))
  }

  /** A profile lookup whose API answers with an error yields the placeholder for that identity,
      and the placeholder stays cached for the profile lifetime. */
  lemma ProfileStepPlaceholder(m: CacheMap, did: string, now: int, env: Env)
    requires FreshValue(m, ProfileKey(did), now).None?
    requires env.getProfile(did).ProfileError?
    ensures var (p, m') := ProfileStep(m, did, now, env);
            p == PlaceholderProfile(did) &&
            m'[ProfileKey(did)] == Entry(ProfileValue(p), now, PROFILE_LIFETIME)
  {
  }

  /** An unparsable URI yields the sentinel without touching the cache. */
  lemma UnparsableUriSentinel(m: CacheMap, uri: string, now: int, env: Env)
    requires env.parse(uri).None?
    ensures RepoStep(m, uri, now, env) == (ERROR_REPO, m)
    ensures IssueStep(m, uri, now, env) == (ERROR_ISSUE, m)
  {
  }

  /** An unexpired entry under the URI is returned as is, without any fetch. */
  lemma RepoStepHit(m: CacheMap, uri: string, now: int, env: Env)
    requires env.parse(uri).Some?
    requires uri in m && IsFresh(m[uri], now)
    ensures RepoStep(m, uri, now, env) == (AsRepo(m[uri].value), m)
  {
  }

  /** When the repository's owner cannot be resolved or routed and nothing is cached, the
      lookup yields the sentinel, and that failure is cached under the URI (and the thrown
      response under the record key) like any other value. */
  lemma RepoStepUnroutable(m: CacheMap, uri: string, now: int, env: Env)
    requires env.parse(uri).Some?
    requires Pds.FetchRecord(env, env.parse(uri).value).Thrown?
    requires FreshValue(m, uri, now).None?
    requires FreshValue(m, RecordCacheKey(env.parse(uri).value), now).None?
    ensures var (repo, m') := RepoStep(m, uri, now, env);
            repo == ERROR_REPO &&
            m'[uri] == Entry(RepoValue(ERROR_REPO), now, CACHE_LIFETIME) &&
            RecordCacheKey(env.parse(uri).value) in m'
  {
  }

  /** The same for issues: the result is the issue sentinel, whose title is "Repository not found". */
  lemma IssueStepUnroutable(m: CacheMap, uri: string, now: int, env: Env)
    requires env.parse(uri).Some?
    requires Pds.FetchRecord(env, env.parse(uri).value).Thrown?
    requires FreshValue(m, uri, now).None?
    requires FreshValue(m, RecordCacheKey(env.parse(uri).value), now).None?
    ensures var (issue, m') := IssueStep(m, uri, now, env);
            issue == ERROR_ISSUE && issue.title == "Repository not found" &&
            m'[uri] == Entry(IssueValue(ERROR_ISSUE), now, CACHE_LIFETIME)
  {
  }

  /** A repository record with a `name`, fetched on a miss: its name is returned and cached
      under the URI for the default lifetime, and the response under its record key for
      `RECORD_LIFETIME`. */
  lemma RepoStepFound(m: CacheMap, uri: string, now: int, env: Env)
    requires env.parse(uri).Some?
    requires uri != RecordCacheKey(env.parse(uri).value)
    requires FreshValue(m, uri, now).None?
    requires FreshValue(m, RecordCacheKey(env.parse(uri).value), now).None?
    requires var data := Pds.FetchRecord(env, env.parse(uri).value);
             data.RecordData? && "name" in data.value
    ensures var data := Pds.FetchRecord(env, env.parse(uri).value);
            var (repo, m') := RepoStep(m, uri, now, env);
            && repo == Repo(data.value["name"])
            && m'[uri] == Entry(RepoValue(repo), now, CACHE_LIFETIME)
            && m'[RecordCacheKey(env.parse(uri).value)] == Entry(ResponseValue(data), now, RECORD_LIFETIME)
  {
  }

  /** The same for an issue record with a `title`: its title and repository are returned
      and cached under the URI, and the response under its record key. */
  lemma IssueStepFound(m: CacheMap, uri: string, now: int, env: Env)
    requires env.parse(uri).Some?
    requires uri != RecordCacheKey(env.parse(uri).value)
    requires FreshValue(m, uri, now).None?
    requires FreshValue(m, RecordCacheKey(env.parse(uri).value), now).None?
    requires var data := Pds.FetchRecord(env, env.parse(uri).value);
             data.RecordData? && "title" in data.value
    ensures var data := Pds.FetchRecord(env, env.parse(uri).value);
            var (issue, m') := IssueStep(m, uri, now, env);
            && issue.title == data.value["title"]
            && issue.repo == (if "repo" in data.value then Some(data.value["repo"]) else None)
            && m'[uri] == Entry(IssueValue(issue), now, CACHE_LIFETIME)
            && m'[RecordCacheKey(env.parse(uri).value)] == Entry(ResponseValue(data), now, RECORD_LIFETIME)
  {
  }

  // Resolvers only ever add or refresh entries: no key leaves the cache.

  lemma ProfileStepKeepsKeys(m: CacheMap, did: string, now: int, env: Env)
    ensures m.Keys <= ProfileStep(m, did, now, env).1.Keys
  {
  }

  lemma RecordStepKeepsKeys(m: CacheMap, parsed: ParsedUri, now: int, env: Env)
    ensures m.Keys <= RecordStep(m, parsed, now, env).1.Keys
  {
  }

  lemma RepoStepKeepsKeys(m: CacheMap, uri: string, now: int, env: Env)
    ensures m.Keys <= RepoStep(m, uri, now, env).1.Keys
  {
  }

  lemma IssueStepKeepsKeys(m: CacheMap, uri: string, now: int, env: Env)
    ensures m.Keys <= IssueStep(m, uri, now, env).1.Keys
  {
  }
}
