/** The relay's configuration and the data it exchanges with the network:
    DID documents, `com.atproto.repo.getRecord` responses, profiles, the
    records of the watched collections and Jetstream events. */
module Atproto {
  import opened Wrappers

  /** The watched identity (the default of `TARGET_DID`). */
  const TARGET_DID: string := "did:plc:3c6vkaq7xf5kz3va3muptjh5"
  /** Front-end base URLs (the defaults of `BSKY_URL`, `PDSLS_URL`, `TANGLED_URL`). */
  const BSKY_URL: string := "https://bsky.app"
  const PDSLS_URL: string := "https://pdsls.dev"
  const TANGLED_URL: string := "https://tangled.sh"

  /** The handle the profile API reports for an identity whose handle does not verify. */
  const INVALID_HANDLE: string := "handle.invalid"

  /** How JavaScript renders a missing property inside a template string. */
  const UNDEFINED: string := "undefined"

  /** A template-string rendering of an optional string property. */
  function Show(o: Option<string>): string {
    o.GetOr(UNDEFINED)
  }

  /** A parsed canonical resource URI `at://repo/collection/rkey`. */
  datatype ParsedUri = ParsedUri(repo: string, collection: string, rkey: string)

  /** The `serviceEndpoint` of a DID-document service: a string, some other JSON value
      (a map or a list), or absent. */
  datatype Endpoint = StringEndpoint(url: string) | OtherEndpoint | NoEndpoint

  datatype Service = Service(id: string, serviceType: string, endpoint: Endpoint)

  /** A DID document; `service` may be absent. */
  datatype DidDocument = DidDocument(service: Option<seq<Service>>)

  /** The `data` of a `getRecord` response as the callers see it: a record whose
      string-valued fields are `value`, an XRPC error body (it has an `error` field),
      or the thrown error that the fetcher's `catch` wraps as `{ok: false, data: err}`. */
  datatype ResponseData =
    | RecordData(value: map<string, string>)
    | ErrorData(error: string)
    | Thrown(message: string)

  /** `app.bsky.actor.defs#profileViewDetailed`, reduced to the fields the relay reads. */
  datatype Profile = Profile(did: string, handle: string, displayName: Option<string>, avatar: Option<string>)

  /** The `data` of an `app.bsky.actor.getProfile` response: a profile or an error body. */
  datatype ProfileResponse = ProfileFound(profile: Profile) | ProfileError(error: string)

  /** The outside world, as oracles: the URI parser, DID-document resolution
      (a failure is the thrown error's message), `getRecord` against a PDS endpoint,
      and the public profile API. */
  datatype Env = Env(
    parse: string -> Option<ParsedUri>,
    resolveDoc: string -> Result<DidDocument, string>,
    getRecord: (string, ParsedUri) -> ResponseData,
    getProfile: string -> ProfileResponse)

  /** `reply.parent.uri` and `reply.root.uri` of a post. */
  datatype ReplyRef = ReplyRef(parentUri: string, rootUri: string)

  /** A decoded record, by the lexicon the relay casts it to. `embedType` is the
      embed's `$type`; optional lexicon fields are `Option`s. */
  datatype Record =
    | PostRecord(text: string, reply: Option<ReplyRef>, embedType: Option<string>)
    | VerificationRecord(uri: Option<string>)
    | StarRecord(subject: string)
    | IssueRecord(repo: string, title: string, body: Option<string>)
    | IssueCommentRecord(issue: string, body: Option<string>)
    | OtherRecord

  datatype Operation = Create | Update | Delete

  /** A commit: `recordText` is `JSON.stringify(record)`. */
  datatype Commit = Commit(operation: Operation, collection: string, rkey: string,
                           record: Record, recordText: string)

  /** A Jetstream event, by its `kind`. */
  datatype Event =
    | CommitEvent(did: string, commit: Commit)
    | IdentityEvent(did: string)
    | AccountEvent(did: string)
}
