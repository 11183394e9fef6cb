/** Finding a repository's PDS and fetching one record from it: the fetcher
    that `clientGetRecord` hands to the cache. */
module Pds {
  import opened Wrappers
  import opened Atproto

  const NO_PDS_MESSAGE: string := "No PDS service endpoint found"

  /** The `find` predicate over DID-document services. */
  predicate IsAtprotoPds(s: Service) {
    s.id == "#atproto_pds" && s.serviceType == "AtprotoPersonalDataServer"
  }

  /** `services.find(IsAtprotoPds)`, as the index of the element found. */
  function FindFirstPds(services: seq<Service>): (r: Option<nat>)
    ensures r.Some? ==> r.value < |services| && IsAtprotoPds(services[r.value])
    ensures r.Some? ==> forall j :: 0 <= j < r.value ==> !IsAtprotoPds(services[j])
    ensures r.None? ==> forall j :: 0 <= j < |services| ==> !IsAtprotoPds(services[j])
  {
    if services == [] then None
    else if IsAtprotoPds(services[0]) then Some(0)
    else match FindFirstPds(services[1..])
      case None => None
      case Some(i) => Some(i + 1)
  }

  /** The service `find` picks, followed by the `!endpoint || typeof endpoint !== "string"`
      test: the endpoint, or the error that is thrown. */
  function PdsEndpoint(doc: DidDocument): (r: Result<string, string>)
    ensures r.Failure? ==> r.error == NO_PDS_MESSAGE
    // success: the first PDS service advertises this non-empty string endpoint
    ensures r.Success? ==>
      && doc.service.Some?
      && r.value != ""
      && exists i :: 0 <= i < |doc.service.value|
           && IsAtprotoPds(doc.service.value[i])
           && doc.service.value[i].endpoint == StringEndpoint(r.value)
           && forall j :: 0 <= j < i ==> !IsAtprotoPds(doc.service.value[j])
    // failure: no service list, no PDS service, or the first one's endpoint is absent, not a string or ""
    ensures r.Failure? ==>
      || doc.service.None?
      || forall i :: 0 <= i < |doc.service.value| && IsAtprotoPds(doc.service.value[i])
           && (forall j :: 0 <= j < i ==> !IsAtprotoPds(doc.service.value[j]))
           ==> !(doc.service.value[i].endpoint.StringEndpoint? && doc.service.value[i].endpoint.url != "")
  {
    match doc.service
    case None => Failure(NO_PDS_MESSAGE)
    case Some(services) =>
      match FindFirstPds(services)
      case None => Failure(NO_PDS_MESSAGE)
      case Some(i) =>
        match services[i].endpoint
        case StringEndpoint(url) => if url == "" then Failure(NO_PDS_MESSAGE) else Success(url)
        case _ => Failure(NO_PDS_MESSAGE)
  }

  /** The body of `clientGetRecord`'s fetcher: resolve the DID document, pick the PDS,
      and ask it for the record; a failed resolution or a missing PDS becomes the
      thrown error that the `catch` wraps. */
  function FetchRecord(env: Env, uri: ParsedUri): (r: ResponseData)
    // a record or an XRPC error body only ever comes from the PDS the DID document advertises
    ensures !r.Thrown? ==>
      && env.resolveDoc(uri.repo).Success?
      && PdsEndpoint(env.resolveDoc(uri.repo).value).Success?
      && r == env.getRecord(PdsEndpoint(env.resolveDoc(uri.repo).value).value, uri)
    // an identity that cannot be resolved or routed yields a thrown error, without any request
    ensures env.resolveDoc(uri.repo).Failure? ==> r == Thrown(env.resolveDoc(uri.repo).error)
    ensures env.resolveDoc(uri.repo).Success? && PdsEndpoint(env.resolveDoc(uri.repo).value).Failure? ==>
      r == Thrown(NO_PDS_MESSAGE)
    // a routed identity gets exactly its PDS's answer
    ensures env.resolveDoc(uri.repo).Success? && PdsEndpoint(env.resolveDoc(uri.repo).value).Success? ==>
      r == env.getRecord(PdsEndpoint(env.resolveDoc(uri.repo).value).value, uri)
  {
    match env.resolveDoc(uri.repo)
    case Failure(message) => Thrown(message)
    case Success(doc) =>
      match PdsEndpoint(doc)
      case Failure(message) => Thrown(message)
      case Success(endpoint) => env.getRecord(endpoint, uri)
  }
}
