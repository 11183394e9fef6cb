/** The notification formatters: the display name of an actor, the
    per-collection message, link and priority, and the HTTP request that
    `sendNotification` makes of a payload. */
module Formatters {
  import opened Wrappers
  import opened Text
  import opened Atproto
  import opened Resolvers

  /** `getId`: the handle, unless it is the invalid-handle marker, then the DID. */
  function GetId(p: Profile): (id: string)
    ensures id == p.handle || id == p.did
    ensures p.handle != INVALID_HANDLE ==> id == p.handle
    ensures id == INVALID_HANDLE ==> p.did == INVALID_HANDLE
  {
    if p.handle != INVALID_HANDLE then p.handle else p.did
  }

  /** A placeholder profile is shown by its raw identity. */
  lemma GetIdPlaceholder(did: string)
    ensures GetId(PlaceholderProfile(did)) == did
  {
  }

  // ---------------------------------------------------------------- posts

  /** "replied" when the reply parent's or root's URI mentions the target, else "mentioned you". */
  function PostVerb(reply: Option<ReplyRef>): string {
    if reply.Some? && (Contains(reply.value.parentUri, TARGET_DID) || Contains(reply.value.rootUri, TARGET_DID))
    then "replied"
    else "mentioned you"
  }

  /** The verb is "replied" exactly when the target's DID occurs in the reply's parent or root URI. */
  lemma PostVerbSpec(reply: Option<ReplyRef>)
    ensures PostVerb(reply) == "replied" || PostVerb(reply) == "mentioned you"
    ensures PostVerb(reply) == "replied" <==>
      reply.Some? &&
      ((exists i :: OccursAt(reply.value.parentUri, TARGET_DID, i)) ||
       (exists i :: OccursAt(reply.value.rootUri, TARGET_DID, i)))
  {
    if reply.Some? {
      ContainsIff(reply.value.parentUri, TARGET_DID);
      ContainsIff(reply.value.rootUri, TARGET_DID);
    }
  }

  /** The label of a known embed `$type`. */
  function EmbedLabel(embedType: string): (shown: Option<string>)
    ensures shown.Some? <==> embedType in {"app.bsky.embed.external", "app.bsky.embed.images",
                                           "app.bsky.embed.record", "app.bsky.embed.recordWithMedia",
                                           "app.bsky.embed.video"}
  {
    if embedType == "app.bsky.embed.external" then Some("External Link")
    else if embedType == "app.bsky.embed.images" then Some("Image")
    else if embedType == "app.bsky.embed.record" then Some("Record")
    else if embedType == "app.bsky.embed.recordWithMedia" then Some("Record with Media")
    else if embedType == "app.bsky.embed.video" then Some("Video")
    else None
  }

  /** What follows the text: nothing without an embed, else the bracketed label,
      with a space before it when the text is not empty. */
  function EmbedSuffix(text: string, embedType: Option<string>): string {
    match embedType
    case None => ""
    case Some(t) => (if |text| > 0 then " " else "") + "[" + Show(EmbedLabel(t)) + "]"
  }

  function PostMessage(id: string, reply: Option<ReplyRef>, text: string, embedType: Option<string>): string {
    id + " " + PostVerb(reply) + ": " + text + EmbedSuffix(text, embedType)
  }

  /** A post message starts with "<id> <verb>: <text>", and without an embed that is all of it. */
  lemma PostMessagePrefix(id: string, reply: Option<ReplyRef>, text: string, embedType: Option<string>)
    ensures var head := id + " " + PostVerb(reply) + ": " + text;
            var msg := PostMessage(id, reply, text, embedType);
            && |head| <= |msg| && msg[..|head|] == head
            && (embedType.None? ==> msg == head)
  {
    var head := id + " " + PostVerb(reply) + ": " + text;
    var msg := PostMessage(id, reply, text, embedType);
    assert msg == head + EmbedSuffix(text, embedType);
    assert msg[..|head|] == head;
  }

  /** With an embed, the message ends with the bracketed label, and a space separates it
      from the text exactly when there is text. */
  lemma PostMessageEmbed(id: string, reply: Option<ReplyRef>, text: string, embedType: string)
    ensures var head := id + " " + PostVerb(reply) + ": " + text;
            var msg := PostMessage(id, reply, text, Some(embedType));
            && msg == head + (if |text| > 0 then " " else "") + ("[" + Show(EmbedLabel(embedType)) + "]")
            && EndsWith(msg, "[" + Show(EmbedLabel(embedType)) + "]")
            && |msg| > |head| && (msg[|head|] == ' ' <==> |text| > 0)
  {
    var head := id + " " + PostVerb(reply) + ": " + text;
    var msg := PostMessage(id, reply, text, Some(embedType));
    var bracket := "[" + Show(EmbedLabel(embedType)) + "]";
    var space := if |text| > 0 then " " else "";
    assert msg == head + space + bracket;
    SeparatedSuffix(head, space, bracket);
  }

  // ---------------------------------------------------------------- payloads

  /** The arguments of `sendNotification`; absent ones are `None`. */
  datatype Payload = Payload(title: Option<string>, icon: Option<string>, message: Option<string>,
                             url: Option<string>, priority: Option<nat>, picture: Option<string>)

  function PostPayload(profile: Profile, rkey: string, text: string, reply: Option<ReplyRef>,
                       embedType: Option<string>): Payload {
    Payload(Some("Bluesky"), profile.avatar, Some(PostMessage(GetId(profile), reply, text, embedType)),
            Some(BSKY_URL + "/profile/" + profile.did + "/post/" + rkey), None, None)
  }

  function BskyFollowPayload(profile: Profile): Payload {
    Payload(Some("Bluesky"), profile.avatar, Some(GetId(profile) + " followed you"),
            Some(BSKY_URL + "/profile/" + profile.did), Some(2), None)
  }

  function VerificationPayload(profile: Profile, uri: Option<string>): Payload {
    Payload(Some("Bluesky"), profile.avatar, Some(GetId(profile) + " verified you"),
            Some(PDSLS_URL + "/" + Show(uri)), Some(2), None)
  }

  function TangledFollowPayload(profile: Profile): Payload {
    Payload(Some("Tangled"), profile.avatar, Some(GetId(profile) + " followed you"),
            Some(TANGLED_URL + "/@" + profile.did), None, None)
  }

  function StarPayload(profile: Profile, repo: Repo): Payload {
    Payload(Some("Tangled"), profile.avatar, Some(GetId(profile) + " starred " + repo.name),
            Some(TANGLED_URL + "/@" + profile.did), Some(2), None)
  }

  function IssuePayload(profile: Profile, repo: Repo, title: string, body: Option<string>): Payload {
    Payload(Some("Tangled"), profile.avatar,
            Some(GetId(profile) + " opened an issue, \"" + title + "\", on " + repo.name + ": " + Show(body)),
            Some(TANGLED_URL), None, None)
  }

  function IssueCommentPayload(profile: Profile, issue: Issue, repo: Repo, body: Option<string>): Payload {
    Payload(Some("Tangled"), profile.avatar,
            Some(GetId(profile) + " commented on issue \"" + issue.title + "\", on " + repo.name + ": " + Show(body)),
            Some(TANGLED_URL + "/@" + profile.did), None, None)
  }

  /** A reply to the target saying "hello" is announced as "replied: hello", linked to the post. */
  lemma RepliedHello(profile: Profile, rkey: string, reply: ReplyRef, embedType: Option<string>)
    requires Contains(reply.parentUri, TARGET_DID)
    ensures var p := PostPayload(profile, rkey, "hello", Some(reply), embedType);
            Contains(p.message.value, "replied: hello") &&
            p.url == Some(BSKY_URL + "/profile/" + profile.did + "/post/" + rkey)
  {
    assert PostVerb(Some(reply)) == "replied";
    var suffix := EmbedSuffix("hello", embedType);
    var msg := PostMessage(GetId(profile), Some(reply), "hello", embedType);
    assert msg == (GetId(profile) + " ") + "replied: hello" + suffix;
    ContainsMiddle(GetId(profile) + " ", "replied: hello", suffix);
  }

  /** A post that is not a reply and carries images ends with "[Image]". */
  lemma ImagePostLabel(profile: Profile, rkey: string, text: string)
    ensures EndsWith(PostPayload(profile, rkey, text, None, Some("app.bsky.embed.images")).message.value, "[Image]")
  {
    var head := GetId(profile) + " " + PostVerb(None) + ": " + text;
    var space := if |text| > 0 then " " else "";
    var msg := PostMessage(GetId(profile), None, text, Some("app.bsky.embed.images"));
    assert EmbedLabel("app.bsky.embed.images") == Some("Image");
    assert msg == head + space + "[Image]";
    assert msg[|msg| - 7..] == "[Image]";
  }

  /** A star on a repository named "widgets" reads "starred widgets" and is sent at priority 2. */
  lemma StarredWidgets(profile: Profile)
    ensures var p := StarPayload(profile, Repo("widgets"));
            Contains(p.message.value, "starred widgets") && ToRequest(p).priority == "2"
  {
    ContainsMiddle(GetId(profile) + " ", "starred widgets", "");
    assert GetId(profile) + " starred " + "widgets" == GetId(profile) + " " + "starred widgets" + "";
  }

  /** A comment whose issue is the sentinel is still announced, naming the sentinel title. */
  lemma CommentOnSentinelIssue(profile: Profile, repo: Repo, body: Option<string>)
    ensures Contains(IssueCommentPayload(profile, ERROR_ISSUE, repo, body).message.value, "Repository not found")
  {
    var head := GetId(profile) + " commented on issue \"";
    var tail := "\", on " + repo.name + ": " + Show(body);
    assert IssueCommentPayload(profile, ERROR_ISSUE, repo, body).message.value == head + "Repository not found" + tail;
    ContainsMiddle(head, "Repository not found", tail);
  }

  // ---------------------------------------------------------------- the push request

  /** The headers and body of the POST to the push endpoint. */
  datatype Request = Request(title: string, icon: string, priority: string, click: string,
                             attach: string, body: Option<string>)

  /** `sendNotification`: absent fields become empty headers, the priority defaults to 3,
      and the message is the body. */
  function ToRequest(p: Payload): (r: Request)
    ensures IsDigits(r.priority) && ParseNat(r.priority) == p.priority.GetOr(3)
    ensures |r.priority| > 1 ==> r.priority[0] != '0'
    ensures r.title == p.title.GetOr("") && r.icon == p.icon.GetOr("") && r.click == p.url.GetOr("")
    ensures r.attach == p.picture.GetOr("") && r.body == p.message
  {
    var priority := if p.priority.Some? then NatToString(p.priority.value) else "3";
    ParseNatToString(p.priority.GetOr(3));
    assert NatToString(3) == "3";
    Request(p.title.GetOr(""), p.icon.GetOr(""), priority, p.url.GetOr(""), p.picture.GetOr(""), p.message)
  }
}
