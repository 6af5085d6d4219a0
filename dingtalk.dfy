/**
 * The DingTalk group-robot client (src/dingtalk.ts): the message shapes, the
 * three message builders, the optional request signature, the URL it is
 * appended to, the JSON body, and `sendMessage`, which reports success exactly
 * when the reply's `errcode` is 0.
 */
module DingTalk {
  import opened Wrappers
  import opened JsText
  import opened JsNumber
  import opened Host

  /**
   * `DingTalkConfig`. The webhook is optional because `dingtalk_configure`
   * hands its arguments to the client without checking them.
   */
  datatype Config = Config(webhook: Option<string>, secret: Option<string>, keywords: Option<seq<string>>)

  datatype MsgType = TextType | MarkdownType | LinkType

  /** The `msgtype` string of each message kind. */
  function TypeName(t: MsgType): string {
    match t
    case TextType => "text"
    case MarkdownType => "markdown"
    case LinkType => "link"
  }

  datatype TextPayload = TextPayload(content: string)
  datatype MarkdownPayload = MarkdownPayload(title: Option<string>, text: string)
  datatype LinkPayload = LinkPayload(title: Option<string>, text: Option<string>, picUrl: Option<string>, messageUrl: Option<string>)
  datatype AtPayload = AtPayload(atMobiles: Option<seq<string>>, atUserIds: Option<seq<string>>, isAtAll: Option<bool>)

  /** `DingTalkMessage`: a tag and three optional payloads, plus an optional mention directive. */
  datatype Message = Message(
    msgtype: MsgType,
    text: Option<TextPayload>,
    markdown: Option<MarkdownPayload>,
    link: Option<LinkPayload>,
    at: Option<AtPayload>)

  /** Exactly one payload is present, and it is the one `msgtype` names. */
  predicate WellShaped(m: Message) {
    && (m.text.Some? <==> m.msgtype == TextType)
    && (m.markdown.Some? <==> m.msgtype == MarkdownType)
    && (m.link.Some? <==> m.msgtype == LinkType)
  }

  /** The message `sendText(content, atAll = false)` posts; an undefined `atAll` takes the default. */
  function TextMessage(content: string, atAll: Option<bool>): (m: Message)
    ensures WellShaped(m) && m.msgtype == TextType
    ensures m.text.value.content == content
    ensures m.at == Some(AtPayload(None, None, Some(atAll.GetOr(false))))
  {
    Message(TextType, Some(TextPayload(content)), None, None, Some(AtPayload(None, None, Some(atAll.GetOr(false)))))
  }

  /** The message `sendMarkdown(title, text, atAll = false)` posts. */
  function MarkdownMessage(title: Option<string>, text: string, atAll: Option<bool>): (m: Message)
    ensures WellShaped(m) && m.msgtype == MarkdownType
    ensures m.markdown.value.title == title && m.markdown.value.text == text
    ensures m.at == Some(AtPayload(None, None, Some(atAll.GetOr(false))))
  {
    Message(MarkdownType, None, Some(MarkdownPayload(title, text)), None, Some(AtPayload(None, None, Some(atAll.GetOr(false)))))
  }

  /** The message `sendLink(title, text, messageUrl, picUrl?)` posts: no mention directive at all. */
  function LinkMessage(title: Option<string>, text: Option<string>, messageUrl: Option<string>, picUrl: Option<string>): (m: Message)
    ensures WellShaped(m) && m.msgtype == LinkType
    ensures m.link.value == LinkPayload(title, text, picUrl, messageUrl)
    ensures m.at.None?
  {
    Message(LinkType, None, None, Some(LinkPayload(title, text, picUrl, messageUrl)), None)
  }

  // ---------------------------------------------------------------- JSON body

  /** A string member, left out when its value is undefined. */
  function StrMember(key: string, v: Option<string>): seq<(string, Json)> {
    if v.Some? then [(key, JString(v.value))] else []
  }

  function StrArray(xs: seq<string>): (j: Json)
    ensures j.JArray? && |j.items| == |xs|
    ensures forall i :: 0 <= i < |xs| ==> j.items[i] == JString(xs[i])
  {
    JArray(seq(|xs|, i requires 0 <= i < |xs| => JString(xs[i])))
  }

  function ArrayMember(key: string, v: Option<seq<string>>): seq<(string, Json)> {
    if v.Some? then [(key, StrArray(v.value))] else []
  }

  function BoolMember(key: string, v: Option<bool>): seq<(string, Json)> {
    if v.Some? then [(key, JBool(v.value))] else []
  }

  function PayloadMember<T>(key: string, v: Option<T>, encode: T -> Json): seq<(string, Json)> {
    if v.Some? then [(key, encode(v.value))] else []
  }

  function TextJson(p: TextPayload): Json {
    JObject([("content", JString(p.content))])
  }

  function MarkdownJson(p: MarkdownPayload): Json {
    JObject(StrMember("title", p.title) + [("text", JString(p.text))])
  }

  /** Members in the order of the object literal in `sendLink`: title, text, messageUrl, picUrl. */
  function LinkJson(p: LinkPayload): Json {
    JObject(StrMember("title", p.title) + StrMember("text", p.text)
            + StrMember("messageUrl", p.messageUrl) + StrMember("picUrl", p.picUrl))
  }

  function AtJson(a: AtPayload): Json {
    JObject(ArrayMember("atMobiles", a.atMobiles) + ArrayMember("atUserIds", a.atUserIds)
            + BoolMember("isAtAll", a.isAtAll))
  }

  /** `JSON.stringify(message)`, as a JSON tree: the POST body. */
  function ToJson(m: Message): Json {
    JObject([("msgtype", JString(TypeName(m.msgtype)))]
            + PayloadMember("text", m.text, TextJson)
            + PayloadMember("markdown", m.markdown, MarkdownJson)
            + PayloadMember("link", m.link, LinkJson)
            + PayloadMember("at", m.at, AtJson))
  }

  /** The value of the first member named `key`, as a JSON reader looks it up. */
  function Get(members: seq<(string, Json)>, key: string): Option<Json> {
    if members == [] then None
    else if members[0].0 == key then Some(members[0].1)
    else Get(members[1..], key)
  }

  lemma {:induction false} GetAppend(a: seq<(string, Json)>, b: seq<(string, Json)>, key: string)
    ensures Get(a + b, key) == if Get(a, key).Some? then Get(a, key) else Get(b, key)
  {
    if a != [] {
      assert (a + b)[0] == a[0];
      assert (a + b)[1..] == a[1..] + b;
      GetAppend(a[1..], b, key);
    } else {
      assert a + b == b;
    }
  }

  function GetString(members: seq<(string, Json)>, key: string): Option<string> {
    match Get(members, key)
    case Some(JString(s)) => Some(s)
    case _ => None
  }

  function Strings(items: seq<Json>): Option<seq<string>> {
    if items == [] then Some([])
    else match (items[0], Strings(items[1..]))
      case (JString(s), Some(rest)) => Some([s] + rest)
      case _ => None
  }

  function GetStrings(members: seq<(string, Json)>, key: string): Option<seq<string>> {
    match Get(members, key)
    case Some(JArray(items)) => Strings(items)
    case _ => None
  }

  function GetBool(members: seq<(string, Json)>, key: string): Option<bool> {
    match Get(members, key)
    case Some(JBool(b)) => Some(b)
    case _ => None
  }

  function GetObject(members: seq<(string, Json)>, key: string): Option<seq<(string, Json)>> {
    match Get(members, key)
    case Some(JObject(inner)) => Some(inner)
    case _ => None
  }

  function TypeNamed(name: string): Option<MsgType> {
    if name == "text" then Some(TextType)
    else if name == "markdown" then Some(MarkdownType)
    else if name == "link" then Some(LinkType)
    else None
  }

  function TextOf(ms: seq<(string, Json)>): Option<TextPayload> {
    match GetObject(ms, "text")
    case None => None
    case Some(o) => if GetString(o, "content").Some? then Some(TextPayload(GetString(o, "content").value)) else None
  }

  function MarkdownOf(ms: seq<(string, Json)>): Option<MarkdownPayload> {
    match GetObject(ms, "markdown")
    case None => None
    case Some(o) => if GetString(o, "text").Some? then Some(MarkdownPayload(GetString(o, "title"), GetString(o, "text").value)) else None
  }

  function LinkOf(ms: seq<(string, Json)>): Option<LinkPayload> {
    match GetObject(ms, "link")
    case None => None
    case Some(o) => Some(LinkPayload(GetString(o, "title"), GetString(o, "text"), GetString(o, "picUrl"), GetString(o, "messageUrl")))
  }

  function AtOf(ms: seq<(string, Json)>): Option<AtPayload> {
    match GetObject(ms, "at")
    case None => None
    case Some(o) => Some(AtPayload(GetStrings(o, "atMobiles"), GetStrings(o, "atUserIds"), GetBool(o, "isAtAll")))
  }

  /**
   * What a receiver reads back from a body: the tag and every payload field
   * by name. Members of the wrong JSON kind read as absent.
   */
  function FromJson(body: Json): Option<Message> {
    if !body.JObject? then None
    else
      var ms := body.members;
      match GetString(ms, "msgtype")
      case None => None
      case Some(name) =>
        match TypeNamed(name)
        case None => None
        case Some(t) => Some(Message(t, TextOf(ms), MarkdownOf(ms), LinkOf(ms), AtOf(ms)))
  }

  lemma {:induction false} StringsOfStrArray(xs: seq<string>)
    ensures Strings(StrArray(xs).items) == Some(xs)
  {
    if xs != [] {
      StringsOfStrArray(xs[1..]);
      assert StrArray(xs).items[0] == JString(xs[0]);
      assert StrArray(xs).items[1..] == StrArray(xs[1..]).items;
      assert xs == [xs[0]] + xs[1..];
    }
  }

  /** A defined string member is found under its key; an undefined one is left out, so the lookup goes on to the rest. */
  lemma GetStrMember(key: string, v: Option<string>, rest: seq<(string, Json)>, other: string)
    ensures v.Some? ==> GetString(StrMember(key, v) + rest, key) == v
    ensures v.None? ==> Get(StrMember(key, v) + rest, key) == Get(rest, key)
    ensures other != key ==> Get(StrMember(key, v) + rest, other) == Get(rest, other)
  {
    GetAppend(StrMember(key, v), rest, key);
    GetAppend(StrMember(key, v), rest, other);
  }

  lemma MarkdownRoundTrip(p: MarkdownPayload)
    ensures GetString(MarkdownJson(p).members, "title") == p.title
    ensures GetString(MarkdownJson(p).members, "text") == Some(p.text)
  {
    GetAppend(StrMember("title", p.title), [("text", JString(p.text))], "title");
    GetAppend(StrMember("title", p.title), [("text", JString(p.text))], "text");
  }

  /** Looking `key` up in four concatenated member lists. */
  lemma GetAppend4(a: seq<(string, Json)>, b: seq<(string, Json)>, c: seq<(string, Json)>, d: seq<(string, Json)>, key: string)
    ensures Get(a + b + c + d, key)
            == if Get(a, key).Some? then Get(a, key) else if Get(b, key).Some? then Get(b, key)
               else if Get(c, key).Some? then Get(c, key) else Get(d, key)
  {
    GetAppend(a + b + c, d, key);
    GetAppend(a + b, c, key);
    GetAppend(a, b, key);
  }

  lemma LinkRoundTrip(p: LinkPayload)
    ensures GetString(LinkJson(p).members, "title") == p.title
    ensures GetString(LinkJson(p).members, "text") == p.text
    ensures GetString(LinkJson(p).members, "messageUrl") == p.messageUrl
    ensures GetString(LinkJson(p).members, "picUrl") == p.picUrl
  {
    var a, b, c, d := StrMember("title", p.title), StrMember("text", p.text),
                      StrMember("messageUrl", p.messageUrl), StrMember("picUrl", p.picUrl);
    GetAppend4(a, b, c, d, "title");
    GetAppend4(a, b, c, d, "text");
    GetAppend4(a, b, c, d, "messageUrl");
    GetAppend4(a, b, c, d, "picUrl");
  }

  lemma AtRoundTrip(p: AtPayload)
    ensures GetStrings(AtJson(p).members, "atMobiles") == p.atMobiles
    ensures GetStrings(AtJson(p).members, "atUserIds") == p.atUserIds
    ensures GetBool(AtJson(p).members, "isAtAll") == p.isAtAll
  {
    var a, b, c := ArrayMember("atMobiles", p.atMobiles), ArrayMember("atUserIds", p.atUserIds),
                   BoolMember("isAtAll", p.isAtAll);
    if p.atMobiles.Some? { StringsOfStrArray(p.atMobiles.value); }
    if p.atUserIds.Some? { StringsOfStrArray(p.atUserIds.value); }
    GetAppend4(a, b, c, [], "atMobiles");
    GetAppend4(a, b, c, [], "atUserIds");
    GetAppend4(a, b, c, [], "isAtAll");
    assert a + b + c + [] == AtJson(p).members;
  }

  /** Where each part of a message lands among the members of its body. */
  lemma MembersOfToJson(m: Message)
    ensures Get(ToJson(m).members, "msgtype") == Some(JString(TypeName(m.msgtype)))
    ensures Get(ToJson(m).members, "text") == if m.text.Some? then Some(TextJson(m.text.value)) else None
    ensures Get(ToJson(m).members, "markdown") == if m.markdown.Some? then Some(MarkdownJson(m.markdown.value)) else None
    ensures Get(ToJson(m).members, "link") == if m.link.Some? then Some(LinkJson(m.link.value)) else None
    ensures Get(ToJson(m).members, "at") == if m.at.Some? then Some(AtJson(m.at.value)) else None
  {
    var head := [("msgtype", JString(TypeName(m.msgtype)))];
    var t := PayloadMember("text", m.text, TextJson);
    var md := PayloadMember("markdown", m.markdown, MarkdownJson);
    var l := PayloadMember("link", m.link, LinkJson);
    var a := PayloadMember("at", m.at, AtJson);
    assert ToJson(m).members == (head + t + md + l) + a;
    GetAppend(head + t + md + l, a, "msgtype");
    GetAppend4(head, t, md, l, "msgtype");
    GetAppend(head + t + md + l, a, "text");
    GetAppend4(head, t, md, l, "text");
    GetAppend(head + t + md + l, a, "markdown");
    GetAppend4(head, t, md, l, "markdown");
    GetAppend(head + t + md + l, a, "link");
    GetAppend4(head, t, md, l, "link");
    GetAppend(head + t + md + l, a, "at");
    GetAppend4(head, t, md, l, "at");
  }

  /** Every message survives the trip through its JSON body: the receiver reads back exactly what was built. */
  lemma DecodeEncode(m: Message)
    ensures FromJson(ToJson(m)) == Some(m)
  {
    MembersOfToJson(m);
    TextReadBack(m);
    MarkdownReadBack(m);
    LinkReadBack(m);
    AtReadBack(m);
  }

  lemma TextReadBack(m: Message)
    ensures TextOf(ToJson(m).members) == m.text
  {
    MembersOfToJson(m);
  }

  lemma MarkdownReadBack(m: Message)
    ensures MarkdownOf(ToJson(m).members) == m.markdown
  {
    MembersOfToJson(m);
    if m.markdown.Some? { MarkdownRoundTrip(m.markdown.value); }
  }

  lemma LinkReadBack(m: Message)
    ensures LinkOf(ToJson(m).members) == m.link
  {
    MembersOfToJson(m);
    if m.link.Some? { LinkRoundTrip(m.link.value); }
  }

  lemma AtReadBack(m: Message)
    ensures AtOf(ToJson(m).members) == m.at
  {
    MembersOfToJson(m);
    if m.at.Some? { AtRoundTrip(m.at.value); }
  }

  // ------------------------------------------------------------ signing, URL

  /** The string HMAC-SHA256 signs: the timestamp, a newline, the secret. */
  function StringToSign(timestamp: nat, secret: string): string {
    IntToString(timestamp) + "\n" + secret
  }

  /**
   * `generateSign()`: with no secret, or an empty one, there is nothing to
   * sign; otherwise the suffix carries the timestamp and the URL-encoded
   * base64 HMAC-SHA256 of `StringToSign` keyed by the secret.
   */
  function SignParams(secret: Option<string>, timestamp: nat,
                      hmacBase64: (string, string) -> string, encode: string -> string): (r: Option<string>)
    ensures r.None? <==> !Truthy(secret)
    ensures r.Some? ==> r.value == "timestamp=" + IntToString(timestamp) + "&sign="
                                   + encode(hmacBase64(secret.value, StringToSign(timestamp, secret.value)))
  {
    if !Truthy(secret) then None
    else Some("timestamp=" + IntToString(timestamp) + "&sign="
              + encode(hmacBase64(secret.value, StringToSign(timestamp, secret.value))))
  }

  /** The URL `sendMessage` posts to: the webhook, followed by `&` and the signature suffix when there is one. */
  function RequestUrl(config: Config, timestamp: nat,
                      hmacBase64: (string, string) -> string, encode: string -> string): (url: string)
    ensures StartsWith(url, Interp(config.webhook))
    ensures !Truthy(config.secret) <==> url == Interp(config.webhook)
    ensures Truthy(config.secret) ==>
      url == Interp(config.webhook) + "&timestamp=" + IntToString(timestamp) + "&sign="
             + encode(hmacBase64(config.secret.value, IntToString(timestamp) + "\n" + config.secret.value))
  {
    match SignParams(config.secret, timestamp, hmacBase64, encode)
    case None => Interp(config.webhook)
    case Some(p) => Interp(config.webhook) + "&" + p
  }

  /**
   * Two strings that share a prefix, then hold a run of digits followed by
   * "&sign=", can only be equal if the two runs are: where the shorter run
   * ends, one has '&' and the other a digit.
   */
  lemma DigitRunsBeforeSign(a: string, d1: string, d2: string, e1: string, e2: string)
    requires forall i :: 0 <= i < |d1| ==> IsDecimalDigit(d1[i])
    requires forall i :: 0 <= i < |d2| ==> IsDecimalDigit(d2[i])
    requires a + d1 + "&sign=" + e1 == a + d2 + "&sign=" + e2
    ensures d1 == d2
  {
    DigitsThenAmp(a, d1, e1);
    DigitsThenAmp(a, d2, e2);
  }

  /** Where the digits of such a string sit, and the '&' right after them. */
  lemma DigitsThenAmp(a: string, d: string, e: string)
    ensures var u := a + d + "&sign=" + e;
            && |u| > |a| + |d| && u[|a| + |d|] == '&'
            && forall i :: 0 <= i < |d| ==> u[|a| + i] == d[i]
  {
  }

  /**
   * With a secret, requests signed at two different instants go to two
   * different URLs, whatever the HMAC and the encoder return: the timestamp is
   * in the URL and is followed by "&", which no digit equals.
   */
  lemma SignedUrlsDifferByTimestamp(config: Config, t1: nat, t2: nat,
                                    hmacBase64: (string, string) -> string, encode: string -> string)
    requires Truthy(config.secret) && t1 != t2
    ensures RequestUrl(config, t1, hmacBase64, encode) != RequestUrl(config, t2, hmacBase64, encode)
  {
    var secret := config.secret.value;
    var d1, d2 := IntToString(t1), IntToString(t2);
    if RequestUrl(config, t1, hmacBase64, encode) == RequestUrl(config, t2, hmacBase64, encode) {
      DigitRunsBeforeSign(Interp(config.webhook) + "&timestamp=", d1, d2,
                          encode(hmacBase64(secret, d1 + "\n" + secret)), encode(hmacBase64(secret, d2 + "\n" + secret)));
      ParseIntOfIntToString(t1);
      ParseIntOfIntToString(t2);
    }
  }

  // ------------------------------------------------------------------ client

  /** `DingTalkClient`: holds its configuration, which nothing changes after construction. */
  class DingTalkClient {
    const config: Config

    constructor (config: Config)
      ensures this.config == config
    {
      this.config := config;
    }

    /**
     * `sendMessage`: exactly one fetch, to `RequestUrl` at the current time,
     * with the message's JSON body; true iff the reply's `errcode` is 0. Every
     * failure (a thrown fetch, a body that is not JSON, a missing or non-zero
     * errcode) reads as false and nothing is thrown.
     */
    method SendMessage(message: Message, rt: Runtime, now: nat) returns (ok: bool)
      modifies rt
      ensures rt.fetches == old(rt.fetches)
                            + [Request(RequestUrl(config, now, rt.hmacSha256Base64, rt.encodeUriComponent), ToJson(message))]
      ensures ok <==> rt.respond(|old(rt.fetches)|, rt.fetches[|old(rt.fetches)|]) == Some(0)
    {
      var signParams := SignParams(config.secret, now, rt.hmacSha256Base64, rt.encodeUriComponent);
      var url := if signParams.Some? then Interp(config.webhook) + "&" + signParams.value else Interp(config.webhook);
      var errcode := rt.Fetch(Request(url, ToJson(message)));
      ok := errcode == Some(0);
    }

    method SendText(content: string, atAll: Option<bool>, rt: Runtime, now: nat) returns (ok: bool)
      modifies rt
      ensures rt.fetches == old(rt.fetches)
                            + [Request(RequestUrl(config, now, rt.hmacSha256Base64, rt.encodeUriComponent), ToJson(TextMessage(content, atAll)))]
      ensures ok <==> rt.respond(|old(rt.fetches)|, rt.fetches[|old(rt.fetches)|]) == Some(0)
    {
      ok := SendMessage(TextMessage(content, atAll), rt, now);
    }

    method SendMarkdown(title: Option<string>, text: string, atAll: Option<bool>, rt: Runtime, now: nat) returns (ok: bool)
      modifies rt
      ensures rt.fetches == old(rt.fetches)
                            + [Request(RequestUrl(config, now, rt.hmacSha256Base64, rt.encodeUriComponent), ToJson(MarkdownMessage(title, text, atAll)))]
      ensures ok <==> rt.respond(|old(rt.fetches)|, rt.fetches[|old(rt.fetches)|]) == Some(0)
    {
      ok := SendMessage(MarkdownMessage(title, text, atAll), rt, now);
    }

    method SendLink(title: Option<string>, text: Option<string>, messageUrl: Option<string>, picUrl: Option<string>,
                    rt: Runtime, now: nat) returns (ok: bool)
      modifies rt
      ensures rt.fetches == old(rt.fetches)
                            + [Request(RequestUrl(config, now, rt.hmacSha256Base64, rt.encodeUriComponent), ToJson(LinkMessage(title, text, messageUrl, picUrl)))]
      ensures ok <==> rt.respond(|old(rt.fetches)|, rt.fetches[|old(rt.fetches)|]) == Some(0)
    {
      ok := SendMessage(LinkMessage(title, text, messageUrl, picUrl), rt, now);
    }
  }
}
