/** The transport (SelfCord/http_client.py) as an oracle: a request goes out,
    a status code and a body-or-undecodable come back. Also the two
    exception kinds the library raises and the one rule every fetch follows. */
module Http {
  import opened Wrappers
  import opened Json
  import Text

  const BaseUrl: string := "https://discord.com/api/v10/"

  /** The endpoints the core addresses. */
  datatype Endpoint =
    | CurrentUser
    | AuthSessions
    | GuildById(guildId: int)
    | UserProfile(userId: int)
    | ChannelById(channelId: int)
    | ChannelMessages(channelId: int)
    | Guilds
    | GuildSearch(guildId: int)

  function Path(e: Endpoint): string {
    match e
    case CurrentUser => "users/@me"
    case AuthSessions => "auth/sessions"
    case GuildById(id) => "guilds/" + Text.IntToString(id)
    case UserProfile(id) => "users/" + Text.IntToString(id) + "/profile"
    case ChannelById(id) => "channels/" + Text.IntToString(id)
    case ChannelMessages(id) => "channels/" + Text.IntToString(id) + "/messages"
    case Guilds => "guilds"
    case GuildSearch(id) => "guilds/" + Text.IntToString(id) + "/messages/search"
  }

  /** The URL the transport requests: the fixed base followed by the path. */
  function Url(e: Endpoint): (u: string)
    ensures |u| > |BaseUrl| && u[..|BaseUrl|] == BaseUrl
    ensures u[|BaseUrl|..] == Path(e)
  {
    BaseUrl + Path(e)
  }

  predicate NoSlash(s: string) {
    forall k :: 0 <= k < |s| ==> s[k] != '/'
  }

  /** Index of the first '/' at or after i, or the length. */
  function SegmentEnd(u: string, i: nat): (e: nat)
    ensures i <= e || i > |u|
    decreases |u| - i
  {
    if i >= |u| || u[i] == '/' then i else SegmentEnd(u, i + 1)
  }

  /** After a prefix p, a slash-free segment d followed by nothing or by a
      '/'-led rest ends exactly where d does. */
  lemma {:induction false} SegmentEndAfter(p: string, d: string, s: string, j: nat)
    requires NoSlash(d) && (s == [] || s[0] == '/') && j <= |d|
    ensures SegmentEnd(p + d + s, |p| + j) == |p| + |d|
    decreases |d| - j
  {
    var u := p + d + s;
    if j < |d| {
      assert u[|p| + j] == d[j];
      SegmentEndAfter(p, d, s, j + 1);
    }
  }

  /** Paths split at the first '/' after a common prefix: a slash-free
      segment followed by nothing or by a '/'-led rest is read back uniquely. */
  lemma SegmentSplit(p: string, d1: string, s1: string, d2: string, s2: string)
    requires NoSlash(d1) && NoSlash(d2)
    requires s1 == [] || s1[0] == '/'
    requires s2 == [] || s2[0] == '/'
    requires p + d1 + s1 == p + d2 + s2
    ensures d1 == d2 && s1 == s2
  {
    var u := p + d1 + s1;
    SegmentEndAfter(p, d1, s1, 0);
    SegmentEndAfter(p, d2, s2, 0);
    assert d1 == u[|p|..|p| + |d1|] == d2;
    assert s1 == u[|p| + |d1|..] == s2;
  }

  /** The first letter of a path: u(sers), a(uth), g(uilds) or c(hannels). */
  function Family(e: Endpoint): char {
    match e
    case CurrentUser | UserProfile(_) => 'u'
    case AuthSessions => 'a'
    case Guilds | GuildById(_) | GuildSearch(_) => 'g'
    case ChannelById(_) | ChannelMessages(_) => 'c'
  }

  lemma PathHead(e: Endpoint)
    ensures |Path(e)| > 0 && Path(e)[0] == Family(e)
  {
  }

  /** What follows the id in a path that carries one. */
  function Rest(e: Endpoint): string {
    match e
    case UserProfile(_) => "/profile"
    case ChannelMessages(_) => "/messages"
    case GuildSearch(_) => "/messages/search"
    case _ => ""
  }

  function Id(e: Endpoint): int
    requires e.GuildById? || e.GuildSearch? || e.UserProfile? || e.ChannelById? || e.ChannelMessages?
  {
    match e
    case GuildById(id) => id
    case GuildSearch(id) => id
    case UserProfile(id) => id
    case ChannelById(id) => id
    case ChannelMessages(id) => id
  }

  /** Two paths of endpoints that carry an id, after the same prefix, agree
      only when the ids and what follows them agree. */
  lemma IdPathsAgree(p: string, a: Endpoint, b: Endpoint)
    requires a.GuildById? || a.GuildSearch? || a.UserProfile? || a.ChannelById? || a.ChannelMessages?
    requires b.GuildById? || b.GuildSearch? || b.UserProfile? || b.ChannelById? || b.ChannelMessages?
    requires p + Text.IntToString(Id(a)) + Rest(a) == p + Text.IntToString(Id(b)) + Rest(b)
    ensures Id(a) == Id(b) && Rest(a) == Rest(b)
  {
    Text.IntToStringHasNoSlash(Id(a));
    Text.IntToStringHasNoSlash(Id(b));
    SegmentSplit(p, Text.IntToString(Id(a)), Rest(a), Text.IntToString(Id(b)), Rest(b));
    Text.IntToStringInjective(Id(a), Id(b));
  }

  /** Distinct endpoints have distinct paths: a path names one endpoint and,
      for the ones that carry an id, that id. */
  lemma PathInjective(a: Endpoint, b: Endpoint)
    requires Path(a) == Path(b)
    ensures a == b
  {
    PathHead(a);
    PathHead(b);
    if Family(a) == 'g' && !a.Guilds? && !b.Guilds? {
      IdPathsAgree("guilds/", a, b);
    } else if Family(a) == 'c' {
      IdPathsAgree("channels/", a, b);
    } else if a.UserProfile? && b.UserProfile? {
      IdPathsAgree("users/", a, b);
    }
  }

  /** Two requests that use the same URL address the same endpoint. */
  lemma UrlInjective(a: Endpoint, b: Endpoint)
    requires Url(a) == Url(b)
    ensures a == b
  {
    assert Path(a) == Url(a)[|BaseUrl|..] == Url(b)[|BaseUrl|..] == Path(b);
    PathInjective(a, b);
  }

  datatype Verb = GET | POST | DELETE

  /** The query string of a search request; an absent key is `None`, `false` or `[]`.
      An author or channel list exists as a key only when it has entries. */
  datatype SearchParams = SearchParams(
    content: Option<string>,
    authorIds: seq<int>,
    channelIds: seq<int>,
    includeNsfw: bool,
    offset: Option<int>)

  datatype Query =
    | NoQuery
    | Around(limit: int, around: int)
    | Search(params: SearchParams)

  /** The JSON body of a request: only guild creation sends one. */
  datatype RequestBody =
    | NoBody
    | NewGuild(name: string, icon: Option<seq<bv8>>)

  datatype Request = Request(verb: Verb, endpoint: Endpoint, query: Query, body: RequestBody)

  function Fetch(e: Endpoint): Request {
    Request(GET, e, NoQuery, NoBody)
  }

  /** What `response.json()` produced: a value, or a ValueError. */
  datatype Body = Decoded(json: Json) | Undecodable

  datatype Response = Response(status: int, body: Body)

  /** The argument an HTTPException carries: the decoded error body or a message. */
  datatype Cause = Payload(json: Json) | Message(text: string)

  datatype Error =
    | HTTPException(cause: Cause)
    | InvalidGuildNameException(message: string)
    /** `ValueError("Unknown channel type: …")`, carrying the offending value. */
    | ValueError(channelType: Json)

  const InvalidJsonMessage: string := "Invalid JSON response from server."
  const InvalidJson: Error := HTTPException(Message(InvalidJsonMessage))

  /** What one call reports: the requests it sent, then what it returned or raised. */
  datatype Exchange<T> = Exchange(sent: seq<Request>, result: Result<T, Error>)

  /** The rule every fetch applies to its response: decode first (a failure is the
      generic HTTPException whatever the status); then only the one success status
      yields the decoded body; any other status raises HTTPException carrying it. */
  function Accept(r: Response, success: int): (a: Result<Json, Error>)
    ensures a.Success? <==> r.body.Decoded? && r.status == success
    ensures a.Success? ==> a.value == r.body.json
    ensures r.body.Undecodable? ==> a == Failure(InvalidJson)
    ensures r.body.Decoded? && r.status != success ==> a == Failure(HTTPException(Payload(r.body.json)))
  {
    match r.body
    case Undecodable => Failure(InvalidJson)
    case Decoded(j) => if r.status == success then Success(j) else Failure(HTTPException(Payload(j)))
  }
}
