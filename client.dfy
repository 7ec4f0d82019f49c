/** SelfCord/client.py: the facade. Every fetch is modelled as the request it
    sends and what it makes of the response the server returns to it; the two
    cached properties are slots of a `Client` object. */
module Client {
  import opened Wrappers
  import opened Json
  import opened Http
  import opened Entities
  import opened Channel
  import opened Guild

  // ------------------------------------------------------- the current user

  predicate UserResponseShape(r: Response) {
    r.body.Decoded? && r.status == 200 ==> UserShape(r.body.json)
  }

  /** `_get_client_user`: GET users/@me, a User on 200. */
  function ClientUser(r: Response): (x: Exchange<User>)
    requires UserResponseShape(r)
    ensures x.sent == [Fetch(CurrentUser)]
    ensures x.result.Success? <==> r.body.Decoded? && r.status == 200
    ensures x.result.Success? ==> x.result.value == UserOf(r.body.json)
    ensures r.body.Undecodable? ==> x.result == Failure(InvalidJson)
    ensures r.body.Decoded? && r.status != 200 ==> x.result == Failure(HTTPException(Payload(r.body.json)))
  {
    Exchange([Fetch(CurrentUser)],
      match Accept(r, 200)
      case Success(j) => Success(UserOf(j))
      case Failure(e) => Failure(e))
  }

  // ---------------------------------------------------------- the sessions

  predicate SessionsShape(j: Json) {
    && j.JObject? && "user_sessions" in j.fields && j.fields["user_sessions"].JArray?
    && forall k :: 0 <= k < |j.fields["user_sessions"].items| ==> SessionShape(j.fields["user_sessions"].items[k])
  }

  predicate SessionsResponseShape(r: Response) {
    r.body.Decoded? && r.status == 200 ==> SessionsShape(r.body.json)
  }

  function SessionEntries(j: Json): seq<Json>
    requires SessionsShape(j)
  {
    j.fields["user_sessions"].items
  }

  /** The sessions a listing describes: one per entry, in order. */
  function SessionsOf(j: Json): (ss: seq<Session>)
    requires SessionsShape(j)
    ensures |ss| == |SessionEntries(j)|
    ensures forall k :: 0 <= k < |ss| ==> ss[k] == SessionOf(SessionEntries(j)[k])
  {
    seq(|SessionEntries(j)|, k requires 0 <= k < |SessionEntries(j)| => SessionOf(SessionEntries(j)[k]))
  }

  /** `_get_client_sessions`: GET auth/sessions; on 200 one Session per entry of
      `user_sessions`, in order, each keeping the entry's three fields. */
  method ClientSessions(r: Response) returns (x: Exchange<seq<Session>>)
    requires SessionsResponseShape(r)
    ensures x.sent == [Fetch(AuthSessions)]
    ensures x.result.Success? <==> r.body.Decoded? && r.status == 200
    ensures r.body.Undecodable? ==> x.result == Failure(InvalidJson)
    ensures r.body.Decoded? && r.status != 200 ==> x.result == Failure(HTTPException(Payload(r.body.json)))
    ensures x.result.Success? ==>
              var entries := SessionEntries(r.body.json);
              |x.result.value| == |entries| &&
              forall k :: 0 <= k < |entries| ==>
                SessionShape(entries[k]) && x.result.value[k] == SessionOf(entries[k])
    ensures x.result.Success? ==> x.result.value == SessionsOf(r.body.json)
  {
    var sent := [Fetch(AuthSessions)];
    if r.body.Undecodable? {
      return Exchange(sent, Failure(InvalidJson));
    }
    if r.status != 200 {
      return Exchange(sent, Failure(HTTPException(Payload(r.body.json))));
    }
    var entries := SessionEntries(r.body.json);
    var sessions: seq<Session> := [];
    for k := 0 to |entries|
      invariant |sessions| == k
      invariant forall q :: 0 <= q < k ==> sessions[q] == SessionOf(entries[q])
    {
      sessions := sessions + [SessionOf(entries[k])];
    }
    assert sessions == SessionsOf(r.body.json);
    return Exchange(sent, Success(sessions));
  }

  /** The sessions the server lists come back unchanged and in order. */
  method SessionsRoundTrip(ss: seq<Session>) returns (x: Exchange<seq<Session>>)
    ensures x.result == Success(ss)
  {
    var entries := seq(|ss|, k requires 0 <= k < |ss| => EncodeSession(ss[k]));
    forall k | 0 <= k < |ss|
      ensures SessionShape(entries[k]) && SessionOf(entries[k]) == ss[k]
    {
      SessionRoundTrip(ss[k]);
    }
    var body := JObject(map["user_sessions" := JArray(entries)]);
    x := ClientSessions(Response(200, Decoded(body)));
    assert x.result.value == ss;
  }

  // ------------------------------------------------------------- getters

  predicate GuildResponseShape(r: Response, success: int) {
    r.body.Decoded? && r.status == success ==> GuildShape(r.body.json)
  }

  /** `get_guild`: GET guilds/{id}, a Guild on 200. */
  function GetGuild(guildId: int, r: Response): (x: Exchange<Guild>)
    requires GuildResponseShape(r, 200)
    ensures x.sent == [Fetch(GuildById(guildId))]
    ensures x.result.Success? <==> r.body.Decoded? && r.status == 200
    ensures x.result.Success? ==> x.result.value == GuildOf(r.body.json)
    ensures r.body.Undecodable? ==> x.result == Failure(InvalidJson)
    ensures r.body.Decoded? && r.status != 200 ==> x.result == Failure(HTTPException(Payload(r.body.json)))
  {
    Exchange([Fetch(GuildById(guildId))],
      match Accept(r, 200)
      case Success(j) => Success(GuildOf(j))
      case Failure(e) => Failure(e))
  }

  predicate ProfileResponseShape(r: Response) {
    r.body.Decoded? && r.status == 200 ==>
      r.body.json.JObject? && "user" in r.body.json.fields && UserShape(r.body.json.fields["user"])
  }

  /** `get_user`: GET users/{id}/profile, a User built from the body's `user` on 200. */
  function GetUser(userId: int, r: Response): (x: Exchange<User>)
    requires ProfileResponseShape(r)
    ensures x.sent == [Fetch(UserProfile(userId))]
    ensures x.result.Success? <==> r.body.Decoded? && r.status == 200
    ensures x.result.Success? ==> x.result.value == UserOf(r.body.json.fields["user"])
    ensures r.body.Undecodable? ==> x.result == Failure(InvalidJson)
    ensures r.body.Decoded? && r.status != 200 ==> x.result == Failure(HTTPException(Payload(r.body.json)))
  {
    Exchange([Fetch(UserProfile(userId))],
      match Accept(r, 200)
      case Success(j) => Success(UserOf(j.fields["user"]))
      case Failure(e) => Failure(e))
  }

  /** A profile the server returns for a user gives that user back. */
  lemma GetUserRoundTrip(u: User, userId: int)
    ensures ProfileResponseShape(Response(200, Decoded(JObject(map["user" := EncodeUser(u)]))))
    ensures GetUser(userId, Response(200, Decoded(JObject(map["user" := EncodeUser(u)])))).result == Success(u)
  {
    UserRoundTrip(u);
  }

  predicate MessageListShape(j: Json) {
    j.JArray? && |j.items| > 0 && MessageShape(j.items[0])
  }

  predicate MessageResponseShape(r: Response) {
    r.body.Decoded? && r.status == 200 ==> MessageListShape(r.body.json)
  }

  function AroundRequest(channelId: int, messageId: int): Request {
    Request(GET, ChannelMessages(channelId), Around(1, messageId), NoBody)
  }

  /** `get_message`: lists one message around the id, and returns the first hit on 200. */
  function GetMessage(channelId: int, messageId: int, r: Response): (x: Exchange<Message>)
    requires MessageResponseShape(r)
    ensures x.sent == [AroundRequest(channelId, messageId)]
    ensures x.result.Success? <==> r.body.Decoded? && r.status == 200
    ensures x.result.Success? ==> x.result.value == MessageOf(r.body.json.items[0])
    ensures r.body.Undecodable? ==> x.result == Failure(InvalidJson)
    ensures r.body.Decoded? && r.status != 200 ==> x.result == Failure(HTTPException(Payload(r.body.json)))
  {
    Exchange([AroundRequest(channelId, messageId)],
      match Accept(r, 200)
      case Success(j) => Success(MessageOf(j.items[0]))
      case Failure(e) => Failure(e))
  }

  /** The first message of the listing comes back; the rest are ignored. */
  lemma GetMessageRoundTrip(m: Message, rest: seq<Json>, channelId: int, messageId: int)
    ensures MessageResponseShape(Response(200, Decoded(JArray([EncodeMessage(m)] + rest))))
    ensures GetMessage(channelId, messageId, Response(200, Decoded(JArray([EncodeMessage(m)] + rest)))).result
            == Success(m)
  {
    MessageRoundTrip(m);
  }

  // ------------------------------------------------------------- channels

  /** The code a decoded `type` value is equal to, in Python's sense, among the
      codes the fetch knows (so `false` is 0 and `true` is 1). */
  function KnownCode(t: Json): (c: Option<int>)
    ensures c.Some? ==> c.value in KnownCodes && PyEqualsInt(t, c.value)
    ensures c.None? ==> forall n :: n in KnownCodes ==> !PyEqualsInt(t, n)
  {
    match t
    case JInt(i) => if i in KnownCodes then Some(i) else None
    case JBool(b) => Some(if b then 1 else 0)
    case _ => None
  }

  /** What the constructors read from a channel body must be of their types. */
  predicate ChannelFieldsShape(f: map<string, Json>) {
    var t := Get(f, "type");
    && (KnownCode(t).Some? ==> Get(f, "id").JInt?)
    && (PyEqualsInt(t, 0) ==> Get(f, "name").JString? && Get(f, "nsfw").JBool?)
    && (PyEqualsInt(t, 2) ==> Get(f, "name").JString?)
  }

  /** `.get()` needs an object, whatever the status. */
  predicate ChannelResponseShape(r: Response) {
    r.body.Decoded? ==> r.body.json.JObject? && (r.status == 200 ==> ChannelFieldsShape(r.body.json.fields))
  }

  /** The if/elif chain over the type code. */
  function Dispatch(f: map<string, Json>): Result<Channel, Error>
    requires ChannelFieldsShape(f)
  {
    var t, id, name, nsfw := Get(f, "type"), Get(f, "id"), Get(f, "name"), Get(f, "nsfw");
    if PyEqualsInt(t, 0) then Success(TextChannel(id.i, name.s, nsfw.b))
    else if PyEqualsInt(t, 1) then Success(DMChannel(id.i))
    else if PyEqualsInt(t, 2) then Success(VoiceChannel(id.i, name.s))
    else if PyEqualsInt(t, 3) then Success(GroupDMChannel(id.i))
    else if PyEqualsInt(t, 4) then Success(GuildCategoryChannel(id.i))
    else if PyEqualsInt(t, 5) then Success(GuildAnnouncementChannel(id.i))
    else if PyEqualsInt(t, 10) then Success(AnnouncementThreadChannel(id.i))
    else if PyEqualsInt(t, 11) then Success(PublicThreadChannel(id.i))
    else if PyEqualsInt(t, 12) then Success(PrivateThreadChannel(id.i))
    else if PyEqualsInt(t, 13) then Success(GuildStageVoiceChannel(id.i))
    else if PyEqualsInt(t, 14) then Success(GuildDirectoryChannel(id.i))
    else if PyEqualsInt(t, 15) then Success(GuildForumChannel(id.i))
    else if PyEqualsInt(t, 16) then Success(GuildMediaChannel(id.i))
    else Failure(ValueError(t))
  }

  /** `get_channel`: GET channels/{id}; the status is checked before the type
      code; a known code builds the variant whose code it is, with the id,
      name and nsfw flag from the body (not the argument); an unknown one,
      or a missing `type`, is a ValueError. */
  function GetChannel(channelId: int, r: Response): (x: Exchange<Channel>)
    requires ChannelResponseShape(r)
    ensures x.sent == [Fetch(ChannelById(channelId))]
    ensures r.body.Undecodable? ==> x.result == Failure(InvalidJson)
    ensures r.body.Decoded? && r.status != 200 ==> x.result == Failure(HTTPException(Payload(r.body.json)))
    ensures r.body.Decoded? && r.status == 200 ==>
              var f := r.body.json.fields;
              var code := KnownCode(Get(f, "type"));
              && (code.None? ==> x.result == Failure(ValueError(Get(f, "type"))))
              && (code.Some? ==> x.result.Success? && TypeCode(x.result.value) == code.value
                                 && Get(f, "id") == JInt(x.result.value.id))
              && (x.result.Success? && x.result.value.TextChannel? ==>
                    Get(f, "name") == JString(x.result.value.name) &&
                    Get(f, "nsfw") == JBool(x.result.value.nsfw) && x.result.value.topic == None)
              && (x.result.Success? && x.result.value.VoiceChannel? ==>
                    Get(f, "name") == JString(x.result.value.name) &&
                    x.result.value.bitRate == DefaultBitRate)
  {
    Exchange([Fetch(ChannelById(channelId))],
      match Accept(r, 200)
      case Success(j) => Dispatch(j.fields)
      case Failure(e) => Failure(e))
  }

  /** A channel as the server describes it. */
  function EncodeChannel(c: Channel): Json {
    var base := map["type" := JInt(TypeCode(c)), "id" := JInt(c.id)];
    match c
    case TextChannel(_, name, nsfw, _) => JObject(base["name" := JString(name)]["nsfw" := JBool(nsfw)])
    case VoiceChannel(_, name, _) => JObject(base["name" := JString(name)])
    case _ => JObject(base)
  }

  /** Fetching a channel the server describes gives that channel back, for
      every variant with its constructor defaults (a fetched text channel has
      no topic, a fetched voice channel the default bit rate). */
  lemma ChannelRoundTrip(c: Channel, channelId: int)
    requires c.TextChannel? ==> c.topic == None
    requires c.VoiceChannel? ==> c.bitRate == DefaultBitRate
    ensures ChannelResponseShape(Response(200, Decoded(EncodeChannel(c))))
    ensures GetChannel(channelId, Response(200, Decoded(EncodeChannel(c)))).result == Success(c)
  {
    var f := EncodeChannel(c).fields;
    assert Get(f, "type") == JInt(TypeCode(c));
    assert Get(f, "id") == JInt(c.id);
  }

  /** Only codes 0 and 2 read `name` and only code 0 reads `nsfw`: two bodies
      that agree on `type` and `id` give the same result otherwise. */
  lemma OtherCodesReadOnlyId(f: map<string, Json>, f': map<string, Json>)
    requires ChannelFieldsShape(f) && ChannelFieldsShape(f')
    requires Get(f, "type") == Get(f', "type") && Get(f, "id") == Get(f', "id")
    requires !PyEqualsInt(Get(f, "type"), 0) && !PyEqualsInt(Get(f, "type"), 2)
    ensures Dispatch(f) == Dispatch(f')
  {
  }

  /** Python's `False == 0` and `True == 1`: a boolean `type` dispatches as
      code 0 or 1. */
  lemma BooleanTypeCodes(f: map<string, Json>)
    requires ChannelFieldsShape(f) && Get(f, "type").JBool?
    ensures Dispatch(f).Success?
    ensures Dispatch(f).value.TextChannel? <==> !Get(f, "type").b
    ensures Dispatch(f).value.DMChannel? <==> Get(f, "type").b
  {
  }

  // -------------------------------------------------------- guild creation

  const GuildNameMessage: string := "Guild name must be between 2 and 100 characters."

  /** Python's `len` counts code points; a Dafny `char` is one code point. */
  predicate ValidGuildName(name: string) {
    2 <= |name| <= 100
  }

  /** `create_guild`: an out-of-range name fails before any request; otherwise
      POST guilds with the name and icon, and only 201 is success. */
  function CreateGuild(name: string, icon: Option<seq<bv8>> := None, r: Response): (x: Exchange<Guild>)
    requires ValidGuildName(name) ==> GuildResponseShape(r, 201)
    ensures x.sent == [] <==> !ValidGuildName(name)
    ensures !ValidGuildName(name) ==> x.result == Failure(InvalidGuildNameException(GuildNameMessage))
    ensures ValidGuildName(name) ==>
              && x.sent == [Request(POST, Guilds, NoQuery, NewGuild(name, icon))]
              && (x.result.Success? <==> r.body.Decoded? && r.status == 201)
              && (x.result.Success? ==> x.result.value == GuildOf(r.body.json))
              && (r.body.Undecodable? ==> x.result == Failure(InvalidJson))
              && (r.body.Decoded? && r.status != 201 ==> x.result == Failure(HTTPException(Payload(r.body.json))))
  {
    if !ValidGuildName(name) then
      Exchange([], Failure(InvalidGuildNameException(GuildNameMessage)))
    else
      Exchange([Request(POST, Guilds, NoQuery, NewGuild(name, icon))],
        match Accept(r, 201)
        case Success(j) => Success(GuildOf(j))
        case Failure(e) => Failure(e))
  }

  // ------------------------------------------- the facade and its two caches

  /** The client object. `user` and `sessions` are `cached_property` slots:
      the first access that returns stores its value there and later accesses
      read it without a request; an access that raises stores nothing. */
  class Client {
    const token: string
    var user: Option<User>
    var sessions: Option<seq<Session>>
    /** The requests this client's transport has sent, in order. */
    ghost var sent: seq<Request>

    constructor (token: string)
      ensures this.token == token && user == None && sessions == None && sent == []
    {
      this.token := token;
      user, sessions := None, None;
      sent := [];
    }

    /** The `user` property; `r` is the response the server would give. */
    method CachedUser(r: Response) returns (u: Result<User, Error>)
      requires UserResponseShape(r)
      modifies this`user, this`sent
      ensures old(user).Some? ==> u == Success(old(user).value) && user == old(user) && sent == old(sent)
      ensures old(user).None? ==>
                u == ClientUser(r).result && sent == old(sent) + ClientUser(r).sent &&
                user == (if u.Success? then Some(u.value) else None)
    {
      if user.Some? {
        return Success(user.value);
      }
      var x := ClientUser(r);
      sent := sent + x.sent;
      u := x.result;
      if u.Success? {
        user := Some(u.value);
      }
    }

    /** The `sessions` property. */
    method CachedSessions(r: Response) returns (s: Result<seq<Session>, Error>)
      requires SessionsResponseShape(r)
      modifies this`sessions, this`sent
      ensures old(sessions).Some? ==>
                s == Success(old(sessions).value) && sessions == old(sessions) && sent == old(sent)
      ensures old(sessions).None? ==>
                sent == old(sent) + [Fetch(AuthSessions)] &&
                (s.Success? <==> r.body.Decoded? && r.status == 200) &&
                (s.Success? ==> s.value == SessionsOf(r.body.json)) &&
                (r.body.Undecodable? ==> s == Failure(InvalidJson)) &&
                (r.body.Decoded? && r.status != 200 ==> s == Failure(HTTPException(Payload(r.body.json)))) &&
                sessions == (if s.Success? then Some(s.value) else None)
    {
      if sessions.Some? {
        return Success(sessions.value);
      }
      var x := ClientSessions(r);
      sent := sent + x.sent;
      s := x.result;
      if s.Success? {
        sessions := Some(s.value);
      }
    }
  }

  /** Reading `user` twice sends one request when the first read succeeds, and
      both reads give the same user. */
  method UserTwice(c: Client, r1: Response, r2: Response) returns (u1: Result<User, Error>, u2: Result<User, Error>)
    requires c.user == None && UserResponseShape(r1) && UserResponseShape(r2)
    requires r1.body.Decoded? && r1.status == 200
    modifies c
    ensures u1 == u2 && u1.Success? && c.sent == old(c.sent) + [Fetch(CurrentUser)]
  {
    u1 := c.CachedUser(r1);
    u2 := c.CachedUser(r2);
  }

  /** Reading `sessions` twice sends one request when the first read succeeds,
      and both reads give the listing of the first response. */
  method SessionsTwice(c: Client, r1: Response, r2: Response)
    returns (s1: Result<seq<Session>, Error>, s2: Result<seq<Session>, Error>)
    requires c.sessions == None && SessionsResponseShape(r1) && SessionsResponseShape(r2)
    requires r1.body.Decoded? && r1.status == 200
    modifies c
    ensures s1 == s2 && s1 == Success(SessionsOf(r1.body.json))
    ensures c.sent == old(c.sent) + [Fetch(AuthSessions)]
  {
    s1 := c.CachedSessions(r1);
    s2 := c.CachedSessions(r2);
  }
}
