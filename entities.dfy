/** The plain records the fetches return (SelfCord/user.py, SelfCord/session.py,
    SelfCord/message.py), how each is read out of a decoded body, and, as the
    server's side of the exchange, how a record looks when the server sends it. */
module Entities {
  import opened Wrappers
  import opened Json

  datatype User = User(id: int, username: string, globalName: Option<string>, avatar: Option<string>)

  datatype Session = Session(idHash: string, approxLastUsedTime: string, clientInfo: map<string, string>)

  datatype Message = Message(id: int, content: string)

  // ---- users: `d["id"], d["username"], d["global_name"], d["avatar"]`

  predicate UserShape(j: Json) {
    && j.JObject?
    && HasInt(j.fields, "id")
    && HasString(j.fields, "username")
    && "global_name" in j.fields && IsNullableString(j.fields["global_name"])
    && "avatar" in j.fields && IsNullableString(j.fields["avatar"])
  }

  function UserOf(j: Json): (u: User)
    requires UserShape(j)
    ensures JInt(u.id) == j.fields["id"] && JString(u.username) == j.fields["username"]
    ensures EncodeNullableString(u.globalName) == j.fields["global_name"]
    ensures EncodeNullableString(u.avatar) == j.fields["avatar"]
  {
    User(j.fields["id"].i, j.fields["username"].s,
         NullableString(j.fields["global_name"]), NullableString(j.fields["avatar"]))
  }

  function EncodeUser(u: User): Json {
    JObject(map["id" := JInt(u.id), "username" := JString(u.username),
                "global_name" := EncodeNullableString(u.globalName),
                "avatar" := EncodeNullableString(u.avatar)])
  }

  lemma UserRoundTrip(u: User)
    ensures UserShape(EncodeUser(u)) && UserOf(EncodeUser(u)) == u
  {
  }

  // ---- sessions: `s["id_hash"], s["approx_last_used_time"], s["client_info"]`

  predicate StringMap(j: Json) {
    j.JObject? && forall k :: k in j.fields ==> j.fields[k].JString?
  }

  predicate SessionShape(j: Json) {
    && j.JObject?
    && HasString(j.fields, "id_hash")
    && HasString(j.fields, "approx_last_used_time")
    && "client_info" in j.fields && StringMap(j.fields["client_info"])
  }

  function StringMapOf(j: Json): (m: map<string, string>)
    requires StringMap(j)
    ensures m.Keys == j.fields.Keys
    ensures forall k :: k in m ==> j.fields[k] == JString(m[k])
  {
    map k | k in j.fields :: j.fields[k].s
  }

  function SessionOf(j: Json): (s: Session)
    requires SessionShape(j)
    ensures JString(s.idHash) == j.fields["id_hash"]
    ensures JString(s.approxLastUsedTime) == j.fields["approx_last_used_time"]
    ensures s.clientInfo == StringMapOf(j.fields["client_info"])
  {
    Session(j.fields["id_hash"].s, j.fields["approx_last_used_time"].s,
            StringMapOf(j.fields["client_info"]))
  }

  function EncodeSession(s: Session): Json {
    JObject(map["id_hash" := JString(s.idHash),
                "approx_last_used_time" := JString(s.approxLastUsedTime),
                "client_info" := JObject(map k | k in s.clientInfo :: JString(s.clientInfo[k]))])
  }

  lemma SessionRoundTrip(s: Session)
    ensures SessionShape(EncodeSession(s)) && SessionOf(EncodeSession(s)) == s
  {
    var info := EncodeSession(s).fields["client_info"];
    assert StringMapOf(info) == s.clientInfo;
  }

  // ---- messages: `m["id"], m["content"]`

  predicate MessageShape(j: Json) {
    j.JObject? && HasInt(j.fields, "id") && HasString(j.fields, "content")
  }

  function MessageOf(j: Json): (m: Message)
    requires MessageShape(j)
    ensures JInt(m.id) == j.fields["id"] && JString(m.content) == j.fields["content"]
  {
    Message(j.fields["id"].i, j.fields["content"].s)
  }

  function EncodeMessage(m: Message): Json {
    JObject(map["id" := JInt(m.id), "content" := JString(m.content)])
  }

  lemma MessageRoundTrip(m: Message)
    ensures MessageShape(EncodeMessage(m)) && MessageOf(EncodeMessage(m)) == m
  {
  }
}
