/** SelfCord/guild.py: a guild record, its deletion, and the paged message
    search. The search is a Python generator; here it is a loop that runs
    the generator for as many `next()` calls as the consumer makes, against
    a server modelled as the sequence of responses to successive requests. */
module Guild {
  import opened Wrappers
  import opened Json
  import opened Http
  import opened Entities

  datatype Guild = Guild(id: int, name: string)

  predicate GuildShape(j: Json) {
    j.JObject? && HasInt(j.fields, "id") && HasString(j.fields, "name")
  }

  /** `Guild(d["id"], d["name"], http)`. */
  function GuildOf(j: Json): (g: Guild)
    requires GuildShape(j)
    ensures JInt(g.id) == j.fields["id"] && JString(g.name) == j.fields["name"]
  {
    Guild(j.fields["id"].i, j.fields["name"].s)
  }

  function EncodeGuild(g: Guild): Json {
    JObject(map["id" := JInt(g.id), "name" := JString(g.name)])
  }

  lemma GuildRoundTrip(g: Guild)
    ensures GuildShape(EncodeGuild(g)) && GuildOf(EncodeGuild(g)) == g
  {
  }

  // ---------------------------------------------------------------- delete

  /** `Guild.delete`: 204 is success, decided before the body is looked at;
      any other status raises, with the decoded body or the generic message.
      It never returns False. */
  function Delete(g: Guild, r: Response): (x: Exchange<bool>)
    ensures x.sent == [Request(DELETE, GuildById(g.id), NoQuery, NoBody)]
    ensures x.result.Success? <==> r.status == 204
    ensures x.result.Success? ==> x.result.value
    ensures r.status != 204 && r.body.Undecodable? ==> x.result == Failure(InvalidJson)
    ensures r.status != 204 && r.body.Decoded? ==>
              x.result == Failure(HTTPException(Payload(r.body.json)))
  {
    var sent := [Request(DELETE, GuildById(g.id), NoQuery, NoBody)];
    if r.status == 204 then Exchange(sent, Success(true))
    else match r.body
      case Undecodable => Exchange(sent, Failure(InvalidJson))
      case Decoded(j) => Exchange(sent, Failure(HTTPException(Payload(j))))
  }

  // ------------------------------------------------------ search: the query

  /** The step between successive search offsets, whatever a page held. */
  const PageSize: int := 25

  /** The number of messages a search yields when the caller gives no limit. */
  const DefaultLimit: int := 25

  predicate Truthy(o: Option<int>) {
    o.Some? && o.value != 0
  }

  /** The query dict as built before the first request. */
  function InitialParams(content: Option<string>, authors: seq<int>, channels: seq<int>,
                         includeNsfw: bool, offset: Option<int>): SearchParams
  {
    SearchParams(if content.Some? && content.value != "" then content else None,
                 authors, channels, includeNsfw, if Truthy(offset) then offset else None)
  }

  /** The offset sent with the k-th request (counting from 0): the caller's
      offset on the first request only if it is truthy, and from then on the
      previous offset (0 when absent) plus 25. */
  function OffsetAt(offset: Option<int>, k: nat): (o: Option<int>)
    ensures k == 0 ==> o == (if Truthy(offset) then offset else None)
    ensures k > 0 ==> o.Some?
  {
    if k == 0 then (if Truthy(offset) then offset else None)
    else Some((if Truthy(offset) then offset.value else 0) + PageSize * k)
  }

  /** Each later offset is the previous one, or 0, plus 25. */
  lemma OffsetStep(offset: Option<int>, k: nat)
    ensures OffsetAt(offset, k + 1) == Some(OffsetAt(offset, k).GetOr(0) + PageSize)
  {
  }

  function SearchRequest(guildId: int, p: SearchParams): Request {
    Request(GET, GuildSearch(guildId), Search(p), NoBody)
  }

  /** The first n requests of a search: all to the guild's search endpoint
      with the same query, the offset stepping as OffsetAt says. */
  function Requests(guildId: int, initial: SearchParams, offset: Option<int>, n: nat): (rs: seq<Request>)
    ensures |rs| == n
  {
    if n == 0 then []
    else Requests(guildId, initial, offset, n - 1)
         + [SearchRequest(guildId, initial.(offset := OffsetAt(offset, n - 1)))]
  }

  /** Request k of a search goes to the guild's search endpoint with the
      initial query and the k-th offset. */
  lemma {:induction false} RequestAt(guildId: int, initial: SearchParams, offset: Option<int>, n: nat, k: nat)
    requires k < n
    ensures Requests(guildId, initial, offset, n)[k] ==
              SearchRequest(guildId, initial.(offset := OffsetAt(offset, k)))
  {
    if k < n - 1 {
      RequestAt(guildId, initial, offset, n - 1, k);
    }
  }

  /** Builds the query as `search_messages` does, appending author and channel
      ids one by one. */
  method BuildParams(content: Option<string>, authors: seq<int>, channels: seq<int>,
                     includeNsfw: bool, offset: Option<int>) returns (p: SearchParams)
    ensures p.content.Some? <==> content.Some? && content.value != ""
    ensures p.content.Some? ==> p.content == content
    ensures p.authorIds == authors && p.channelIds == channels
    ensures p.includeNsfw == includeNsfw
    ensures p.offset.Some? <==> Truthy(offset)
    ensures p.offset.Some? ==> p.offset == offset
    ensures p == InitialParams(content, authors, channels, includeNsfw, offset)
  {
    p := SearchParams(None, [], [], false, None);
    if content.Some? && content.value != "" {
      p := p.(content := content);
    }
    for k := 0 to |authors|
      invariant p.authorIds == authors[..k]
      invariant p.channelIds == [] && !p.includeNsfw && p.offset == None
      invariant p.content == InitialParams(content, authors, channels, includeNsfw, offset).content
    {
      p := p.(authorIds := p.authorIds + [authors[k]]);
    }
    for k := 0 to |channels|
      invariant p.channelIds == channels[..k]
      invariant p.authorIds == authors && !p.includeNsfw && p.offset == None
      invariant p.content == InitialParams(content, authors, channels, includeNsfw, offset).content
    {
      p := p.(channelIds := p.channelIds + [channels[k]]);
    }
    if includeNsfw {
      p := p.(includeNsfw := true);
    }
    if Truthy(offset) {
      p := p.(offset := offset);
    }
  }

  // ------------------------------------------------------ search: the pages

  predicate GroupShape(g: Json) {
    g.JArray? && |g.items| > 0 && MessageShape(g.items[0])
  }

  /** `{"messages": [[message, …], …]}`: each group's first element is the hit. */
  predicate PageShape(j: Json) {
    && j.JObject? && "messages" in j.fields && j.fields["messages"].JArray?
    && forall k :: 0 <= k < |j.fields["messages"].items| ==> GroupShape(j.fields["messages"].items[k])
  }

  predicate ShapedIfOk(r: Response) {
    r.body.Decoded? && r.status == 200 ==> PageShape(r.body.json)
  }

  /** Every successful page the server holds is of the search shape. */
  predicate WellShaped(server: seq<Response>) {
    forall k :: 0 <= k < |server| ==> ShapedIfOk(server[k])
  }

  function Groups(j: Json): seq<Json>
    requires PageShape(j)
  {
    j.fields["messages"].items
  }

  /** Builds one Message per group, from the group's element 0, in order. */
  method PageMessages(groups: seq<Json>) returns (messages: seq<Message>)
    requires forall k :: 0 <= k < |groups| ==> GroupShape(groups[k])
    ensures |messages| == |groups|
    ensures forall k :: 0 <= k < |groups| ==>
              GroupShape(groups[k]) && messages[k] == MessageOf(groups[k].items[0])
  {
    messages := [];
    for k := 0 to |groups|
      invariant |messages| == k
      invariant forall q :: 0 <= q < k ==> messages[q] == MessageOf(groups[q].items[0])
    {
      messages := messages + [MessageOf(groups[k].items[0])];
    }
  }

  /** What one search response means to the loop. */
  datatype Page = Batch(messages: seq<Message>) | Abort(error: Error)

  function Classify(r: Response): (p: Page)
    requires ShapedIfOk(r)
    ensures p.Abort? <==> Accept(r, 200).Failure?
    ensures p.Abort? ==> Accept(r, 200) == Failure(p.error)
    ensures p.Batch? ==> |p.messages| == |Groups(r.body.json)|
    ensures p.Batch? ==> forall k :: 0 <= k < |p.messages| ==>
                           p.messages[k] == MessageOf(Groups(r.body.json)[k].items[0])
  {
    match Accept(r, 200)
    case Failure(e) => Abort(e)
    case Success(j) =>
      Batch(seq(|Groups(j)|, k requires 0 <= k < |Groups(j)| => MessageOf(Groups(j)[k].items[0])))
  }

  /** A request past the end of the modelled server finds an empty page. */
  const EmptyPage: Response := Response(200, Decoded(JObject(map["messages" := JArray([])])))

  function PageAt(server: seq<Response>, i: nat): Response {
    if i < |server| then server[i] else EmptyPage
  }

  /** The page is answered with 200 and holds at least one message. */
  predicate Continues(r: Response)
    requires ShapedIfOk(r)
  {
    Classify(r).Batch? && Classify(r).messages != []
  }

  /** Every message the server offers from page i on: the pages in order up
      to the first one that is empty or not a success. */
  function StreamFrom(server: seq<Response>, i: nat): seq<Message>
    requires WellShaped(server)
    decreases |server| - i
  {
    if i >= |server| || !Continues(server[i]) then []
    else Classify(server[i]).messages + StreamFrom(server, i + 1)
  }

  function Stream(server: seq<Response>): seq<Message>
    requires WellShaped(server)
  {
    StreamFrom(server, 0)
  }

  function Min(a: int, b: int): int {
    if a <= b then a else b
  }

  /** How many messages a consumer that never stops pulling receives. */
  function Total(server: seq<Response>, limit: int): (n: nat)
    requires WellShaped(server)
    ensures n <= |Stream(server)|
    ensures limit > 0 ==> n == Min(limit, |Stream(server)|)
    ensures limit <= 0 ==> n == 0
  {
    if limit <= 0 then 0 else Min(limit, |Stream(server)|)
  }

  /** Index of the last request of a search run to its end, started at page i
      with `tally` messages already counted: the first page that is not a
      success, or is empty, or is reached with the tally at the limit. */
  function StopFrom(server: seq<Response>, i: nat, tally: int, limit: int): (s: nat)
    requires WellShaped(server)
    ensures i <= s && (s > i ==> s <= |server|)
    decreases |server| - i
  {
    if i >= |server| || tally >= limit || !Continues(server[i]) then i
    else StopFrom(server, i + 1, tally + |Classify(server[i]).messages|, limit)
  }

  /** Index of the page the k-th message of StreamFrom(server, i) comes from. */
  function HoldingFrom(server: seq<Response>, i: nat, k: nat): (p: nat)
    requires WellShaped(server)
    requires k < |StreamFrom(server, i)|
    ensures i <= p < |server|
    decreases |server| - i
  {
    var ms := Classify(server[i]).messages;
    if k < |ms| then i else HoldingFrom(server, i + 1, k - |ms|)
  }

  /** How a generator consumption ended. */
  datatype Outcome =
    | Suspended  // the consumer stopped calling next(): after its last item, or before the first
    | Exhausted  // the generator returned (StopIteration)
    | Raised(error: Error)  // the exception reached the consumer

  /** How a search run to its end finishes at its last page. */
  function EndAt(server: seq<Response>, s: nat): Outcome
    requires WellShaped(server)
  {
    if s >= |server| then Exhausted
    else match Classify(server[s])
      case Abort(e) => Raised(e)
      case Batch(_) => Exhausted
  }

  // ------------------------------------------------------ search: the loop

  /** One search response, read as the loop body reads it: decode, then the
      status, then one Message per group. */
  method FetchPage(server: seq<Response>, i: nat) returns (page: Page)
    requires WellShaped(server)
    ensures ShapedIfOk(PageAt(server, i)) && page == Classify(PageAt(server, i))
  {
    var r := PageAt(server, i);
    if r.body.Undecodable? {
      return Abort(InvalidJson);
    }
    if r.status != 200 {
      return Abort(HTTPException(Payload(r.body.json)));
    }
    var messages := PageMessages(Groups(r.body.json));
    assert messages == Classify(r).messages;
    return Batch(messages);
  }

  /** What holds at the head of the search loop, before request i: the full
      batches counted so far (`all_messages`) are the start of the stream,
      the consumer has had the part of them within the limit, and the run
      still ends where it would have from the start. */
  ghost predicate Progress(server: seq<Response>, limit: int, pulls: nat, i: nat,
                           all: seq<Message>, yielded: seq<Message>)
    requires WellShaped(server)
  {
    && i <= |server|
    && Stream(server) == all + StreamFrom(server, i)
    && (|all| < limit ==> yielded == all)
    && (|all| >= limit ==> Total(server, limit) <= |all| && yielded == all[..Total(server, limit)])
    && |yielded| < pulls
    && StopFrom(server, 0, 0, limit) == StopFrom(server, i, |all|, limit)
    && (|all| <= pulls - 1 < |Stream(server)| ==>
          HoldingFrom(server, 0, pulls - 1) == HoldingFrom(server, i, pulls - 1 - |all|))
  }

  /** What a consumption of the search with `pulls` calls of next() ends with,
      when it sent n requests. */
  ghost predicate Finished(server: seq<Response>, limit: int, pulls: nat,
                           yielded: seq<Message>, n: nat, outcome: Outcome)
    requires WellShaped(server)
  {
    && yielded == Stream(server)[..Min(pulls, Total(server, limit))]
    && (pulls == 0 ==> n == 0 && outcome == Suspended)
    && (0 < pulls <= Total(server, limit) ==>
          outcome == Suspended && n == HoldingFrom(server, 0, pulls - 1) + 1)
    && (pulls > Total(server, limit) ==>
          n == StopFrom(server, 0, 0, limit) + 1 && outcome == EndAt(server, StopFrom(server, 0, 0, limit)))
  }

  lemma ProgressAtStart(server: seq<Response>, limit: int, pulls: nat)
    requires WellShaped(server) && pulls > 0
    ensures Progress(server, limit, pulls, 0, [], [])
  {
  }

  /** A page that is answered with an error ends the run, raising. */
  lemma ExitOnAbort(server: seq<Response>, limit: int, pulls: nat, i: nat,
                    all: seq<Message>, yielded: seq<Message>)
    requires WellShaped(server) && Progress(server, limit, pulls, i, all, yielded)
    requires ShapedIfOk(PageAt(server, i)) && Classify(PageAt(server, i)).Abort?
    ensures Finished(server, limit, pulls, yielded, i + 1, Raised(Classify(PageAt(server, i)).error))
  {
    assert i < |server|;
    assert StreamFrom(server, i) == [];
  }

  /** A page reached with the tally at the limit ends the run. */
  lemma ExitAtLimit(server: seq<Response>, limit: int, pulls: nat, i: nat,
                    all: seq<Message>, yielded: seq<Message>)
    requires WellShaped(server) && Progress(server, limit, pulls, i, all, yielded)
    requires ShapedIfOk(PageAt(server, i)) && Classify(PageAt(server, i)).Batch?
    requires |all| >= limit
    ensures Finished(server, limit, pulls, yielded, i + 1, Exhausted)
  {
    assert Stream(server)[..Total(server, limit)] == all[..Total(server, limit)];
  }

  /** An empty page ends the run. */
  lemma ExitOnEmpty(server: seq<Response>, limit: int, pulls: nat, i: nat,
                    all: seq<Message>, yielded: seq<Message>)
    requires WellShaped(server) && Progress(server, limit, pulls, i, all, yielded)
    requires ShapedIfOk(PageAt(server, i)) && Classify(PageAt(server, i)) == Batch([])
    requires |all| < limit
    ensures Finished(server, limit, pulls, yielded, i + 1, Exhausted)
  {
    assert StreamFrom(server, i) == [];
  }

  /** The consumer stops pulling while page i is being yielded. */
  lemma ExitSuspended(server: seq<Response>, limit: int, pulls: nat, i: nat,
                      all: seq<Message>, ms: seq<Message>, yielded: seq<Message>)
    requires WellShaped(server) && Progress(server, limit, pulls, i, all, all)
    requires ShapedIfOk(PageAt(server, i)) && Classify(PageAt(server, i)) == Batch(ms)
    requires |all| < limit && |all| + Min(limit - |all|, |ms|) >= pulls
    requires yielded == all + ms[..Min(limit - |all|, |ms|)][..pulls - |all|]
    ensures Finished(server, limit, pulls, yielded, i + 1, Suspended)
  {
    assert i < |server| && Continues(server[i]);
    assert StreamFrom(server, i) == ms + StreamFrom(server, i + 1);
    assert Stream(server) == all + ms + StreamFrom(server, i + 1);
    assert yielded == all + ms[..pulls - |all|];
    assert yielded == Stream(server)[..pulls];
  }

  /** Passing a non-empty page within the limit: the stream, the stop index and
      the holding page are seen the same from the next page on. */
  lemma AdvanceStream(server: seq<Response>, i: nat, all: seq<Message>, ms: seq<Message>)
    requires WellShaped(server) && Stream(server) == all + StreamFrom(server, i)
    requires ShapedIfOk(PageAt(server, i)) && Classify(PageAt(server, i)) == Batch(ms) && ms != []
    ensures i < |server| && Continues(server[i])
    ensures Stream(server) == (all + ms) + StreamFrom(server, i + 1)
  {
    assert i < |server|;
    assert StreamFrom(server, i) == ms + StreamFrom(server, i + 1);
  }

  lemma AdvanceStop(server: seq<Response>, limit: int, i: nat, all: seq<Message>, ms: seq<Message>)
    requires WellShaped(server) && i < |server| && Continues(server[i])
    requires Classify(server[i]) == Batch(ms) && |all| < limit
    ensures StopFrom(server, i, |all|, limit) == StopFrom(server, i + 1, |all + ms|, limit)
  {
  }

  lemma AdvanceHolding(server: seq<Response>, i: nat, k: nat, ms: seq<Message>)
    requires WellShaped(server) && i < |server| && Continues(server[i])
    requires Classify(server[i]) == Batch(ms) && |ms| <= k < |StreamFrom(server, i)|
    ensures |StreamFrom(server, i)| == |ms| + |StreamFrom(server, i + 1)|
    ensures HoldingFrom(server, i, k) == HoldingFrom(server, i + 1, k - |ms|)
  {
  }

  /** A non-empty page below the limit moves the run on to page i + 1, whatever
      its size. */
  lemma Advance(server: seq<Response>, limit: int, pulls: nat, i: nat,
                all: seq<Message>, ms: seq<Message>)
    requires WellShaped(server) && Progress(server, limit, pulls, i, all, all)
    requires ShapedIfOk(PageAt(server, i)) && Classify(PageAt(server, i)) == Batch(ms)
    requires |all| < limit && ms != []
    requires |all| + Min(limit - |all|, |ms|) < pulls
    ensures Progress(server, limit, pulls, i + 1, all + ms, all + ms[..Min(limit - |all|, |ms|)])
  {
    AdvanceStream(server, i, all, ms);
    AdvanceStop(server, limit, i, all, ms);
    if |all + ms| <= pulls - 1 < |Stream(server)| {
      AdvanceHolding(server, i, pulls - 1 - |all|, ms);
    }
    if |all + ms| >= limit {
      assert all + ms[..limit - |all|] == (all + ms)[..limit];
    }
  }

  /** `for msg in batch: yield msg`, with a consumer that makes `pulls` calls
      of next() in all: it stops after the item that brings it to `pulls`. */
  method YieldBatch(yielded: seq<Message>, batch: seq<Message>, pulls: nat)
    returns (out: seq<Message>, suspended: bool)
    requires |yielded| < pulls
    ensures suspended <==> |yielded| + |batch| >= pulls
    ensures out == yielded + batch[..Min(|batch|, pulls - |yielded|)]
    ensures !suspended ==> |out| < pulls
  {
    out, suspended := yielded, false;
    for j := 0 to |batch|
      invariant out == yielded + batch[..j]
      invariant |out| < pulls
    {
      out := out + [batch[j]];
      if |out| == pulls {
        suspended := true;
        return;
      }
    }
  }

  /** The part of one loop pass after the limit check: yield the page's share
      of the remaining limit, count the whole page into `all_messages`, and end
      the run on an empty page. `ended` says how the consumption ended, if it did. */
  method ConsumeBatch(server: seq<Response>, limit: int, pulls: nat, i: nat,
                      all: seq<Message>, yielded: seq<Message>, messages: seq<Message>)
    returns (yielded': seq<Message>, all': seq<Message>, ended: Option<Outcome>)
    requires WellShaped(server) && Progress(server, limit, pulls, i, all, yielded)
    requires ShapedIfOk(PageAt(server, i)) && Classify(PageAt(server, i)) == Batch(messages)
    requires |all| < limit
    ensures ended.Some? ==> Finished(server, limit, pulls, yielded', i + 1, ended.value)
    ensures ended.None? ==> messages != [] && all' == all + messages &&
                            Progress(server, limit, pulls, i + 1, all', yielded')
  {
    var remaining := limit - |all|;
    var batch := messages[..Min(remaining, |messages|)];
    var suspended;
    yielded', suspended := YieldBatch(yielded, batch, pulls);
    all' := all;
    if suspended {
      ExitSuspended(server, limit, pulls, i, all, messages, yielded');
      return yielded', all', Some(Suspended);
    }
    all' := all + messages;
    if |messages| == 0 {
      ExitOnEmpty(server, limit, pulls, i, all, yielded');
      return yielded', all', Some(Exhausted);
    }
    Advance(server, limit, pulls, i, all, messages);
    ended := None;
  }

  /** `search_messages`, consumed by `pulls` calls of next(). Page i of `server`
      answers the i-th request. Returns the messages yielded, the requests sent
      and how the consumption ended. */
  method SearchMessages(g: Guild, content: Option<string> := None, authors: seq<int> := [],
                        channels: seq<int> := [], includeNsfw: bool := false,
                        offset: Option<int> := None, limit: int := DefaultLimit,
                        server: seq<Response>, pulls: nat)
    returns (yielded: seq<Message>, sent: seq<Request>, outcome: Outcome)
    requires WellShaped(server)
    ensures sent == Requests(g.id, InitialParams(content, authors, channels, includeNsfw, offset),
                             offset, |sent|)
    ensures Finished(server, limit, pulls, yielded, |sent|, outcome)
  {
    var params := BuildParams(content, authors, channels, includeNsfw, offset);
    ghost var initial := params;
    yielded, sent, outcome := [], [], Suspended;
    if pulls == 0 {
      return;
    }
    var allMessages: seq<Message> := [];
    var i := 0;
    ProgressAtStart(server, limit, pulls);
    while true
      invariant i == |sent|
      invariant params == initial.(offset := OffsetAt(offset, i))
      invariant sent == Requests(g.id, initial, offset, i)
      invariant Progress(server, limit, pulls, i, allMessages, yielded)
      decreases |server| - i
    {
      sent := sent + [SearchRequest(g.id, params)];
      assert sent == Requests(g.id, initial, offset, i + 1);
      var page := FetchPage(server, i);
      if page.Abort? {
        ExitOnAbort(server, limit, pulls, i, allMessages, yielded);
        outcome := Raised(page.error);
        return;
      }
      var messages := page.messages;
      var remaining := limit - |allMessages|;
      if remaining <= 0 {
        ExitAtLimit(server, limit, pulls, i, allMessages, yielded);
        outcome := Exhausted;
        return;
      }
      var ended;
      yielded, allMessages, ended := ConsumeBatch(server, limit, pulls, i, allMessages, yielded, messages);
      if ended.Some? {
        outcome := ended.value;
        return;
      }
      OffsetStep(offset, i);
      params := params.(offset := Some(params.offset.GetOr(0) + PageSize));
      i := i + 1;
    }
  }

  // ------------------------------------------- search: what a run amounts to

  /** Messages a page adds to the tally: its batch, or none for a failure. */
  function Size(r: Response): nat
    requires ShapedIfOk(r)
  {
    if Classify(r).Batch? then |Classify(r).messages| else 0
  }

  /** The tally pages i up to (not including) p add. */
  function Counted(server: seq<Response>, i: nat, p: nat): nat
    requires WellShaped(server) && i <= p <= |server|
    decreases p - i
  {
    if i == p then 0 else Size(server[i]) + Counted(server, i + 1, p)
  }

  /** The only reasons a run stops at page s: the tally has reached the limit
      before it, or it is empty or not a success. Every earlier page went on,
      however few messages it held (a short page does not stop the run). */
  lemma {:induction false} StopReasons(server: seq<Response>, i: nat, tally: int, limit: int)
    requires WellShaped(server) && i <= |server|
    ensures var s := StopFrom(server, i, tally, limit);
            && (forall p :: i <= p < s ==> Continues(server[p]) && tally + Counted(server, i, p) < limit)
            && (s < |server| ==> tally + Counted(server, i, s) >= limit || !Continues(server[s]))
    decreases |server| - i
  {
    var s := StopFrom(server, i, tally, limit);
    if s > i {
      var n := |Classify(server[i]).messages|;
      StopReasons(server, i + 1, tally + n, limit);
      forall p | i + 1 <= p <= s
        ensures Counted(server, i, p) == n + Counted(server, i + 1, p)
      {
      }
    }
  }

  /** Message k of the stream is message k - Counted(0, p) of the page p it
      comes from: pages in order, and within a page in response order. */
  lemma {:induction false} StreamPosition(server: seq<Response>, i: nat, k: nat)
    requires WellShaped(server) && k < |StreamFrom(server, i)|
    ensures var p := HoldingFrom(server, i, k);
            && Continues(server[p])
            && Counted(server, i, p) <= k < Counted(server, i, p) + |Classify(server[p]).messages|
            && StreamFrom(server, i)[k] == Classify(server[p]).messages[k - Counted(server, i, p)]
    decreases |server| - i
  {
    var ms := Classify(server[i]).messages;
    if k >= |ms| {
      StreamPosition(server, i + 1, k - |ms|);
    }
  }

  /** A later message never comes from an earlier page. */
  lemma {:induction false} HoldingMonotone(server: seq<Response>, i: nat, k1: nat, k2: nat)
    requires WellShaped(server) && k1 <= k2 < |StreamFrom(server, i)|
    ensures HoldingFrom(server, i, k1) <= HoldingFrom(server, i, k2)
    decreases |server| - i
  {
    var ms := Classify(server[i]).messages;
    if k1 >= |ms| {
      HoldingMonotone(server, i + 1, k1 - |ms|, k2 - |ms|);
    }
  }

  /** `list(guild.search_messages(...))`: a consumer that pulls until the
      generator ends gets min(limit, |Stream|) messages, never more than the
      limit, and the run sends one request per page up to its stop. */
  method SearchToEnd(g: Guild, content: Option<string>, authors: seq<int>, channels: seq<int>,
                     includeNsfw: bool, offset: Option<int>, limit: int, server: seq<Response>)
    returns (yielded: seq<Message>, sent: seq<Request>, outcome: Outcome)
    requires WellShaped(server)
    ensures yielded == Stream(server)[..Total(server, limit)]
    ensures limit > 0 ==> |yielded| == Min(limit, |Stream(server)|) <= limit
    ensures limit <= 0 ==> yielded == []
    ensures |sent| == StopFrom(server, 0, 0, limit) + 1
    ensures outcome == EndAt(server, StopFrom(server, 0, 0, limit))
    ensures outcome != Suspended
  {
    yielded, sent, outcome := SearchMessages(g, content, authors, channels, includeNsfw, offset,
                                             limit, server, Total(server, limit) + 1);
  }

  /** With a limit of zero or less, starting the iteration sends exactly one
      request and yields nothing; its status still decides the outcome. */
  method SearchNonPositiveLimit(g: Guild, content: Option<string>, authors: seq<int>, channels: seq<int>,
                                includeNsfw: bool, offset: Option<int>, limit: int,
                                server: seq<Response>, pulls: nat)
    returns (yielded: seq<Message>, sent: seq<Request>, outcome: Outcome)
    requires WellShaped(server) && limit <= 0 && pulls > 0
    ensures yielded == [] && |sent| == 1
    ensures sent[0] == SearchRequest(g.id, InitialParams(content, authors, channels, includeNsfw, offset))
    ensures outcome == EndAt(server, 0)
  {
    yielded, sent, outcome := SearchMessages(g, content, authors, channels, includeNsfw, offset,
                                             limit, server, pulls);
    RequestAt(g.id, InitialParams(content, authors, channels, includeNsfw, offset), offset, |sent|, 0);
  }

  /** A search hit with a given id. */
  function Hit(id: int): Message {
    Entities.Message(id, "hit")
  }

  /** A search page of `n` groups with message ids base, base+1, … */
  function PageOf(base: int, n: nat): Response {
    var groups := seq(n, k => JArray([EncodeMessage(Hit(base + k))]));
    Response(200, Decoded(JObject(map["messages" := JArray(groups)])))
  }

  lemma PageOfClassified(base: int, n: nat)
    ensures ShapedIfOk(PageOf(base, n))
    ensures Classify(PageOf(base, n)) == Batch(seq(n, k => Hit(base + k)))
  {
    var groups := seq(n, k => JArray([EncodeMessage(Hit(base + k))]));
    assert PageOf(base, n).body.json.fields["messages"].items == groups;
    forall k | 0 <= k < n
      ensures GroupShape(groups[k]) && MessageOf(groups[k].items[0]) == Hit(base + k)
    {
      MessageRoundTrip(Hit(base + k));
    }
  }

  /** Limit 10 over pages of 8 and 5 messages: ten messages, the last two from
      the second page; a consumer that takes ten sends two requests (offsets
      none and 25) and leaves the generator suspended; one that asks for more
      sends a third, at offset 50, and the generator ends. */
  method EightThenFive(g: Guild)
    returns (first: seq<Message>, all: seq<Message>, s1: seq<Request>, s2: seq<Request>,
             o1: Outcome, o2: Outcome)
    ensures |first| == 10 && first == all
    ensures first[..8] == seq(8, k => Hit(k)) && first[8..] == seq(2, k => Hit(100 + k))
    ensures |s1| == 2 && o1 == Suspended
    ensures |s2| == 3 && o2 == Exhausted
    ensures s2[0] == SearchRequest(g.id, SearchParams(None, [], [], false, None))
    ensures s2[1] == SearchRequest(g.id, SearchParams(None, [], [], false, Some(25)))
    ensures s2[2] == SearchRequest(g.id, SearchParams(None, [], [], false, Some(50)))
  {
    PageOfClassified(0, 8);
    PageOfClassified(100, 5);
    var server := [PageOf(0, 8), PageOf(100, 5)];
    assert StreamFrom(server, 2) == [];
    assert StreamFrom(server, 1) == seq(5, k => Hit(100 + k));
    assert Stream(server) == seq(8, k => Hit(k)) + seq(5, k => Hit(100 + k));
    assert HoldingFrom(server, 1, 1) == 1;
    assert StopFrom(server, 2, 13, 10) == 2;
    first, s1, o1 := SearchMessages(g, limit := 10, server := server, pulls := 10);
    all, s2, o2 := SearchMessages(g, limit := 10, server := server, pulls := 11);
    assert first[..8] == Stream(server)[..8];
    assert first[8..] == Stream(server)[8..10];
    var initial := InitialParams(None, [], [], false, None);
    RequestAt(g.id, initial, None, 3, 0);
    RequestAt(g.id, initial, None, 3, 1);
    RequestAt(g.id, initial, None, 3, 2);
  }

  /** A search with every default: no content, author, channel or nsfw
      filter, no offset, and a limit of 25. A consumer that drains it gets at
      most 25 messages. */
  method SearchWithDefaults(g: Guild, server: seq<Response>)
    returns (yielded: seq<Message>, sent: seq<Request>, outcome: Outcome)
    requires WellShaped(server)
    ensures yielded == Stream(server)[..Min(DefaultLimit, |Stream(server)|)]
    ensures |yielded| <= 25
    ensures |sent| >= 1 && sent[0] == SearchRequest(g.id, SearchParams(None, [], [], false, None))
  {
    yielded, sent, outcome := SearchMessages(g, server := server, pulls := Total(server, DefaultLimit) + 1);
    RequestAt(g.id, InitialParams(None, [], [], false, None), None, |sent|, 0);
  }

  /** A first page with no hits: one request, nothing yielded, the generator ends. */
  method EmptyFirstPage(g: Guild, pulls: nat) returns (yielded: seq<Message>, n: nat, outcome: Outcome)
    requires pulls > 0
    ensures yielded == [] && n == 1 && outcome == Exhausted
  {
    PageOfClassified(0, 0);
    var sent;
    yielded, sent, outcome := SearchMessages(g, server := [PageOf(0, 0)], pulls := pulls);
    n := |sent|;
  }
}
