# SelfCord in Dafny

SelfCord is a small Python client for Discord's user API. Apart from the HTTP
transport, it makes three kinds of decision, and this project models and proves
each of them:

- **Client** (`client.py`). Every fetch reads its response the same way:
  - decode the body first; a decode failure is the generic `HTTPException`, whatever the status;
  - then accept only the one success status (200; 201 for guild creation) and build an entity;
  - any other status raises `HTTPException` carrying the decoded body.

  On top of that rule:
  - `get_channel` dispatches on thirteen type codes;
  - `create_guild` checks the name length before it sends anything;
  - the `user` and `sessions` properties are cached per client.
- **Guild** (`guild.py`):
  - `delete` is a one-shot status rule.
  - `search_messages` is a paging generator:
    - it keeps a query dict and a running tally;
    - it yields messages until the limit;
    - it steps the offset by 25 per page;
    - it stops only at an empty page, at a failure, or at the first request after the tally reaches the limit.
- **Channel** (`channel.py`): the closed family of thirteen channel
  variants, with constructor defaults and a string rendering that only the
  text channel overrides.

How the model is built:

- **Transport.** The transport is abstracted away. A call receives the
  `Response` the server would send: a status, plus either a decoded JSON
  value or "not JSON". It reports an `Exchange`: the requests it sent, then
  its result or the exception it raised.
- **Search.** The server is a sequence of responses, one per request. The
  consumer of the generator is the number of `next()` calls it makes
  (`pulls`).
- **`SearchMessages`.** This method keeps the loop of `search_messages`:
  - the query is built by appending ids one by one;
  - each page is read, sliced to the remaining limit and yielded;
  - the tally is extended and the offset is stepped.

  It is proved against a specification:
  - `Stream` is everything the server offers before its first empty or failed page;
  - `Total` is min(limit, |Stream|);
  - `StopFrom` is the index of the last request in a run to the end;
  - `HoldingFrom` is the page that holds a given message.

  The predicate `Finished` ties these together. It fixes the messages
  yielded, how many requests were sent and how the consumption ended, for
  every number of pulls. The lemmas next to it characterise the stop and the
  order of messages.
- **The client class.** The `Client` class has an `Option` slot for each
  cached property. Its methods fill a slot only when the fetch returns.

Modules:

| module | contents |
|---|---|
| `Wrappers` | Option and Result |
| `Text` | decimal rendering of integers, as an f-string writes them, with its inverse |
| `Json` | decoded JSON values and Python's `dict.get` and `==` on them |
| `Http` | endpoints, requests, responses, errors and the shared response rule `Accept` |
| `Entities` | the User, Session and Message records and how they are read from JSON |
| `Channel` | the channel family and its rendering |
| `Guild` | the guild record, `delete` and the search |
| `Client` | the fetches, the channel dispatch, guild creation and the cached properties |

## Model

| member | source | states |
|---|---|---|
| Http.PathInjective | SelfCord/client.py:35-205 | the endpoint paths the client builds are distinct for distinct endpoints and ids: a path names one endpoint and the id it carries |
| Http.UrlInjective | SelfCord/http_client.py:12-13 | the URL is the fixed API base followed by the path, so two requests with the same URL address the same endpoint |
| Http.Accept | SelfCord/client.py:38-52 | decode first: an undecodable body gives the generic "Invalid JSON response from server." whatever the status. A decoded body is the result exactly when the status is the success status. Any other status raises HTTPException carrying that body |
| Entities.UserRoundTrip | SelfCord/user.py:5-10 | a user the server describes is read back with its id, username, global name and avatar (both nullable) |
| Entities.SessionRoundTrip | SelfCord/session.py:7-10 | a session is read back with its id hash, last-used time and client-info map |
| Entities.MessageRoundTrip | SelfCord/message.py:6-8 | a message is read back with its id and content |
| Guild.GuildRoundTrip | SelfCord/guild.py:15-17 | a guild is read back with its id and name |
| Guild.Delete | SelfCord/guild.py:25-36 | sends one DELETE to the guild. It succeeds with True exactly on 204, without looking at the body, and never returns False. Any other status raises, with the decoded body or the generic message |
| Guild.OffsetAt | SelfCord/guild.py:53-54 | the first request carries the caller's offset only when it is truthy (present and non-zero). Every later request carries an offset |
| Guild.OffsetStep | SelfCord/guild.py:87 | each later offset is the previous one (0 when absent) plus 25, whatever the page held |
| Guild.RequestAt | SelfCord/guild.py:56-58 | request k of a search goes to the guild's search endpoint with the initial query and the k-th offset |
| Guild.BuildParams | SelfCord/guild.py:41-54 | content only when present and non-empty; author and channel ids in input order; include_nsfw only when true; offset only when truthy. Equals the query the search specification uses |
| Guild.PageMessages | SelfCord/guild.py:66-73 | one Message per group, in response order, each from the group's element 0 |
| Guild.Classify | SelfCord/guild.py:58-90 | a page aborts exactly when the shared response rule fails, with that error. Otherwise its batch is one message per group, in order, from element 0 |
| Guild.FetchPage | SelfCord/guild.py:58-73 | reading the i-th response as the loop body does gives that page's classification. A request past the modelled server finds an empty page |
| Guild.ProgressAtStart | SelfCord/guild.py:56-57 | before the first request nothing is counted or yielded, and the whole stream lies ahead |
| Guild.ExitOnAbort | SelfCord/guild.py:60-63 | a failed page ends the run with its exception. The messages yielded before it stay yielded |
| Guild.ExitAtLimit | SelfCord/guild.py:75-77 | a page requested once the tally is at the limit ends the run without yielding. This is the one extra request |
| Guild.ExitOnEmpty | SelfCord/guild.py:84-85 | a page with no hits ends the generator |
| Guild.ExitSuspended | SelfCord/guild.py:79-80 | when the consumer's last pull falls inside a batch, the run is suspended after the request of the page that holds that message |
| Guild.Advance | SelfCord/guild.py:75-87 | a non-empty page reached below the limit, however short, is yielded (cut to the remaining limit), counted whole, and the loop moves to the next page with its invariant kept |
| Guild.YieldBatch | SelfCord/guild.py:79-80 | yields the batch in order until the consumer stops pulling. It reports whether the consumer stopped inside the batch |
| Guild.ConsumeBatch | SelfCord/guild.py:75-85 | the body of the loop after a successful page: it ends the run (limit reached, consumer suspended, empty page) or keeps the loop invariant for the next page |
| Guild.SearchMessages | SelfCord/guild.py:38-90 | takes the source's defaults (no filters, no offset, limit 25). The requests sent are the search requests with the stepped offsets. The consumer receives Stream[..min(pulls, Total)]. With 0 pulls nothing is sent. Within the total, the last request is the one for the page that holds the last pulled message, and the run is suspended there. Beyond the total, StopFrom+1 requests are sent and the run ends as that last page says (StopIteration or its exception) |
| Guild.StopReasons | SelfCord/guild.py:75-85 | a run goes on past every page that is a non-empty success while the tally is below the limit, however short the page. It stops only at an empty page, a failed page, or a page reached with the tally at the limit |
| Guild.StreamPosition | SelfCord/guild.py:67-80 | message k of the stream is the message at position k minus the earlier pages' size on the page that holds it: page order, then response order |
| Guild.HoldingMonotone | SelfCord/guild.py:79-80 | a later message never comes from an earlier page |
| Guild.SearchToEnd | SelfCord/guild.py:75-82 | a consumer that drains the generator gets min(limit, \|Stream\|) messages, never more than the limit. It gets nothing when the limit is not positive. The run ends in StopIteration or an exception |
| Guild.SearchNonPositiveLimit | SelfCord/guild.py:75-77 | for every query (content, authors, channels, nsfw flag, offset), with limit <= 0, starting the iteration sends exactly one request, the query's first search request, and yields nothing. That response's status still decides whether it raises |
| Guild.EightThenFive | SelfCord/guild.py:56-87 | limit 10 over pages of 8 and 5 hits: 8 + 2 messages. A consumer that takes ten sends 2 requests and leaves the generator suspended. One that takes more sends a third, at offsets none, 25 and 50, and the generator ends |
| Guild.SearchWithDefaults | SelfCord/guild.py:38-39 | with every default, the first request has no content, author, channel, nsfw or offset filter, and a draining consumer gets at most 25 messages |
| Guild.EmptyFirstPage | SelfCord/guild.py:84-85 | a first page with no hits: one request, nothing yielded, the generator ends |
| Channel.TypeCode | SelfCord/client.py:148-173 | each variant has its code among the thirteen known; 0 is exactly the text channel and 2 exactly the voice channel |
| Channel.TypeCodeNamesVariant | SelfCord/client.py:148-173 | the thirteen codes are distinct, so a code names one variant |
| Channel.ConstructorDefaults | SelfCord/channel.py:12-29 | a text channel's topic defaults to None, a voice channel's bit rate to 96000, and both keep the id they are given |
| Channel.Str | SelfCord/channel.py:5-19 | a text channel renders as `TextChannel(id=…, name=…, nsfw=True/False, topic=…/None)`. Every other variant, voice included, renders as `BaseChannel(id=…)` |
| Channel.BaseRenderingKeepsId | SelfCord/channel.py:5-6 | the id can be parsed back from a base rendering |
| Channel.BaseRenderingShowsOnlyId | SelfCord/channel.py:25-73 | two non-text channels render alike exactly when their ids are equal. Variant, name and bit rate do not show |
| Channel.TextRenderingIsDistinct | SelfCord/channel.py:18-19 | a text channel never renders like another variant |
| Client.ClientUser | SelfCord/client.py:34-52 | GET users/@me. On a decoded 200 body, the user it describes; otherwise the generic or the carrying HTTPException |
| Client.ClientSessions | SelfCord/client.py:54-75 | GET auth/sessions. On 200, exactly one Session per entry of user_sessions, in order, each keeping the entry's fields (the list `SessionsOf` describes); otherwise the two HTTPException cases |
| Client.SessionsRoundTrip | SelfCord/client.py:63-73 | the sessions the server lists come back unchanged and in order |
| Client.GetGuild | SelfCord/client.py:77-99 | GET guilds/{id}. A guild on 200 only; otherwise the two HTTPException cases |
| Client.GetUser | SelfCord/client.py:101-125 | GET users/{id}/profile. The body's `user` object on 200 only; otherwise the two HTTPException cases |
| Client.GetUserRoundTrip | SelfCord/client.py:116-123 | a profile that wraps a user gives that user back |
| Client.GetMessage | SelfCord/client.py:179-199 | GET channels/{id}/messages with limit 1 around the message id. The first listed message on 200; otherwise the two HTTPException cases |
| Client.GetMessageRoundTrip | SelfCord/client.py:192-197 | the first message of the listing comes back, whatever follows it |
| Client.KnownCode | SelfCord/client.py:148-175 | a type value has a known code exactly when Python's `==` makes it equal to one of the thirteen codes; booleans count as 0 and 1 |
| Client.GetChannel | SelfCord/client.py:127-177 | the status is checked before the type. A known code gives the variant with that code and the body's id (not the argument's). The text channel takes the body's name and nsfw with no topic; the voice channel takes the body's name and bit rate 96000. An unknown or missing type is a ValueError |
| Client.ChannelRoundTrip | SelfCord/client.py:139-173 | every variant the server describes comes back as itself, with its constructor defaults |
| Client.OtherCodesReadOnlyId | SelfCord/client.py:148-173 | for every code other than 0 and 2, the result depends on the type and id alone |
| Client.BooleanTypeCodes | SelfCord/client.py:148-151 | a boolean type value dispatches as code 0 (False, text channel) or 1 (True, DM channel) |
| Client.CreateGuild | SelfCord/client.py:202-220 | the icon defaults to none. No request and InvalidGuildNameException exactly when the name is outside 2..100 characters. Otherwise one POST with the name and icon. Only 201 succeeds; any other status, 200 included, raises |
| Client.Client.constructor | SelfCord/client.py:17-19 | a new client has its token, nothing cached and nothing sent |
| Client.Client.CachedUser | SelfCord/client.py:26-28 | a filled slot is returned with no request. An empty slot fetches once, and it is filled only when the fetch returns (a raised exception is not cached) |
| Client.Client.CachedSessions | SelfCord/client.py:30-32 | the same caching for the sessions list. An empty slot fetches auth/sessions once, and on 200 it returns and caches the response's listing (`SessionsOf`); otherwise the two HTTPException cases, not cached |
| Client.UserTwice | SelfCord/client.py:26-28 | two reads of `user` whose first read succeeds send one request and give the same user |
| Client.SessionsTwice | SelfCord/client.py:30-32 | two reads of `sessions` whose first read succeeds send one request, and both give the first response's listing |

## Left out

- The HTTP transport (`http_client.py`), its session, headers and token are left out. Each call receives the server's response as a parameter. The model records the request rather than sending it.
- JSON decoding is left out: the decoded body is a given value. Floats are not modelled, so Python's `1.0 == 1` does not appear in the type dispatch.
- Malformed bodies are preconditions (the `…Shape` predicates). These cover the bodies on which the source crashes with a bare `KeyError`, `IndexError`, `TypeError` or `AttributeError`: a missing key, an empty message list, a non-object channel body. They also fix the JSON type of each field the records read, as the constructors annotate them (SelfCord/user.py:5, SelfCord/guild.py:15, SelfCord/message.py:6, SelfCord/session.py:7). The source does not check these types, so the lines below name the members whose preconditions they narrow.
- Client.ClientUser, Client.GetUser, Client.Client.CachedUser: require the user's `id` to be an integer, `username` a string, and `global_name` and `avatar` strings or null. The source builds a User from any values, a string id such as `"80351110224678912"` included.
- Client.ClientSessions, Client.Client.CachedSessions: require every entry's `id_hash` and `approx_last_used_time` to be strings and `client_info` an object of strings.
- Client.GetGuild, Client.CreateGuild: require the guild's `id` to be an integer and `name` a string.
- Client.GetMessage, Guild.SearchMessages: require each message's `id` to be an integer and `content` a string.
- Guild.SearchMessages: requires every 200 page of the modelled server to have the search shape, including pages after the run stops, which the source never reads.
- Client.GetChannel: requires the body's `id` to be an integer and, where codes 0 and 2 read them, `name` to be a string and `nsfw` a boolean. The source passes whatever `.get` returns, `None` included, into the constructor.
- Client.GetChannel: the ValueError carries the offending type value. The text that the f-string `Unknown channel type: …` would produce is not modelled.
- The `__str__` of `Client`, `Guild`, `User`, `Session` and `Message` is left out. The other methods of the record classes are left out too; only their constructors are modelled. `__repr__` is the same function as `__str__` in `channel.py`, so `Channel.Str` models both.
- The mechanics of `cached_property` are left out: clearing a slot with `del`, and sharing a client between threads.
- The search generator is modelled by how many items its consumer pulls. Closing it early, and interleaving it with other calls, are not modelled. The server is a finite sequence, and a request past its end finds an empty page.
- The `icon` bytes are passed through as given. Whether the transport can serialise them into the JSON body is not modelled.
- Name lengths are counted in Dafny `char`s, one per Unicode scalar value. This matches Python's `len` on strings without lone surrogates.
