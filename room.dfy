/** One room (src/ChatRoom.ts): the ordered list of live sessions, the counter
    that numbers new connections, fan-out to every session, and the two
    handlers every new session gets, `chat` (re-broadcast with the sender's
    public details) and `close` (leave the list).

    The room's handlers are closures over the session in the source; here
    they are the identifiers `ChatHandler` and `CloseHandler` in each
    session's own listener table, and the room runs their bodies when a
    session's dispatch reports a call to them. */
module Room {
  import opened Protocol
  import opened Seqs
  import opened Session

  const ChatHandler: HandlerId := 0
  const CloseHandler: HandlerId := 1

  /** `getRoomDetails()`, without the store: `config` is what the store holds. */
  datatype RoomDetails = RoomDetails(id: string, name: string, config: string, count: nat)

  /** Session `u` has a transport, and its one `close` listener is this
      room's close handler. */
  ghost predicate Closable(u: User)
    reads u`hasSocket, u`listeners
  {
    u.hasSocket && u.Handlers(CloseType) == [CloseHandler]
  }

  /** The listener table `handleSession` leaves on every session it creates:
      the `chat` handler under `chat`, the `close` handler under `close`. */
  const RoomListeners: map<string, seq<HandlerId>> := map[ChatType := [ChatHandler], CloseType := [CloseHandler]]

  /** Session `u` has a transport and the room's listener table; nothing
      else registers listeners on it. */
  ghost predicate Wired(u: User)
    reads u`hasSocket, u`listeners
  {
    u.hasSocket && u.listeners == RoomListeners
  }

  /** The part of `handleSession` that acts on the new session itself: send
      it the configuration, then register the room's `chat` and `close`
      handlers. */
  method Greet(user: User, parsedConfig: Option<Json>, configSendOk: bool)
    requires user.hasSocket && user.listeners == map[] && user.sent == []
    requires user.connected && !user.socketClosed
    modifies user`connected, user`socketClosed, user`sent, user`listeners
    ensures Wired(user)
    ensures user.sent == (if configSendOk then [ConfigMessage(parsedConfig)] else [])
    ensures user.connected == configSendOk && user.socketClosed == !configSendOk
  {
    var calls := user.Send(Whole(ConfigMessage(parsedConfig)), JNull, configSendOk, {});
    // no `close` listener is registered yet, so a failed send runs nothing
    assert user.Handlers(ChatType) == [];
    user.On(ChatType, ChatHandler);
    assert ChatType != CloseType && user.Handlers(CloseType) == [];
    user.On(CloseType, CloseHandler);
    assert [] + [ChatHandler] == [ChatHandler] && [] + [CloseHandler] == [CloseHandler];
  }

  /** The frame the `chat` handler broadcasts: the text as received and the
      sender's public details. */
  function ChatMessage(text: Json, sender: Json): (e: Envelope)
    ensures e.kind == ChatType && e.data.JObject? && e.data.fields.Keys == {"message", "user"}
    ensures e.data.fields["message"] == text && e.data.fields["user"] == sender
  {
    Envelope(ChatType, JObject(map["message" := text, "user" := sender]))
  }

  /** The frame a new session gets first: the stored configuration if it
      parsed, an empty object otherwise. */
  function ConfigMessage(parsed: Option<Json>): (e: Envelope)
    ensures e.kind == ConfigType
    ensures parsed.None? ==> e.data == JObject(map[])
    ensures parsed.Some? ==> e.data == parsed.value
  {
    Envelope(ConfigType, parsed.GetOr(JObject(map[])))
  }

  /** A chat frame never carries the sender's identifier, and its properties
      are exactly the sender's properties under public keys. */
  lemma ChatHidesPrivateDetails(text: Json, u: User)
    ensures var user := ChatMessage(text, u.PublicDetails()).data.fields["user"];
            && "id" !in user.fields && "connectionDetails" !in user.fields
            && (forall k :: k in user.fields["properties"].fields <==> k in u.properties && IsPublicKey(k))
            && (forall k :: k in user.fields["properties"].fields ==> user.fields["properties"].fields[k] == u.properties[k])
  {
  }

  /** What one `send` of `msg` did to session `u`, whose transport write
      fails when `fails` holds: a frame is written, or the session is
      disconnected and its transport closed. */
  twostate predicate SentTo(u: User, msg: Envelope, fails: bool)
    reads u
  {
    && u.sent == old(u.sent) + (if fails then [] else [msg])
    && u.connected == (old(u.connected) && !fails)
    && u.socketClosed == (old(u.socketClosed) || fails)
  }

  /** Session `u` has not been written to, nor disconnected, yet. */
  twostate predicate Untouched(u: User)
    reads u`sent, u`connected, u`socketClosed
  {
    u.sent == old(u.sent) && u.connected == old(u.connected) && u.socketClosed == old(u.socketClosed)
  }

  /** One `send` of `msg` to each session of `snap`, `failing` naming the
      sessions whose transport write fails. */
  twostate predicate Delivered(snap: seq<User>, msg: Envelope, failing: set<User>)
    reads snap
  {
    forall k :: 0 <= k < |snap| ==> SentTo(snap[k], msg, snap[k] in failing)
  }

  /** Every session of `s` is wired and numbered from `issued`, and none is
      listed twice. */
  ghost predicate Listed(s: seq<User>, issued: set<int>)
    reads s`hasSocket, s`listeners, s`suffix
  {
    && (forall k :: 0 <= k < |s| ==> Wired(s[k]) && s[k].suffix in issued)
    && Distinct(s)
  }

  /** Dropping sessions from a well-formed list leaves a well-formed list. */
  lemma ListedWithout(s: seq<User>, xs: set<User>, issued: set<int>)
    requires Listed(s, issued)
    ensures Listed(Without(s, xs), issued)
  {
    WithoutShape(s, xs);
    WithoutDistinct(s, xs);
  }

  /** Listing one more wired session, numbered from a larger `issued`,
      keeps the list well formed. */
  lemma ListedAppend(s: seq<User>, u: User, issued: set<int>, issued': set<int>)
    requires Listed(s, issued) && issued <= issued'
    requires Wired(u) && u.suffix in issued' && u !in s
    ensures Listed(s + [u], issued')
  {
    DistinctAppend(s, u);
  }

  class ChatRoom {
    var sessions: seq<User>
    var name: Option<string>
    var incrementValue: int
    /** every suffix this room has handed out */
    ghost var issued: set<int>

    ghost predicate Valid()
      reads this, sessions`hasSocket, sessions`listeners, sessions`suffix
    {
      && incrementValue >= 1
      && (forall n :: n in issued ==> 2 <= n <= incrementValue)
      && Listed(sessions, issued)
    }

    constructor ()
      ensures Valid()
      ensures sessions == [] && incrementValue == 1 && name == None && issued == {}
    {
      sessions := [];
      name := None;
      incrementValue := 1;
      issued := {};
    }

    /** The room name taken from the `room` query parameter, `default` when
        it is missing or empty. */
    method NameFromQuery(room: Option<string>)
      modifies this`name
      ensures name == Some(if room.Some? && room.value != "" then room.value else "default")
    {
      name := Some(if room.Some? && room.value != "" then room.value else "default");
    }

    /** `getRoomDetails()`, given what the store holds under `config`. */
    function Details(controllerId: string, storedConfig: Option<string>): (d: RoomDetails)
      reads this
      ensures d.count == |sessions|
      ensures d.id == controllerId
      ensures d.name == (if name.Some? then name.value else "")
      ensures d.config == (if storedConfig.Some? then storedConfig.value else "")
    {
      RoomDetails(controllerId, name.GetOr(""), storedConfig.GetOr(""), |sessions|)
    }

    /** The body of the `close` handler: the session leaves the list. */
    method OnClose(u: User)
      modifies this`sessions
      ensures sessions == Without(old(sessions), {u})
    {
      sessions := Without(sessions, {u});
    }

    /** The room's `close` handler on session `u`, keeping the room well formed. */
    method CloseSession(u: User)
      requires Valid()
      modifies this`sessions
      ensures Valid()
      ensures sessions == Without(old(sessions), {u})
    {
      ghost var before := sessions;
      OnClose(u);
      ListedWithout(before, {u}, issued);
    }

    /** One step of `broadcast`: `send` to session `u`, and the room's
        `close` handler when the write fails. */
    method SendOne(u: User, message: Message, data: Json, transportOk: bool)
      requires Closable(u)
      modifies this`sessions, u`connected, u`socketClosed, u`sent
      ensures sessions == if transportOk then old(sessions) else Without(old(sessions), {u})
      ensures SentTo(u, Compose(message, data), !transportOk)
    {
      var calls := u.Send(message, data, transportOk, {});
      if calls != [] {
        // the session's one `close` listener is this room's close handler
        OnClose(u);
      }
    }

    /** `broadcast(message, data)`: one `send` to each session, in list
        order, over the list as it was when the broadcast began; a session
        whose write fails runs its `close` handler and leaves the list. */
    method Broadcast(message: Message, data: Json, failing: set<User>)
      requires Distinct(sessions)
      requires forall k :: 0 <= k < |sessions| ==> Closable(sessions[k])
      modifies this`sessions, sessions`connected, sessions`socketClosed, sessions`sent
      ensures sessions == Without(old(sessions), failing)
      ensures Delivered(old(sessions), Compose(message, data), failing)
    {
      var snap := sessions;
      // the failing sessions already visited, whose close handlers have run
      ghost var dropped: set<User> := {};
      WithoutDisjoint(snap, dropped);
      for i := 0 to |snap|
        invariant sessions == Without(snap, dropped)
        invariant dropped <= failing
        invariant forall k :: 0 <= k < i && snap[k] in failing ==> snap[k] in dropped
        invariant forall k :: 0 <= k < |snap| ==>
                    if k < i then SentTo(snap[k], Compose(message, data), snap[k] in failing)
                       else Untouched(snap[k])
      {
        DistinctAt(snap, i);
        if snap[i] in failing {
          WithoutWithout(snap, dropped, {snap[i]});
          dropped := dropped + {snap[i]};
        }
        assert old(Closable(snap[i]));
        SendOne(snap[i], message, data, snap[i] !in failing);
      }
      WithoutAgree(snap, dropped, failing);
    }

    /** The room's `chat` handler on session `u`: broadcast the text with
        `u`'s public details; the room stays well formed. */
    method OnChat(u: User, text: Json, failing: set<User>)
      requires Valid()
      modifies this`sessions, sessions`connected, sessions`socketClosed, sessions`sent
      ensures Valid()
      ensures sessions == Without(old(sessions), failing)
      ensures Delivered(old(sessions), ChatMessage(text, u.PublicDetails()), failing)
    {
      ghost var before := sessions;
      Broadcast(Whole(ChatMessage(text, u.PublicDetails())), JNull, failing);
      ListedWithout(before, failing, issued);
    }

    /** `handleSession`: number the connection, list the session, send it the
        configuration, then register its `chat` and `close` handlers. */
    method HandleSession(generatedId: string, parsedConfig: Option<Json>, configSendOk: bool)
        returns (user: User)
      requires Valid()
      modifies this`incrementValue, this`sessions, this`issued
      ensures Valid() && fresh(user)
      ensures incrementValue == old(incrementValue) + 1 && user.suffix == incrementValue
      ensures user.suffix !in old(issued) && issued == old(issued) + {user.suffix}
      ensures Wired(user)
      ensures sessions == old(sessions) + [user]
      ensures user.id == generatedId
      ensures user.name == "" && user.properties == map[] && user.connectionDetails == map[]
      ensures user.sent == (if configSendOk then [ConfigMessage(parsedConfig)] else [])
      ensures user.connected == configSendOk && user.socketClosed == !configSendOk
    {
      incrementValue := incrementValue + 1;
      var suffix := incrementValue;
      user := new User(None, Some(suffix), None, None, None, true, generatedId);
      ghost var before := sessions;
      sessions := sessions + [user];
      Greet(user, parsedConfig, configSendOk);
      issued := issued + {suffix};
      ListedAppend(before, user, old(issued), issued);
    }

    /** A frame arriving on session `u`: dropped if it does not parse,
        otherwise dispatched to `u`'s listeners, which are this room's
        `chat` and `close` handlers. The clauses about the other sessions
        quantify over `v in old(sessions)`: a caller states that its session
        is listed (`assert v in room.sessions;`) to apply them. */
    method Receive(u: User, frame: Option<Envelope>, failing: set<User>)
      requires Valid() && Wired(u)
      modifies this`sessions, u`connected, u`socketClosed
      modifies sessions`connected, sessions`socketClosed, sessions`sent
      ensures Valid()
      ensures frame.None? ==>
                && sessions == old(sessions) && unchanged(u)
                && forall v :: v in old(sessions) ==> unchanged(v)
      ensures frame.Some? && frame.value.kind == CloseType ==>
                && !u.connected && u.socketClosed && u.sent == old(u.sent)
                && sessions == Without(old(sessions), {u})
                && forall v :: v in old(sessions) && v != u ==> unchanged(v)
      ensures frame.Some? && frame.value.kind == ChatType ==>
                && sessions == Without(old(sessions), failing)
                && Delivered(old(sessions), ChatMessage(frame.value.data, u.PublicDetails()), failing)
                && (u !in old(sessions) ==> unchanged(u))
      ensures frame.Some? && frame.value.kind != CloseType && frame.value.kind != ChatType ==>
                && sessions == old(sessions) && unchanged(u)
                && forall v :: v in old(sessions) ==> unchanged(v)
    {
      var calls := u.ReceiveFrame(frame, {});
      if calls != [] {
        var call := calls[0];
        if call.handler == ChatHandler {
          OnChat(u, call.data, failing);
        } else {
          CloseSession(u);
        }
      }
    }

    /** The transport of session `u` closed: `u` is disconnected and its
        `close` handler runs. */
    method SocketClosed(u: User)
      requires Valid() && Wired(u)
      modifies this`sessions, u`connected
      ensures Valid()
      ensures !u.connected
      ensures sessions == Without(old(sessions), {u})
    {
      ghost var before := sessions;
      var calls := u.TransportClosed({});
      if calls != [] {
        // the one `close` listener is this room's close handler
        OnClose(u);
      }
      ListedWithout(before, {u}, issued);
    }
  }

  /** A fresh room numbers its first two connections 2 and 3 and lists them
      in arrival order. */
  method FirstTwoSessions(id1: string, id2: string, parsedConfig: Option<Json>, ok1: bool, ok2: bool)
      returns (room: ChatRoom, first: User, second: User)
    ensures fresh(room) && fresh(first) && fresh(second) && room.Valid()
    ensures first.suffix == 2 && second.suffix == 3 && first != second
    ensures room.sessions == [first, second] && room.incrementValue == 3
    ensures room.Details("", None).count == 2
  {
    room := new ChatRoom();
    first := room.HandleSession(id1, parsedConfig, ok1);
    second := room.HandleSession(id2, parsedConfig, ok2);
  }

  /** Two sessions join a fresh room and the second one's transport closes:
      the first is the only one left. */
  method JoinJoinLeave(id1: string, id2: string, parsedConfig: Option<Json>)
      returns (room: ChatRoom, first: User, second: User)
    ensures room.Valid()
    ensures room.sessions == [first] && !second.connected
  {
    room, first, second := FirstTwoSessions(id1, id2, parsedConfig, true, true);
    assert room.sessions[1] == second;
    room.SocketClosed(second);
    assert [first, second] == [first] + [second];
    WithoutAppended([first], second);
  }
}
