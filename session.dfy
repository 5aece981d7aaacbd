/** One client connection (src/User.ts): its identity and property bag, its
    listener-dispatch table, its liveness flag and its outbound send path.

    Handlers are opaque closures in the source; here each is an identifier, so
    that `off`'s reference comparison is identifier equality, and a dispatch
    returns the calls it makes, in order, instead of running handler code.
    Whether a handler throws, and whether a transport write succeeds, are
    inputs. The socket is reduced to whether one is attached, whether `close()`
    has been called on it, and the frames written to it. */
module Session {
  import opened Protocol
  import opened Seqs

  type HandlerId = nat

  /** One handler invocation `cb(data, type)`. */
  datatype Call = Call(handler: HandlerId, data: Json, kind: string)

  /** The positions, one earlier, of the calls in `throwsAt` after the
      first: what is left once the first call has been made. */
  function Later(throwsAt: set<nat>): (r: set<nat>)
    ensures forall j: nat :: j in r <==> j + 1 in throwsAt
  {
    set j | j in throwsAt && j > 0 :: j - 1
  }

  /** The calls a `forEach` inside one `try` makes: handlers run in order with
      `(data, kind)`, and the first call that throws ends the loop (it was
      made, the ones after it are not). `throwsAt` holds the positions, in
      this dispatch, of the calls that throw; a handler registered twice may
      return on one call and throw on the other. */
  function Dispatch(handlers: seq<HandlerId>, data: Json, kind: string, throwsAt: set<nat>): (r: seq<Call>)
    ensures |r| <= |handlers|
  {
    if handlers == [] then []
    else if 0 in throwsAt then [Call(handlers[0], data, kind)]
    else [Call(handlers[0], data, kind)] + Dispatch(handlers[1..], data, kind, Later(throwsAt))
  }

  /** A dispatch calls a prefix of the handlers, in order, with `(data, kind)`;
      it stops early only right after a call that throws, and before the last
      call nothing threw. */
  lemma {:induction false} DispatchShape(handlers: seq<HandlerId>, data: Json, kind: string, throwsAt: set<nat>)
    ensures var r := Dispatch(handlers, data, kind, throwsAt);
            && (handlers != [] ==> r != [])
            && (forall k :: 0 <= k < |r| ==> r[k] == Call(handlers[k], data, kind))
            && (forall k: nat :: k < |r| - 1 ==> k !in throwsAt)
            && (|r| < |handlers| ==> |r| - 1 in throwsAt)
  {
    if handlers != [] && 0 !in throwsAt {
      var rest := Later(throwsAt);
      DispatchShape(handlers[1..], data, kind, rest);
      forall k: nat | 0 < k && k in throwsAt ensures k - 1 in rest { }
    }
  }

  /** The calls a `forEach` with a `try` around each call makes: every handler
      runs, in order, whatever the others do. */
  function CallAll(handlers: seq<HandlerId>, data: Json, kind: string): (r: seq<Call>)
    ensures |r| == |handlers|
    ensures forall k :: 0 <= k < |r| ==> r[k] == Call(handlers[k], data, kind)
  {
    seq(|handlers|, k requires 0 <= k < |handlers| => Call(handlers[k], data, kind))
  }

  /** When no call throws, aborting and isolating dispatch make the same
      calls. */
  lemma {:induction false} DispatchWithoutThrow(handlers: seq<HandlerId>, data: Json, kind: string, throwsAt: set<nat>)
    requires forall k: nat :: k < |handlers| ==> k !in throwsAt
    ensures Dispatch(handlers, data, kind, throwsAt) == CallAll(handlers, data, kind)
  {
    if handlers != [] {
      DispatchWithoutThrow(handlers[1..], data, kind, Later(throwsAt));
    }
  }

  /** When call `j` is the first that throws, exactly the first `j + 1`
      handlers are called. */
  lemma {:induction false} DispatchFirstThrow(handlers: seq<HandlerId>, data: Json, kind: string,
                                              throwsAt: set<nat>, j: nat)
    requires j < |handlers| && j in throwsAt
    requires forall k: nat :: k < j ==> k !in throwsAt
    ensures Dispatch(handlers, data, kind, throwsAt) == CallAll(handlers[..j + 1], data, kind)
  {
    if j > 0 {
      DispatchFirstThrow(handlers[1..], data, kind, Later(throwsAt), j - 1);
      assert handlers[1..][..j] == handlers[1..j + 1];
    }
  }

  /** The same handler registered twice can return on its first call and
      throw on its second: the dispatch then makes both calls and no more. */
  lemma RepeatedHandlerThrowsOnSecondCall()
    ensures Dispatch([5, 5, 6], JNull, "x", {1}) == [Call(5, JNull, "x"), Call(5, JNull, "x")]
  {
    assert Later({1}) == {0};
  }

  /** The loop at src/User.ts:79-80, whose `try` encloses the whole `forEach`. */
  method InvokeUntilThrow(handlers: seq<HandlerId>, data: Json, kind: string, throwsAt: set<nat>)
      returns (calls: seq<Call>)
    ensures calls == Dispatch(handlers, data, kind, throwsAt)
  {
    calls := [];
    var i := 0;
    while i < |handlers|
      invariant 0 <= i <= |handlers|
      invariant |calls| == i
      invariant forall k :: 0 <= k < i ==> calls[k] == Call(handlers[k], data, kind)
      invariant forall k: nat :: k < i ==> k !in throwsAt
    {
      calls := calls + [Call(handlers[i], data, kind)];
      if i in throwsAt {
        DispatchFirstThrow(handlers, data, kind, throwsAt, i);
        return;
      }
      i := i + 1;
    }
    DispatchWithoutThrow(handlers, data, kind, throwsAt);
  }

  /** The loop at src/User.ts:51-57, with a `try` around each handler call. */
  method InvokeIsolated(handlers: seq<HandlerId>, data: Json, kind: string, throwsAt: set<nat>)
      returns (calls: seq<Call>)
    ensures |calls| == |handlers|
    ensures forall k :: 0 <= k < |calls| ==> calls[k] == Call(handlers[k], data, kind)
  {
    calls := [];
    for i := 0 to |handlers|
      invariant |calls| == i
      invariant forall k :: 0 <= k < i ==> calls[k] == Call(handlers[k], data, kind)
    {
      // a call that throws is caught and logged; the loop carries on
      calls := calls + [Call(handlers[i], data, kind)];
    }
  }

  /** A property key is private when it starts with an underscore or is the
      reserved key `subscriptions`. */
  predicate IsPublicKey(k: string)
    ensures IsPublicKey(k) <==> !("_" <= k) && k != "subscriptions"
  {
    !(|k| > 0 && k[0] == '_') && k != "subscriptions"
  }

  /** The public projection of a property bag. */
  function PublicProjection(props: map<string, Json>): (r: map<string, Json>)
    ensures forall k :: k in r <==> k in props && IsPublicKey(k)
    ensures forall k :: k in r ==> r[k] == props[k]
  {
    map k | k in props && IsPublicKey(k) :: props[k]
  }

  /** Projecting a projection changes nothing. */
  lemma ProjectionIdempotent(props: map<string, Json>)
    ensures PublicProjection(PublicProjection(props)) == PublicProjection(props)
  {
    var p := PublicProjection(props);
    assert PublicProjection(p).Keys == p.Keys;
  }

  /** A bag that holds no private key is its own projection. */
  lemma ProjectionOfPublicBag(props: map<string, Json>)
    requires forall k :: k in props ==> IsPublicKey(k)
    ensures PublicProjection(props) == props
  {
    assert PublicProjection(props).Keys == props.Keys;
  }

  class User {
    var id: string
    var suffix: int
    var name: string
    var properties: map<string, Json>
    var connectionDetails: map<string, Json>
    /** whether a transport is attached */
    var hasSocket: bool
    /** whether `close()` has been called on the attached transport */
    var socketClosed: bool
    /** the frames written to the attached transport, in order */
    var sent: seq<Envelope>
    var connected: bool
    var listeners: map<string, seq<HandlerId>>

    /** `this.listeners[type] || []`: the handlers registered for `kind`, in
        registration order, none when the type was never registered. */
    function Handlers(kind: string): (r: seq<HandlerId>)
      reads this`listeners
      ensures kind in listeners ==> r == listeners[kind]
      ensures kind !in listeners ==> r == []
    {
      if kind in listeners then listeners[kind] else []
    }

    /** `getPublicProperties()`: the properties under public keys, with
        their values. */
    function PublicProperties(): (r: map<string, Json>)
      reads this`properties
      ensures forall k :: k in r <==> k in properties && IsPublicKey(k)
      ensures forall k :: k in r ==> r[k] == properties[k]
    {
      PublicProjection(properties)
    }

    /** `getPublicDetails()`: name, suffix and the public properties, and
        nothing else. */
    function PublicDetails(): (d: Json)
      reads this`name, this`suffix, this`properties
      ensures d.JObject? && d.fields.Keys == {"name", "suffix", "properties"}
      ensures d.fields["name"] == JString(name) && d.fields["suffix"] == JNumber(suffix)
      ensures d.fields["properties"] == JObject(PublicProperties())
    {
      JObject(map["name" := JString(name), "suffix" := JNumber(suffix),
                  "properties" := JObject(PublicProperties())])
    }

    /** `getPrivateDetails()`: the public fields with the whole property
        bag, plus the identifier and the connection details. */
    function PrivateDetails(): (d: Json)
      reads this`id, this`name, this`suffix, this`properties, this`connectionDetails
      ensures d.JObject? && d.fields.Keys == {"name", "suffix", "properties", "id", "connectionDetails"}
      ensures d.fields["properties"] == JObject(properties) && d.fields["id"] == JString(id)
      ensures d.fields["connectionDetails"] == JObject(connectionDetails)
    {
      JObject(map["name" := JString(name), "suffix" := JNumber(suffix), "properties" := JObject(properties),
                  "id" := JString(id), "connectionDetails" := JObject(connectionDetails)])
    }

    /** Absent fields take their defaults; an empty identifier is as good as
        none and is replaced by `generatedId` (the source's `uuid()`). */
    constructor (id: Option<string>, suffix: Option<int>, name: Option<string>,
                 properties: Option<map<string, Json>>, connectionDetails: Option<map<string, Json>>,
                 socket: bool, generatedId: string)
      ensures this.id == (if id.Some? && id.value != "" then id.value else generatedId)
      ensures this.suffix == suffix.GetOr(0)
      ensures this.name == name.GetOr("")
      ensures this.properties == properties.GetOr(map[])
      ensures this.connectionDetails == connectionDetails.GetOr(map[])
      ensures hasSocket == socket && connected == socket && !socketClosed && sent == []
      ensures listeners == map[]
    {
      this.id := if id.Some? && id.value != "" then id.value else generatedId;
      this.suffix := suffix.GetOr(0);
      this.name := name.GetOr("");
      this.properties := properties.GetOr(map[]);
      this.connectionDetails := connectionDetails.GetOr(map[]);
      listeners := map[];
      new;
      SetSocket(socket);
    }

    /** Attaches a transport (or none); the session is connected exactly when
        one is attached. */
    method SetSocket(socket: bool)
      modifies this`hasSocket, this`socketClosed, this`sent, this`connected
      ensures hasSocket == socket && connected == socket && !socketClosed && sent == []
    {
      hasSocket := socket;
      socketClosed := false;
      sent := [];
      connected := socket;
    }

    /** `on(type, cb)`: `cb` goes at the end of the list for `kind`. */
    method On(kind: string, cb: HandlerId)
      modifies this`listeners
      ensures listeners == old(listeners)[kind := old(Handlers(kind)) + [cb]]
    {
      listeners := listeners[kind := Handlers(kind) + [cb]];
    }

    /** `off(type, cb)`: every occurrence of `cb` leaves the list for `kind`,
        which exists afterwards even if it did not before. */
    method Off(kind: string, cb: HandlerId)
      modifies this`listeners
      ensures listeners == old(listeners)[kind := Without(old(Handlers(kind)), {cb})]
    {
      listeners := listeners[kind := Without(Handlers(kind), {cb})];
    }

    /** `processIncomingMessage(message)`: an explicit `close` marks the
        session disconnected and closes the transport before any handler
        runs; then the handlers for the message's type run in registration
        order until one throws. */
    method ProcessIncomingMessage(message: Envelope, throwsAt: set<nat>) returns (calls: seq<Call>)
      modifies this`connected, this`socketClosed
      ensures message.kind == CloseType ==> !connected && socketClosed == (old(socketClosed) || hasSocket)
      ensures message.kind != CloseType ==> connected == old(connected) && socketClosed == old(socketClosed)
      ensures calls == Dispatch(Handlers(message.kind), message.data, message.kind, throwsAt)
    {
      if message.kind == CloseType {
        if hasSocket {
          socketClosed := true;
        }
        connected := false;
      }
      calls := InvokeUntilThrow(Handlers(message.kind), message.data, message.kind, throwsAt);
    }

    /** `trigger(message, data)`: dispatch of the envelope the arguments
        describe, exactly as if it had arrived. */
    method Trigger(message: Message, data: Json, throwsAt: set<nat>) returns (calls: seq<Call>)
      modifies this`connected, this`socketClosed
      ensures var e := Compose(message, data);
              && (e.kind == CloseType ==> !connected && socketClosed == (old(socketClosed) || hasSocket))
              && (e.kind != CloseType ==> connected == old(connected) && socketClosed == old(socketClosed))
              && calls == Dispatch(Handlers(e.kind), e.data, e.kind, throwsAt)
    {
      calls := ProcessIncomingMessage(Compose(message, data), throwsAt);
    }

    /** The transport's `message` event: a frame that does not parse is
        dropped; one that does is dispatched. */
    method ReceiveFrame(parsed: Option<Envelope>, throwsAt: set<nat>) returns (calls: seq<Call>)
      modifies this`connected, this`socketClosed
      ensures parsed.None? ==> calls == [] && connected == old(connected) && socketClosed == old(socketClosed)
      ensures parsed.Some? ==> var e := parsed.value;
              && (e.kind == CloseType ==> !connected && socketClosed == (old(socketClosed) || hasSocket))
              && (e.kind != CloseType ==> connected == old(connected) && socketClosed == old(socketClosed))
              && calls == Dispatch(Handlers(e.kind), e.data, e.kind, throwsAt)
    {
      if parsed.None? {
        calls := [];
      } else {
        calls := ProcessIncomingMessage(parsed.value, throwsAt);
      }
    }

    /** The transport's `close` event: the session is disconnected and every
        `close` handler is attempted with `(null, "close")`, even after one
        throws. */
    method TransportClosed(throwsAt: set<nat>) returns (calls: seq<Call>)
      modifies this`connected
      ensures !connected
      ensures calls == CallAll(Handlers(CloseType), JNull, CloseType)
    {
      connected := false;
      calls := InvokeIsolated(Handlers(CloseType), JNull, CloseType, throwsAt);
    }

    /** `send(message, data)`. Without a transport nothing happens. A write
        that succeeds appends the frame. A write that fails disconnects the
        session, closes the transport and dispatches a local `close`. */
    method Send(message: Message, data: Json, transportOk: bool, throwsAt: set<nat>)
        returns (calls: seq<Call>)
      modifies this`connected, this`socketClosed, this`sent
      ensures !hasSocket ==>
                calls == [] && connected == old(connected) && socketClosed == old(socketClosed) && sent == old(sent)
      ensures hasSocket && transportOk ==>
                && calls == [] && connected == old(connected) && socketClosed == old(socketClosed)
                && sent == old(sent) + [Compose(message, data)]
      ensures hasSocket && !transportOk ==>
                && !connected && socketClosed && sent == old(sent)
                && calls == Dispatch(Handlers(CloseType), JNull, CloseType, throwsAt)
    {
      calls := [];
      if hasSocket {
        if transportOk {
          sent := sent + [Compose(message, data)];
        } else {
          connected := false;
          socketClosed := true;
          calls := Trigger(Named(CloseType), JNull, throwsAt);
        }
      }
    }
  }

  /** The public details of a session agree with its private details on name
      and suffix, and are the private details' property bag projected onto
      its public keys, without the identifier and the connection details. */
  lemma DetailsRelation(u: User)
    ensures var pub := u.PublicDetails();
            var priv := u.PrivateDetails();
            && priv.fields.Keys == pub.fields.Keys + {"id", "connectionDetails"}
            && pub.fields["name"] == priv.fields["name"] && pub.fields["suffix"] == priv.fields["suffix"]
            && priv.fields["properties"].JObject?
            && pub.fields["properties"] == JObject(PublicProjection(priv.fields["properties"].fields))
  {
  }
}
