/**
 * The message bridge of `src/communication.ts` (`OrriCommunication`).
 *
 * The first half of this module is a specification of the bridge as a state machine over the
 * value `Bridge`: one pure function per operation, and lemmas about them (the invariant each
 * operation keeps, exactly-one reply per tool call, remove-on-complete, no-op on unknown or repeated
 * request ids, idempotent listener removal, ordered fan-out). The second half is the class
 * `OrriCommunication`, whose fields are the source's mutable routing state and whose methods update
 * them step by step as the source does; each method is proved to move `State()` exactly as the
 * matching function says.
 *
 * Outbound `send` appends to `outbox`. A listener call is recorded in `invocations`. A promise
 * returned by `fetch` is named by a `PromiseId`; how it settled is recorded in `settled`.
 */
module Communication {
  import opened Wrappers
  import opened Json
  import opened Types
  import opened Messages

  /** A listener function, compared by identity as `l !== listener` does. */
  type ListenerId = nat

  /** The promise handed back by one `fetch` call. */
  type PromiseId = nat

  /** How a `fetch` promise was completed. */
  datatype Settlement = Resolved(response: Json) | Rejected(reason: string)

  /** One call `l(payload)` made by `dispatch`; `threw` records that `l` threw and was caught. */
  datatype Invocation = Invocation(listener: ListenerId, payload: Payload, threw: bool)

  /** The bridge's whole state. `listeners` is the module-level record shared by all instances. */
  datatype Bridge = Bridge(
    app: Option<App>,
    tools: map<string, Tool>,
    pending: map<string, PromiseId>,
    settled: map<PromiseId, Settlement>,
    promisesMade: nat,
    listeners: map<string, seq<ListenerId>>,
    outbox: seq<Message>,
    invocations: seq<Invocation>)

  const SuccessText: string := "Operation completed successfully"
  const UnknownErrorText: string := "Unknown error"
  const NetworkFailedText: string := "Network request failed"

  /* ---------------------------------------------------------------------------------------------- */
  /* The invariant                                                                                   */
  /* ---------------------------------------------------------------------------------------------- */

  /** The wire string of one of the bridge's own event types. */
  predicate IsEventTypeName(k: string) {
    exists t: EventType :: Name(t) == k
  }

  /**
   * What every reachable state satisfies: each tool is stored under its own id; listener lists exist
   * only under the bridge's own event types (`addEventListener` takes an `EventType`); every pending
   * request names a promise that was handed out and has not settled; no two pending requests share a
   * promise; only handed-out promises have settled.
   */
  ghost predicate Inv(s: Bridge) {
    && (forall id :: id in s.tools ==> s.tools[id].id == id)
    && (forall k :: k in s.listeners ==> IsEventTypeName(k))
    && (forall r :: r in s.pending ==> s.pending[r] < s.promisesMade && s.pending[r] !in s.settled)
    && (forall r1, r2 :: r1 in s.pending && r2 in s.pending && r1 != r2 ==> s.pending[r1] != s.pending[r2])
    && (forall p :: p in s.settled ==> p < s.promisesMade)
  }

  /** The state of a freshly constructed bridge. */
  const Fresh: Bridge := Bridge(None, map[], map[], map[], 0, map[], [], [])

  lemma FreshInv()
    ensures Inv(Fresh)
  {
  }

  /* ---------------------------------------------------------------------------------------------- */
  /* initialize                                                                                      */
  /* ---------------------------------------------------------------------------------------------- */

  /** The ids of a list of tools. */
  function ToolIds(ts: seq<Tool>): set<string> {
    set t | t in ts :: t.id
  }

  /**
   * `ts.forEach(t => tools.set(t.id, t))`: the tool map after inserting `ts` in order. Every earlier
   * entry whose id is not in `ts` survives; every id of `ts` is bound to some tool of `ts` with that id.
   */
  function Registered(m: map<string, Tool>, ts: seq<Tool>): (r: map<string, Tool>)
    ensures r.Keys == m.Keys + ToolIds(ts)
    ensures forall id :: id in m && id !in ToolIds(ts) ==> r[id] == m[id]
    ensures forall id :: id in ToolIds(ts) ==> r[id] in ts && r[id].id == id
  {
    if ts == [] then m
    else
      var last := ts[|ts| - 1];
      assert ts == ts[..|ts| - 1] + [last];
      Registered(m, ts[..|ts| - 1])[last.id := last]
  }

  /** A later tool with the same id wins: the entry for `ts[i].id` is `ts[i]` when no later tool shares its id. */
  lemma {:induction false} RegisteredLastWins(m: map<string, Tool>, ts: seq<Tool>, i: nat)
    requires i < |ts|
    requires forall j :: i < j < |ts| ==> ts[j].id != ts[i].id
    ensures ts[i].id in Registered(m, ts) && Registered(m, ts)[ts[i].id] == ts[i]
  {
    if i < |ts| - 1 {
      RegisteredLastWins(m, ts[..|ts| - 1], i);
    }
  }

  /** One entry of the INITIALIZE payload: the tool without its schemas, handler and displays. */
  function Summarize(t: Tool): ToolSummary {
    ToolSummary(t.id, t.name, t.description)
  }

  /** `app.tools.map(({id, name, description}) => ...)`: the in-order projection of the tools. */
  function Summaries(ts: seq<Tool>): (r: seq<ToolSummary>)
    ensures |r| == |ts|
    ensures forall i :: 0 <= i < |ts| ==>
      r[i].id == ts[i].id && r[i].name == ts[i].name && r[i].description == ts[i].description
  {
    if ts == [] then [] else [Summarize(ts[0])] + Summaries(ts[1..])
  }

  /** The one message `initialize` sends. */
  function InitializeMessage(a: App): Message {
    Envelope(Initialize, InitializePayload(InitializeEvent(a.id, a.version, Summaries(a.tools))))
  }

  /** `initialize(app)`: remember the app, add its tools (earlier ones are kept), send INITIALIZE. */
  function Initialized(s: Bridge, a: App): Bridge {
    s.(app := Some(a), tools := Registered(s.tools, a.tools), outbox := s.outbox + [InitializeMessage(a)])
  }

  /** Inserting tools under their own ids keeps every entry keyed by its tool's id. */
  lemma {:induction false} RegisteredKeyedById(m: map<string, Tool>, ts: seq<Tool>)
    requires forall id :: id in m ==> m[id].id == id
    ensures forall id :: id in Registered(m, ts) ==> Registered(m, ts)[id].id == id
  {
    var r := Registered(m, ts);
    forall id | id in r
      ensures r[id].id == id
    {
      if id !in ToolIds(ts) {
        assert id in m;
      }
    }
  }

  lemma InitializedInv(s: Bridge, a: App)
    requires Inv(s)
    ensures Inv(Initialized(s, a))
  {
    RegisteredKeyedById(s.tools, a.tools);
  }

  /**
   * After `initialize(app)` every tool of the app can be looked up by its id, the entry is the last
   * tool of the app with that id, tools registered earlier under other ids remain, and exactly one
   * message was sent: an INITIALIZE carrying the app's id, version and tool projection.
   */
  lemma InitializeRegistersEveryTool(s: Bridge, a: App, i: nat)
    requires i < |a.tools|
    ensures var r := Initialized(s, a);
      && a.tools[i].id in r.tools
      && r.tools[a.tools[i].id] == a.tools[LastWithId(a.tools, a.tools[i].id, i)]
      && (forall id :: id in s.tools && id !in ToolIds(a.tools) ==> id in r.tools && r.tools[id] == s.tools[id])
      && r.outbox == s.outbox + [Envelope(Initialize, InitializePayload(InitializeEvent(a.id, a.version, Summaries(a.tools))))]
  {
    var j := LastWithId(a.tools, a.tools[i].id, i);
    RegisteredLastWins(s.tools, a.tools, j);
  }

  /** The index of the last tool of `ts` with id `id`, searching from the known occurrence `i`. */
  function LastWithId(ts: seq<Tool>, id: string, i: nat): (j: nat)
    requires i < |ts| && ts[i].id == id
    ensures i <= j < |ts| && ts[j].id == id
    ensures forall k :: j < k < |ts| ==> ts[k].id != id
    decreases |ts| - i
  {
    if exists k :: i < k < |ts| && ts[k].id == id then
      var k :| i < k < |ts| && ts[k].id == id;
      LastWithId(ts, id, k)
    else i
  }

  /* ---------------------------------------------------------------------------------------------- */
  /* execTool                                                                                        */
  /* ---------------------------------------------------------------------------------------------- */

  /** `err instanceof Error ? err.message : 'Unknown error'`. */
  function FailureText(t: Thrown): string {
    match t
    case ErrorInstance(message) => message
    case NonError(_) => UnknownErrorText
  }

  /** The ERROR message `error(msg, callId)` sends. */
  function ErrorMessage(msg: string, callId: Option<string>): Message {
    Envelope(Error, ErrorPayload(ErrorEvent(msg, callId)))
  }

  /**
   * The one reply `execTool` sends for a TOOL_CALL: an ERROR naming the tool when it is not
   * registered, otherwise a TOOL_RESULT for the same tool that reports the handler's outcome; both
   * carry the call's `callId`.
   */
  function ToolCallReply(tools: map<string, Tool>, call: ToolCallEvent, outcome: HandlerOutcome): (r: Message)
    ensures CallIdOf(r) == Some(call.callId)
    ensures r.kind == Name(Error) <==> call.toolId !in tools
    ensures r.kind == Name(ToolResult) <==> call.toolId in tools
    ensures call.toolId !in tools ==>
      r.payload == ErrorPayload(ErrorEvent("Tool " + call.toolId + " not found", Some(call.callId)))
    ensures call.toolId in tools ==>
      && r.payload.ToolResultPayload?
      && r.payload.result.toolId == call.toolId
      && (r.payload.result.success <==> outcome.Returned?)
      && (outcome.Returned? ==> r.payload.result.output == outcome.output && r.payload.result.message == Some(SuccessText))
      && (outcome.Threw? ==> r.payload.result.output == JNull && r.payload.result.message == Some(FailureText(outcome.thrown)))
  {
    if call.toolId !in tools then
      ErrorMessage("Tool " + call.toolId + " not found", Some(call.callId))
    else
      match outcome
      case Returned(output) =>
        Envelope(ToolResult, ToolResultPayload(ToolResultEvent(call.toolId, output, call.callId, true, Some(SuccessText))))
      case Threw(thrown) =>
        Envelope(ToolResult, ToolResultPayload(ToolResultEvent(call.toolId, JNull, call.callId, false, Some(FailureText(thrown)))))
  }

  /** `execTool(call)`, with the handler settling as `outcome`: exactly one reply is sent. */
  function ToolExecuted(s: Bridge, call: ToolCallEvent, outcome: HandlerOutcome): Bridge {
    s.(outbox := s.outbox + [ToolCallReply(s.tools, call, outcome)])
  }

  /* ---------------------------------------------------------------------------------------------- */
  /* fetch and handleNetworkResponse                                                                 */
  /* ---------------------------------------------------------------------------------------------- */

  /** The NETWORK_REQUEST message `fetch` sends. */
  function NetworkRequestMessage(url: string, options: Option<Json>, requestId: string): Message {
    Envelope(NetworkRequest, NetworkRequestPayload(NetworkRequestEvent(url, options, requestId)))
  }

  /**
   * `fetch(url, options)` under the fresh id `requestId`: a new promise (numbered
   * `s.promisesMade`) is recorded as pending and one NETWORK_REQUEST is sent.
   */
  function Fetched(s: Bridge, url: string, options: Option<Json>, requestId: string): Bridge {
    s.(pending := s.pending[requestId := s.promisesMade],
       promisesMade := s.promisesMade + 1,
       outbox := s.outbox + [NetworkRequestMessage(url, options, requestId)])
  }

  /** `error || 'Network request failed'`. */
  function RejectionReason(error: Option<string>): (r: string)
    ensures r != ""
    ensures error.Some? && error.value != "" ==> r == error.value
    ensures !(error.Some? && error.value != "") ==> r == NetworkFailedText
  {
    if error.Some? && error.value != "" then error.value else NetworkFailedText
  }

  /**
   * How a pending request completes on `ev`: resolved with the response iff `success` holds and a
   * (truthy) response is present, otherwise rejected with the error text or the default text.
   */
  function Fate(ev: NetworkResponseEvent): (r: Settlement)
    ensures r.Resolved? <==> ev.success && Present(ev.response)
    ensures r.Resolved? ==> r.response == ev.response.value
    ensures r.Rejected? ==> r.reason == RejectionReason(ev.error)
    ensures r.Rejected? && (ev.error.None? || ev.error == Some("")) ==> r.reason == NetworkFailedText
  {
    if ev.success && Present(ev.response) then Resolved(ev.response.value)
    else Rejected(RejectionReason(ev.error))
  }

  /** `handleNetworkResponse(ev)`: settle and forget the matching request; ignore unknown ids. */
  function NetworkResponded(s: Bridge, ev: NetworkResponseEvent): Bridge {
    if ev.requestId in s.pending then
      s.(pending := s.pending - {ev.requestId}, settled := s.settled[s.pending[ev.requestId] := Fate(ev)])
    else s
  }

  lemma FetchedInv(s: Bridge, url: string, options: Option<Json>, requestId: string)
    requires Inv(s) && requestId !in s.pending
    ensures Inv(Fetched(s, url, options, requestId))
  {
  }

  lemma NetworkRespondedInv(s: Bridge, ev: NetworkResponseEvent)
    requires Inv(s)
    ensures Inv(NetworkResponded(s, ev))
  {
    if ev.requestId in s.pending {
      var r := NetworkResponded(s, ev);
      var p := s.pending[ev.requestId];
      forall q | q in r.pending
        ensures r.pending[q] !in r.settled
      {
        assert q != ev.requestId && s.pending[q] != p;
      }
    }
  }

  /**
   * A response removes the pending entry whatever it says, and settles that request's promise
   * exactly once: the promise was unsettled before and nothing else settles.
   */
  lemma ResponseCompletesOnce(s: Bridge, ev: NetworkResponseEvent)
    requires Inv(s) && ev.requestId in s.pending
    ensures var r := NetworkResponded(s, ev);
      && r.pending.Keys == s.pending.Keys - {ev.requestId}
      && s.pending[ev.requestId] !in s.settled
      && r.settled == s.settled[s.pending[ev.requestId] := Fate(ev)]
      && r.outbox == s.outbox && r.tools == s.tools && r.listeners == s.listeners
  {
  }

  /** A response for an id that is not pending (a late or repeated one) changes nothing. */
  lemma UnknownResponseIsNoOp(s: Bridge, ev: NetworkResponseEvent)
    requires ev.requestId !in s.pending
    ensures NetworkResponded(s, ev) == s
  {
  }

  /** A second identical response is a no-op: the first one removed the entry. */
  lemma RepeatedResponseIsNoOp(s: Bridge, ev: NetworkResponseEvent)
    ensures NetworkResponded(NetworkResponded(s, ev), ev) == NetworkResponded(s, ev)
  {
    if ev.requestId in s.pending {
      assert ev.requestId !in NetworkResponded(s, ev).pending;
    }
  }

  /**
   * The promise a `fetch` returns is settled by, and only by, a later response with its request id:
   * fetch followed by that response settles promise `s.promisesMade` with `Fate(ev)`, leaves the
   * other pending requests as they were, and has sent exactly one NETWORK_REQUEST.
   */
  lemma FetchThenRespond(s: Bridge, url: string, options: Option<Json>, ev: NetworkResponseEvent)
    requires Inv(s) && ev.requestId !in s.pending
    ensures var r := NetworkResponded(Fetched(s, url, options, ev.requestId), ev);
      && s.promisesMade !in s.settled
      && r.settled == s.settled[s.promisesMade := Fate(ev)]
      && r.pending == s.pending
      && r.promisesMade == s.promisesMade + 1
      && r.outbox == s.outbox + [NetworkRequestMessage(url, options, ev.requestId)]
  {
    var f := Fetched(s, url, options, ev.requestId);
    assert f.pending - {ev.requestId} == s.pending;
  }

  /**
   * Responses for different requests may arrive in either order with the same effect: each settles
   * its own promise (distinct, by the invariant) and removes its own entry.
   */
  lemma ResponsesCommute(s: Bridge, ev1: NetworkResponseEvent, ev2: NetworkResponseEvent)
    requires Inv(s) && ev1.requestId != ev2.requestId
    ensures NetworkResponded(NetworkResponded(s, ev1), ev2) == NetworkResponded(NetworkResponded(s, ev2), ev1)
  {
    var a, b := ev1.requestId, ev2.requestId;
    if a in s.pending && b in s.pending {
      assert s.pending[a] != s.pending[b];
      assert s.pending - {a} - {b} == s.pending - {b} - {a};
    }
  }

  /* ---------------------------------------------------------------------------------------------- */
  /* sendUserAction                                                                                  */
  /* ---------------------------------------------------------------------------------------------- */

  /** The USER_ACTION message `sendUserAction(actionType, data)` sends. */
  function UserActionMessage(actionType: string, data: Json): Message {
    Envelope(UserAction, UserActionPayload(UserActionEvent(actionType, data)))
  }

  /* ---------------------------------------------------------------------------------------------- */
  /* The event bus                                                                                   */
  /* ---------------------------------------------------------------------------------------------- */

  /** `listeners[type] || []`. */
  function ListenersOf(ls: map<string, seq<ListenerId>>, key: string): seq<ListenerId> {
    if key in ls then ls[key] else []
  }

  /** `xs.filter(l => l !== x)`: every occurrence of `x` removed. */
  function Without(xs: seq<ListenerId>, x: ListenerId): (r: seq<ListenerId>)
    ensures |r| <= |xs|
    ensures forall y :: y in r <==> y in xs && y != x
  {
    if xs == [] then []
    else if xs[0] == x then Without(xs[1..], x)
    else [xs[0]] + Without(xs[1..], x)
  }

  /** Removal keeps the order of the rest: it distributes over concatenation. */
  lemma {:induction false} WithoutAppend(xs: seq<ListenerId>, ys: seq<ListenerId>, x: ListenerId)
    ensures Without(xs + ys, x) == Without(xs, x) + Without(ys, x)
  {
    if xs == [] {
      assert xs + ys == ys;
    } else {
      assert (xs + ys)[0] == xs[0];
      assert (xs + ys)[1..] == xs[1..] + ys;
      WithoutAppend(xs[1..], ys, x);
    }
  }

  /** Removing a listener that is not registered leaves the list as it was. */
  lemma {:induction false} WithoutAbsent(xs: seq<ListenerId>, x: ListenerId)
    requires x !in xs
    ensures Without(xs, x) == xs
  {
    if xs != [] {
      WithoutAbsent(xs[1..], x);
    }
  }

  /** Removal is idempotent. */
  lemma WithoutIdempotent(xs: seq<ListenerId>, x: ListenerId)
    ensures Without(Without(xs, x), x) == Without(xs, x)
  {
    WithoutAbsent(Without(xs, x), x);
  }

  /** Every occurrence of the removed listener goes, and every other listener keeps its count. */
  lemma {:induction false} WithoutCounts(xs: seq<ListenerId>, x: ListenerId)
    ensures multiset(Without(xs, x)) == multiset(xs)[x := 0]
  {
    if xs != [] {
      WithoutCounts(xs[1..], x);
      assert xs == [xs[0]] + xs[1..];
    }
  }

  /** `addEventListener(type, l)`: `l` goes to the end of its type's list; duplicates are kept. */
  function ListenerAdded(s: Bridge, t: EventType, l: ListenerId): Bridge {
    s.(listeners := s.listeners[Name(t) := ListenersOf(s.listeners, Name(t)) + [l]])
  }

  /** `removeEventListener(type, l)`: the type's list without `l` (the key is set even when absent). */
  function ListenerRemoved(s: Bridge, t: EventType, l: ListenerId): Bridge {
    s.(listeners := s.listeners[Name(t) := Without(ListenersOf(s.listeners, Name(t)), l)])
  }

  lemma ListenerAddedInv(s: Bridge, t: EventType, l: ListenerId)
    requires Inv(s)
    ensures Inv(ListenerAdded(s, t, l))
  {
    assert IsEventTypeName(Name(t));
  }

  lemma ListenerRemovedInv(s: Bridge, t: EventType, l: ListenerId)
    requires Inv(s)
    ensures Inv(ListenerRemoved(s, t, l))
  {
    assert IsEventTypeName(Name(t));
  }

  /** Removing a listener twice is the same as removing it once. */
  lemma RemoveListenerIdempotent(s: Bridge, t: EventType, l: ListenerId)
    ensures ListenerRemoved(ListenerRemoved(s, t, l), t, l) == ListenerRemoved(s, t, l)
  {
    WithoutIdempotent(ListenersOf(s.listeners, Name(t)), l);
  }

  /**
   * Removal after adding: the type's list is the old list without `l`, in the old order, and the
   * lists of every other type are untouched.
   */
  lemma AddThenRemoveListener(s: Bridge, t: EventType, l: ListenerId)
    ensures var r := ListenerRemoved(ListenerAdded(s, t, l), t, l);
      && ListenersOf(r.listeners, Name(t)) == Without(ListenersOf(s.listeners, Name(t)), l)
      && (forall k :: k != Name(t) ==> ListenersOf(r.listeners, k) == ListenersOf(s.listeners, k))
  {
    var xs := ListenersOf(s.listeners, Name(t));
    WithoutAppend(xs, [l], l);
    assert Without([l], l) == [];
  }

  /** The calls `forEach` makes over `ls`: one per entry, in list order, all with the same payload. */
  function Fanout(ls: seq<ListenerId>, payload: Payload, throwing: set<ListenerId>): (r: seq<Invocation>)
    ensures |r| == |ls|
    ensures forall i :: 0 <= i < |ls| ==> r[i] == Invocation(ls[i], payload, ls[i] in throwing)
  {
    if ls == [] then []
    else Fanout(ls[..|ls| - 1], payload, throwing) + [Invocation(ls[|ls| - 1], payload, ls[|ls| - 1] in throwing)]
  }

  /**
   * `dispatch(type, payload)`: every listener registered for `type` is called, in order, with
   * `payload`; those in `throwing` throw, which is caught and does not stop the rest.
   */
  function Dispatched(s: Bridge, key: string, payload: Payload, throwing: set<ListenerId>): Bridge {
    s.(invocations := s.invocations + Fanout(ListenersOf(s.listeners, key), payload, throwing))
  }

  /**
   * Dispatch calls exactly the listeners registered for its type, each registration once, in
   * registration order and with the same payload, whether or not earlier ones threw; it sends nothing.
   */
  lemma DispatchCallsRegisteredInOrder(s: Bridge, key: string, payload: Payload, throwing: set<ListenerId>)
    ensures var r := Dispatched(s, key, payload, throwing);
      var ls := ListenersOf(s.listeners, key);
      && r.invocations[..|s.invocations|] == s.invocations
      && |r.invocations| == |s.invocations| + |ls|
      && (forall i :: 0 <= i < |ls| ==>
            r.invocations[|s.invocations| + i].listener == ls[i] && r.invocations[|s.invocations| + i].payload == payload)
      && r.outbox == s.outbox && r.listeners == s.listeners
  {
  }

  /* ---------------------------------------------------------------------------------------------- */
  /* handleMessage and route                                                                         */
  /* ---------------------------------------------------------------------------------------------- */

  /** Where `route` sends a message. */
  datatype Route =
    | DispatchTo(key: string, payload: Payload)
    | ExecuteTool(call: ToolCallEvent)
    | CompleteRequest(response: NetworkResponseEvent)

  /**
   * The `switch` of `route`: DISPLAY is dispatched under DISPLAY, TOOL_CALL goes to the tool
   * registry, NETWORK_RESPONSE to the correlation table, and every other type (INITIALIZE and AUTH
   * among them) is dispatched under its own type.
   */
  function RouteOf(m: Message): (r: Route)
    requires WellShaped(m)
    ensures r.ExecuteTool? <==> m.kind == Name(ToolCall)
    ensures r.CompleteRequest? <==> m.kind == Name(NetworkResponse)
    ensures r.DispatchTo? ==> r.key == m.kind && r.payload == m.payload
    ensures r.ExecuteTool? ==> m.payload == ToolCallPayload(r.call)
    ensures r.CompleteRequest? ==> m.payload == NetworkResponsePayload(r.response)
  {
    if m.kind == Name(Display) then DispatchTo(Name(Display), m.payload)
    else if m.kind == Name(ToolCall) then ExecuteTool(m.payload.call)
    else if m.kind == Name(NetworkResponse) then CompleteRequest(m.payload.response)
    else DispatchTo(m.kind, m.payload)
  }

  /** `route(m)`, with a tool handler settling as `outcome` and the listeners in `throwing` throwing. */
  function Routed(s: Bridge, m: Message, outcome: HandlerOutcome, throwing: set<ListenerId>): Bridge
    requires WellShaped(m)
  {
    match RouteOf(m)
    case DispatchTo(key, payload) => Dispatched(s, key, payload, throwing)
    case ExecuteTool(call) => ToolExecuted(s, call, outcome)
    case CompleteRequest(ev) => NetworkResponded(s, ev)
  }

  /**
   * `handleMessage(e)`: `decoded` is what parsing `e.data` gave; `None` stands for a parse error,
   * `null` or a non-object, all of which are dropped.
   */
  function MessageHandled(s: Bridge, decoded: Option<Message>, outcome: HandlerOutcome, throwing: set<ListenerId>): Bridge
    requires decoded.Some? ==> WellShaped(decoded.value)
  {
    match decoded
    case None => s
    case Some(m) => Routed(s, m, outcome, throwing)
  }

  lemma RoutedInv(s: Bridge, m: Message, outcome: HandlerOutcome, throwing: set<ListenerId>)
    requires Inv(s) && WellShaped(m)
    ensures Inv(Routed(s, m, outcome, throwing))
  {
    if RouteOf(m).CompleteRequest? {
      NetworkRespondedInv(s, RouteOf(m).response);
    }
  }

  /** A dropped inbound value changes no state and sends nothing. */
  lemma UndecodableIsDropped(s: Bridge, outcome: HandlerOutcome, throwing: set<ListenerId>)
    ensures MessageHandled(s, None, outcome, throwing) == s
  {
  }

  /**
   * Every inbound TOOL_CALL is answered by exactly one message that carries its `callId`: an ERROR
   * when the tool is not registered, a TOOL_RESULT otherwise; nothing else changes.
   */
  lemma ToolCallAnsweredOnce(s: Bridge, m: Message, outcome: HandlerOutcome, throwing: set<ListenerId>)
    requires WellShaped(m) && m.kind == Name(ToolCall)
    ensures var r := Routed(s, m, outcome, throwing);
      && |r.outbox| == |s.outbox| + 1
      && r.outbox[..|s.outbox|] == s.outbox
      && CallIdOf(r.outbox[|s.outbox|]) == Some(m.payload.call.callId)
      && (r.outbox[|s.outbox|].kind == Name(Error) <==> m.payload.call.toolId !in s.tools)
      && (r.outbox[|s.outbox|].kind == Name(ToolResult) <==> m.payload.call.toolId in s.tools)
      && r.(outbox := s.outbox) == s
  {
  }

  /**
   * An inbound INITIALIZE is not a re-handshake: it is dispatched under INITIALIZE and sends nothing.
   */
  lemma InboundInitializeIsDispatched(s: Bridge, m: Message, outcome: HandlerOutcome, throwing: set<ListenerId>)
    requires m.kind == Name(Initialize)
    ensures WellShaped(m)
    ensures Routed(s, m, outcome, throwing) == Dispatched(s, Name(Initialize), m.payload, throwing)
    ensures Routed(s, m, outcome, throwing).outbox == s.outbox
  {
  }

  /**
   * An inbound AUTH is dispatched under "AUTH", where no listener can have been registered through
   * `addEventListener` (its `EventType` has no AUTH): routing it changes nothing at all.
   */
  lemma InboundAuthReachesNoListener(s: Bridge, m: Message, outcome: HandlerOutcome, throwing: set<ListenerId>)
    requires Inv(s) && m.kind == "AUTH"
    ensures WellShaped(m)
    ensures Routed(s, m, outcome, throwing) == s
  {
    assert !IsEventTypeName("AUTH");
    assert "AUTH" !in s.listeners;
  }

  /* ---------------------------------------------------------------------------------------------- */
  /* The class                                                                                       */
  /* ---------------------------------------------------------------------------------------------- */

  class OrriCommunication {
    var app: Option<App>
    var tools: map<string, Tool>
    var pendingNetworkRequests: map<string, PromiseId>
    /** How each promise handed out by `fetch` has been completed so far. */
    var settled: map<PromiseId, Settlement>
    /** The number of promises handed out by `fetch`; the next one is numbered this. */
    var promisesMade: nat
    /** The module-level `listeners` record. */
    var listeners: map<string, seq<ListenerId>>
    /** Every message handed to `send`, in order. */
    var outbox: seq<Message>
    /** Every listener call made by `dispatch`, in order. */
    var invocations: seq<Invocation>

    ghost function State(): Bridge
      reads this
    {
      Bridge(app, tools, pendingNetworkRequests, settled, promisesMade, listeners, outbox, invocations)
    }

    ghost predicate Valid()
      reads this
    {
      Inv(State())
    }

    constructor ()
      ensures Valid() && State() == Fresh
    {
      app, tools, pendingNetworkRequests, settled, promisesMade := None, map[], map[], map[], 0;
      listeners, outbox, invocations := map[], [], [];
      FreshInv();
    }

    method Initialize(a: App)
      requires Valid()
      modifies this
      ensures Valid() && State() == Initialized(old(State()), a)
    {
      app := Some(a);
      var i := 0;
      while i < |a.tools|
        invariant 0 <= i <= |a.tools|
        invariant State() == old(State()).(app := Some(a), tools := Registered(old(tools), a.tools[..i]))
      {
        var t := a.tools[i];
        assert a.tools[..i + 1] == a.tools[..i] + [t];
        tools := tools[t.id := t];
        i := i + 1;
      }
      assert a.tools[..i] == a.tools;
      Send(InitializeMessage(a));
      InitializedInv(old(State()), a);
    }

    /** Inbound handling: `decoded` is `None` when the raw value did not parse to an object. */
    method HandleMessage(decoded: Option<Message>, outcome: HandlerOutcome, throwing: set<ListenerId>)
      requires Valid() && (decoded.Some? ==> WellShaped(decoded.value))
      modifies this
      ensures Valid() && State() == MessageHandled(old(State()), decoded, outcome, throwing)
    {
      if decoded.Some? {
        Route(decoded.value, outcome, throwing);
      }
    }

    method Route(m: Message, outcome: HandlerOutcome, throwing: set<ListenerId>)
      requires Valid() && WellShaped(m)
      modifies this
      ensures Valid() && State() == Routed(old(State()), m, outcome, throwing)
    {
      if m.kind == Name(Display) {
        Dispatch(Name(Display), m.payload, throwing);
      } else if m.kind == Name(ToolCall) {
        ExecTool(m.payload.call, outcome);
      } else if m.kind == Name(NetworkResponse) {
        HandleNetworkResponse(m.payload.response);
      } else {
        Dispatch(m.kind, m.payload, throwing);
      }
    }

    /** `execTool(call)`, with the awaited handler settling as `outcome`. */
    method ExecTool(call: ToolCallEvent, outcome: HandlerOutcome)
      requires Valid()
      modifies this
      ensures Valid() && State() == ToolExecuted(old(State()), call, outcome)
    {
      if call.toolId !in tools {
        Error("Tool " + call.toolId + " not found", Some(call.callId));
        return;
      }
      match outcome
      case Returned(output) =>
        Send(Envelope(ToolResult, ToolResultPayload(ToolResultEvent(call.toolId, output, call.callId, true, Some(SuccessText)))));
      case Threw(err) =>
        var errorMessage := if err.ErrorInstance? then err.message else UnknownErrorText;
        Send(Envelope(ToolResult, ToolResultPayload(ToolResultEvent(call.toolId, JNull, call.callId, false, Some(errorMessage)))));
    }

    method HandleNetworkResponse(ev: NetworkResponseEvent)
      requires Valid()
      modifies this
      ensures Valid() && State() == NetworkResponded(old(State()), ev)
    {
      if ev.requestId in pendingNetworkRequests {
        var promise := pendingNetworkRequests[ev.requestId];
        if ev.success && Present(ev.response) {
          settled := settled[promise := Resolved(ev.response.value)];
        } else {
          settled := settled[promise := Rejected(if ev.error.Some? && ev.error.value != "" then ev.error.value else NetworkFailedText)];
        }
        pendingNetworkRequests := pendingNetworkRequests - {ev.requestId};
      }
      NetworkRespondedInv(old(State()), ev);
    }

    method SendUserAction(actionType: string, data: Json)
      requires Valid()
      modifies this
      ensures Valid() && State() == old(State()).(outbox := old(outbox) + [UserActionMessage(actionType, data)])
    {
      Send(UserActionMessage(actionType, data));
    }

    /**
     * `fetch(url, options)`; `requestId` stands for the generated id, which must not collide with a
     * pending one. Returns the promise, which the matching NETWORK_RESPONSE will settle.
     */
    method Fetch(url: string, options: Option<Json>, requestId: string) returns (promise: PromiseId)
      requires Valid() && requestId !in pendingNetworkRequests
      modifies this
      ensures Valid() && State() == Fetched(old(State()), url, options, requestId)
      ensures promise == old(promisesMade) && promise !in settled
      ensures pendingNetworkRequests[requestId] == promise
    {
      promise := promisesMade;
      promisesMade := promisesMade + 1;
      pendingNetworkRequests := pendingNetworkRequests[requestId := promise];
      Send(NetworkRequestMessage(url, options, requestId));
      FetchedInv(old(State()), url, options, requestId);
    }

    method Send(m: Message)
      requires Valid()
      modifies this
      ensures Valid() && State() == old(State()).(outbox := old(outbox) + [m])
    {
      outbox := outbox + [m];
    }

    method Error(msg: string, callId: Option<string>)
      requires Valid()
      modifies this
      ensures Valid() && State() == old(State()).(outbox := old(outbox) + [ErrorMessage(msg, callId)])
    {
      Send(ErrorMessage(msg, callId));
    }

    method AddEventListener(t: EventType, l: ListenerId)
      requires Valid()
      modifies this
      ensures Valid() && State() == ListenerAdded(old(State()), t, l)
    {
      var current := if Name(t) in listeners then listeners[Name(t)] else [];
      listeners := listeners[Name(t) := current + [l]];
      ListenerAddedInv(old(State()), t, l);
    }

    method RemoveEventListener(t: EventType, l: ListenerId)
      requires Valid()
      modifies this
      ensures Valid() && State() == ListenerRemoved(old(State()), t, l)
    {
      var current := if Name(t) in listeners then listeners[Name(t)] else [];
      listeners := listeners[Name(t) := Without(current, l)];
      ListenerRemovedInv(old(State()), t, l);
    }

    /** `dispatch(type, payload)`; the listeners in `throwing` throw when called. */
    method Dispatch(key: string, payload: Payload, throwing: set<ListenerId>)
      requires Valid()
      modifies this
      ensures Valid() && State() == Dispatched(old(State()), key, payload, throwing)
    {
      var ls := if key in listeners then listeners[key] else [];
      var i := 0;
      while i < |ls|
        invariant 0 <= i <= |ls|
        invariant State() == old(State()).(invocations := old(invocations) + Fanout(ls[..i], payload, throwing))
      {
        var l := ls[i];
        assert ls[..i + 1] == ls[..i] + [l];
        // A throwing listener is caught and reported; the loop carries on with the next one.
        invocations := invocations + [Invocation(l, payload, l in throwing)];
        i := i + 1;
      }
      assert ls[..i] == ls;
    }

    method GetTool(id: string) returns (t: Option<Tool>)
      requires Valid()
      ensures t.Some? <==> id in tools
      ensures t.Some? ==> t.value == tools[id] && t.value.id == id
    {
      t := if id in tools then Some(tools[id]) else None;
    }

    /** `new Map(this.tools)`: a copy of the registry. */
    method GetRegisteredTools() returns (m: map<string, Tool>)
      ensures m == tools
    {
      m := tools;
    }
  }
}
