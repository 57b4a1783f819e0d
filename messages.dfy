/**
 * The message taxonomy of the bridge: the event types of `src/communication.ts` (lines 7-16), the
 * payload records of `src/communication.ts` (lines 23-37) and `src/messages.ts`, and the envelope
 * `{type, payload}`. The envelope's type is a raw string, because an inbound message may carry any
 * type on the wire, including `AUTH`, which the bridge's own enumeration does not list.
 */
module Messages {
  import opened Wrappers
  import opened Json
  import opened Types

  /** The bridge's own `EventType` enumeration: eight kinds, no `AUTH`. */
  datatype EventType =
    | Display
    | UserAction
    | ToolCall
    | ToolResult
    | Initialize
    | Error
    | NetworkRequest
    | NetworkResponse

  /** The wire string of an event type. */
  function Name(t: EventType): (s: string)
    ensures s != "" && s != "AUTH"
  {
    match t
    case Display => "DISPLAY"
    case UserAction => "USER_ACTION"
    case ToolCall => "TOOL_CALL"
    case ToolResult => "TOOL_RESULT"
    case Initialize => "INITIALIZE"
    case Error => "ERROR"
    case NetworkRequest => "NETWORK_REQUEST"
    case NetworkResponse => "NETWORK_RESPONSE"
  }

  /** Two event types never share a wire string, so the string identifies the type. */
  lemma NameInjective(a: EventType, b: EventType)
    requires Name(a) == Name(b)
    ensures a == b
  {
  }

  /**
   * `DisplayEvent`: the host asks for a tool's display at some stage. The stage is optional because
   * nothing on the receiving side checks that a DISPLAY payload carries one.
   */
  datatype DisplayEvent = DisplayEvent(toolId: string, stage: Option<string>, input: Option<Json>)

  /** `ToolCallEvent`: the host invokes a tool. */
  datatype ToolCallEvent = ToolCallEvent(toolId: string, input: Json, callId: string)

  /** `ToolResultEvent`: the answer to one tool call. */
  datatype ToolResultEvent = ToolResultEvent(
    toolId: string, output: Json, callId: string, success: bool, message: Option<string>)

  /** `UserActionEvent`: a user interaction forwarded to the host. */
  datatype UserActionEvent = UserActionEvent(actionType: string, data: Json)

  /** `NetworkRequestEvent`: a proxied fetch. */
  datatype NetworkRequestEvent = NetworkRequestEvent(url: string, options: Option<Json>, requestId: string)

  /** `NetworkResponseEvent`: the host's answer to a proxied fetch. */
  datatype NetworkResponseEvent = NetworkResponseEvent(
    requestId: string, response: Option<Json>, error: Option<string>, success: bool)

  /** One `{id, name, description}` entry of the INITIALIZE payload. */
  datatype ToolSummary = ToolSummary(id: string, name: string, description: string)

  /** The INITIALIZE payload as the bridge builds it: no `auth` member. */
  datatype InitializeEvent = InitializeEvent(appId: string, version: string, tools: seq<ToolSummary>)

  /** The ERROR payload `{message, callId?}`. */
  datatype ErrorEvent = ErrorEvent(message: string, callId: Option<string>)

  /** `AuthEvent` of `src/messages.ts`: an inbound AUTH payload. */
  datatype AuthEvent = AuthEvent(provider: string, scopes: seq<string>)

  /** A payload of one of the known shapes, or an opaque value for anything else. */
  datatype Payload =
    | DisplayPayload(display: DisplayEvent)
    | ToolCallPayload(call: ToolCallEvent)
    | ToolResultPayload(result: ToolResultEvent)
    | UserActionPayload(action: UserActionEvent)
    | InitializePayload(init: InitializeEvent)
    | ErrorPayload(error: ErrorEvent)
    | NetworkRequestPayload(request: NetworkRequestEvent)
    | NetworkResponsePayload(response: NetworkResponseEvent)
    | AuthPayload(auth: AuthEvent)
    | OpaquePayload(value: Json)

  /** The envelope `{type, payload}`; `kind` is the `type` member. */
  datatype Message = Message(kind: string, payload: Payload)

  /** An outbound message of one of the bridge's own types. */
  function Envelope(t: EventType, p: Payload): Message {
    Message(Name(t), p)
  }

  /**
   * The shape the router relies on: it treats the payload of a TOOL_CALL as a `ToolCallEvent` and
   * that of a NETWORK_RESPONSE as a `NetworkResponseEvent` without checking (`as` casts).
   */
  predicate WellShaped(m: Message) {
    && (m.kind == Name(ToolCall) ==> m.payload.ToolCallPayload?)
    && (m.kind == Name(NetworkResponse) ==> m.payload.NetworkResponsePayload?)
  }

  /** The call identifier a message correlates with, if it carries one. */
  function CallIdOf(m: Message): Option<string> {
    match m.payload
    case ToolCallPayload(c) => Some(c.callId)
    case ToolResultPayload(r) => Some(r.callId)
    case ErrorPayload(e) => e.callId
    case _ => None
  }

  /** What a thrown value looks like to `err instanceof Error`. */
  datatype Thrown = ErrorInstance(message: string) | NonError(value: Json)

  /** How a tool's `executeAsync` settled for the input it was given. */
  datatype HandlerOutcome = Returned(output: Json) | Threw(thrown: Thrown)
}
