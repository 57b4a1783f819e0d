# Orri SDK message bridge, modelled in Dafny

This project models the message bridge of the Orri SDK. The bridge is the `OrriCommunication` class. A sandboxed micro-app uses it to talk to its host over one message channel:

- it registers the app's tools and announces them with INITIALIZE;
- it answers every inbound TOOL_CALL with one TOOL_RESULT or ERROR;
- it proxies `fetch` through NETWORK_REQUEST/NETWORK_RESPONSE pairs, correlated by request id;
- it fans other inbound messages out to event listeners.

The project also models the display-selection rule of the SDK's `DisplayRouter`. That rule picks the loading view, an error, or a tool's preflight or postflight display for the current DISPLAY event.

Files:

- `wrappers.dfy`: `Option`.
- `json.dfy`: the `any` values that cross the bridge, as JSON-shaped data. It also gives JavaScript truthiness, used by `x || fallback` and `success && response`.
- `types.dfy`: tools (`OrriTool`), apps (`OrriApp`), `AuthConfig`.
- `messages.dfy`: the bridge's eight-member `EventType`, the payload records and the `{type, payload}` envelope. The envelope's type is a raw string, because an inbound message may carry any type, including `AUTH`.
- `communication.dfy` has two halves:
  - a specification of the bridge as a state machine over the value `Bridge`: one function per operation, the invariant `Inv`, and lemmas;
  - the class `OrriCommunication`, whose fields are the source's mutable state. Each of its methods updates those fields step by step (the `forEach` loops of `initialize` and `dispatch` are loops) and is proved to move `State()` exactly as the matching function says.
- `displays.dfy`: the selection rule, as a pure function returning an outcome datatype.

How the model stands in for what it cannot express:

- `send` appends to `outbox`.
- Each listener call made by `dispatch` is recorded in `invocations`.
- The promise returned by `fetch` is a `PromiseId` taken from a counter. Its completion (`Resolved` or `Rejected`) is recorded in `settled`.
- A tool handler's asynchronous result is an explicit `HandlerOutcome` argument.
- Which listeners throw is an explicit set argument.
- The decoded inbound value is an `Option<Message>`. `None` stands for a parse failure, `null` or a non-object.

Behaviour of the code the model keeps:

- The INITIALIZE payload built by `initialize` has no `auth` member (src/communication.ts:72-83), although the declared `InitializeEvent` has one (src/messages.ts:67-76).
- `initialize` adds tools to the registry without clearing the earlier ones (src/communication.ts:70).
- An inbound INITIALIZE is not answered with a new handshake. It is dispatched to listeners like any other type (src/communication.ts:108-109). So is an inbound AUTH. Because the bridge's `EventType` has no AUTH member, no listener can be registered under it, so an inbound AUTH changes nothing (`InboundAuthReachesNoListener`).
- `removeEventListener` removes every occurrence of the listener, not just the first (src/communication.ts:200).
- The DISPLAY payload's `stage` is typed as required (src/messages.ts:41-45), but nothing on the receiving side checks it. A payload without one reaches the router's last error branch, whose text reads `undefined` for the stage (src/displays.tsx:187).

## Model

| member | source | states |
|---|---|---|
| Messages.Name | src/communication.ts:7-16 | The wire strings of the eight event types are non-empty and none of them is `AUTH`. |
| Messages.NameInjective | src/communication.ts:7-16 | Distinct event types have distinct wire strings. |
| Json.OrElse | src/displays.tsx:132 | `v \|\| fallback` yields one of its two operands. The result is truthy iff either operand is, and a truthy value wins over the fallback. |
| Communication.FreshInv | src/communication.ts:52-57 | A new bridge (no app, no tools, nothing pending, no listeners) satisfies the bridge invariant. |
| Communication.Registered | src/communication.ts:70 | Inserting the tools in order leaves the registry holding the old ids plus the new ones. Old entries whose id is not re-used survive unchanged. Every new id is bound to a tool of the list with that id. |
| Communication.RegisteredLastWins | src/communication.ts:70 | When several tools share an id, the last one in the list is the one stored. |
| Communication.RegisteredKeyedById | src/communication.ts:70 | Inserting tools under `t.id` keeps every registry entry stored under its own tool's id. |
| Communication.Summaries | src/communication.ts:77-81 | The INITIALIZE tool list has one entry per tool, in order, with the same id, name and description. |
| Communication.InitializedInv | src/communication.ts:68-84 | `initialize` preserves the bridge invariant. |
| Communication.InitializeRegistersEveryTool | src/communication.ts:68-84 | After `initialize`, every tool of the app is retrievable by its id, and the entry is the last tool with that id. Tools registered earlier under other ids remain. Exactly one INITIALIZE message is sent, carrying `appId`, `version` and the tool projection. |
| Communication.LastWithId | src/communication.ts:70 | Finds the last index in the tool list holding a given id: it has that id and no later tool does. |
| Communication.ToolCallReply | src/communication.ts:113-145 | The reply to a TOOL_CALL carries the call's `callId`. It is an ERROR (`Tool <id> not found`) exactly when the tool is unregistered, and a TOOL_RESULT for the same tool exactly when the tool is registered. `success` holds iff the handler returned. On success the result carries the handler's output and `Operation completed successfully`. On failure it carries `null` and the error's message, or `Unknown error` when the thrown value is not an `Error`. |
| Communication.ToolCallAnsweredOnce | src/communication.ts:97-145 | Routing an inbound TOOL_CALL appends exactly one message, which carries the call's `callId`. That message is an ERROR iff the tool is unregistered and a TOOL_RESULT iff it is registered. Nothing else in the bridge changes. |
| Communication.RejectionReason | src/communication.ts:155 | The rejection reason is the `error` text when that text is present and non-empty. Otherwise it is the default text. When that text is absent or empty, it is `Network request failed`. It is never empty. |
| Communication.Fate | src/communication.ts:147-159 | A pending request resolves with the response iff `success` holds and a truthy response is present. Otherwise it rejects with `error`, or with `Network request failed` when `error` is absent or empty. |
| Communication.FetchedInv | src/communication.ts:166-179 | `fetch` under a request id that is not pending preserves the bridge invariant. |
| Communication.NetworkRespondedInv | src/communication.ts:147-159 | `handleNetworkResponse` preserves the bridge invariant. |
| Communication.ResponseCompletesOnce | src/communication.ts:147-159 | A response for a pending id removes that entry, whether it resolves or rejects. It settles that request's promise, which was unsettled before, and settles nothing else. Outbox, tools and listeners are unchanged. |
| Communication.UnknownResponseIsNoOp | src/communication.ts:149-151 | A response whose id is not pending changes nothing. |
| Communication.RepeatedResponseIsNoOp | src/communication.ts:147-159 | A second identical response has no effect beyond the first. |
| Communication.FetchThenRespond | src/communication.ts:147-179 | A `fetch` followed by the response carrying its request id settles exactly the promise that `fetch` returned, with `Fate` of the response. The other pending requests end as they were. Exactly one NETWORK_REQUEST `{url, options, requestId}` was sent. |
| Communication.ResponsesCommute | src/communication.ts:147-159 | Responses for two different request ids have the same effect in either order. |
| Communication.Without | src/communication.ts:200 | Filtering a listener out keeps exactly the other listeners and never lengthens the list. |
| Communication.WithoutAppend | src/communication.ts:200 | Filtering distributes over concatenation, so the remaining listeners keep their original order. |
| Communication.WithoutAbsent | src/communication.ts:200 | Removing a listener that is not in the list leaves the list unchanged. |
| Communication.WithoutIdempotent | src/communication.ts:200 | Filtering the same listener twice equals filtering it once. |
| Communication.WithoutCounts | src/communication.ts:200 | Every occurrence of the removed listener goes, and every other listener keeps its multiplicity. |
| Communication.ListenerAddedInv | src/communication.ts:195-197 | `addEventListener` preserves the invariant: listener lists exist only under the bridge's own event types. |
| Communication.ListenerRemovedInv | src/communication.ts:199-201 | `removeEventListener` preserves the bridge invariant. |
| Communication.RemoveListenerIdempotent | src/communication.ts:199-201 | Calling `removeEventListener` twice leaves the same state as calling it once. |
| Communication.AddThenRemoveListener | src/communication.ts:195-201 | Adding then removing a listener leaves its type's list equal to the old list without it, in the old order. The lists of every other type are untouched. |
| Communication.Fanout | src/communication.ts:204-206 | Dispatch makes one call per registered entry, in list order, each with the same payload. A throwing listener does not stop later ones. |
| Communication.DispatchCallsRegisteredInOrder | src/communication.ts:203-207 | `dispatch` leaves earlier calls in place and calls exactly the listeners registered for its type, in order, with the same payload. `dispatch` itself sends nothing and changes no listener list. |
| Communication.RouteOf | src/communication.ts:97-111 | A message goes to the tool registry iff its type is TOOL_CALL, and to the correlation table iff it is NETWORK_RESPONSE. Every other type, DISPLAY, INITIALIZE and AUTH included, is dispatched under its own type with its own payload. |
| Communication.RoutedInv | src/communication.ts:97-111 | Routing any well-shaped message preserves the bridge invariant. |
| Communication.UndecodableIsDropped | src/communication.ts:87-95 | An inbound value that does not decode to an object changes no state and sends nothing. |
| Communication.InboundInitializeIsDispatched | src/communication.ts:108-109 | An inbound INITIALIZE is dispatched under INITIALIZE and sends no message. |
| Communication.InboundAuthReachesNoListener | src/communication.ts:108-109 | In every reachable state, an inbound AUTH changes nothing, because no listener list exists under `AUTH`. |
| Communication.OrriCommunication.constructor | src/communication.ts:52-61 | A new bridge is in the initial state and satisfies the invariant. |
| Communication.OrriCommunication.Initialize | src/communication.ts:68-84 | The `forEach` loop and the send move the state exactly as `Initialized` says. |
| Communication.OrriCommunication.HandleMessage | src/communication.ts:87-95 | An undecodable value is dropped. Anything else is routed. |
| Communication.OrriCommunication.Route | src/communication.ts:97-111 | The switch moves the state exactly as `Routed` says. |
| Communication.OrriCommunication.ExecTool | src/communication.ts:113-145 | Appends exactly `ToolCallReply` of the registry, the call and the handler outcome. |
| Communication.OrriCommunication.HandleNetworkResponse | src/communication.ts:147-159 | Moves the state exactly as `NetworkResponded` says. |
| Communication.OrriCommunication.SendUserAction | src/communication.ts:162-164 | Appends one USER_ACTION `{actionType, data}` and changes nothing else. |
| Communication.OrriCommunication.Fetch | src/communication.ts:166-179 | Records a fresh, unsettled promise under the new request id and sends one NETWORK_REQUEST. |
| Communication.OrriCommunication.Send | src/communication.ts:181-188 | Appends the message to the outbox and changes nothing else. |
| Communication.OrriCommunication.Error | src/communication.ts:190-192 | Appends one ERROR `{message, callId}` and changes nothing else. |
| Communication.OrriCommunication.AddEventListener | src/communication.ts:195-197 | Appends the listener to its type's list. |
| Communication.OrriCommunication.RemoveEventListener | src/communication.ts:199-201 | Replaces the type's list by its filtered copy. |
| Communication.OrriCommunication.Dispatch | src/communication.ts:203-207 | The loop records one call per registered listener, in order, whether or not earlier ones threw. |
| Communication.OrriCommunication.GetTool | src/communication.ts:210 | Returns a tool iff one is registered under the id. That tool is the registry's entry, and its own id is the id asked for. |
| Communication.OrriCommunication.GetRegisteredTools | src/communication.ts:211 | Returns a copy equal to the registry. |
| Displays.Lower | src/displays.tsx:108 | ASCII lower-casing keeps the length, leaves no upper-case letter, and keeps every other character in place. |
| Displays.LowerIdempotent | src/displays.tsx:108 | Lower-casing twice is the same as lower-casing once. |
| Displays.LowerOfLowercase | src/displays.tsx:108 | A string without upper-case letters is its own lower-case form. |
| Displays.IsStageAgainstLowercase | src/displays.tsx:106-109 | Matching a stage against a lower-case name holds iff the stage lower-cases to that name. |
| Displays.StageTests | src/displays.tsx:111-148 | The router's preflight test holds iff a stage is present and lower-cases to `preflight`. Its postflight test holds iff a stage is present and lower-cases to `postflight`. |
| Displays.IsStageRejectsEmpty | src/displays.tsx:107 | `isStage` is false when either argument is undefined or empty. |
| Displays.IsStageCaseInsensitive | src/displays.tsx:106-109 | `isStage` depends only on the lower-case form of its arguments and is symmetric. |
| Displays.MixedCasePreflight | src/displays.tsx:111 | `PreFlight` is recognised as the preflight stage. |
| Displays.CallbackMessage | src/displays.tsx:133-146 | `onInputChange` sends user action `input_changed`, and `onSubmit` sends `confirm`. Both carry `{toolId, input}`. |
| Displays.SelectDisplay | src/displays.tsx:62-193 | Loading is shown iff there is no current display: no DISPLAY event has arrived, or the last one carried a falsy payload (`None` either way). An error component is shown only when one is supplied, and the fallback text only when none is. |
| Displays.RendersExactlyWhenDisplayExists | src/displays.tsx:111-193 | A preflight (or postflight) display is rendered iff the tool is registered, the stage is `preflight` (or `postflight`) in any case, and the tool has that display. |
| Displays.UnknownToolIsReported | src/displays.tsx:71-94 | An unregistered tool yields an error with `displayId = 'unknown'`, or the text `Error: Tool "<toolId>" not found`. |
| Displays.PreflightStageSelection | src/displays.tsx:111-147 | For a preflight stage, a tool without a preflight display yields an error with `displayId = 'preflight'`. Otherwise that display is rendered with the event's input, or `{}` when the input is absent or falsy. |
| Displays.PostflightStageSelection | src/displays.tsx:148-170 | For a postflight stage, a tool without a postflight display yields an error with `displayId = 'postflight'`. Otherwise that display is rendered with `{input}` only, defaulting to `{}`. |
| Displays.OtherStageIsReported | src/displays.tsx:177-190 | Any other stage, a missing one included, yields an error with `displayId = 'unknown'`, or the text `Error: No <stage> display found for tool "<toolId>"`. |
| Displays.MissingStageIsReported | src/displays.tsx:177-190 | A registered tool's DISPLAY event without a stage yields the text `Error: No undefined display found for tool "<toolId>"` when no error component is supplied. |
| Displays.AuthStageHasNoDisplay | src/displays.tsx:111-190 | The `auth` stage is neither the preflight nor the postflight branch. |

## Left out

- Transport: the `window` message subscription, `ReactNativeWebView.postMessage` and the `hasRNBridge` branch are browser/webview I/O. `send` appends to `outbox` whichever branch the source takes.
- `JSON.parse` and `JSON.stringify`: decoding is an input of type `Option<Message>`. No codec is modelled, so the round-trip property of the wire format is not stated.
- Communication.OrriCommunication.Route: the router casts payloads to their interfaces without checking. The model requires (`WellShaped`) that a TOOL_CALL carries a tool-call record and a NETWORK_RESPONSE carries a response record, so a mismatched payload, or a message without a `type` member, is not modelled.
- Communication.OrriCommunication.HandleMessage: requires a decoded message to be `WellShaped`, as `Route` does, so a mismatched payload is not modelled.
- Communication.RouteOf: requires `WellShaped`, as `Route` does. `Communication.Routed` carries the same requirement.
- Communication.OrriCommunication.Dispatch: a listener call is recorded with its payload and whether it threw, but what the listener itself does is not modelled. A listener that calls back into the bridge (`sendUserAction`, `fetch`, `removeEventListener`) during dispatch has no effect on the model's state. `forEach` runs over the list as it was when dispatch began, so the sequence of calls is the same.
- Displays.SelectDisplay: a DISPLAY payload without a `toolId` is not represented; `toolId` is always a string. In the source, such a payload is reported as `Error: Tool "undefined" not found`.
- Communication.OrriCommunication.Fetch: request-id generation (`crypto.randomUUID`, or the `Date.now`/`Math.random` fallback) is nondeterministic. The id is taken as an argument and required not to be pending. An id collision, which would orphan the earlier promise, is therefore not modelled.
- Asynchrony: the await of `executeAsync` and of the fetch promise. A handler's result and a response's arrival are explicit inputs, and each operation runs to completion, so the interleaving of replies to different in-flight calls is not modelled.
- The singleton mechanics (`getInstance`, `orriCommunication`, the exported `fetch` wrapper), and the `console.log`/`console.error` diagnostics, including the logging of a listener's exception.
- The React state and effect plumbing of the router (src/displays.tsx:32-59): how the current display event and the tool map are obtained. They are arguments of `SelectDisplay`.
- React rendering itself. An outcome names the component and its props. The loading view is the supplied component or the default `Loading...` element.
- Lower-casing is ASCII only. JavaScript's Unicode `toLowerCase` is not modelled.
- Numbers in payloads are integers. `NaN` and `-0`, which are falsy in JavaScript, are not represented.
- Zod schemas and their validation, `authDisplay.tsx`, `dev-utils.ts`, `webpack-utils.ts`, `defineApp.ts` and `defineTool.ts` are not part of this model. They are styling, development I/O, build tooling or thin wrappers around `initialize`.
