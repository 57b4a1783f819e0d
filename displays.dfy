/**
 * The display-selection rule of `InternalDisplayRouter` in `src/displays.tsx`: given the router's
 * props, the current DISPLAY event (if one has arrived) and the registered tools, exactly one outcome
 * is chosen. Stage names are compared case-insensitively; lower-casing is modelled for ASCII.
 */
module Displays {
  import opened Wrappers
  import opened Json
  import opened Types
  import opened Messages
  import Communication

  /** `DisplayStage.PREFLIGHT` and `DisplayStage.POSTFLIGHT`. */
  const PREFLIGHT: string := "preflight"
  const POSTFLIGHT: string := "postflight"

  /** ASCII `toLowerCase` of one character. */
  function LowerChar(c: char): char {
    if 'A' <= c <= 'Z' then (c as int + 32) as char else c
  }

  /**
   * ASCII `toLowerCase`: the result has the same length, no upper-case letter remains, and every
   * character other than an upper-case letter is kept where it was.
   */
  function Lower(s: string): (r: string)
    ensures |r| == |s|
    ensures forall i :: 0 <= i < |r| ==> !('A' <= r[i] <= 'Z')
    ensures forall i :: 0 <= i < |s| && !('A' <= s[i] <= 'Z') ==> r[i] == s[i]
    ensures forall i :: 0 <= i < |s| ==> r[i] == LowerChar(s[i])
  {
    seq(|s|, i requires 0 <= i < |s| => LowerChar(s[i]))
  }

  /** A string with no upper-case ASCII letter is its own lower-case form. */
  lemma LowerOfLowercase(s: string)
    requires forall i :: 0 <= i < |s| ==> !('A' <= s[i] <= 'Z')
    ensures Lower(s) == s
  {
  }

  /** Lower-casing twice is lower-casing once. */
  lemma LowerIdempotent(s: string)
    ensures Lower(Lower(s)) == Lower(s)
  {
    LowerOfLowercase(Lower(s));
  }

  /**
   * `isStage(actual, expected)`: false when either side is undefined or empty, otherwise whether
   * the two agree after lower-casing.
   */
  function IsStage(actual: Option<string>, expected: Option<string>): bool {
    if actual.None? || expected.None? || actual.value == "" || expected.value == "" then false
    else Lower(actual.value) == Lower(expected.value)
  }

  /** Matching a stage against a lower-case name is a comparison of the stage's lower-case form. */
  lemma IsStageAgainstLowercase(stage: string, name: string)
    requires name != "" && forall i :: 0 <= i < |name| ==> !('A' <= name[i] <= 'Z')
    ensures IsStage(Some(stage), Some(name)) <==> Lower(stage) == name
  {
    LowerOfLowercase(name);
    if stage == "" {
      assert |Lower(stage)| == 0;
    }
  }

  /** How the router's two stage tests relate to the lower-case form of an optional stage. */
  lemma StageTests(stage: Option<string>)
    ensures IsStage(stage, Some(PREFLIGHT)) <==> stage.Some? && Lower(stage.value) == PREFLIGHT
    ensures IsStage(stage, Some(POSTFLIGHT)) <==> stage.Some? && Lower(stage.value) == POSTFLIGHT
  {
    if stage.Some? {
      IsStageAgainstLowercase(stage.value, PREFLIGHT);
      IsStageAgainstLowercase(stage.value, POSTFLIGHT);
    }
  }

  /** Undefined or empty stages never match. */
  lemma IsStageRejectsEmpty(actual: Option<string>, expected: Option<string>)
    requires actual.None? || expected.None? || actual == Some("") || expected == Some("")
    ensures !IsStage(actual, expected)
  {
  }

  /** `isStage` is symmetric, and it only sees its arguments through their lower-case forms. */
  lemma IsStageCaseInsensitive(a: string, b: string, e: string)
    requires Lower(a) == Lower(b)
    ensures IsStage(Some(a), Some(e)) == IsStage(Some(b), Some(e))
    ensures IsStage(Some(a), Some(e)) == IsStage(Some(e), Some(a))
  {
    assert |a| == |Lower(a)| == |Lower(b)| == |b|;
  }

  /** Mixed case is accepted: `PreFlight` is the preflight stage. */
  lemma MixedCasePreflight()
    ensures IsStage(Some("PreFlight"), Some(PREFLIGHT))
  {
    IsStageAgainstLowercase("PreFlight", PREFLIGHT);
    assert Lower("PreFlight") == PREFLIGHT;
  }

  /**
   * Which branch of the router a stage selects, defined independently of `isStage`; a missing
   * stage selects neither display.
   */
  datatype StageKind = PreflightStage | PostflightStage | OtherStage

  function KindOf(stage: Option<string>): StageKind {
    if stage.None? then OtherStage
    else if Lower(stage.value) == PREFLIGHT then PreflightStage
    else if Lower(stage.value) == POSTFLIGHT then PostflightStage
    else OtherStage
  }

  /** A template literal's rendering of an optional string: a missing one reads `undefined`. */
  function Shown(v: Option<string>): string {
    match v
    case Some(s) => s
    case None => "undefined"
  }

  /** `DisplayRouterProps`: optional custom loading and error components. */
  datatype RouterProps = RouterProps(loadingComponent: Option<Component>, errorComponent: Option<Component>)

  /** The props the error component receives. */
  datatype ErrorProps = ErrorProps(displayId: string, toolId: string, stage: Option<string>)

  /** The props of a preflight display: its input, plus the two callbacks of `PreflightCallback`. */
  datatype PreflightProps = PreflightProps(input: Json, toolId: string)

  /** What the router renders. */
  datatype Outcome =
    | ShowLoading(custom: Option<Component>)
    | ShowErrorComponent(component: Component, props: ErrorProps)
    | ShowErrorText(text: string)
    | RenderPreflight(component: Component, preflight: PreflightProps)
    | RenderPostflight(component: Component, input: Json)

  /** A preflight callback: `onInputChange` or `onSubmit`. */
  datatype PreflightCallback = OnInputChange | OnSubmit

  /**
   * The user action a preflight callback sends when called with `value`: `input_changed` for
   * `onInputChange`, `confirm` for `onSubmit`, each with data `{toolId, input}`.
   */
  function CallbackMessage(p: PreflightProps, cb: PreflightCallback, value: Json): (m: Message)
    ensures m.kind == Name(UserAction)
    ensures m.payload.UserActionPayload?
    ensures m.payload.action.data == JObject([("toolId", JString(p.toolId)), ("input", value)])
    ensures m.payload.action.actionType == (if cb == OnInputChange then "input_changed" else "confirm")
  {
    var data := JObject([("toolId", JString(p.toolId)), ("input", value)]);
    match cb
    case OnInputChange => Communication.UserActionMessage("input_changed", data)
    case OnSubmit => Communication.UserActionMessage("confirm", data)
  }

  /** An error: the error component with `displayId` when one is supplied, otherwise the fallback text. */
  function Failure(props: RouterProps, displayId: string, ev: DisplayEvent, text: string): Outcome {
    match props.errorComponent
    case Some(c) => ShowErrorComponent(c, ErrorProps(displayId, ev.toolId, ev.stage))
    case None => ShowErrorText(text)
  }

  /** `Error: Tool "<toolId>" not found`. */
  function ToolNotFoundText(toolId: string): string {
    "Error: Tool \"" + toolId + "\" not found"
  }

  /** `Error: Preflight display component is not defined for tool "<toolId>"`. */
  function NoPreflightText(toolId: string): string {
    "Error: Preflight display component is not defined for tool \"" + toolId + "\""
  }

  /** `Error: Postflight display component is not defined for tool "<toolId>"`. */
  function NoPostflightText(toolId: string): string {
    "Error: Postflight display component is not defined for tool \"" + toolId + "\""
  }

  /** `Error: No <stage> display found for tool "<toolId>"`, with `undefined` for a missing stage. */
  function NoDisplayText(stage: Option<string>, toolId: string): string {
    "Error: No " + Shown(stage) + " display found for tool \"" + toolId + "\""
  }

  /** The render-time branching of `InternalDisplayRouter`, in the order the source tests it. */
  function SelectDisplay(props: RouterProps, current: Option<DisplayEvent>, tools: map<string, Tool>): (o: Outcome)
    ensures o.ShowLoading? <==> current.None?
    ensures o.ShowErrorComponent? ==> props.errorComponent == Some(o.component)
    ensures o.ShowErrorText? ==> props.errorComponent.None?
  {
    if current.None? then ShowLoading(props.loadingComponent)
    else
      var ev := current.value;
      if ev.toolId !in tools then
        Failure(props, "unknown", ev, ToolNotFoundText(ev.toolId))
      else
        var tool := tools[ev.toolId];
        if IsStage(ev.stage, Some(PREFLIGHT)) || IsStage(ev.stage, Some("preflight")) then
          match tool.preflightDisplay
          case None =>
            Failure(props, "preflight", ev, NoPreflightText(ev.toolId))
          case Some(c) => RenderPreflight(c, PreflightProps(OrElse(ev.input, EmptyObject), ev.toolId))
        else if IsStage(ev.stage, Some(POSTFLIGHT)) || IsStage(ev.stage, Some("postflight")) then
          match tool.postflightDisplay
          case None =>
            Failure(props, "postflight", ev, NoPostflightText(ev.toolId))
          case Some(c) => RenderPostflight(c, OrElse(ev.input, EmptyObject))
        else
          Failure(props, "unknown", ev, NoDisplayText(ev.stage, ev.toolId))
  }

  /**
   * The router renders a display exactly when a DISPLAY event has arrived for a registered tool whose
   * stage is, ignoring letter case, `preflight` or `postflight` and the tool has a display for that
   * stage; every other event yields an error.
   */
  lemma RendersExactlyWhenDisplayExists(props: RouterProps, current: Option<DisplayEvent>, tools: map<string, Tool>)
    ensures var o := SelectDisplay(props, current, tools);
      && (o.RenderPreflight? <==>
            && current.Some? && current.value.toolId in tools
            && KindOf(current.value.stage) == PreflightStage
            && tools[current.value.toolId].preflightDisplay.Some?)
      && (o.RenderPostflight? <==>
            && current.Some? && current.value.toolId in tools
            && KindOf(current.value.stage) == PostflightStage
            && tools[current.value.toolId].postflightDisplay.Some?)
  {
    if current.Some? {
      StageTests(current.value.stage);
    }
  }

  /** A tool that is not registered is reported with `displayId = 'unknown'` or the not-found text. */
  lemma UnknownToolIsReported(props: RouterProps, ev: DisplayEvent, tools: map<string, Tool>)
    requires ev.toolId !in tools
    ensures SelectDisplay(props, Some(ev), tools) == Failure(props, "unknown", ev, ToolNotFoundText(ev.toolId))
  {
  }

  /**
   * A preflight stage (in any letter case): a tool without a preflight display is reported with
   * `displayId = 'preflight'`; otherwise that display is rendered with the event's input, `{}` when
   * the input is absent or falsy, and callbacks that report to the host under the tool's id.
   */
  lemma PreflightStageSelection(props: RouterProps, ev: DisplayEvent, tools: map<string, Tool>)
    requires ev.toolId in tools && KindOf(ev.stage) == PreflightStage
    ensures var o := SelectDisplay(props, Some(ev), tools);
      && (tools[ev.toolId].preflightDisplay.None? ==>
            o == Failure(props, "preflight", ev, NoPreflightText(ev.toolId)))
      && (tools[ev.toolId].preflightDisplay.Some? ==>
            && o == RenderPreflight(tools[ev.toolId].preflightDisplay.value, PreflightProps(OrElse(ev.input, EmptyObject), ev.toolId))
            && (Present(ev.input) ==> o.preflight.input == ev.input.value)
            && (!Present(ev.input) ==> o.preflight.input == JObject([])))
  {
    StageTests(ev.stage);
  }

  /**
   * A postflight stage (in any letter case): a tool without a postflight display is reported with
   * `displayId = 'postflight'`; otherwise that display is rendered with the input alone, `{}` when
   * absent or falsy.
   */
  lemma PostflightStageSelection(props: RouterProps, ev: DisplayEvent, tools: map<string, Tool>)
    requires ev.toolId in tools && KindOf(ev.stage) == PostflightStage
    ensures var o := SelectDisplay(props, Some(ev), tools);
      && (tools[ev.toolId].postflightDisplay.None? ==>
            o == Failure(props, "postflight", ev, NoPostflightText(ev.toolId)))
      && (tools[ev.toolId].postflightDisplay.Some? ==>
            o == RenderPostflight(tools[ev.toolId].postflightDisplay.value, OrElse(ev.input, EmptyObject)))
  {
    StageTests(ev.stage);
  }

  /**
   * Any other stage, `auth` or a missing one included, is reported with `displayId = 'unknown'` or the text naming
   * the stage and the tool, whatever displays the tool has.
   */
  lemma OtherStageIsReported(props: RouterProps, ev: DisplayEvent, tools: map<string, Tool>)
    requires ev.toolId in tools && KindOf(ev.stage) == OtherStage
    ensures SelectDisplay(props, Some(ev), tools)
      == Failure(props, "unknown", ev, NoDisplayText(ev.stage, ev.toolId))
  {
    StageTests(ev.stage);
  }

  /**
   * A DISPLAY payload without a stage reaches the last error branch: the fallback text reads
   * `Error: No undefined display found for tool "<toolId>"`.
   */
  lemma MissingStageIsReported(props: RouterProps, ev: DisplayEvent, tools: map<string, Tool>)
    requires ev.toolId in tools && ev.stage.None? && props.errorComponent.None?
    ensures SelectDisplay(props, Some(ev), tools)
      == ShowErrorText("Error: No undefined display found for tool \"" + ev.toolId + "\"")
  {
    OtherStageIsReported(props, ev, tools);
    var head := "Error: No undefined display found for tool \"";
    assert "Error: No " + Shown(ev.stage) + " display found for tool \"" == head;
  }

  /** The `auth` stage of the wire protocol has no display branch in the router. */
  lemma AuthStageHasNoDisplay()
    ensures KindOf(Some("auth")) == OtherStage
  {
    assert Lower("auth") == "auth" by {
      LowerOfLowercase("auth");
    }
  }
}
