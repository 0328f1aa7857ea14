/**
  The five App Intents exposed to Shortcuts and Siri. Each one maps its
  `returnType` parameter onto the bridge's return type and forwards to the
  matching bridge method.
*/
module Shortcuts {
  import opened Common
  import opened IntentBridge

  datatype Intent =
    | CaptureAreaIntent
    | CaptureFullScreenIntent
    | CaptureAdvancedAreaIntent
    | CaptureOCRIntent
    | CaptureWindowIntent

  /** `CaptureShortcutReturnType`, the parameter type shown in Shortcuts. */
  datatype ShortcutReturnType = FilePathOption | TextOption

  /** Its `String` raw values, the case names. */
  function ShortcutRawValue(t: ShortcutReturnType): string {
    match t
    case FilePathOption => "filePath"
    case TextOption => "text"
  }

  /** The `@Parameter(default:)` of each intent's `returnType`. */
  function DefaultParameter(i: Intent): (t: ShortcutReturnType)
    ensures t == TextOption <==> i == CaptureOCRIntent
  {
    if i == CaptureOCRIntent then TextOption else FilePathOption
  }

  /** The right-hand side of `?? ` in each intent's `mapReturnType()`. */
  function FallbackReturnType(i: Intent): (t: ReturnType)
    ensures t == Text <==> i == CaptureOCRIntent
  {
    if i == CaptureOCRIntent then Text else FilePath
  }

  /**
    `mapReturnType()`: `AutomationReturnType(rawValue: raw) ?? <fallback>`,
    taking any raw string so that the fallback branch can be stated.
  */
  function MapReturnType(i: Intent, raw: string): (r: ReturnType)
    ensures raw == "filePath" ==> r == FilePath
    ensures raw == "text" ==> r == Text
    ensures raw != "filePath" && raw != "text" ==> r == (if i == CaptureOCRIntent then Text else FilePath)
  {
    match FromRawValue(raw)
    case Some(t) => t
    case None => FallbackReturnType(i)
  }

  /**
    The two enums share their case names, so for every value the parameter can
    actually hold the fallback is never taken: the mapping keeps the case.
  */
  lemma MapReturnTypeKeepsCase(i: Intent, t: ShortcutReturnType)
    ensures MapReturnType(i, ShortcutRawValue(t)) == (if t == TextOption then Text else FilePath)
    ensures RawValue(MapReturnType(i, ShortcutRawValue(t))) == ShortcutRawValue(t)
  {
  }

  /** An intent run with its default parameter asks for text exactly when it is the OCR intent. */
  lemma DefaultRequestsTextOnlyForOCR(i: Intent)
    ensures MapReturnType(i, ShortcutRawValue(DefaultParameter(i))) == Text <==> i == CaptureOCRIntent
  {
  }

  /** The bridge method each intent's `perform()` awaits. */
  function Route(i: Intent): (m: PublicMethod)
    ensures KindOf(m) == IntentKind(i)
  {
    match i
    case CaptureAreaIntent => CaptureArea
    case CaptureFullScreenIntent => CaptureFullScreen
    case CaptureAdvancedAreaIntent => CaptureAdvancedArea
    case CaptureOCRIntent => CaptureOCR
    case CaptureWindowIntent => CaptureWindow
  }

  /** The capture kind an intent ends up requesting from the app delegate. */
  function IntentKind(i: Intent): CaptureKind {
    match i
    case CaptureAreaIntent => Area
    case CaptureFullScreenIntent => FullScreen
    case CaptureAdvancedAreaIntent => AdvancedArea
    case CaptureOCRIntent => OcrArea
    case CaptureWindowIntent => WindowUnderMouse
  }

  /** Different intents reach different bridge methods, hence different capture kinds. */
  lemma RouteIsInjective()
    ensures forall i, j :: Route(i) == Route(j) ==> i == j
    ensures forall i :: KindOf(Route(i)) == IntentKind(i)
  {
  }

  /**
    `perform()`: await the routed bridge method with the mapped return type and
    hand its value back unchanged (or let its error propagate).
  */
  function Perform(i: Intent, t: ShortcutReturnType, delegateAvailable: bool, id: RequestID, steps: seq<Step>): (r: CaptureRun)
    ensures !delegateAvailable ==> r.calls == [] && r.state == Returned(Failure(AppUnavailable))
    ensures delegateAvailable ==> |r.calls| == 1 && CallKind(r.calls[0]) == IntentKind(i) && r.calls[0].requestID == id
    ensures delegateAvailable ==> (r.state.Suspended? <==> Resolve(id, steps).None?)
  {
    CaptureSpec(delegateAvailable, KindOf(Route(i)), MapReturnType(i, ShortcutRawValue(t)), id, steps)
  }

  /**
    Performing an intent makes exactly the one delegate call of its own kind,
    carrying the awaited id and the parameter's return type, or none at all
    when the app delegate is gone; a value it returns is never empty.
  */
  lemma PerformDispatchesItsOwnKind(i: Intent, t: ShortcutReturnType, delegateAvailable: bool, id: RequestID, steps: seq<Step>)
    ensures var run := Perform(i, t, delegateAvailable, id, steps);
      && (delegateAvailable ==> run.calls == [Dispatch(IntentKind(i), id, if t == TextOption then Text else FilePath)])
      && (!delegateAvailable ==> run.calls == [] && run.state == Returned(Failure(AppUnavailable)))
      && (run.state.Returned? && run.state.result.Success? ==> |run.state.result.value| > 0)
  {
    var run := Perform(i, t, delegateAvailable, id, steps);
    if delegateAvailable {
      var c := Dispatch(IntentKind(i), id, if t == TextOption then Text else FilePath);
      assert KindOf(Route(i)) == IntentKind(i);
      assert |run.calls| == 1 && CallKind(run.calls[0]) == CallKind(c);
      assert run.calls[0] == c;
    }
  }

  /** One `AppShortcut(intent:phrases:shortTitle:systemImageName:)`; phrases are left out. */
  datatype AppShortcut = AppShortcut(intent: Intent, shortTitle: string, systemImageName: string)

  /** `PastScreenShortcuts.appShortcuts`, in the listed order. */
  function AppShortcuts(): (r: seq<AppShortcut>)
    ensures |r| == 5
    ensures forall k :: 0 <= k < |r| ==> |r[k].shortTitle| > 0 && |r[k].systemImageName| > 0
  {
    [
      AppShortcut(CaptureAreaIntent, "选区截图", "selection.pin.in.out"),
      AppShortcut(CaptureAdvancedAreaIntent, "高级截图", "slider.horizontal.3"),
      AppShortcut(CaptureOCRIntent, "OCR 截图", "text.viewfinder"),
      AppShortcut(CaptureWindowIntent, "窗口截图", "macwindow"),
      AppShortcut(CaptureFullScreenIntent, "全屏截图", "rectangle.inset.filled")
    ]
  }

  /** The intents of a list of shortcuts, in order. */
  function IntentsOf(s: seq<AppShortcut>): (r: seq<Intent>)
    ensures |r| == |s| && forall k :: 0 <= k < |s| ==> r[k] == s[k].intent
  {
    seq(|s|, k requires 0 <= k < |s| => s[k].intent)
  }

  /** Exactly five shortcuts, one per intent, none repeated. */
  lemma AppShortcutsCoverEachIntentOnce()
    ensures |AppShortcuts()| == 5
    ensures forall i :: i in IntentsOf(AppShortcuts())
    ensures forall k, l :: 0 <= k < l < |AppShortcuts()| ==> AppShortcuts()[k].intent != AppShortcuts()[l].intent
  {
    var s := IntentsOf(AppShortcuts());
    assert s == [CaptureAreaIntent, CaptureAdvancedAreaIntent, CaptureOCRIntent, CaptureWindowIntent, CaptureFullScreenIntent];
    forall i ensures i in s {
      match i
      case CaptureAreaIntent => assert s[0] == i;
      case CaptureAdvancedAreaIntent => assert s[1] == i;
      case CaptureOCRIntent => assert s[2] == i;
      case CaptureWindowIntent => assert s[3] == i;
      case CaptureFullScreenIntent => assert s[4] == i;
    }
  }
}
