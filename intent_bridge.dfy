/**
  The automation bridge: a Shortcuts request asks the app delegate for one kind
  of capture, tagged with a fresh request id, then waits on NotificationCenter
  for the matching `automationCaptureCompleted` notification or a 90-second
  timeout, whichever comes first, and projects the outcome onto the string the
  caller asked for.

  The main actor is single-threaded, so the race between the notification
  handler and the timeout task is modelled as an arbitrary sequence of `Step`s
  executed one after the other.
*/
module IntentBridge {
  import opened Common

  // ---------------------------------------------------------------------------
  // Types

  /** `AutomationReturnType`: which field of the outcome the caller wants. */
  datatype ReturnType = FilePath | Text

  /** The enum's raw values (`String` raw type, case names). */
  function RawValue(t: ReturnType): string {
    match t
    case FilePath => "filePath"
    case Text => "text"
  }

  /** `AutomationReturnType(rawValue:)`: `nil` for any string that is not a case name. */
  function FromRawValue(raw: string): (r: Option<ReturnType>)
    ensures r.Some? <==> raw == "filePath" || raw == "text"
    ensures r.Some? ==> RawValue(r.value) == raw
  {
    if raw == "filePath" then Some(FilePath)
    else if raw == "text" then Some(Text)
    else None
  }

  /** `IntentError`. The "no result" and "no file" cases are `failed` with a localized message. */
  datatype IntentError = AppUnavailable | Timeout | Failed(message: string)

  /** Localized messages are opaque: the model keeps only their keys. */
  const NoResultMessage: string := "intent.error.no_result"
  const NoFileMessage: string := "intent.error.no_file"

  /** The private `CaptureKind`. */
  datatype CaptureKind = Area | FullScreen | AdvancedArea | OcrArea | WindowUnderMouse

  /** The five public entry points; each forwards to `capture(kind:returnType:)`. */
  datatype PublicMethod = CaptureArea | CaptureFullScreen | CaptureAdvancedArea | CaptureOCR | CaptureWindow

  /** The `kind` each public method passes to `capture`; `MethodFor` undoes it, so no two methods share a kind. */
  function KindOf(m: PublicMethod): (k: CaptureKind)
    ensures MethodFor(k) == m
  {
    match m
    case CaptureArea => Area
    case CaptureFullScreen => FullScreen
    case CaptureAdvancedArea => AdvancedArea
    case CaptureOCR => OcrArea
    case CaptureWindow => WindowUnderMouse
  }

  /** The public method that forwards to a kind (the inverse of `KindOf`). */
  function MethodFor(k: CaptureKind): PublicMethod {
    match k
    case Area => CaptureArea
    case FullScreen => CaptureFullScreen
    case AdvancedArea => CaptureAdvancedArea
    case OcrArea => CaptureOCR
    case WindowUnderMouse => CaptureWindow
  }

  /** Every capture kind is reached by exactly one public method. */
  lemma KindOfIsBijective()
    ensures forall m :: MethodFor(KindOf(m)) == m
    ensures forall k :: KindOf(MethodFor(k)) == k
  {
  }

  /** A request id, represented by its `uuidString`. Minting it is left to the caller. */
  type RequestID = string

  /** The `perform…CaptureForAutomation` calls made on the app delegate. */
  datatype DelegateCall =
    | PerformAreaCapture(requestID: RequestID, returnType: ReturnType)
    | PerformFullScreenCapture(requestID: RequestID, returnType: ReturnType)
    | PerformAdvancedAreaCapture(requestID: RequestID, returnType: ReturnType)
    | PerformOCRCapture(requestID: RequestID, returnType: ReturnType)
    | PerformWindowCapture(requestID: RequestID, returnType: ReturnType)

  /** The kind a delegate call serves (the inverse of `Dispatch`). */
  function CallKind(c: DelegateCall): CaptureKind {
    match c
    case PerformAreaCapture(_, _) => Area
    case PerformFullScreenCapture(_, _) => FullScreen
    case PerformAdvancedAreaCapture(_, _) => AdvancedArea
    case PerformOCRCapture(_, _) => OcrArea
    case PerformWindowCapture(_, _) => WindowUnderMouse
  }

  /** The `switch kind` in `capture`: the one delegate call made for a kind. */
  function Dispatch(kind: CaptureKind, id: RequestID, rt: ReturnType): (c: DelegateCall)
    ensures CallKind(c) == kind
    ensures c.requestID == id && c.returnType == rt
  {
    match kind
    case Area => PerformAreaCapture(id, rt)
    case FullScreen => PerformFullScreenCapture(id, rt)
    case AdvancedArea => PerformAdvancedAreaCapture(id, rt)
    case OcrArea => PerformOCRCapture(id, rt)
    case WindowUnderMouse => PerformWindowCapture(id, rt)
  }

  /** `AutomationResult`: every combination of present and absent fields is possible. */
  datatype AutomationResult = AutomationResult(filePath: Option<string>, ocrText: Option<string>, error: Option<string>)

  // ---------------------------------------------------------------------------
  // Notifications

  /** A `userInfo` value: a `String`, or anything else (which `as? String` rejects). */
  datatype InfoValue = Str(s: string) | NonString

  datatype Notification = Notification(name: string, userInfo: Option<map<string, InfoValue>>)

  const AutomationCaptureCompleted: string := "automationCaptureCompleted"

  /** `userInfo[key] as? String`. */
  function StringField(info: map<string, InfoValue>, key: string): (r: Option<string>)
    ensures r.Some? <==> key in info && info[key].Str?
    ensures r.Some? ==> info[key] == Str(r.value)
  {
    if key in info && info[key].Str? then Some(info[key].s) else None
  }

  /**
    The observer block: the result it finishes with, or `None` when its guard
    drops the notification (no `userInfo`, no string `requestID`, or an id that
    is not exactly this request's).
  */
  function MatchNote(id: RequestID, note: Notification): (r: Option<AutomationResult>)
    ensures r.Some? <==> note.userInfo.Some? && StringField(note.userInfo.value, "requestID") == Some(id)
    ensures r.Some? ==> var info := note.userInfo.value;
      r.value.filePath == StringField(info, "filePath") &&
      r.value.ocrText == StringField(info, "ocrText") &&
      r.value.error == StringField(info, "error")
  {
    match note.userInfo
    case None => None
    case Some(info) =>
      if StringField(info, "requestID") == Some(id) then
        Some(AutomationResult(StringField(info, "filePath"), StringField(info, "ocrText"), StringField(info, "error")))
      else None
  }

  /** A notification tagged with one request id never matches a waiter for another. */
  lemma {:induction false} ForeignNoteIgnored(a: RequestID, b: RequestID, note: Notification)
    requires a != b
    requires note.userInfo.Some? && StringField(note.userInfo.value, "requestID") == Some(a)
    ensures MatchNote(b, note) == None
  {
  }

  // ---------------------------------------------------------------------------
  // Projection of the outcome onto the requested string

  /**
    The tail of `capture`: a non-empty `error` wins; wanting text falls back to
    the file path; wanting the file path never falls back to text.
  */
  function Project(result: AutomationResult, want: ReturnType): (r: Result<string, IntentError>)
    ensures NonEmpty(result.error) ==> r == Failure(Failed(result.error.value))
    ensures r.Success? ==> |r.value| > 0 && !NonEmpty(result.error)
    ensures r.Success? && want == FilePath ==> result.filePath == Some(r.value)
    ensures r.Success? && want == Text ==>
      result.ocrText == Some(r.value) || (!NonEmpty(result.ocrText) && result.filePath == Some(r.value))
    ensures r.Failure? <==>
      NonEmpty(result.error) ||
      (want == FilePath && !NonEmpty(result.filePath)) ||
      (want == Text && !NonEmpty(result.ocrText) && !NonEmpty(result.filePath))
    ensures r.Failure? && !NonEmpty(result.error) ==>
      r.error == Failed(if want == Text then NoResultMessage else NoFileMessage)
  {
    if NonEmpty(result.error) then Failure(Failed(result.error.value))
    else match want
      case Text =>
        if NonEmpty(result.ocrText) then Success(result.ocrText.value)
        else if NonEmpty(result.filePath) then Success(result.filePath.value)
        else Failure(Failed(NoResultMessage))
      case FilePath =>
        if NonEmpty(result.filePath) then Success(result.filePath.value)
        else Failure(Failed(NoFileMessage))
  }

  /** A successful projection for `.filePath` never returns the OCR text in place of a path. */
  lemma FilePathNeverFallsBackToText(result: AutomationResult, text: string)
    requires |text| > 0
    requires result.ocrText == Some(text) && result.error == None && result.filePath == None
    ensures Project(result, FilePath) == Failure(Failed(NoFileMessage))
    ensures Project(result, Text) == Success(text)
  {
  }

  /** Projection cases, one per branch of the tail of `capture`. */
  lemma ProjectionExamples()
    ensures Project(AutomationResult(None, None, Some("boom")), FilePath) == Failure(Failed("boom"))
    ensures Project(AutomationResult(Some("/tmp/a.png"), None, None), FilePath) == Success("/tmp/a.png")
    ensures Project(AutomationResult(None, Some("hello"), None), FilePath) == Failure(Failed(NoFileMessage))
    ensures Project(AutomationResult(Some("/tmp/a.png"), None, None), Text) == Success("/tmp/a.png")
    ensures Project(AutomationResult(None, None, None), Text) == Failure(Failed(NoResultMessage))
    ensures Project(AutomationResult(Some("/tmp/a.png"), Some("hi"), Some("")), Text) == Success("hi")
  {
  }

  /** What `capture` does with the awaited result: a thrown error passes through, a value is projected. */
  function Complete(awaited: Result<AutomationResult, IntentError>, want: ReturnType): (r: Result<string, IntentError>)
    ensures awaited.Failure? ==> r == Failure(awaited.error)
    ensures awaited.Success? ==> r == Project(awaited.value, want)
  {
    match awaited
    case Failure(e) => Failure(e)
    case Success(v) => Project(v, want)
  }

  // ---------------------------------------------------------------------------
  // The interleaving of the waiter's two racing participants

  /**
    One main-actor step while a request is awaited: NotificationCenter posts a
    notification, or the timeout task wakes up after its sleep.
  */
  datatype Step = Post(note: Notification) | TimeoutFires

  /** The default `timeoutSeconds` of `awaitAutomationResult`. */
  const DefaultTimeoutSeconds: nat := 90

  /** What one step would resolve a still-pending, still-registered waiter with, if anything. */
  function StepOutcome(id: RequestID, step: Step): (r: Option<Result<AutomationResult, IntentError>>)
    ensures step.TimeoutFires? ==> r == Some(Failure(Timeout))
    ensures step.Post? && step.note.name != AutomationCaptureCompleted ==> r == None
    ensures r.Some? && step.Post? ==> r.value.Success? && MatchNote(id, step.note) == Some(r.value.value)
    ensures step.Post? && step.note.name == AutomationCaptureCompleted && MatchNote(id, step.note).Some? ==> r.Some?
  {
    match step
    case TimeoutFires => Some(Failure(Timeout))
    case Post(note) =>
      if note.name != AutomationCaptureCompleted then None
      else match MatchNote(id, note)
        case None => None
        case Some(v) => Some(Success(v))
  }

  /** The outcome of a waiter that sees `steps` in order: the first step that resolves it. */
  function Resolve(id: RequestID, steps: seq<Step>): (r: Option<Result<AutomationResult, IntentError>>)
    ensures r.Some? && r.value.Failure? ==> r.value.error == Timeout && TimeoutFires in steps
  {
    if steps == [] then None
    else if StepOutcome(id, steps[0]).Some? then StepOutcome(id, steps[0])
    else Resolve(id, steps[1..])
  }

  /** `Resolve` is the outcome of the earliest resolving step, and `None` when no step resolves. */
  lemma {:induction false} ResolveIsFirstResolvingStep(id: RequestID, steps: seq<Step>)
    ensures Resolve(id, steps).None? <==> forall j :: 0 <= j < |steps| ==> StepOutcome(id, steps[j]).None?
    ensures Resolve(id, steps).Some? ==>
      exists k :: 0 <= k < |steps| && Resolve(id, steps) == StepOutcome(id, steps[k]) &&
        forall j :: 0 <= j < k ==> StepOutcome(id, steps[j]).None?
  {
    if steps != [] && StepOutcome(id, steps[0]).None? {
      ResolveIsFirstResolvingStep(id, steps[1..]);
      assert forall j :: 1 <= j < |steps| ==> steps[j] == steps[1..][j - 1];
      if Resolve(id, steps).Some? {
        var k :| 0 <= k < |steps[1..]| && Resolve(id, steps[1..]) == StepOutcome(id, steps[1..][k]) &&
          forall j :: 0 <= j < k ==> StepOutcome(id, steps[1..][j]).None?;
        assert Resolve(id, steps) == StepOutcome(id, steps[k + 1]);
      }
    } else if steps != [] {
      assert Resolve(id, steps) == StepOutcome(id, steps[0]);
    }
  }

  /** When step `k` is the first one able to resolve the waiter, it decides the outcome. */
  lemma {:induction false} ResolveAtFirstResolvingStep(id: RequestID, steps: seq<Step>, k: nat)
    requires k < |steps| && StepOutcome(id, steps[k]).Some?
    requires forall j :: 0 <= j < k ==> StepOutcome(id, steps[j]).None?
    ensures Resolve(id, steps) == StepOutcome(id, steps[k])
  {
    if k > 0 {
      assert StepOutcome(id, steps[0]).None?;
      assert forall j :: 0 <= j < k - 1 ==> steps[1..][j] == steps[j + 1];
      ResolveAtFirstResolvingStep(id, steps[1..], k - 1);
    }
  }

  /** Extending the interleaving by one step. */
  lemma {:induction false} ResolveSnoc(id: RequestID, steps: seq<Step>, s: Step)
    ensures Resolve(id, steps + [s]) == if Resolve(id, steps).Some? then Resolve(id, steps) else StepOutcome(id, s)
  {
    if steps == [] {
      assert [] + [s] == [s];
    } else {
      assert (steps + [s])[1..] == steps[1..] + [s];
      ResolveSnoc(id, steps[1..], s);
    }
  }

  /** Once resolved, later steps (such as the late timeout after a delivery) change nothing. */
  lemma {:induction false} LateStepsIgnored(id: RequestID, steps: seq<Step>, later: seq<Step>)
    requires Resolve(id, steps).Some?
    ensures Resolve(id, steps + later) == Resolve(id, steps)
  {
    if StepOutcome(id, steps[0]).None? {
      assert (steps + later)[1..] == steps[1..] + later;
      LateStepsIgnored(id, steps[1..], later);
    } else {
      assert (steps + later)[0] == steps[0];
    }
  }

  /** Once the timeout task has woken up, the waiter is resolved. */
  lemma {:induction false} TimeoutBoundsTheWait(id: RequestID, steps: seq<Step>)
    requires TimeoutFires in steps
    ensures Resolve(id, steps).Some?
  {
    if steps[0] != TimeoutFires && StepOutcome(id, steps[0]).None? {
      TimeoutBoundsTheWait(id, steps[1..]);
    }
  }

  /** Only steps carrying this request's id, or the timeout, can resolve it. */
  lemma {:induction false} OnlyOwnNotesResolve(id: RequestID, steps: seq<Step>)
    requires forall j :: 0 <= j < |steps| ==>
      (steps[j].Post? &&
       (steps[j].note.userInfo.None? || StringField(steps[j].note.userInfo.value, "requestID") != Some(id)))
    ensures Resolve(id, steps) == None
  {
    if steps != [] {
      OnlyOwnNotesResolve(id, steps[1..]);
    }
  }

  // ---------------------------------------------------------------------------
  // The NotificationCenter registry and the single-resolution waiter

  /** The observer registry of `NotificationCenter.default`; tokens stand for the returned observers. */
  class NotificationCenter {
    var observers: set<nat>
    var nextToken: nat

    ghost predicate Valid()
      reads this
    {
      forall t :: t in observers ==> t < nextToken
    }

    constructor ()
      ensures Valid() && observers == {}
    {
      observers := {};
      nextToken := 0;
    }

    /** `addObserver(forName:object:queue:using:)`: a new, distinct observer handle. */
    method AddObserver() returns (t: nat)
      requires Valid()
      modifies this
      ensures Valid()
      ensures t !in old(observers) && observers == old(observers) + {t}
    {
      t := nextToken;
      observers := observers + {t};
      nextToken := nextToken + 1;
    }

    /** `removeObserver(_:)`. */
    method RemoveObserver(t: nat)
      requires Valid()
      modifies this
      ensures Valid()
      ensures observers == old(observers) - {t}
    {
      observers := observers - {t};
    }
  }

  /**
    The state captured by the closures of one `awaitAutomationResult` call:
    `resolved`, `observer`, and what the continuation has been resumed with.
  */
  class AutomationWaiter {
    const requestID: RequestID
    const center: NotificationCenter
    var resolved: bool
    var observer: Option<nat>
    /** The value the continuation was resumed with, if it has been. */
    var outcome: Option<Result<AutomationResult, IntentError>>
    /** How many times the continuation has been resumed. */
    var resumeCount: nat

    /** The observer is in the registry exactly while the wait is pending. */
    predicate Registered()
      reads this, center
    {
      observer.Some? && observer.value in center.observers
    }

    ghost predicate Valid()
      reads this, center
    {
      && center.Valid()
      && (resolved <==> outcome.Some?)
      && resumeCount == (if resolved then 1 else 0)
      && (observer.Some? ==> (Registered() <==> !resolved))
    }

    /** Entering the continuation: `resolved = false`, `observer = nil`. */
    constructor (id: RequestID, nc: NotificationCenter)
      requires nc.Valid()
      ensures Valid()
      ensures requestID == id && center == nc
      ensures !resolved && observer == None && outcome == None && resumeCount == 0
    {
      requestID := id;
      center := nc;
      resolved := false;
      observer := None;
      outcome := None;
      resumeCount := 0;
    }

    /** `observer = NotificationCenter.default.addObserver(…)`. */
    method Register()
      requires Valid() && !resolved && observer == None
      modifies this, center
      ensures Valid() && !resolved && Registered()
      ensures observer.value !in old(center.observers)
      ensures center.observers == old(center.observers) + {observer.value}
      ensures outcome == old(outcome) && resumeCount == old(resumeCount)
    {
      var t := center.AddObserver();
      observer := Some(t);
    }

    /** `finish`: the first call resolves, removes the observer and resumes; every later call is a no-op. */
    method Finish(result: Result<AutomationResult, IntentError>)
      requires Valid()
      modifies this, center
      ensures Valid() && resolved && observer == old(observer)
      ensures old(resolved) ==> outcome == old(outcome) && resumeCount == old(resumeCount)
      ensures old(resolved) ==> center.observers == old(center.observers)
      ensures !old(resolved) ==> outcome == Some(result)
      ensures !old(resolved) ==>
        center.observers == if observer.Some? then old(center.observers) - {observer.value} else old(center.observers)
    {
      if resolved {
        return;
      }
      resolved := true;
      if observer.Some? {
        center.RemoveObserver(observer.value);
      }
      outcome := Some(result);
      resumeCount := resumeCount + 1;
    }

    /**
      NotificationCenter posts `note`: the block runs only while the observer is
      registered for that name, and then keeps or drops the note by its id.
    */
    method Deliver(note: Notification)
      requires Valid()
      modifies this, center
      ensures Valid() && observer == old(observer)
      ensures outcome == if old(outcome).Some? || !old(Registered()) || StepOutcome(requestID, Post(note)).None?
                         then old(outcome) else StepOutcome(requestID, Post(note))
      ensures resolved ==> !Registered()
      ensures center.observers ==
        if !old(resolved) && resolved && observer.Some? then old(center.observers) - {observer.value} else old(center.observers)
    {
      if note.name != AutomationCaptureCompleted || !Registered() {
        return;
      }
      var m := MatchNote(requestID, note);
      if m.Some? {
        Finish(Success(m.value));
      }
    }

    /** The timeout task wakes up: `finish(.failure(IntentError.timeout))`. The task is never cancelled. */
    method Timeout()
      requires Valid()
      modifies this, center
      ensures Valid() && resolved && observer == old(observer)
      ensures outcome == if old(outcome).Some? then old(outcome) else Some(Failure(IntentError.Timeout))
      ensures !Registered()
      ensures center.observers ==
        if !old(resolved) && resolved && observer.Some? then old(center.observers) - {observer.value} else old(center.observers)
    {
      Finish(Failure(IntentError.Timeout));
    }

    /** Runs an interleaving of deliveries and the timeout on the main actor. */
    method Run(steps: seq<Step>)
      requires Valid() && Registered() && !resolved
      modifies this, center
      ensures Valid() && observer == old(observer)
      ensures outcome == Resolve(requestID, steps)
      ensures resumeCount <= 1
      ensures center.observers ==
        if resolved then old(center.observers) - {observer.value} else old(center.observers)
    {
      var i := 0;
      while i < |steps|
        invariant 0 <= i <= |steps|
        invariant Valid() && observer == old(observer)
        invariant outcome == Resolve(requestID, steps[..i])
        invariant center.observers ==
          if resolved then old(center.observers) - {observer.value} else old(center.observers)
      {
        ResolveSnoc(requestID, steps[..i], steps[i]);
        assert steps[..i + 1] == steps[..i] + [steps[i]];
        match steps[i] {
          case Post(note) => Deliver(note);
          case TimeoutFires => Timeout();
        }
        i := i + 1;
      }
      assert steps[..i] == steps;
    }
  }

  // ---------------------------------------------------------------------------
  // The whole correlation

  /** Where a `capture` call stands after a finite interleaving: still suspended, or returned/thrown. */
  datatype CallState = Suspended | Returned(result: Result<string, IntentError>)

  /** The delegate calls one `capture` call makes, and where it stands. */
  datatype CaptureRun = CaptureRun(calls: seq<DelegateCall>, state: CallState)

  /**
    `capture(kind:returnType:)` as a whole, for a delegate that is or is not
    available, a freshly minted id, and the steps seen once the observer is in
    place. Notifications posted while the delegate call runs come before
    `addObserver`, so they reach no observer of this request and are not an
    input here (`Capture` takes them as `early` and ignores them).
  */
  function CaptureSpec(delegateAvailable: bool, kind: CaptureKind, rt: ReturnType, id: RequestID, steps: seq<Step>): (r: CaptureRun)
    ensures !delegateAvailable ==> r == CaptureRun([], Returned(Failure(AppUnavailable)))
    ensures delegateAvailable ==> |r.calls| == 1 && CallKind(r.calls[0]) == kind
    ensures delegateAvailable ==> r.calls[0].requestID == id && r.calls[0].returnType == rt
    ensures r.state.Returned? && r.state.result.Success? ==> |r.state.result.value| > 0
    ensures delegateAvailable ==> (r.state.Suspended? <==> Resolve(id, steps).None?)
    ensures r.state == Returned(Failure(Timeout)) ==> TimeoutFires in steps
  {
    if !delegateAvailable then CaptureRun([], Returned(Failure(AppUnavailable)))
    else
      var outcome := Resolve(id, steps);
      CaptureRun([Dispatch(kind, id, rt)],
                 if outcome.None? then Suspended else Returned(Complete(outcome.value, rt)))
  }

  /** A call whose interleaving contains the timeout has returned, and no later step changes its result. */
  lemma CaptureEventuallyReturns(kind: CaptureKind, rt: ReturnType, id: RequestID, steps: seq<Step>, later: seq<Step>)
    requires TimeoutFires in steps
    ensures CaptureSpec(true, kind, rt, id, steps).state.Returned?
    ensures CaptureSpec(true, kind, rt, id, steps + later) == CaptureSpec(true, kind, rt, id, steps)
  {
    TimeoutBoundsTheWait(id, steps);
    LateStepsIgnored(id, steps, later);
  }

  /**
    What a returned call returns, for every interleaving: if the first step able
    to resolve the waiter is the timeout, `timeout` is thrown; if it is a
    matching completion, the result is the projection of that notification's
    fields.
  */
  lemma CaptureResultIsFirstResolvingStep(kind: CaptureKind, rt: ReturnType, id: RequestID, steps: seq<Step>, k: nat)
    requires k < |steps| && StepOutcome(id, steps[k]).Some?
    requires forall j :: 0 <= j < k ==> StepOutcome(id, steps[j]).None?
    ensures steps[k].TimeoutFires? ==> CaptureSpec(true, kind, rt, id, steps).state == Returned(Failure(Timeout))
    ensures steps[k].Post? ==>
      && steps[k].note.name == AutomationCaptureCompleted
      && MatchNote(id, steps[k].note).Some?
      && CaptureSpec(true, kind, rt, id, steps).state == Returned(Project(MatchNote(id, steps[k].note).value, rt))
  {
    ResolveAtFirstResolvingStep(id, steps, k);
  }

  /**
    A matching completion that arrives after any number of steps that leave the
    waiter pending decides the result, whatever follows it (such as the late
    timeout).
  */
  lemma CompletionBeforeTimeoutWins(kind: CaptureKind, rt: ReturnType, id: RequestID,
                                    before: seq<Step>, note: Notification, v: AutomationResult, after: seq<Step>)
    requires forall j :: 0 <= j < |before| ==> StepOutcome(id, before[j]).None?
    requires note.name == AutomationCaptureCompleted && MatchNote(id, note) == Some(v)
    ensures CaptureSpec(true, kind, rt, id, before + [Post(note)] + after).state == Returned(Project(v, rt))
  {
    var steps := before + [Post(note)] + after;
    assert steps[|before|] == Post(note);
    assert forall j :: 0 <= j < |before| ==> steps[j] == before[j];
    CaptureResultIsFirstResolvingStep(kind, rt, id, steps, |before|);
  }

  /** `ScreenshotIntentBridge.shared`, with the weak `appDelegate` reduced to whether it is present. */
  class ScreenshotIntentBridge {
    var delegateAvailable: bool
    /** The calls made on the app delegate so far. */
    var delegateCalls: seq<DelegateCall>
    /** The kinds of the untracked `perform…Capture(source: .appIntent)` calls so far. */
    var triggeredCaptures: seq<CaptureKind>
    const center: NotificationCenter

    constructor (available: bool, nc: NotificationCenter)
      ensures delegateAvailable == available && center == nc
      ensures delegateCalls == [] && triggeredCaptures == []
    {
      delegateAvailable := available;
      delegateCalls := [];
      triggeredCaptures := [];
      center := nc;
    }

    /** `triggerAreaCapture`: start an area capture that reports nothing back, or throw without a delegate. */
    method TriggerAreaCapture() returns (thrown: Option<IntentError>)
      modifies this
      ensures thrown == (if delegateAvailable then None else Some(AppUnavailable))
      ensures triggeredCaptures == old(triggeredCaptures) + (if delegateAvailable then [Area] else [])
      ensures delegateCalls == old(delegateCalls) && delegateAvailable == old(delegateAvailable)
    {
      if !delegateAvailable {
        return Some(AppUnavailable);
      }
      triggeredCaptures := triggeredCaptures + [Area];
      thrown := None;
    }

    /** `triggerFullScreenCapture`: the same for a full-screen capture. */
    method TriggerFullScreenCapture() returns (thrown: Option<IntentError>)
      modifies this
      ensures thrown == (if delegateAvailable then None else Some(AppUnavailable))
      ensures triggeredCaptures == old(triggeredCaptures) + (if delegateAvailable then [FullScreen] else [])
      ensures delegateCalls == old(delegateCalls) && delegateAvailable == old(delegateAvailable)
    {
      if !delegateAvailable {
        return Some(AppUnavailable);
      }
      triggeredCaptures := triggeredCaptures + [FullScreen];
      thrown := None;
    }

    /**
      `capture(kind:returnType:)`: guard on the delegate, dispatch, then
      register the observer and wait. `early` are the notifications posted
      while the delegate call runs, before `addObserver`; `steps` are those
      seen afterwards. The result depends on `steps` only, and the observer is
      gone again whenever the call has returned.
    */
    method Capture(kind: CaptureKind, rt: ReturnType, id: RequestID, early: seq<Notification>, steps: seq<Step>)
      returns (state: CallState)
      requires center.Valid()
      modifies this, center
      ensures center.Valid() && delegateAvailable == old(delegateAvailable)
      ensures triggeredCaptures == old(triggeredCaptures)
      ensures var spec := CaptureSpec(old(delegateAvailable), kind, rt, id, steps);
        delegateCalls == old(delegateCalls) + spec.calls && state == spec.state
      ensures state.Returned? ==> center.observers == old(center.observers)
      ensures state.Suspended? ==> exists t :: t !in old(center.observers) && center.observers == old(center.observers) + {t}
    {
      if !delegateAvailable {
        return Returned(Failure(AppUnavailable));
      }
      delegateCalls := delegateCalls + [Dispatch(kind, id, rt)];
      var waiter := new AutomationWaiter(id, center);
      var i := 0;
      while i < |early|
        invariant 0 <= i <= |early|
        invariant waiter.Valid() && waiter.center == center && waiter.requestID == id
        invariant !waiter.resolved && waiter.observer == None && waiter.outcome == None
        invariant center.observers == old(center.observers)
        invariant delegateAvailable == old(delegateAvailable) && triggeredCaptures == old(triggeredCaptures)
        invariant delegateCalls == old(delegateCalls) + [Dispatch(kind, id, rt)]
      {
        waiter.Deliver(early[i]);
        i := i + 1;
      }
      waiter.Register();
      waiter.Run(steps);
      if waiter.outcome.None? {
        state := Suspended;
      } else {
        state := Returned(Complete(waiter.outcome.value, rt));
      }
    }
  }

  /**
    A completion posted synchronously during the delegate call itself reaches
    no observer of the request: even a matching one is lost, and the call ends
    in the timeout.
  */
  method CompletionDuringDispatchIsLost(bridge: ScreenshotIntentBridge, kind: CaptureKind, rt: ReturnType,
                                        id: RequestID, note: Notification, v: AutomationResult)
    returns (state: CallState)
    requires bridge.center.Valid() && bridge.delegateAvailable
    requires note.name == AutomationCaptureCompleted && MatchNote(id, note) == Some(v)
    modifies bridge, bridge.center
    ensures state == Returned(Failure(Timeout))
  {
    state := bridge.Capture(kind, rt, id, [note], [TimeoutFires]);
  }
}
