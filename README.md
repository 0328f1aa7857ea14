# PastScreen capture automation, modelled in Dafny

This project models the part of PastScreen-CN (and of the ScreenSnap app it grew from) that turns a Shortcuts or Siri request into a screen capture and a returned string, and the small state machines around it:

- **The automation bridge** (`intent_bridge.dfy`, module `IntentBridge`). `capture(kind:returnType:)` checks that the app delegate is present, makes one kind-specific `perform…CaptureForAutomation` call with a fresh request id, and then waits. The wait runs on `NotificationCenter`: an observer accepts only an `automationCaptureCompleted` notification whose `requestID` string is exactly this request's id. A 90-second timeout task races the observer. `finish` resolves at most once, removes the observer and resumes the continuation. The outcome is then projected onto the wanted string: a non-empty `error` wins, wanting text falls back to the file path, and wanting the file path never falls back to text. The main actor is single-threaded, so the race is modelled as any sequence of `Step`s (a posted notification, or the timeout waking up) run one after another. `AutomationWaiter` holds the state the closures share (`resolved`, `observer`, the resumed outcome, a resume count). `NotificationCenter` is its observer registry. The method `ScreenshotIntentBridge.Capture` is proved against the pure `CaptureSpec`.
- **The App Intents** (`shortcuts.dfy`, module `Shortcuts`). Each of the five intents maps its `returnType` parameter through `AutomationReturnType(rawValue:) ?? default`. It has a default parameter and forwards to one bridge method. `appShortcuts` lists the five intents.
- **Region capture** (`screenshot_service.dfy`, module `ScreenshotCapture`). This covers the drag state of the selection window, the rectangle built on mouse-up and the 10-point acceptance threshold. It also covers ESC, the replacement of the selection window, the AppKit-to-display y-flip, and the file name and extension rule.
- **Window capture** (`window_capture.dfy`, module `WindowCapture`). This covers the capturable-window filter, the search filter, title sanitisation (`/` and `:` become `-`, then the first 30 characters) and the file name. It also covers the service's `availableWindows` and selector-window state.
- **Capture-library cleanup** (`cleanup_service.dfy`, module `CaptureLibraryCleanup`). `start` is idempotent and `stop` clears the timer. `run(reason:)` has a reentrancy guard and an enabled gate, and `isRunning` is reset when the run ends. The run suspends at its `await`, so it is modelled as the two steps `RunEnter` and `RunResume`.
- `common.dfy` (module `Common`) holds `Option`, `Result`, Swift's `filter` as `Filter` and substring search as `Contains`.

Coordinates are `real`. Request ids are represented by their `uuidString`, and minting them is left to the caller. Timestamps are opaque strings. Lowercasing is a function parameter `lower`. The localized error messages are represented by their keys.

Four behaviours of the code are easy to misread, and the model follows the code in each:
- The code dispatches the delegate call *before* it adds the observer (`ScreenshotIntentBridge.swift:73-84`, then `:127`). A completion posted synchronously during dispatch therefore reaches no observer of the request, and the call can only end by a later notification or the timeout. `CompletionDuringDispatchIsLost` states this.
- The timeout task is never cancelled (`:144-147`). Its late `finish` is a no-op because `resolved` is already set (`Finish`, `LateStepsIgnored`).
- "No result" and "no file" are not separate error cases. Both are `IntentError.failed` with a localized message (`:95`, `:98`).
- There is no cancellation path for the caller's own context. The continuation is resumed only by the observer or the timeout.

## Model

| member | source | states |
|---|---|---|
| `IntentBridge.FromRawValue` | PastScreen/Services/ScreenshotIntentBridge.swift:8-11 | `AutomationReturnType(rawValue:)` succeeds exactly for "filePath" and "text", and then the case's raw value is the input |
| `IntentBridge.KindOf` | PastScreen/Services/ScreenshotIntentBridge.swift:40-58 | each public method passes its own kind to `capture`; `MethodFor` recovers the method from the kind |
| `IntentBridge.KindOfIsBijective` | PastScreen/Services/ScreenshotIntentBridge.swift:40-58 | each public capture method forwards to its own capture kind, and every kind is reached by exactly one method |
| `IntentBridge.Dispatch` | PastScreen/Services/ScreenshotIntentBridge.swift:73-84 | the delegate call made for a kind serves that kind and carries the request id and return type unchanged |
| `IntentBridge.StringField` | PastScreen/Services/ScreenshotIntentBridge.swift:134 | `userInfo[key] as? String` is present exactly when the key maps to a string value, and is that string |
| `IntentBridge.MatchNote` | PastScreen/Services/ScreenshotIntentBridge.swift:131-141 | the observer accepts a notification iff it has `userInfo` whose `requestID` is a string exactly equal to the request's id; it then takes `filePath`, `ocrText` and `error` from `userInfo` |
| `IntentBridge.ForeignNoteIgnored` | PastScreen/Services/ScreenshotIntentBridge.swift:132-136 | a notification tagged with another request's id never matches |
| `IntentBridge.Project` | PastScreen/Services/ScreenshotIntentBridge.swift:87-99 | a non-empty error always gives `failed(error)`. A success is a non-empty string: the file path when the path is wanted, and the text (or, failing that, the path) when text is wanted. It fails iff there is an error, or the path is wanted and absent, or text is wanted and text and path are both absent. The no-result and no-file failures carry their own messages |
| `IntentBridge.FilePathNeverFallsBackToText` | PastScreen/Services/ScreenshotIntentBridge.swift:92-98 | with only OCR text present, wanting the path fails with the no-file message while wanting text returns the text |
| `IntentBridge.ProjectionExamples` | PastScreen/Services/ScreenshotIntentBridge.swift:87-99 | the projection table: error "boom" fails; a path is returned for either want; text only fails for the path; nothing fails for text; an empty error does not win |
| `IntentBridge.Complete` | PastScreen/Services/ScreenshotIntentBridge.swift:86-99 | an error thrown by the wait (the timeout) passes through unchanged; a received result is projected |
| `IntentBridge.StepOutcome` | PastScreen/Services/ScreenshotIntentBridge.swift:127-147 | the timeout step resolves with `timeout`. A notification of another name never resolves. A resolving notification is a success carrying the matched result. Conversely, an `automationCaptureCompleted` notification that matches the id always resolves |
| `IntentBridge.Resolve` | PastScreen/Services/ScreenshotIntentBridge.swift:113-147 | the waiter's outcome over an interleaving; the only error it can end with is `timeout`, and only if the timeout step occurs |
| `IntentBridge.ResolveIsFirstResolvingStep` | PastScreen/Services/ScreenshotIntentBridge.swift:113-125 | the waiter's outcome is that of the earliest step able to resolve it, and it stays unresolved iff no step can |
| `IntentBridge.ResolveAtFirstResolvingStep` | PastScreen/Services/ScreenshotIntentBridge.swift:113-125 | when step k is the first step able to resolve the waiter, its outcome is the waiter's |
| `IntentBridge.ResolveSnoc` | PastScreen/Services/ScreenshotIntentBridge.swift:113-118 | one more step changes the outcome only if the waiter was still unresolved |
| `IntentBridge.LateStepsIgnored` | PastScreen/Services/ScreenshotIntentBridge.swift:144-147 | after resolution, further steps (such as the uncancelled timeout) leave the outcome unchanged |
| `IntentBridge.TimeoutBoundsTheWait` | PastScreen/Services/ScreenshotIntentBridge.swift:144-146 | once the timeout task has woken, the waiter is resolved |
| `IntentBridge.OnlyOwnNotesResolve` | PastScreen/Services/ScreenshotIntentBridge.swift:132-136 | notifications without this request's id, however many, never resolve it |
| `IntentBridge.NotificationCenter.constructor` | PastScreen/Services/ScreenshotIntentBridge.swift:127 | the registry starts with no observers |
| `IntentBridge.NotificationCenter.AddObserver` | PastScreen/Services/ScreenshotIntentBridge.swift:127-131 | `addObserver` returns a new handle, distinct from every registered one, and adds only it |
| `IntentBridge.NotificationCenter.RemoveObserver` | PastScreen/Services/ScreenshotIntentBridge.swift:117 | `removeObserver` removes exactly that handle |
| `IntentBridge.AutomationWaiter.constructor` | PastScreen/Services/ScreenshotIntentBridge.swift:110-111 | the wait starts unresolved, with no observer and nothing resumed |
| `IntentBridge.AutomationWaiter.Register` | PastScreen/Services/ScreenshotIntentBridge.swift:127-142 | the observer is added to the registry and the wait stays unresolved |
| `IntentBridge.AutomationWaiter.Finish` | PastScreen/Services/ScreenshotIntentBridge.swift:113-125 | the first call resolves with its result, removes the observer from the registry and resumes once. Every later call changes nothing. The invariant keeps the resume count at most one and the observer registered exactly while unresolved |
| `IntentBridge.AutomationWaiter.Deliver` | PastScreen/Services/ScreenshotIntentBridge.swift:131-142 | a posted notification resolves the wait only if the observer is still registered and the note matches; otherwise nothing changes |
| `IntentBridge.AutomationWaiter.Timeout` | PastScreen/Services/ScreenshotIntentBridge.swift:144-147 | the timeout resolves a pending wait with `timeout` and removes the observer; after a delivery it is a no-op |
| `IntentBridge.AutomationWaiter.Run` | PastScreen/Services/ScreenshotIntentBridge.swift:108-148 | running any interleaving of deliveries and the timeout leaves the outcome `Resolve(requestID, steps)`. The resume count is at most one, and the observer is removed iff the wait resolved |
| `IntentBridge.CaptureSpec` | PastScreen/Services/ScreenshotIntentBridge.swift:68-100 | without a delegate: `appUnavailable`, no delegate call and no observer. With one: exactly one delegate call, of the requested kind, carrying the awaited id and return type, and the call stays suspended iff no step resolves it. A returned value is never empty, and `timeout` is returned only when the timeout step occurs |
| `IntentBridge.CaptureEventuallyReturns` | PastScreen/Services/ScreenshotIntentBridge.swift:144-147 | an interleaving containing the timeout has returned, and later steps do not change what it returned |
| `IntentBridge.CaptureResultIsFirstResolvingStep` | PastScreen/Services/ScreenshotIntentBridge.swift:86-147 | for every interleaving, with k the first resolving step: the call throws `timeout` if step k is the timeout, and returns the projection of that notification's fields if step k is a notification (which is then a matching `automationCaptureCompleted`) |
| `IntentBridge.CompletionDuringDispatchIsLost` | PastScreen/Services/ScreenshotIntentBridge.swift:73-86 | running `Capture` with a matching completion posted during the delegate call, before `addObserver`, and then the timeout, ends in `timeout`: the completion is lost |
| `IntentBridge.CompletionBeforeTimeoutWins` | PastScreen/Services/ScreenshotIntentBridge.swift:113-147 | after any steps that leave the wait pending, a matching completion decides the result, which is its projection; whatever follows, such as the late timeout, is ignored |
| `IntentBridge.ScreenshotIntentBridge.constructor` | PastScreen/Services/ScreenshotIntentBridge.swift:5-6 | the bridge starts with the given delegate availability and no calls made |
| `IntentBridge.ScreenshotIntentBridge.TriggerAreaCapture` | PastScreen/Services/ScreenshotIntentBridge.swift:30-33 | throws `appUnavailable` without a delegate, otherwise makes one untracked area capture |
| `IntentBridge.ScreenshotIntentBridge.TriggerFullScreenCapture` | PastScreen/Services/ScreenshotIntentBridge.swift:35-38 | throws `appUnavailable` without a delegate, otherwise makes one untracked full-screen capture |
| `IntentBridge.ScreenshotIntentBridge.Capture` | PastScreen/Services/ScreenshotIntentBridge.swift:68-100 | the delegate calls made and the resulting call state are those of `CaptureSpec` over the steps seen after `addObserver`. Notifications posted during dispatch (`early`) have no effect. Once the call has returned, the registry is as before, so no observer leaks. While suspended, exactly one new observer is registered |
| `Shortcuts.DefaultParameter` | PastScreen/AppIntents/PastScreenShortcuts.swift:81 | the default `returnType` is `.text` for the OCR intent and `.filePath` for the other four (lines 24, 43, 62, 100) |
| `Shortcuts.FallbackReturnType` | PastScreen/AppIntents/PastScreenShortcuts.swift:89-91 | the `??` default is `.text` for the OCR intent and `.filePath` for the others (lines 32-34, 51-53, 70-72, 108-110) |
| `Shortcuts.MapReturnType` | PastScreen/AppIntents/PastScreenShortcuts.swift:32-34 | "filePath" maps to `.filePath` and "text" to `.text`. Any other raw value maps to the intent's default: `.text` for OCR (line 90), `.filePath` otherwise |
| `Shortcuts.MapReturnTypeKeepsCase` | PastScreen/AppIntents/PastScreenShortcuts.swift:6-9 | the two enums share their case names, so for every real parameter value the mapping keeps the case and the fallback is never taken |
| `Shortcuts.DefaultRequestsTextOnlyForOCR` | PastScreen/AppIntents/PastScreenShortcuts.swift:81-91 | run with its default parameter, an intent asks the bridge for text exactly when it is the OCR intent |
| `Shortcuts.Route` | PastScreen/AppIntents/PastScreenShortcuts.swift:27-30 | each intent's `perform` awaits the bridge method whose kind is the intent's own (lines 47, 66, 85, 104 for the others) |
| `Shortcuts.RouteIsInjective` | PastScreen/AppIntents/PastScreenShortcuts.swift:85-86 | each intent's `perform` calls its own bridge method (lines 28-29, 47-48, 66-67, 104-105 for the others), and so reaches its own capture kind |
| `Shortcuts.Perform` | PastScreen/AppIntents/PastScreenShortcuts.swift:27-34 | without a delegate, `perform` throws `appUnavailable` and makes no call. With one, it makes one delegate call, of its own kind and with the awaited id, and stays pending iff no step resolves the wait |
| `Shortcuts.PerformDispatchesItsOwnKind` | PastScreen/AppIntents/PastScreenShortcuts.swift:27-30 | performing an intent makes exactly the delegate call of its own kind, with the parameter's return type, or none and `appUnavailable` without a delegate. The value is returned unchanged and is never empty |
| `Shortcuts.AppShortcuts` | PastScreen/AppIntents/PastScreenShortcuts.swift:117-165 | the list has five entries, each with a non-empty short title and system image name |
| `Shortcuts.AppShortcutsCoverEachIntentOnce` | PastScreen/AppIntents/PastScreenShortcuts.swift:117-165 | `appShortcuts` has exactly five entries, each intent appears, and none appears twice |
| `ScreenshotCapture.SelectionRect` | ScreenSnap/ScreenSnap/Services/ScreenshotService.swift:219-224 | the mouse-up rectangle has its origin at the componentwise minimum of the two points and extends to their maximum, so its size is non-negative |
| `ScreenshotCapture.SelectionRectIgnoresDragDirection` | ScreenSnap/ScreenSnap/Services/ScreenshotService.swift:219-224 | swapping start and end gives the same rectangle |
| `ScreenshotCapture.AcceptedIffDraggedFarEnough` | ScreenSnap/ScreenSnap/Services/ScreenshotService.swift:226 | a selection is accepted iff the drag spans more than 10 points along both axes |
| `ScreenshotCapture.SelectionWindow.constructor` | ScreenSnap/ScreenSnap/Services/ScreenshotService.swift:154-186 | a new selection window is open, with no recorded points and no selection made |
| `ScreenshotCapture.SelectionWindow.Close` | ScreenSnap/ScreenSnap/Services/ScreenshotService.swift:178-181 | `close()` closes the window and changes nothing else |
| `ScreenshotCapture.SelectionWindow.MouseDown` | ScreenSnap/ScreenSnap/Services/ScreenshotService.swift:205-209 | both points become the event location; nothing else changes |
| `ScreenshotCapture.SelectionWindow.MouseDragged` | ScreenSnap/ScreenSnap/Services/ScreenshotService.swift:211-214 | only the current point moves |
| `ScreenshotCapture.SelectionWindow.MouseUp` | ScreenSnap/ScreenSnap/Services/ScreenshotService.swift:216-231 | without both points nothing happens. Otherwise the window closes (through the callback, lines 178-181, or directly), and the rectangle is passed on iff it is wider and taller than 10 |
| `ScreenshotCapture.SelectionWindow.KeyDown` | ScreenSnap/ScreenSnap/Services/ScreenshotService.swift:233-238 | key code 53 (ESC) closes the window; any other key changes nothing |
| `ScreenshotCapture.ClickSelectsNothing` | ScreenSnap/ScreenSnap/Services/ScreenshotService.swift:205-231 | a mouse-down followed by a mouse-up at the same point closes the window and passes nothing on |
| `ScreenshotCapture.ScreenshotService.constructor` | ScreenSnap/ScreenSnap/Services/ScreenshotService.swift:15-20 | the service starts without a selection window |
| `ScreenshotCapture.ScreenshotService.CaptureScreenshot` | ScreenSnap/ScreenSnap/Services/ScreenshotService.swift:35-45 | any previous selection window is closed, and a fresh, open one with no start point, no current point and no selections replaces it |
| `ScreenshotCapture.FlipToScreen` | ScreenSnap/ScreenSnap/Services/ScreenshotService.swift:78-83 | x, width and height are kept, and y becomes screen height minus y minus height |
| `ScreenshotCapture.FlipIsInvolution` | ScreenSnap/ScreenSnap/Services/ScreenshotService.swift:77-83 | flipping twice against the same screen height gives the rectangle back |
| `ScreenshotCapture.CaptureRegion` | ScreenSnap/ScreenSnap/Services/ScreenshotService.swift:74-87 | no main screen gives no region; otherwise the region is the flipped rectangle |
| `ScreenshotCapture.FileExtension` | ScreenSnap/ScreenSnap/Services/ScreenshotService.swift:104-111 | the extension is `jpg` iff the format is "jpeg", and `png` for any other value |
| `ScreenshotCapture.ScreenshotFilename` | ScreenSnap/ScreenSnap/Services/ScreenshotService.swift:117-120 | the name is "Screenshot-", the timestamp, a dot and the extension, each recoverable from its position |
| `ScreenshotCapture.ScreenshotFilePath` | ScreenSnap/ScreenSnap/Services/ScreenshotService.swift:123 | the path is the folder path immediately followed by the file name, with no separator added |
| `Common.Filter` | ScreenSnap/ScreenSnap/Services/WindowCaptureService.swift:51 | `filter` keeps every element satisfying the predicate, exactly as many times as the input holds it, and drops all others |
| `Common.FilterIsSubsequence` | ScreenSnap/ScreenSnap/Services/WindowCaptureService.swift:51 | the kept elements stay in their original order |
| `Common.Contains` | ScreenSnap/ScreenSnap/Services/WindowCaptureService.swift:228 | a string contains only queries no longer than itself, and always contains each of its suffixes |
| `Common.ContainsIffOccurs` | ScreenSnap/ScreenSnap/Services/WindowCaptureService.swift:228 | `contains` holds iff the query occurs at some offset of the string |
| `WindowCapture.IsCapturable` | ScreenSnap/ScreenSnap/Services/WindowCaptureService.swift:52-62 | a capturable window is later saved under its own non-empty title, never under the "Window" fallback (line 143) |
| `WindowCapture.CapturableWindows` | ScreenSnap/ScreenSnap/Services/WindowCaptureService.swift:51-63 | the kept windows are exactly the capturable ones, each kept as many times as the system listed it, in the system's order |
| `WindowCapture.CapturableWindowsAreTitledAndVisible` | ScreenSnap/ScreenSnap/Services/WindowCaptureService.swift:52-62 | every kept window has a non-empty title and an owning app other than "Window Server", is on screen, and is larger than 100 in both dimensions |
| `WindowCapture.MatchesSearch` | ScreenSnap/ScreenSnap/Services/WindowCaptureService.swift:224-229 | a window matches iff the lowercased query occurs at some offset of its lowercased title or of its lowercased app name, an absent one counting as empty |
| `WindowCapture.FilteredWindows` | ScreenSnap/ScreenSnap/Services/WindowCaptureService.swift:220-229 | an empty search returns the list unchanged. Otherwise the result is the order-preserving sublist of matching windows, each kept as many times as it occurs |
| `WindowCapture.TitleOccurrenceIsFound` | ScreenSnap/ScreenSnap/Services/WindowCaptureService.swift:224-229 | a window whose lowercased title has the lowercased query at some offset is always listed |
| `WindowCapture.SanitizeChar` | ScreenSnap/ScreenSnap/Services/WindowCaptureService.swift:178-179 | `/` and `:` become something else; every other character is kept |
| `WindowCapture.ReplaceChar` | ScreenSnap/ScreenSnap/Services/WindowCaptureService.swift:178 | one `replacingOccurrences` keeps the length and rewrites exactly the occurrences of the character |
| `WindowCapture.ReplaceSeparators` | ScreenSnap/ScreenSnap/Services/WindowCaptureService.swift:177-179 | the two replacements together rewrite `/` and `:` to `-` and keep everything else |
| `WindowCapture.SanitizeTitle` | ScreenSnap/ScreenSnap/Services/WindowCaptureService.swift:177-180 | the sanitised title is the first min(30, n) characters of the replaced title; it contains no `/` and no `:` |
| `WindowCapture.SanitizeTitleIsIdempotent` | ScreenSnap/ScreenSnap/Services/WindowCaptureService.swift:177-180 | sanitising a sanitised title changes nothing |
| `WindowCapture.SavedTitle` | ScreenSnap/ScreenSnap/Services/WindowCaptureService.swift:143 | a missing window title becomes "Window" |
| `WindowCapture.WindowFilename` | ScreenSnap/ScreenSnap/Services/WindowCaptureService.swift:159-182 | the name is "Window-", the sanitised title, "-", the timestamp, a dot and the extension (`jpg` iff "jpeg"), each at its position |
| `WindowCapture.WindowFilenameTitleIsSafe` | ScreenSnap/ScreenSnap/Services/WindowCaptureService.swift:177-182 | the title part of the file name has no `/` and no `:` and at most 30 characters |
| `WindowCapture.SelectorWindow.constructor` | ScreenSnap/ScreenSnap/Services/WindowCaptureService.swift:74-96 | a new selector shows the given window list and is open |
| `WindowCapture.SelectorWindow.Close` | ScreenSnap/ScreenSnap/Services/WindowCaptureService.swift:77 | closing the selector leaves it closed |
| `WindowCapture.WindowCaptureService.constructor` | ScreenSnap/ScreenSnap/Services/WindowCaptureService.swift:15-21 | the service starts with no windows and no selector |
| `WindowCapture.WindowCaptureService.LoadAvailableWindows` | ScreenSnap/ScreenSnap/Services/WindowCaptureService.swift:46-70 | loaded content gives the capturable windows; a thrown error gives an empty list |
| `WindowCapture.WindowCaptureService.PresentWindowSelector` | ScreenSnap/ScreenSnap/Services/WindowCaptureService.swift:72-99 | a fresh selector over the current window list becomes `selectorWindow` |
| `WindowCapture.WindowCaptureService.SelectWindow` | ScreenSnap/ScreenSnap/Services/WindowCaptureService.swift:76-80 | choosing a window closes and clears the selector, then requests that window's capture |
| `CaptureLibraryCleanup.CaptureLibraryCleanupService.constructor` | PastScreen/Services/CaptureLibraryCleanupService.swift:14-19 | no timer, not running |
| `CaptureLibraryCleanup.CaptureLibraryCleanupService.Start` | PastScreen/Services/CaptureLibraryCleanupService.swift:21-29 | with a timer, nothing changes. Without one, a single timer is scheduled and a "startup" run is launched. The invariant keeps every live timer the one held in `timer` |
| `CaptureLibraryCleanup.CaptureLibraryCleanupService.Stop` | PastScreen/Services/CaptureLibraryCleanupService.swift:31-34 | the held timer is invalidated and `timer` becomes nil |
| `CaptureLibraryCleanup.CaptureLibraryCleanupService.TimerFires` | PastScreen/Services/CaptureLibraryCleanupService.swift:24-26 | each firing launches a "timer" run |
| `CaptureLibraryCleanup.CaptureLibraryCleanupService.RunNow` | PastScreen/Services/CaptureLibraryCleanupService.swift:36-38 | launches a "manual" run |
| `CaptureLibraryCleanup.CaptureLibraryCleanupService.RunEnter` | PastScreen/Services/CaptureLibraryCleanupService.swift:40-54 | a run enters iff none is in flight and the library is enabled. Entering sets `isRunning` and starts one cleanup whose policy is the three settings unchanged. Otherwise nothing changes |
| `CaptureLibraryCleanup.CaptureLibraryCleanupService.RunResume` | PastScreen/Services/CaptureLibraryCleanupService.swift:44-57 | after the cleanup, `captureLibraryLastCleanupAt` is set, the other settings are untouched, and the deferred reset leaves `isRunning` false |
| `CaptureLibraryCleanup.StartTwiceIsStartOnce` | PastScreen/Services/CaptureLibraryCleanupService.swift:22 | two `start` calls schedule one timer and launch one startup run |
| `CaptureLibraryCleanup.StopThenStartSchedulesAgain` | PastScreen/Services/CaptureLibraryCleanupService.swift:21-34 | after `stop`, `start` schedules a new timer and the old one stays invalidated |
| `CaptureLibraryCleanup.OverlappingRunIsTurnedAway` | PastScreen/Services/CaptureLibraryCleanupService.swift:41-45 | a run attempted while another is suspended starts no second cleanup; when the first completes, `isRunning` is false |

## Left out

- Pixel capture is not modelled: ScreenCaptureKit (`SCShareableContent`, `SCScreenshotManager`, `SCContentFilter`), `CGDisplayCreateImage` and image encoding (`tiffRepresentation`, `representation(using:)`) are foreign frameworks. The window list is an input, and a capture is recorded as a request.
- Side effects are not modelled: clipboard writes, sounds, user notifications, file writes and folder creation are I/O. `performCapture` and `processCapture` only sequence these effects.
- `DateFormatter` timestamps are opaque strings. `lowercased()` is the parameter `lower`, with no Unicode case folding.
- `prefix(30)` counts grapheme clusters in Swift; the model counts `char`s.
- Common.Contains: compares `char`s, while Swift's `String.contains` compares `Character`s, which are grapheme clusters. A title with a decomposed "é" contains "e" in the model but not in Swift.
- WindowCapture.ReplaceChar: replaces `char`s, while `replacingOccurrences` matches `Character`s. A `/` or `:` followed by a combining mark forms one `Character`, which Swift may not treat as a match; the model replaces it.
- Real time is not modelled: `Task.sleep(90 s)` is the `TimeoutFires` step, and the repeating six-hour timer is `TimerFires`. Durations are constants only.
- True multithreading is not modelled. The main actor runs steps one at a time. `CaptureSpec` describes a finite prefix of steps, so a call with no resolving step is `Suspended`.
- Notification names other than `automationCaptureCompleted` are carried but not otherwise interpreted.
- The app delegate (`perform…CaptureForAutomation`, `perform…Capture(source:)`) is external. Its calls are logged, and its eventual completion notification is an input step.
- `CaptureLibrary.runCleanup` is external and appears as a logged policy. PastScreen's own `AppSettings` is not part of this model: its capture-library fields are the `Settings` class. The `reason` string only reaches `logInfo`, which is not modelled.
- All SwiftUI/AppKit drawing and presentation are left out. This covers `SelectionView.draw`, `drawDimensionLabel`, `WindowSelectorView.body`, `WindowThumbnailView`, the window levels and activation calls, and `ScreenSnapApp.swift`.
- `ScreenSnap/ScreenSnap/Models/AppSettings.swift` persistence, folder operations and `NSOpenPanel` are left out. Its `imageFormat` and `saveFolderPath` are parameters.
- `PastScreen/Models/OCRLanguageOption.swift` is a constant list and a locale lookup, and is not part of this model.
- Localized error strings are represented by their keys (`intent.error.no_result`, `intent.error.no_file`).
- The `NotificationCenter` observers that `ScreenshotService` and `WindowCaptureService` register for their own request notifications only forward to `captureScreenshot` and `showWindowSelector`, and are left out.
