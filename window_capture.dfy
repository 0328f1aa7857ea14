/**
  ScreenSnap's window capture: the list of shareable windows is narrowed to the
  capturable ones, the selector narrows it further by a search text, and the
  chosen window's image is saved under a name built from its sanitised title.
  Lowercasing is locale-dependent and is taken as a parameter `lower`.
*/
module WindowCapture {
  import opened Common
  import ScreenshotCapture

  /** The parts of an `SCWindow` the service reads; `appName` is `nil` when there is no owning application. */
  datatype Window = Window(title: Option<string>, appName: Option<string>, width: real, height: real, isOnScreen: bool)

  const WindowServerName: string := "Window Server"

  /** Windows must be larger than this along both axes. */
  const MinWindowExtent: real := 100.0

  /**
    The filter closure of `loadAvailableWindows`. A capturable window is saved
    under its own title, never under the "Window" fallback.
  */
  predicate IsCapturable(w: Window)
    ensures IsCapturable(w) ==> w.title.Some? && SavedTitle(w) == w.title.value && |SavedTitle(w)| > 0
  {
    && w.title.Some?
    && w.appName.Some?
    && |w.title.value| > 0
    && w.width > MinWindowExtent
    && w.height > MinWindowExtent
    && w.isOnScreen
    && w.appName.value != WindowServerName
  }

  /** The windows offered for selection: the capturable ones, in the order the system listed them. */
  function CapturableWindows(windows: seq<Window>): (r: seq<Window>)
    ensures forall i :: 0 <= i < |r| ==> IsCapturable(r[i]) && r[i] in windows
    ensures forall i :: 0 <= i < |windows| && IsCapturable(windows[i]) ==> windows[i] in r
    ensures IsSubsequence(r, windows)
    ensures forall w :: multiset(r)[w] == if IsCapturable(w) then multiset(windows)[w] else 0
  {
    FilterIsSubsequence(IsCapturable, windows);
    Filter(IsCapturable, windows)
  }

  /** A window that passes the filter has a non-empty title, an owner other than the window server, and is on screen. */
  lemma CapturableWindowsAreTitledAndVisible(windows: seq<Window>, i: nat)
    requires i < |CapturableWindows(windows)|
    ensures var w := CapturableWindows(windows)[i];
      w.title.Some? && |w.title.value| > 0 && w.isOnScreen &&
      w.appName.Some? && w.appName.value != WindowServerName &&
      w.width > 100.0 && w.height > 100.0
  {
  }

  /** `o?.lowercased() ?? ""`. */
  function LoweredOrEmpty(lower: string -> string, o: Option<string>): string {
    if o.Some? then lower(o.value) else ""
  }

  /**
    The closure of `filteredWindows`: the lowercased query occurs at some offset
    of the lowercased title or of the lowercased app name (either counting as
    empty when absent).
  */
  predicate MatchesSearch(lower: string -> string, w: Window, searchText: string)
    ensures MatchesSearch(lower, w, searchText) <==>
      (exists k :: OccursAt(LoweredOrEmpty(lower, w.title), lower(searchText), k)) ||
      (exists k :: OccursAt(LoweredOrEmpty(lower, w.appName), lower(searchText), k))
  {
    var title := LoweredOrEmpty(lower, w.title);
    var appName := LoweredOrEmpty(lower, w.appName);
    var query := lower(searchText);
    ContainsIffOccurs(title, query);
    ContainsIffOccurs(appName, query);
    Contains(title, query) || Contains(appName, query)
  }

  /** `WindowSelectorView.filteredWindows`. */
  function FilteredWindows(lower: string -> string, windows: seq<Window>, searchText: string): (r: seq<Window>)
    ensures searchText == [] ==> r == windows
    ensures IsSubsequence(r, windows)
    ensures forall i :: 0 <= i < |r| ==> r[i] in windows && (searchText == [] || MatchesSearch(lower, r[i], searchText))
    ensures forall i :: 0 <= i < |windows| && (searchText == [] || MatchesSearch(lower, windows[i], searchText)) ==> windows[i] in r
    ensures forall w :: multiset(r)[w] ==
                        if searchText == [] || MatchesSearch(lower, w, searchText) then multiset(windows)[w] else 0
  {
    if searchText == [] then SubsequenceReflexive(windows); windows
    else
      FilterIsSubsequence((w: Window) => MatchesSearch(lower, w, searchText), windows);
      Filter((w: Window) => MatchesSearch(lower, w, searchText), windows)
  }

  /** A window whose lowercased title has the lowercased query at some offset is always kept. */
  lemma TitleOccurrenceIsFound(lower: string -> string, windows: seq<Window>, searchText: string, i: nat, k: nat)
    requires i < |windows| && windows[i].title.Some?
    requires OccursAt(lower(windows[i].title.value), lower(searchText), k)
    ensures windows[i] in FilteredWindows(lower, windows, searchText)
  {
    ContainsIffOccurs(lower(windows[i].title.value), lower(searchText));
  }

  /** The characters `replacingOccurrences` rewrites in a title. */
  function SanitizeChar(c: char): (d: char)
    ensures d != '/' && d != ':'
    ensures c != '/' && c != ':' ==> d == c
  {
    if c == '/' || c == ':' then '-' else c
  }

  /** `replacingOccurrences(of: from, with: to)` for one-character strings. */
  function ReplaceChar(s: string, from: char, to: char): (r: string)
    ensures |r| == |s|
    ensures forall i :: 0 <= i < |s| ==> r[i] == if s[i] == from then to else s[i]
  {
    if s == [] then [] else [if s[0] == from then to else s[0]] + ReplaceChar(s[1..], from, to)
  }

  /** `.replacingOccurrences(of: "/", with: "-").replacingOccurrences(of: ":", with: "-")`. */
  function ReplaceSeparators(s: string): (r: string)
    ensures |r| == |s|
    ensures forall i :: 0 <= i < |s| ==> r[i] == SanitizeChar(s[i])
  {
    ReplaceChar(ReplaceChar(s, '/', '-'), ':', '-')
  }

  /** At most this many characters of the title go into the file name. */
  const MaxTitleLength: nat := 30

  /** The sanitised title: separators replaced, then `prefix(30)`. */
  function SanitizeTitle(title: string): (r: string)
    ensures |r| == if |title| < MaxTitleLength then |title| else MaxTitleLength
    ensures forall i :: 0 <= i < |r| ==> r[i] == SanitizeChar(title[i])
    ensures forall i :: 0 <= i < |r| ==> r[i] != '/' && r[i] != ':'
  {
    var replaced := ReplaceSeparators(title);
    if |replaced| <= MaxTitleLength then replaced else replaced[..MaxTitleLength]
  }

  /** Sanitising an already sanitised title changes nothing. */
  lemma {:induction false} SanitizeTitleIsIdempotent(title: string)
    ensures SanitizeTitle(SanitizeTitle(title)) == SanitizeTitle(title)
  {
    var once := SanitizeTitle(title);
    var twice := SanitizeTitle(once);
    assert |twice| == |once|;
    forall i | 0 <= i < |once| ensures twice[i] == once[i] {
      assert once[i] == SanitizeChar(title[i]);
    }
  }

  /** The title `processCapture` passes on: `window.title ?? "Window"`. */
  function SavedTitle(w: Window): (t: string)
    ensures w.title.Some? ==> t == w.title.value
    ensures w.title.None? ==> t == "Window"
  {
    if w.title.Some? then w.title.value else "Window"
  }

  const WindowPrefix: string := "Window-"

  /**
    `"Window-\(sanitizedTitle)-\(timestamp).\(fileExtension)"`: each part sits at
    a position fixed by the lengths of the others.
  */
  function WindowFilename(w: Window, imageFormat: string, timestamp: string): (name: string)
    ensures var t := SanitizeTitle(SavedTitle(w));
      && |name| == |WindowPrefix| + |t| + 1 + |timestamp| + 4
      && name[..|WindowPrefix|] == WindowPrefix
      && name[|WindowPrefix|..|WindowPrefix| + |t|] == t
      && name[|WindowPrefix| + |t|] == '-'
      && name[|WindowPrefix| + |t| + 1..|name| - 4] == timestamp
      && name[|name| - 4..] == "." + ScreenshotCapture.FileExtension(imageFormat)
  {
    var t := SanitizeTitle(SavedTitle(w));
    var name := WindowPrefix + t + "-" + timestamp + "." + ScreenshotCapture.FileExtension(imageFormat);
    assert name[|WindowPrefix|..|WindowPrefix| + |t|] == t;
    name
  }

  /** The title part of a window's file name has no path separator, no colon, and at most 30 characters. */
  lemma WindowFilenameTitleIsSafe(w: Window, imageFormat: string, timestamp: string, i: nat)
    requires |WindowPrefix| <= i < |WindowPrefix| + |SanitizeTitle(SavedTitle(w))|
    ensures WindowFilename(w, imageFormat, timestamp)[i] != '/'
    ensures WindowFilename(w, imageFormat, timestamp)[i] != ':'
    ensures |SanitizeTitle(SavedTitle(w))| <= 30
  {
    var t := SanitizeTitle(SavedTitle(w));
    var name := WindowFilename(w, imageFormat, timestamp);
    assert name[i] == name[|WindowPrefix|..|WindowPrefix| + |t|][i - |WindowPrefix|];
  }

  /** The selector window that `presentWindowSelector` shows over a list of windows. */
  class SelectorWindow {
    const windows: seq<Window>
    var isOpen: bool

    constructor (ws: seq<Window>)
      ensures windows == ws && isOpen
    {
      windows := ws;
      isOpen := true;
    }

    method Close()
      modifies this
      ensures !isOpen
    {
      isOpen := false;
    }
  }

  class WindowCaptureService {
    var availableWindows: seq<Window>
    var selectorWindow: SelectorWindow?
    /** The windows handed to `captureWindow`, oldest first. */
    var captureRequests: seq<Window>

    constructor ()
      ensures availableWindows == [] && selectorWindow == null && captureRequests == []
    {
      availableWindows := [];
      selectorWindow := null;
      captureRequests := [];
    }

    /**
      `loadAvailableWindows`, given what `SCShareableContent.current` produced:
      its window list, or `None` when it threw.
    */
    method LoadAvailableWindows(content: Option<seq<Window>>)
      modifies this
      ensures content.None? ==> availableWindows == []
      ensures content.Some? ==> availableWindows == CapturableWindows(content.value)
      ensures selectorWindow == old(selectorWindow) && captureRequests == old(captureRequests)
    {
      match content {
        case None => availableWindows := [];
        case Some(ws) => availableWindows := CapturableWindows(ws);
      }
    }

    /** `presentWindowSelector`: a new selector over the current list becomes `selectorWindow`. */
    method PresentWindowSelector()
      modifies this
      ensures selectorWindow != null && fresh(selectorWindow)
      ensures selectorWindow.windows == availableWindows && selectorWindow.isOpen
      ensures availableWindows == old(availableWindows) && captureRequests == old(captureRequests)
    {
      selectorWindow := new SelectorWindow(availableWindows);
    }

    /** The selector's `onSelect`: close and forget the selector, then capture the chosen window. */
    method SelectWindow(w: Window)
      modifies this, selectorWindow
      ensures selectorWindow == null
      ensures old(selectorWindow) != null ==> !old(selectorWindow).isOpen
      ensures captureRequests == old(captureRequests) + [w]
      ensures availableWindows == old(availableWindows)
    {
      if selectorWindow != null {
        selectorWindow.Close();
      }
      selectorWindow := null;
      captureRequests := captureRequests + [w];
    }
  }
}
