/**
  ScreenSnap's region capture: a full-screen selection window records a drag,
  turns it into a rectangle on mouse-up, and hands rectangles larger than
  10 x 10 points to the capture, which flips them from AppKit coordinates
  (origin bottom-left) to display coordinates (origin top-left) and saves the
  image under a timestamped name. Coordinates are `real`s.
*/
module ScreenshotCapture {
  import opened Common

  datatype Point = Point(x: real, y: real)

  datatype Rect = Rect(x: real, y: real, width: real, height: real)

  function Min(a: real, b: real): real {
    if a <= b then a else b
  }

  function Max(a: real, b: real): real {
    if a <= b then b else a
  }

  function Abs(a: real): real {
    if a < 0.0 then -a else a
  }

  /**
    The rectangle `mouseUp` builds from the drag: origin at the componentwise
    minimum, extent the absolute differences. It spans exactly the two corners.
  */
  function SelectionRect(start: Point, end: Point): (r: Rect)
    ensures r.width >= 0.0 && r.height >= 0.0
    ensures r.x == Min(start.x, end.x) && r.x + r.width == Max(start.x, end.x)
    ensures r.y == Min(start.y, end.y) && r.y + r.height == Max(start.y, end.y)
  {
    Rect(Min(start.x, end.x), Min(start.y, end.y), Abs(end.x - start.x), Abs(end.y - start.y))
  }

  /** Dragging from either corner to the other gives the same rectangle. */
  lemma SelectionRectIgnoresDragDirection(a: Point, b: Point)
    ensures SelectionRect(a, b) == SelectionRect(b, a)
  {
  }

  /** A selection is handed on only when it is wider and taller than this. */
  const MinSelectionExtent: real := 10.0

  predicate IsAcceptedSelection(r: Rect) {
    r.width > MinSelectionExtent && r.height > MinSelectionExtent
  }

  /** A drag is accepted exactly when it moved more than 10 points along both axes. */
  lemma AcceptedIffDraggedFarEnough(a: Point, b: Point)
    ensures IsAcceptedSelection(SelectionRect(a, b)) <==>
      Max(a.x, b.x) - Min(a.x, b.x) > 10.0 && Max(a.y, b.y) - Min(a.y, b.y) > 10.0
  {
  }

  /** The key code of ESC. */
  const EscapeKeyCode: int := 53

  /**
    A `SelectionWindow` together with its `SelectionView`: the drag state of the
    view, whether the window is still open, and the rectangles handed to the
    selection callback.
  */
  class SelectionWindow {
    var isOpen: bool
    var startPoint: Option<Point>
    var currentPoint: Option<Point>
    /** The rectangles passed to `onSelection`, oldest first. */
    var selections: seq<Rect>

    /** A new window, shown with `makeKeyAndOrderFront`. */
    constructor ()
      ensures isOpen && startPoint == None && currentPoint == None && selections == []
    {
      isOpen := true;
      startPoint := None;
      currentPoint := None;
      selections := [];
    }

    method Close()
      modifies this
      ensures !isOpen
      ensures startPoint == old(startPoint) && currentPoint == old(currentPoint) && selections == old(selections)
    {
      isOpen := false;
    }

    /** `mouseDown`: both points become the event location. */
    method MouseDown(location: Point)
      modifies this
      ensures startPoint == Some(location) && currentPoint == Some(location)
      ensures isOpen == old(isOpen) && selections == old(selections)
    {
      startPoint := Some(location);
      currentPoint := startPoint;
    }

    /** `mouseDragged`: only the current point moves. */
    method MouseDragged(location: Point)
      modifies this
      ensures currentPoint == Some(location)
      ensures startPoint == old(startPoint) && isOpen == old(isOpen) && selections == old(selections)
    {
      currentPoint := Some(location);
    }

    /**
      `mouseUp`: without both points nothing happens; otherwise the window
      closes, and the rectangle reaches the callback only if it is large enough.
    */
    method MouseUp()
      modifies this
      ensures startPoint == old(startPoint) && currentPoint == old(currentPoint)
      ensures old(startPoint).None? || old(currentPoint).None? ==>
        isOpen == old(isOpen) && selections == old(selections)
      ensures old(startPoint).Some? && old(currentPoint).Some? ==>
        var r := SelectionRect(old(startPoint).value, old(currentPoint).value);
        !isOpen && selections == old(selections) + (if IsAcceptedSelection(r) then [r] else [])
    {
      if startPoint.None? || currentPoint.None? {
        return;
      }
      var rect := SelectionRect(startPoint.value, currentPoint.value);
      if rect.width > MinSelectionExtent && rect.height > MinSelectionExtent {
        // The window's callback closes the window, then forwards the rectangle.
        Close();
        selections := selections + [rect];
      } else {
        Close();
      }
    }

    /** `keyDown`: ESC closes the window, any other key does nothing. */
    method KeyDown(keyCode: int)
      modifies this
      ensures isOpen == (old(isOpen) && keyCode != EscapeKeyCode)
      ensures startPoint == old(startPoint) && currentPoint == old(currentPoint) && selections == old(selections)
    {
      if keyCode == EscapeKeyCode {
        Close();
      }
    }
  }

  /** A click without a drag never reaches the callback. */
  method ClickSelectsNothing(w: SelectionWindow, p: Point)
    modifies w
    ensures w.selections == old(w.selections) && !w.isOpen
  {
    w.MouseDown(p);
    w.MouseUp();
  }

  /** The service's one selection window at a time. */
  class ScreenshotService {
    var selectionWindow: SelectionWindow?

    constructor ()
      ensures selectionWindow == null
    {
      selectionWindow := null;
    }

    /** `captureScreenshot`: close the window shown so far, if any, and show a fresh one. */
    method CaptureScreenshot()
      modifies this, selectionWindow
      ensures selectionWindow != null && fresh(selectionWindow)
      ensures selectionWindow.isOpen && selectionWindow.selections == []
      ensures selectionWindow.startPoint == None && selectionWindow.currentPoint == None
      ensures old(selectionWindow) != null ==> !old(selectionWindow).isOpen
    {
      if selectionWindow != null {
        selectionWindow.Close();
      }
      selectionWindow := new SelectionWindow();
    }
  }

  /**
    `captureScreenRegion`'s conversion to display coordinates: x and the size
    stay, and the distance from the top equals the old distance from the bottom.
  */
  function FlipToScreen(rect: Rect, screenHeight: real): (r: Rect)
    ensures r.x == rect.x && r.width == rect.width && r.height == rect.height
    ensures r.y + r.height == screenHeight - rect.y
  {
    Rect(rect.x, screenHeight - rect.y - rect.height, rect.width, rect.height)
  }

  /** Flipping twice against the same screen height gives the rectangle back. */
  lemma FlipIsInvolution(rect: Rect, screenHeight: real)
    ensures FlipToScreen(FlipToScreen(rect, screenHeight), screenHeight) == rect
  {
  }

  /** The region requested from the display, or nothing when there is no main screen. */
  function CaptureRegion(mainScreenHeight: Option<real>, rect: Rect): (r: Option<Rect>)
    ensures r.None? <==> mainScreenHeight.None?
    ensures r.Some? ==> r.value.x == rect.x && r.value.width == rect.width && r.value.height == rect.height
    ensures r.Some? ==> r.value.y == mainScreenHeight.value - rect.y - rect.height
  {
    match mainScreenHeight
    case None => None
    case Some(h) => Some(FlipToScreen(rect, h))
  }

  /** The file extension for `AppSettings.imageFormat`: `jpg` for "jpeg", `png` for anything else. */
  function FileExtension(imageFormat: string): (ext: string)
    ensures ext == "jpg" <==> imageFormat == "jpeg"
    ensures ext != "jpg" ==> ext == "png"
    ensures |ext| == 3
  {
    if imageFormat == "jpeg" then "jpg" else "png"
  }

  const ScreenshotPrefix: string := "Screenshot-"

  /**
    `saveToFile`'s file name: the prefix, the timestamp, a dot and the
    extension, each recoverable from its position.
  */
  function ScreenshotFilename(imageFormat: string, timestamp: string): (name: string)
    ensures |name| == |ScreenshotPrefix| + |timestamp| + 4
    ensures name[..|ScreenshotPrefix|] == ScreenshotPrefix
    ensures name[|ScreenshotPrefix|..|name| - 4] == timestamp
    ensures name[|name| - 4..] == "." + FileExtension(imageFormat)
  {
    ScreenshotPrefix + timestamp + "." + FileExtension(imageFormat)
  }

  /** `saveFolderPath + filename`: the name is appended to the folder path as it is, with no separator added. */
  function ScreenshotFilePath(saveFolderPath: string, imageFormat: string, timestamp: string): (path: string)
    ensures |path| == |saveFolderPath| + |ScreenshotFilename(imageFormat, timestamp)|
    ensures path[..|saveFolderPath|] == saveFolderPath
    ensures path[|saveFolderPath|..] == ScreenshotFilename(imageFormat, timestamp)
  {
    saveFolderPath + ScreenshotFilename(imageFormat, timestamp)
  }
}
