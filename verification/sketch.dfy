/**
 * The sketch pad's state and its event handlers.  What the program keeps in
 * module-level variables is one `DrawingSession` object here; each handler
 * is a method that updates it.  Dispatching the "drawing-changed" event,
 * whose only listener repaints the canvas, is counted in `changeEvents`.
 */
module Sketch {
  import opened Wrappers
  import opened Drawables
  import opened EditHistory

  /** The active tool and its two parameters. */
  datatype ToolSettings = ToolSettings(tool: Tool, thickness: int, sticker: StickerTool)

  /** Whether the undo and redo buttons are disabled. */
  datatype ButtonStates = ButtonStates(undoDisabled: bool, redoDisabled: bool)

  /** The drawable a gesture of `tool` starting at (x, y) commits. */
  method NewStroke(tool: Tool, x: int, y: int, thickness: int, sticker: StickerTool) returns (stroke: Command)
    ensures fresh(stroke.Obj())
    ensures stroke.MarkerCmd? <==> tool == Marker
    ensures stroke.View() ==
      if tool == Marker then LinePainted([Point(x, y)], thickness)
      else StickerPainted(Point(x, y), sticker.Text())
  {
    if tool == Marker {
      var m := new MarkerLine(Point(x, y), thickness);
      stroke := MarkerCmd(m);
    } else {
      var s := new StickerCommand(x, y, sticker.Text());
      stroke := StickerCmd(s);
    }
  }

  class DrawingSession {
    var isDrawing: bool
    /** The drawable of the gesture in progress; the same object as the history entry committed for it. */
    var currentStroke: Option<Command>
    /** The undo stack: committed drawables, oldest first. */
    var lines: seq<Command>
    var redoStack: seq<Command>
    var currentThickness: int
    var currentPreview: ToolPreview?
    var currentMousePos: Option<Point>
    var currentTool: Tool
    var currentSticker: StickerTool
    /** How many "drawing-changed" events have been dispatched. */
    var changeEvents: nat

    /**
     * A gesture is in progress exactly when there is a current stroke; no
     * drawable is in the two stacks twice; the preview's value matches its tool.
     */
    ghost predicate Valid()
      reads this, currentPreview
    {
      (isDrawing <==> currentStroke.Some?) &&
      NoDuplicates(lines + redoStack) &&
      (currentPreview != null ==> currentPreview.Consistent())
    }

    /** The two stacks as a history value. */
    function Stacks(): History<Command>
      reads this
    {
      History(lines, redoStack)
    }

    function Settings(): ToolSettings
      reads this
    {
      ToolSettings(currentTool, currentThickness, currentSticker)
    }

    /** The object a drag during the current gesture changes. */
    function StrokeFrame(): set<object>
      reads this
    {
      if currentStroke.Some? then {currentStroke.value.Obj()} else {}
    }

    /** The state at load: marker tool, thick width, nothing drawn. */
    constructor ()
      ensures Valid()
      ensures lines == [] && redoStack == []
      ensures !isDrawing && currentStroke == None && currentPreview == null && currentMousePos == None
      ensures Settings() == ToolSettings(Marker, 2, Poop)
      ensures changeEvents == 0
    {
      isDrawing := false;
      currentStroke := None;
      lines := [];
      redoStack := [];
      currentThickness := 2;
      currentPreview := null;
      currentMousePos := None;
      currentTool := Marker;
      currentSticker := Poop;
      changeEvents := 0;
      new;
      SetSelectedTool(Marker, Width(2));
    }

    /**
     * Selects a tool and its parameter.  If the pointer position is known, the
     * preview is rebuilt there for the new tool and a change is dispatched.
     */
    method SetSelectedTool(tool: Tool, value: ToolValue)
      requires Valid()
      requires value.Width? <==> tool == Marker
      modifies this
      ensures Valid()
      ensures currentTool == tool
      ensures value.Width? ==> currentThickness == value.thickness && currentSticker == old(currentSticker)
      ensures value.Glyph? ==> currentSticker == value.sticker && currentThickness == old(currentThickness)
      ensures value == PreviewValue(currentTool, currentThickness, currentSticker)
      ensures currentMousePos.Some? ==>
        currentPreview != null && fresh(currentPreview) &&
        currentPreview.View() == PreviewPainted(currentMousePos.value, tool, value) &&
        changeEvents == old(changeEvents) + 1
      ensures currentMousePos.None? ==>
        currentPreview == old(currentPreview) && changeEvents == old(changeEvents)
      ensures lines == old(lines) && redoStack == old(redoStack)
      ensures isDrawing == old(isDrawing) && currentStroke == old(currentStroke)
      ensures currentMousePos == old(currentMousePos)
    {
      currentTool := tool;
      if tool == Marker {
        currentThickness := value.thickness;
      } else {
        currentSticker := value.sticker;
      }
      if currentMousePos.Some? {
        var pos := currentMousePos.value;
        if currentTool == Marker {
          currentPreview := new ToolPreview(pos.x, pos.y, Marker, Width(currentThickness));
        } else {
          currentPreview := new ToolPreview(pos.x, pos.y, Sticker, Glyph(currentSticker));
        }
        changeEvents := changeEvents + 1;
      }
    }

    /** The button states: each button is disabled exactly when pressing it would change nothing. */
    function UpdateButtonStates(): (b: ButtonStates)
      reads this
      ensures b.undoDisabled <==> Stacks().Undo() == Stacks()
      ensures b.redoDisabled <==> Stacks().Redo() == Stacks()
    {
      NoOpIffEmpty(Stacks());
      ButtonStates(|lines| == 0, |redoStack| == 0)
    }

    /**
     * Repaints the canvas: every committed drawable in history order, then
     * the preview on top, but only while no gesture is in progress.
     */
    method RedrawCanvas() returns (painted: seq<Painted>, buttons: ButtonStates)
      ensures |painted| == |lines| + (if !isDrawing && currentPreview != null then 1 else 0)
      ensures forall i :: 0 <= i < |lines| ==> painted[i] == lines[i].View()
      ensures !isDrawing && currentPreview != null ==> painted[|lines|] == currentPreview.View()
      ensures buttons.undoDisabled <==> lines == []
      ensures buttons.redoDisabled <==> redoStack == []
    {
      painted := [];
      for i := 0 to |lines|
        invariant |painted| == i
        invariant forall k :: 0 <= k < i ==> painted[k] == lines[k].View()
      {
        painted := painted + [lines[i].View()];
      }
      if !isDrawing && currentPreview != null {
        painted := painted + [currentPreview.View()];
      }
      buttons := UpdateButtonStates();
    }

    /** The undo button: moves the newest drawable onto the redo stack. */
    method UndoStroke()
      requires Valid()
      modifies this
      ensures Valid()
      ensures Stacks() == old(Stacks()).Undo()
      ensures changeEvents == old(changeEvents) + (if old(lines) == [] then 0 else 1)
      ensures isDrawing == old(isDrawing) && currentStroke == old(currentStroke)
      ensures currentPreview == old(currentPreview) && currentMousePos == old(currentMousePos)
      ensures Settings() == old(Settings())
    {
      if |lines| > 0 {
        var undone := lines[|lines| - 1];
        lines := lines[..|lines| - 1];
        redoStack := redoStack + [undone];
        changeEvents := changeEvents + 1;
        assert Stacks() == old(Stacks()).Undo();
        NoDuplicatesPermutation(old(lines + redoStack), lines + redoStack);
      }
    }

    /** The redo button: moves the newest undone drawable back onto the history. */
    method RedoStroke()
      requires Valid()
      modifies this
      ensures Valid()
      ensures Stacks() == old(Stacks()).Redo()
      ensures changeEvents == old(changeEvents) + (if old(redoStack) == [] then 0 else 1)
      ensures isDrawing == old(isDrawing) && currentStroke == old(currentStroke)
      ensures currentPreview == old(currentPreview) && currentMousePos == old(currentMousePos)
      ensures Settings() == old(Settings())
    {
      if |redoStack| > 0 {
        var redone := redoStack[|redoStack| - 1];
        redoStack := redoStack[..|redoStack| - 1];
        lines := lines + [redone];
        changeEvents := changeEvents + 1;
        assert Stacks() == old(Stacks()).Redo();
        NoDuplicatesPermutation(old(lines + redoStack), lines + redoStack);
      }
    }

    /** The clear button: discards both stacks. */
    method HandleClear()
      requires Valid()
      modifies this
      ensures Valid()
      ensures Stacks() == old(Stacks()).Clear()
      ensures changeEvents == old(changeEvents) + 1
      ensures isDrawing == old(isDrawing) && currentStroke == old(currentStroke)
      ensures currentPreview == old(currentPreview) && currentMousePos == old(currentMousePos)
      ensures Settings() == old(Settings())
    {
      lines := [];
      redoStack := [];
      changeEvents := changeEvents + 1;
    }

    /**
     * Pointer down at (x, y): commits a new drawable for the active tool at
     * once and makes it the current stroke; the preview is hidden.
     */
    method HandleStartDrawing(x: int, y: int)
      requires Valid()
      modifies this
      ensures Valid()
      ensures isDrawing && currentPreview == null
      ensures |lines| == |old(lines)| + 1
      ensures Stacks() == old(Stacks()).Commit(lines[|old(lines)|])
      ensures forall i :: 0 <= i < |old(lines)| ==> lines[i].View() == old(lines[i].View())
      ensures currentStroke == Some(lines[|old(lines)|]) && fresh(currentStroke.value.Obj())
      ensures currentStroke.value.View() ==
        if currentTool == Marker then LinePainted([Point(x, y)], currentThickness)
        else StickerPainted(Point(x, y), currentSticker.Text())
      ensures changeEvents == old(changeEvents) + 1
      ensures currentMousePos == old(currentMousePos) && Settings() == old(Settings())
    {
      var stroke := NewStroke(currentTool, x, y, currentThickness, currentSticker);
      BeginGesture(stroke);
    }

    /** Commits `stroke`, a drawable in neither stack, as the current stroke of a new gesture. */
    method BeginGesture(stroke: Command)
      requires Valid() && stroke !in lines + redoStack
      modifies this
      ensures Valid()
      ensures lines == old(lines) + [stroke] && redoStack == []
      ensures isDrawing && currentStroke == Some(stroke) && currentPreview == null
      ensures changeEvents == old(changeEvents) + 1
      ensures currentMousePos == old(currentMousePos) && Settings() == old(Settings())
      ensures forall i :: 0 <= i < |old(lines)| ==> lines[i].View() == old(lines[i].View())
      ensures stroke.View() == old(stroke.View())
    {
      NoDuplicatesPrefix(lines, redoStack);
      redoStack := [];
      isDrawing := true;
      currentStroke := Some(stroke);
      lines := lines + [stroke];
      currentPreview := null;
      assert lines + redoStack == lines;
      changeEvents := changeEvents + 1;
      // no drawable is the session itself
      forall i | 0 <= i < |old(lines)|
        ensures lines[i].View() == old(lines[i].View())
      {
        assert lines[i].Obj() != this;
      }
      assert stroke.Obj() != this;
    }

    /**
     * Pointer move to (x, y).  During a gesture it drags the current stroke,
     * in place, and nothing else; otherwise it shows the preview of the
     * active tool at (x, y).  Either way it records the pointer position.
     */
    method HandleDrawing(x: int, y: int)
      requires Valid()
      modifies this, StrokeFrame(), currentPreview
      ensures Valid()
      ensures currentMousePos == Some(Point(x, y))
      ensures lines == old(lines) && redoStack == old(redoStack)
      ensures isDrawing == old(isDrawing) && currentStroke == old(currentStroke)
      ensures Settings() == old(Settings())
      ensures changeEvents == old(changeEvents) + 1
      // during a gesture: the current stroke is dragged, no other drawable changes
      ensures old(isDrawing) ==>
        currentStroke.value.View() == old(currentStroke.value.View()).Extend(x, y)
      ensures old(isDrawing) && lines != [] && currentStroke == Some(lines[|lines| - 1]) ==>
        forall i :: 0 <= i < |lines| - 1 ==> lines[i].View() == old(lines[i].View())
      ensures old(isDrawing) ==>
        currentPreview == old(currentPreview) &&
        (currentPreview != null ==> currentPreview.View() == old(currentPreview.View()))
      // while idle: the preview of the active tool sits at (x, y)
      ensures !old(isDrawing) ==>
        currentPreview != null &&
        currentPreview.View() == PreviewPainted(Point(x, y), currentTool, PreviewValue(currentTool, currentThickness, currentSticker))
      ensures !old(isDrawing) ==>
        if old(currentPreview) != null && old(currentPreview.toolType) == currentTool &&
           old(currentPreview.thicknessOrText) == PreviewValue(currentTool, currentThickness, currentSticker)
        then currentPreview == old(currentPreview)
        else fresh(currentPreview)
    {
      if isDrawing && currentStroke.Some? {
        DragCurrentStroke(x, y);
      }
      RecordPointer(x, y);
      if !isDrawing {
        ShowPreview(x, y);
      }
    }

    /** Records the pointer position, which belongs to the session and not to any drawable. */
    method RecordPointer(x: int, y: int)
      modifies this`currentMousePos
      ensures currentMousePos == Some(Point(x, y))
      ensures forall i :: 0 <= i < |lines| ==> lines[i].View() == old(lines[i].View())
      ensures forall i :: 0 <= i < |redoStack| ==> redoStack[i].View() == old(redoStack[i].View())
    {
      currentMousePos := Some(Point(x, y));
      forall i | 0 <= i < |lines|
        ensures lines[i].View() == old(lines[i].View())
      {
        assert lines[i].Obj() != this;
      }
      forall i | 0 <= i < |redoStack|
        ensures redoStack[i].View() == old(redoStack[i].View())
      {
        assert redoStack[i].Obj() != this;
      }
    }

    /** The gesture half of a pointer move: drags the current stroke in place. */
    method DragCurrentStroke(x: int, y: int)
      requires Valid() && isDrawing
      modifies this`changeEvents, StrokeFrame()
      ensures Valid()
      ensures changeEvents == old(changeEvents) + 1
      ensures currentStroke.value.View() == old(currentStroke.value.View()).Extend(x, y)
      ensures forall i :: 0 <= i < |lines| && lines[i].Obj() !in StrokeFrame() ==>
        lines[i].View() == old(lines[i].View())
      ensures forall i :: 0 <= i < |redoStack| && redoStack[i].Obj() !in StrokeFrame() ==>
        redoStack[i].View() == old(redoStack[i].View())
      ensures lines != [] && currentStroke == Some(lines[|lines| - 1]) ==>
        forall i :: 0 <= i < |lines| - 1 ==> lines[i].View() == old(lines[i].View())
    {
      currentStroke.value.Drag(x, y);
      changeEvents := changeEvents + 1;
      if lines != [] && currentStroke == Some(lines[|lines| - 1]) {
        var n := |lines|;
        forall i | 0 <= i < n - 1
          ensures lines[i].View() == old(lines[i].View())
        {
          NoDuplicatesAt(lines + redoStack, i, n - 1);
          ObjInjective(lines[i], lines[n - 1]);
          assert unchanged(lines[i].Obj());
        }
      }
    }


    /**
     * The idle half of a pointer move: moves the preview to (x, y), and
     * replaces it when the tool or its value no longer match.
     */
    method ShowPreview(x: int, y: int)
      requires Valid() && !isDrawing
      modifies this`currentPreview, this`changeEvents, currentPreview
      ensures Valid()
      ensures changeEvents == old(changeEvents) + 1
      ensures currentPreview != null &&
        currentPreview.View() == PreviewPainted(Point(x, y), currentTool, PreviewValue(currentTool, currentThickness, currentSticker))
      ensures if old(currentPreview) != null && old(currentPreview.toolType) == currentTool &&
                 old(currentPreview.thicknessOrText) == PreviewValue(currentTool, currentThickness, currentSticker)
        then currentPreview == old(currentPreview)
        else fresh(currentPreview)
    {
      var value := PreviewValue(currentTool, currentThickness, currentSticker);
      if currentPreview == null {
        currentPreview := new ToolPreview(x, y, currentTool, value);
      } else {
        currentPreview.UpdatePosition(x, y);
        if currentPreview.toolType != currentTool || currentPreview.thicknessOrText != value {
          currentPreview := new ToolPreview(x, y, currentTool, value);
        }
      }
      changeEvents := changeEvents + 1;
    }

    /**
     * Pointer up: ends the gesture, if one is in progress, and rebuilds the
     * preview at the last known pointer position.
     */
    method HandleStopDrawing()
      requires Valid()
      modifies this
      ensures Valid()
      ensures !old(isDrawing) ==> unchanged(this)
      ensures !isDrawing && currentStroke == None
      ensures changeEvents == old(changeEvents) + (if old(isDrawing) then 1 else 0)
      ensures old(isDrawing) && currentMousePos.Some? ==>
        currentPreview != null && fresh(currentPreview) &&
        currentPreview.View() == PreviewPainted(currentMousePos.value, currentTool, PreviewValue(currentTool, currentThickness, currentSticker))
      ensures currentMousePos.None? ==> currentPreview == old(currentPreview)
      ensures lines == old(lines) && redoStack == old(redoStack)
      ensures currentMousePos == old(currentMousePos) && Settings() == old(Settings())
    {
      if isDrawing {
        isDrawing := false;
        currentStroke := None;
        if currentMousePos.Some? {
          var value := PreviewValue(currentTool, currentThickness, currentSticker);
          currentPreview := new ToolPreview(currentMousePos.value.x, currentMousePos.value.y, currentTool, value);
        }
        changeEvents := changeEvents + 1;
      }
    }

    /** Pointer leaves the canvas: ends any gesture and hides the preview. */
    method HandleMouseLeave()
      requires Valid()
      modifies this
      ensures Valid()
      ensures !isDrawing && currentStroke == None && currentPreview == null
      ensures changeEvents == old(changeEvents) + (if old(isDrawing) then 2 else 1)
      ensures lines == old(lines) && redoStack == old(redoStack)
      ensures currentMousePos == old(currentMousePos) && Settings() == old(Settings())
    {
      HandleStopDrawing();
      currentPreview := null;
      changeEvents := changeEvents + 1;
    }
  }

  /**
   * Leaving the canvas hides the preview but keeps the last pointer position,
   * so a tool chosen afterwards, with the pointer outside the canvas, brings
   * the preview back at that stale position, painted on top of the drawing.
   */
  method ToolChangeAfterLeave(session: DrawingSession, tool: Tool, value: ToolValue)
    returns (painted: seq<Painted>)
    requires session.Valid() && session.currentMousePos.Some?
    requires value.Width? <==> tool == Marker
    modifies session
    ensures session.lines == old(session.lines) && session.currentPreview != null
    ensures |painted| == |session.lines| + 1
    ensures forall i :: 0 <= i < |session.lines| ==> painted[i] == old(session.lines[i].View())
    ensures painted[|session.lines|] == PreviewPainted(old(session.currentMousePos.value), tool, value)
  {
    session.HandleMouseLeave();
    session.SetSelectedTool(tool, value);
    var buttons;
    painted, buttons := session.RedrawCanvas();
  }
}
