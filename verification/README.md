# Sketch pad: drawables, edit history and gesture state

This project models the logic of a small browser sketch pad, `src/main.ts`. On its canvas the user draws freehand
marker strokes and places emoji stickers. The pad has undo, redo and clear buttons. While no gesture is in
progress, a hover preview of the active tool follows the pointer.

The model has four modules:

- `Wrappers`: the `Option` type, used where the program keeps a nullable value.
- `Drawables`: the three drawable classes, `MarkerLine`, `StickerCommand` and `ToolPreview`.
  - Each keeps the program's fields. Each has the program's in-place `drag` or `updatePosition` method.
  - A drawable's `display` is abstracted as a `Painted` value: the data it would be painted from at that moment.
  - A history entry is a `Command`: a reference to a stroke or to a sticker. Because entries are references, a
    drag of the current stroke changes the history entry it was pushed as. This is the same aliasing the program
    relies on.
- `EditHistory`: the two stacks as a value `History(done, undone)`, with `Undo`, `Redo`, `Commit` and `Clear`.
  - A second, independent description of the same data is a timeline with a cursor (`Seek`).
  - The round-trip and timeline lemmas are proved against `Seek`.
- `Sketch`: the program's module-level variables as one `DrawingSession` object. Each event handler is a method on
  it.
  - Each handler's contract gives the whole new state.
  - The session invariant `Valid` holds before and after every handler:
    - a gesture is in progress exactly when there is a current stroke;
    - no drawable occurs twice in the two stacks;
    - the preview's value matches its tool kind.
  - Each handler that changes the stacks is tied to the matching `History` function. This makes the history
    lemmas statements about the handlers.
  - Dispatching the "drawing-changed" event is counted in `changeEvents`.

Some behaviour is kept exactly as the code has it, even where a reader might expect one redraw per state change, or
no hover preview while the pointer is off the canvas:

- When a gesture is in progress, leaving the canvas dispatches two change events (one from the pointer-up logic it
  calls, one of its own).
- Undo and redo on an empty stack dispatch nothing.
- So do pointer-up while idle and a tool change before the pointer has been seen.
- Leaving the canvas hides the preview but keeps the last pointer position (src/main.ts:315-320). A tool button can
  only be clicked with the pointer outside the canvas, so choosing a tool afterwards rebuilds the preview at that
  stale position and redraws it on top of the drawing (src/main.ts:193-209). `Sketch.ToolChangeAfterLeave` shows
  this.
- The undo and redo buttons are refreshed only when a redraw runs (src/main.ts:216-228), and a redraw runs only on
  a dispatched change (src/main.ts:382). The buttons start enabled (src/main.ts:148-149), and loading dispatches
  nothing, so both stay enabled over empty stacks until the first change; clicking either does nothing then.

Hi-res export, sticker rotation and stroke colour are not part of this program and are not modelled.

## Model

| member | source | states |
|---|---|---|
| Drawables.StickerTool.Text | src/main.ts:3-7 | each sticker's glyph is a single Unicode code point, never empty (in the program it is a JavaScript string of length 2, a surrogate pair) |
| Drawables.GlyphsDistinct | src/main.ts:3-7 | two stickers have the same glyph exactly when they are the same sticker, so the program's comparison of glyph strings compares stickers |
| Drawables.PreviewValue | src/main.ts:278 | the preview value is a width exactly when the marker is active; it is the current thickness for the marker and the current sticker otherwise |
| Drawables.Painted.Extend | src/main.ts:27-29 | after a drag to (x, y) a stroke keeps its width and its earlier points and gains (x, y) as its one new last point; a sticker moves to (x, y) and keeps its text |
| Drawables.MarkerLine.constructor | src/main.ts:22-25 | a new stroke holds exactly its start point and the given width |
| Drawables.MarkerLine.Drag | src/main.ts:27-29 | drag appends (x, y) as the last point and leaves the earlier points and the width unchanged |
| Drawables.StickerCommand.constructor | src/main.ts:59-63 | a new sticker sits at (x, y) with the given text |
| Drawables.StickerCommand.Drag | src/main.ts:65-68 | drag sets the position to (x, y) and leaves the text unchanged |
| Drawables.ToolPreview.constructor | src/main.ts:85-95 | a new preview paints at (x, y) with the given tool kind and value |
| Drawables.ToolPreview.View | src/main.ts:102-119 | what the preview's `display` paints from: a preview at its position, of its tool kind, with its width or glyph; for a consistent preview the value is a width exactly when the tool is the marker |
| Drawables.ToolPreview.UpdatePosition | src/main.ts:97-100 | the preview moves to (x, y) and keeps its tool kind and value |
| Drawables.Command.View | src/main.ts:31-51 | what an entry's `display` paints from: a stroke paints its points and its width, a sticker its text at its anchor (src/main.ts:70-76); the view is a line exactly for a stroke, and a history entry never paints as a preview |
| Drawables.Command.Drag | src/main.ts:271 | dragging a history entry changes what it paints exactly as `Extend` describes, in place |
| EditHistory.History.Undo | src/main.ts:230-239 | on an empty undo stack nothing changes; otherwise the top of the undo stack is removed and pushed onto the redo stack, everything else is kept, and no entry is lost or duplicated |
| EditHistory.History.Redo | src/main.ts:241-250 | the mirror of undo: a no-op on an empty redo stack, otherwise the top of the redo stack moves back onto the undo stack |
| EditHistory.History.Commit | src/main.ts:253-263 | a commit empties the redo stack and appends exactly one entry, the new one, keeping the earlier entries |
| EditHistory.History.Clear | src/main.ts:351-355 | clear leaves both stacks empty |
| EditHistory.Seek | src/main.ts:230-250 | a timeline with a cursor denotes the history whose timeline it is and whose undo stack holds the first `cursor` entries |
| EditHistory.HistoryIsSeek | src/main.ts:230-250 | every history is exactly its timeline with the cursor after the drawn entries |
| EditHistory.UndoSeek | src/main.ts:230-239 | undo moves the cursor one entry back on the same timeline |
| EditHistory.RedoSeek | src/main.ts:241-250 | redo moves the cursor one entry forward on the same timeline |
| EditHistory.UndoKeepsTimeline | src/main.ts:230-239 | undo never changes the timeline; it shortens the undo stack by one unless the stack is empty |
| EditHistory.RedoKeepsTimeline | src/main.ts:241-250 | redo never changes the timeline; it lengthens the undo stack by one unless the redo stack is empty |
| EditHistory.UndoThenRedo | src/main.ts:230-250 | when the undo stack is non-empty, undo followed immediately by redo restores both stacks exactly (on an empty undo stack the undo does nothing and the redo still moves an entry) |
| EditHistory.RedoThenUndo | src/main.ts:230-250 | when the redo stack is non-empty, redo followed immediately by undo restores both stacks exactly |
| EditHistory.UndoTimesSeek | src/main.ts:230-239 | k undos move the cursor k entries back |
| EditHistory.RedoTimesSeek | src/main.ts:241-250 | k redos move the cursor k entries forward |
| EditHistory.UndosThenRedos | src/main.ts:230-250 | any run of k undos, with k at most the undo stack's size, followed by k redos restores both stacks exactly |
| EditHistory.CommitDiscardsRedo | src/main.ts:252-263 | after a commit the timeline is the drawn entries plus the new one, and no number of redos changes anything |
| EditHistory.CommitAfterUndos | src/main.ts:230-263 | drawing after k undos (k at most the undo stack's size) discards the k undone entries for good: the timeline becomes the first entries up to the cursor followed by the new one, with nothing left to redo |
| EditHistory.NoOpIffEmpty | src/main.ts:225-250 | undo changes the history exactly when the undo stack is non-empty, and redo exactly when the redo stack is non-empty |
| EditHistory.NoDuplicatesCounted | src/main.ts:124-125 | a sequence is duplicate-free exactly when every entry occurs once in it |
| EditHistory.NoDuplicatesPermutation | src/main.ts:230-250 | moving entries between the stacks never creates a duplicate |
| Sketch.NewStroke | src/main.ts:257-261 | the new drawable is fresh; it is a stroke holding only (x, y) with the current thickness for the marker, and a sticker at (x, y) with the current sticker's glyph otherwise |
| Sketch.DrawingSession.constructor | src/main.ts:122-130 | at load nothing is drawn, no gesture or preview exists, the pointer position is unknown, the tool is the marker with thickness 2 and the sticker is the poop glyph; the initial tool selection at line 384 dispatches nothing |
| Sketch.DrawingSession.SetSelectedTool | src/main.ts:176-211 | the tool becomes the chosen one and only the matching parameter changes; if the pointer position is known, a fresh preview for the new tool is built there and one change is dispatched, otherwise the preview is kept and nothing is dispatched; the stacks and the gesture are untouched |
| Sketch.DrawingSession.UpdateButtonStates | src/main.ts:225-228 | whenever a redraw runs, the undo button is set disabled exactly when undo would change nothing, i.e. the undo stack is empty; likewise redo (the buttons are not refreshed at any other time) |
| Sketch.DrawingSession.RedrawCanvas | src/main.ts:213-223 | every committed drawable is painted, in history order, then the preview on top exactly when no gesture is in progress and a preview exists; the buttons are disabled exactly when their stacks are empty |
| Sketch.DrawingSession.UndoStroke | src/main.ts:230-239 | the stacks become `Undo` of the old stacks; one change is dispatched exactly when the undo stack was non-empty; the gesture, preview and settings are untouched |
| Sketch.DrawingSession.RedoStroke | src/main.ts:241-250 | the stacks become `Redo` of the old stacks; one change is dispatched exactly when the redo stack was non-empty; the gesture, preview and settings are untouched |
| Sketch.DrawingSession.HandleClear | src/main.ts:351-355 | both stacks become empty and one change is dispatched; nothing else changes |
| Sketch.DrawingSession.HandleStartDrawing | src/main.ts:252-267 | a gesture starts and the preview is hidden; the stacks become `Commit` of a fresh drawable, which is also the current stroke: a one-point stroke with the current thickness or a sticker at (x, y) with the current glyph; every earlier entry paints as before; one change is dispatched |
| Sketch.DrawingSession.BeginGesture | src/main.ts:253-266 | the given drawable is pushed onto the undo stack and becomes the current stroke; the redo stack is emptied, the preview hidden and one change dispatched; every earlier entry and the new one paint as before |
| Sketch.DrawingSession.HandleDrawing | src/main.ts:269-293 | during a gesture the current stroke is extended in place to (x, y), the earlier entries and the preview are unchanged; while idle the preview of the active tool with its value sits at (x, y), the same object when its tool and value still match and a fresh one otherwise; either way the pointer position becomes (x, y), the stacks are unchanged and one change is dispatched |
| Sketch.DrawingSession.RecordPointer | src/main.ts:275 | the pointer position becomes (x, y), and every entry of either stack paints as before |
| Sketch.DrawingSession.DragCurrentStroke | src/main.ts:270-273 | the current stroke is extended to (x, y); every entry of either stack whose drawable is not the current stroke paints as before, and when the current stroke is the newest entry every other entry paints as before; one change is dispatched |
| Sketch.DrawingSession.ShowPreview | src/main.ts:277-292 | the preview paints at (x, y) with the active tool and its value; it is the old preview, moved, when that one's tool and value match, and a fresh one otherwise; one change is dispatched |
| Sketch.DrawingSession.HandleStopDrawing | src/main.ts:295-313 | while idle nothing changes at all; otherwise the gesture ends, the current stroke is dropped, a fresh preview is built at the last pointer position when one is known, and one change is dispatched; the stacks are untouched |
| Sketch.DrawingSession.HandleMouseLeave | src/main.ts:315-320 | afterwards no gesture is in progress and there is no preview; two changes are dispatched if a gesture was ended and one otherwise; the stacks and the pointer position are untouched |
| Sketch.ToolChangeAfterLeave | src/main.ts:193-209 | after leaving the canvas with a known pointer position, choosing a tool and redrawing paints every entry of the unchanged undo stack, in order and as it looked before, and then the new tool's preview at the position recorded before the pointer left |

## Left out

- DOM construction, element lookup and the button CSS-class toggling (src/main.ts:133-174, 189-191) are UI
  plumbing. `SetSelectedTool` therefore takes no button argument.
- Event-listener wiring, touch handling and the conversion from client to canvas coordinates (src/main.ts:322-349,
  357-382) are platform I/O. The handlers are called directly with integer canvas coordinates.
- The bodies of the `display` methods (Canvas 2D calls, floating-point radii, `Math.PI`, alpha, fonts) are replaced
  by the `Painted` value each drawable would be painted from. Clearing the canvas is left out for the same reason.
  This includes `MarkerLine.display`'s early return on a stroke with no points, which cannot happen: a stroke starts
  with one point and only grows.
- `STICKER_SIZE` is used only by the `display` bodies.
- Coordinates and thicknesses are unbounded integers rather than JavaScript numbers (doubles). No arithmetic is done
  on them outside `display`.
- Dispatching "drawing-changed" is counted, not delivered. The listener's effect is `RedrawCanvas`, modelled as an
  operation of its own.
- The truthiness checks on the popped entry (src/main.ts:234, 245) always succeed, because entries are objects. The
  model pushes the popped entry unconditionally.
- Sketch.DrawingSession.SetSelectedTool: requires the value's kind to match the tool (a width for the marker, a glyph
  for a sticker). The source's union-typed parameter would accept a mismatch, but every call site
  (src/main.ts:360-380, 384) pairs them correctly.
- Sketch.DrawingSession.HandleDrawing: its `ensures` states "no other drawable changes" only for the usual case, where
  the current stroke is the newest entry. The general case, that every entry of either stack whose drawable is not the
  current stroke paints as before in any stack order, follows from its `modifies` frame together with `Valid`, and
  `DragCurrentStroke` states it outright.
