/**
 * The area editor of static/main.js: the editing fields of
 * `RichMenuManager` and the handlers that change them (mouse down, move
 * and up on the canvas, the Delete/Backspace, Escape and Enter keys, adding,
 * updating and removing areas, and importing a document).
 * Mouse positions are canvas pixels, already converted from the page.
 */
module AreaEditor {
  import opened Wrappers
  import opened Json
  import opened JsValues
  import opened Geometry
  import opened Strings
  import opened Areas
  import opened ImportJson

  /** `dragMode`: 'none', 'move' or 'resize'. */
  datatype DragMode = NoDrag | Move | Resize

  /** The keys `handleKeyDown` reacts to; any other key is `OtherKey`. */
  datatype Key = Delete | Backspace | Escape | Enter | OtherKey

  /**
   * What the Add button's `onclick` slot holds. Its permanent click
   * listener, registered at start-up, is separate and always runs `addArea`.
   */
  datatype ButtonSlot = NoSlot | AddSlot | UpdateSlot(index: nat)

  /** What one mouse move does to the selected area's bounds, by drag mode. */
  function DraggedBounds(b: Bounds, mode: DragMode, handle: Option<Handle>, dx: real, dy: real,
                         imageWidth: real, imageHeight: real): Bounds
  {
    match mode
    case NoDrag => b
    case Move => Moved(b, dx, dy, imageWidth, imageHeight)
    case Resize => Resized(b, handle, dx, dy, imageWidth, imageHeight)
  }

  class Editor {
    var areas: seq<Area>               // currentAreas
    var selectedAreaIndex: int         // -1 when nothing is selected
    var dragMode: DragMode
    var resizeHandle: Option<Handle>   // None is ''
    var dragStartX: real
    var dragStartY: real
    var isDrawing: bool
    var isEditingMode: bool
    var canvasScale: real
    var originalImageWidth: real
    var originalImageHeight: real
    var startX: real                   // where the current drawing started
    var startY: real
    var form: FormBounds               // the bounds inputs of the area form
    var button: ButtonSlot             // the Add button's onclick slot

    ghost predicate Valid()
      reads this
    {
      canvasScale > 0.0 && selectedAreaIndex >= -1
    }

    /** The selection designates an area or nothing. */
    ghost predicate SelectionInRange()
      reads this
    {
      selectedAreaIndex < |areas|
    }

    constructor ()
      ensures Valid() && SelectionInRange()
      ensures areas == [] && selectedAreaIndex == -1
      ensures dragMode == NoDrag && resizeHandle == None && !isDrawing && !isEditingMode
      ensures canvasScale == 1.0 && originalImageWidth == 0.0 && originalImageHeight == 0.0
      ensures dragStartX == 0.0 && dragStartY == 0.0 && startX == 0.0 && startY == 0.0
      ensures form == ClearedForm && button == NoSlot
    {
      areas := [];
      selectedAreaIndex := -1;
      dragMode := NoDrag;
      resizeHandle := None;
      dragStartX, dragStartY := 0.0, 0.0;
      isDrawing := false;
      isEditingMode := false;
      canvasScale := 1.0;
      originalImageWidth, originalImageHeight := 0.0, 0.0;
      startX, startY := 0.0, 0.0;
      form := ClearedForm;
      button := NoSlot;
    }

    /** The state `loadImage`'s onload handler sets for an image of the given size. */
    method LoadImage(width: real, height: real)
      requires Valid() && width > 0.0 && height > 0.0
      modifies this`canvasScale, this`originalImageWidth, this`originalImageHeight
      ensures Valid()
      ensures originalImageWidth == width && originalImageHeight == height
      ensures canvasScale == ImageScale(width, height)
    {
      originalImageWidth := width;
      originalImageHeight := height;
      canvasScale := ImageScale(width, height);
    }

    /** `getAreaAtPosition`: scans from the last (topmost) area down. */
    method GetAreaAtPosition(px: real, py: real) returns (i: int)
      ensures i == AreaAt(areas, canvasScale, px, py)
    {
      i := |areas| - 1;
      while i >= 0
        invariant -1 <= i < |areas|
        invariant forall j :: i < j < |areas| ==> !ContainsPoint(areas[j].bounds, canvasScale, px, py)
      {
        if ContainsPoint(areas[i].bounds, canvasScale, px, py) {
          return;
        }
        i := i - 1;
      }
    }

    /** `getResizeHandle`: tries the handles in order and returns the first within reach. */
    method GetResizeHandle(px: real, py: real, areaIndex: int) returns (h: Option<Handle>)
      requires 0 <= areaIndex < |areas|
      ensures h == HandleAt(areas[areaIndex].bounds, canvasScale, px, py)
    {
      var b := areas[areaIndex].bounds;
      for k := 0 to |HandleOrder|
        invariant forall j :: 0 <= j < k ==> !NearHandle(HandleOrder[j], b, canvasScale, px, py)
      {
        if NearHandle(HandleOrder[k], b, canvasScale, px, py) {
          assert HandleRank(HandleOrder[k]) == k by {
            assert k in {0, 1, 2, 3, 4, 5, 6, 7};
          }
          return Some(HandleOrder[k]);
        }
      }
      assert forall g: Handle :: !NearHandle(g, b, canvasScale, px, py) by {
        forall g: Handle ensures !NearHandle(g, b, canvasScale, px, py) {
          assert HandleOrder[HandleRank(g)] == g;
        }
      }
      return None;
    }

    /** `selectArea`: the form shows the area's rounded bounds (nothing when the index is out of range). */
    method SelectArea(index: int)
      requires Valid() && index >= -1
      modifies this`selectedAreaIndex, this`form
      ensures Valid()
      ensures selectedAreaIndex == index
      ensures 0 <= index < |areas| ==> form == FormOf(areas[index].bounds)
      ensures !(0 <= index < |areas|) ==> form == old(form)
    {
      selectedAreaIndex := index;
      if 0 <= index < |areas| {
        form := FormOf(areas[index].bounds);
      }
    }

    /** `deselectArea`: nothing selected and the form cleared. */
    method DeselectArea()
      requires Valid()
      modifies this`selectedAreaIndex, this`form
      ensures Valid()
      ensures selectedAreaIndex == -1 && form == ClearedForm
    {
      selectedAreaIndex := -1;
      form := ClearedForm;
    }

    /** `startDrawing`. */
    method StartDrawing(px: real, py: real)
      requires Valid()
      modifies this`isDrawing, this`startX, this`startY, this`form
      ensures Valid()
      ensures isDrawing && startX == px && startY == py
      ensures form == StartForm(px, py, canvasScale)
    {
      isDrawing := true;
      startX, startY := px, py;
      form := StartForm(px, py, canvasScale);
    }

    /**
     * `handleCanvasMouseDown`: on an area, select it and start resizing when
     * a handle of it is under the mouse, moving otherwise; elsewhere, drop
     * the selection and start drawing a new rectangle.
     */
    method MouseDown(px: real, py: real)
      requires Valid()
      modifies this`selectedAreaIndex, this`form, this`dragMode, this`resizeHandle,
               this`dragStartX, this`dragStartY, this`isEditingMode, this`isDrawing,
               this`startX, this`startY
      ensures Valid() && SelectionInRange()
      ensures var hit := AreaAt(areas, canvasScale, px, py);
        hit != -1 ==>
          && selectedAreaIndex == hit && form == FormOf(areas[hit].bounds)
          && isEditingMode && dragStartX == px && dragStartY == py
          && isDrawing == old(isDrawing) && startX == old(startX) && startY == old(startY)
          && var h := HandleAt(areas[hit].bounds, canvasScale, px, py);
             (h.Some? ==> dragMode == Resize && resizeHandle == h)
             && (h.None? ==> dragMode == Move && resizeHandle == old(resizeHandle))
      ensures AreaAt(areas, canvasScale, px, py) == -1 ==>
          && selectedAreaIndex == -1 && isDrawing && startX == px && startY == py
          && form == StartForm(px, py, canvasScale)
          && dragMode == old(dragMode) && resizeHandle == old(resizeHandle)
          && isEditingMode == old(isEditingMode) && dragStartX == old(dragStartX) && dragStartY == old(dragStartY)
    {
      var clicked := GetAreaAtPosition(px, py);
      if clicked != -1 {
        SelectArea(clicked);
        var handle := GetResizeHandle(px, py, clicked);
        if handle.Some? {
          dragMode := Resize;
          resizeHandle := handle;
        } else {
          dragMode := Move;
        }
        dragStartX, dragStartY := px, py;
        isEditingMode := true;
      } else {
        if selectedAreaIndex != -1 {
          DeselectArea();
        }
        StartDrawing(px, py);
      }
    }

    /**
     * `updateSelectedArea`: applies the mouse delta, in logical pixels, to
     * the selected area by the drag mode and makes the mouse the new drag
     * start. A selection past the end of the list makes the source throw
     * before anything is changed.
     */
    method UpdateSelectedArea(px: real, py: real)
      requires Valid()
      modifies this`areas, this`form, this`dragStartX, this`dragStartY
      ensures Valid() && |areas| == |old(areas)|
      ensures 0 <= selectedAreaIndex < |old(areas)| ==>
        var s := selectedAreaIndex;
        var nb := DraggedBounds(old(areas)[s].bounds, dragMode, resizeHandle,
                                (px - old(dragStartX)) / canvasScale, (py - old(dragStartY)) / canvasScale,
                                originalImageWidth, originalImageHeight);
        && areas == old(areas)[s := old(areas)[s].(bounds := nb)]
        && form == FormOf(nb) && dragStartX == px && dragStartY == py
      ensures !(0 <= selectedAreaIndex < |old(areas)|) ==>
        areas == old(areas) && form == old(form) && dragStartX == old(dragStartX) && dragStartY == old(dragStartY)
    {
      if selectedAreaIndex == -1 {
        return;
      }
      var dx := (px - dragStartX) / canvasScale;
      var dy := (py - dragStartY) / canvasScale;
      if selectedAreaIndex >= |areas| {
        return;
      }
      var area := areas[selectedAreaIndex];
      var bounds := DraggedBounds(area.bounds, dragMode, resizeHandle, dx, dy,
                                  originalImageWidth, originalImageHeight);
      areas := areas[selectedAreaIndex := area.(bounds := bounds)];
      form := FormOf(bounds);
      dragStartX, dragStartY := px, py;
    }

    /** `draw`: while drawing, the form follows the rectangle from the start point to the mouse. */
    method Draw(px: real, py: real)
      requires Valid()
      modifies this`form
      ensures Valid()
      ensures isDrawing ==> form == DrawnForm(startX, startY, px, py, canvasScale)
      ensures !isDrawing ==> form == old(form)
    {
      if !isDrawing {
        return;
      }
      form := DrawnForm(startX, startY, px, py, canvasScale);
    }

    /**
     * `handleCanvasMouseMove`: drags the selected area while editing, else
     * extends the rectangle being drawn, else only changes the cursor.
     * A move keeps the area's size and its origin at 0 or more; a resize
     * leaves it at least 10 by 10, with its origin at 0 or more.
     */
    method MouseMove(px: real, py: real)
      requires Valid()
      modifies this`areas, this`form, this`dragStartX, this`dragStartY
      ensures Valid() && |areas| == |old(areas)|
      ensures old(SelectionInRange()) ==> SelectionInRange()
      ensures isEditingMode && selectedAreaIndex != -1 && selectedAreaIndex < |old(areas)| ==>
        var s := selectedAreaIndex;
        var nb := DraggedBounds(old(areas)[s].bounds, dragMode, resizeHandle,
                                (px - old(dragStartX)) / canvasScale, (py - old(dragStartY)) / canvasScale,
                                originalImageWidth, originalImageHeight);
        && areas == old(areas)[s := old(areas)[s].(bounds := nb)]
        && form == FormOf(nb) && dragStartX == px && dragStartY == py
        && (dragMode == Move ==>
              areas[s].bounds.width == old(areas)[s].bounds.width
              && areas[s].bounds.height == old(areas)[s].bounds.height
              && areas[s].bounds.x >= 0.0 && areas[s].bounds.y >= 0.0)
        && (dragMode == Resize ==>
              areas[s].bounds.x >= 0.0 && areas[s].bounds.y >= 0.0
              && areas[s].bounds.width >= MinResizeSize && areas[s].bounds.height >= MinResizeSize)
      ensures isEditingMode && selectedAreaIndex >= |old(areas)| ==>
        areas == old(areas) && form == old(form) && dragStartX == old(dragStartX) && dragStartY == old(dragStartY)
      ensures !(isEditingMode && selectedAreaIndex != -1) && isDrawing ==>
        areas == old(areas) && form == DrawnForm(startX, startY, px, py, canvasScale)
        && dragStartX == old(dragStartX) && dragStartY == old(dragStartY)
      ensures !(isEditingMode && selectedAreaIndex != -1) && !isDrawing ==>
        areas == old(areas) && form == old(form) && dragStartX == old(dragStartX) && dragStartY == old(dragStartY)
    {
      if isEditingMode && selectedAreaIndex != -1 {
        UpdateSelectedArea(px, py);
      } else if isDrawing {
        Draw(px, py);
      }
    }

    /** `stopDrawing`. */
    method StopDrawing()
      requires Valid()
      modifies this`isDrawing
      ensures Valid() && !isDrawing
    {
      if isDrawing {
        isDrawing := false;
      }
    }

    /** `handleCanvasMouseUp`: ends a drag, or else ends the drawing. */
    method MouseUp()
      requires Valid()
      modifies this`isEditingMode, this`dragMode, this`resizeHandle, this`isDrawing
      ensures Valid()
      ensures old(isEditingMode) ==>
        !isEditingMode && dragMode == NoDrag && resizeHandle == None && isDrawing == old(isDrawing)
      ensures !old(isEditingMode) ==>
        !isDrawing && !isEditingMode && dragMode == old(dragMode) && resizeHandle == old(resizeHandle)
    {
      if isEditingMode {
        isEditingMode := false;
        dragMode := NoDrag;
        resizeHandle := None;
      } else {
        StopDrawing();
      }
    }

    /**
     * `addArea`: appends the area the form describes, or refuses it and
     * changes nothing; the selection is not touched.
     */
    method AddArea(b: FormBounds, f: ActionForm) returns (added: bool)
      requires Valid()
      modifies this`areas, this`form
      ensures Valid()
      ensures added == FormArea(b, f).Some?
      ensures added ==> areas == old(areas) + [FormArea(b, f).value] && form == ClearedForm
      ensures !added ==> areas == old(areas) && form == old(form)
      ensures old(SelectionInRange()) ==> SelectionInRange()
    {
      var area := FormArea(b, f);
      if area.None? {
        return false;
      }
      areas := areas + [area.value];
      form := ClearedForm;
      return true;
    }

    /**
     * `cancelEditArea`: leaves editing mode with nothing selected and the
     * form cleared, and puts `addArea` in the button's `onclick` slot.
     */
    method CancelEditArea()
      requires Valid()
      modifies this`isEditingMode, this`selectedAreaIndex, this`form, this`button
      ensures Valid()
      ensures !isEditingMode && selectedAreaIndex == -1 && form == ClearedForm && button == AddSlot
    {
      isEditingMode := false;
      button := AddSlot;
      DeselectArea();
    }

    /**
     * `updateArea`: replaces the area at `index` with the one the form
     * describes and leaves editing mode, or refuses the form and changes
     * nothing. The index is the one `editArea` bound to the button, so it
     * can be the list's length after that area was removed; assigning there
     * appends.
     */
    method UpdateArea(index: nat, b: FormBounds, f: ActionForm) returns (updated: bool)
      requires Valid() && (FormArea(b, f).Some? ==> index <= |areas|)
      modifies this`areas, this`form, this`isEditingMode, this`selectedAreaIndex, this`button
      ensures Valid()
      ensures updated == FormArea(b, f).Some?
      ensures updated && index < |old(areas)| ==> areas == old(areas)[index := FormArea(b, f).value]
      ensures updated && index == |old(areas)| ==> areas == old(areas) + [FormArea(b, f).value]
      ensures updated ==>
        !isEditingMode && selectedAreaIndex == -1 && form == ClearedForm && button == AddSlot
      ensures !updated ==>
        areas == old(areas) && form == old(form) && isEditingMode == old(isEditingMode)
        && selectedAreaIndex == old(selectedAreaIndex) && button == old(button)
    {
      var area := FormArea(b, f);
      if area.None? {
        return false;
      }
      if index < |areas| {
        areas := areas[index := area.value];
      } else {
        areas := areas + [area.value];
      }
      CancelEditArea();
      return true;
    }

    /** `removeArea`: splices the area out and re-indexes the selection. */
    method RemoveArea(index: nat)
      requires Valid()
      modifies this`areas, this`selectedAreaIndex
      ensures Valid()
      ensures areas == RemoveAt(old(areas), index)
      ensures selectedAreaIndex == SelectionAfterRemove(old(selectedAreaIndex), index)
      ensures old(SelectionInRange()) ==> SelectionInRange()
    {
      areas := RemoveAt(areas, index);
      if selectedAreaIndex == index {
        selectedAreaIndex := -1;
      } else if selectedAreaIndex > index {
        selectedAreaIndex := selectedAreaIndex - 1;
      }
    }

    /**
     * `editArea`: select the area, enter editing mode and put the update of
     * this index in the button's `onclick` slot. Its callers pass a list
     * position or a selection of 0 or more.
     */
    method EditArea(index: nat)
      requires Valid()
      modifies this`selectedAreaIndex, this`form, this`isEditingMode, this`button
      ensures Valid()
      ensures isEditingMode && selectedAreaIndex == index && button == UpdateSlot(index)
      ensures 0 <= index < |areas| ==> form == FormOf(areas[index].bounds)
      ensures !(0 <= index < |areas|) ==> form == old(form)
    {
      SelectArea(index);
      isEditingMode := true;
      button := UpdateSlot(index);
    }

    /**
     * A press of the Add button as static/main.js wires it: the click
     * listener registered at start-up runs `addArea` first, then the
     * `onclick` slot runs whatever `editArea` or `cancelEditArea` put there.
     * The second handler always reads the form the first one left; when
     * the first added an area, that form is cleared and the second refuses
     * it (and shows the error alert), so an update never happens.
     */
    method PressAddButton(f: ActionForm) returns (added: bool, updated: bool)
      requires Valid()
      modifies this`areas, this`form, this`isEditingMode, this`selectedAreaIndex, this`button
      ensures Valid()
      ensures added == FormArea(old(form), f).Some? && !updated
      ensures added ==> areas == old(areas) + [FormArea(old(form), f).value] && form == ClearedForm
      ensures !added ==> areas == old(areas) && form == old(form)
      ensures isEditingMode == old(isEditingMode) && selectedAreaIndex == old(selectedAreaIndex)
      ensures button == old(button)
    {
      added := AddArea(form, f);
      updated := false;
      match button
      case NoSlot =>
      case AddSlot =>
        var again := AddArea(form, f);
      case UpdateSlot(i) =>
        updated := UpdateArea(i, form, f);
    }

    /**
     * The press the button's label promises: in editing mode only the
     * update of the bound index runs, otherwise only `addArea`.
     */
    method PressButtonIntended(f: ActionForm) returns (changed: bool)
      requires Valid()
      requires button.UpdateSlot? && FormArea(form, f).Some? ==> button.index <= |areas|
      modifies this`areas, this`form, this`isEditingMode, this`selectedAreaIndex, this`button
      ensures Valid()
      ensures changed == FormArea(old(form), f).Some?
      ensures old(button).UpdateSlot? && changed && old(button).index < |old(areas)| ==>
        areas == old(areas)[old(button).index := FormArea(old(form), f).value]
      ensures old(button).UpdateSlot? && changed && old(button).index == |old(areas)| ==>
        areas == old(areas) + [FormArea(old(form), f).value]
      ensures old(button).UpdateSlot? && changed ==>
        !isEditingMode && selectedAreaIndex == -1 && form == ClearedForm && button == AddSlot
      ensures !old(button).UpdateSlot? && changed ==>
        areas == old(areas) + [FormArea(old(form), f).value] && form == ClearedForm
      ensures !old(button).UpdateSlot? || !changed ==>
        isEditingMode == old(isEditingMode) && selectedAreaIndex == old(selectedAreaIndex) && button == old(button)
      ensures !changed ==> areas == old(areas) && form == old(form)
    {
      match button
      case UpdateSlot(i) =>
        changed := UpdateArea(i, form, f);
      case _ =>
        changed := AddArea(form, f);
    }

    /**
     * `handleKeyDown`, for a key pressed while the editor is shown and the
     * focus is not in a form field: Delete and Backspace remove the
     * selected area, Escape leaves editing mode or drops the selection, and
     * Enter starts editing the selected area.
     */
    method KeyDown(key: Key, editorHidden: bool, inFormField: bool)
      requires Valid()
      modifies this`areas, this`selectedAreaIndex, this`isEditingMode, this`form, this`button
      ensures Valid()
      ensures old(SelectionInRange()) ==> SelectionInRange()
      ensures !editorHidden && !inFormField && key == Escape && old(isEditingMode) ==> button == AddSlot
      ensures !editorHidden && !inFormField && key == Enter && old(selectedAreaIndex) >= 0 && !old(isEditingMode) ==>
        button == UpdateSlot(old(selectedAreaIndex))
      ensures editorHidden || inFormField || key == OtherKey || key == Delete || key == Backspace
              || (key == Escape && !old(isEditingMode))
              || (key == Enter && !(old(selectedAreaIndex) >= 0 && !old(isEditingMode))) ==>
        button == old(button)
      ensures editorHidden || inFormField || key == OtherKey ==>
        areas == old(areas) && selectedAreaIndex == old(selectedAreaIndex)
        && isEditingMode == old(isEditingMode) && form == old(form)
      ensures !editorHidden && !inFormField && (key == Delete || key == Backspace) ==>
        isEditingMode == old(isEditingMode) && form == old(form)
        && (old(selectedAreaIndex) >= 0 ==>
              areas == RemoveAt(old(areas), old(selectedAreaIndex)) && selectedAreaIndex == -1)
        && (old(selectedAreaIndex) < 0 ==> areas == old(areas) && selectedAreaIndex == old(selectedAreaIndex))
      ensures !editorHidden && !inFormField && key == Escape ==>
        areas == old(areas) && selectedAreaIndex == -1 && !isEditingMode && form == ClearedForm
      ensures !editorHidden && !inFormField && key == Enter ==>
        areas == old(areas) && selectedAreaIndex == old(selectedAreaIndex)
        && (old(selectedAreaIndex) >= 0 && !old(isEditingMode) ==>
              isEditingMode
              && (selectedAreaIndex < |areas| ==> form == FormOf(areas[selectedAreaIndex].bounds)))
        && (!(old(selectedAreaIndex) >= 0 && !old(isEditingMode)) ==>
              isEditingMode == old(isEditingMode) && form == old(form))
    {
      if editorHidden || inFormField {
        return;
      }
      match key
      case Delete =>
        if selectedAreaIndex >= 0 {
          RemoveArea(selectedAreaIndex);
        }
      case Backspace =>
        if selectedAreaIndex >= 0 {
          RemoveArea(selectedAreaIndex);
        }
      case Escape =>
        if isEditingMode {
          CancelEditArea();
        } else {
          DeselectArea();
        }
      case Enter =>
        if selectedAreaIndex >= 0 && !isEditingMode {
          EditArea(selectedAreaIndex);
        }
      case OtherKey =>
    }

    /**
     * The area list `populateFormFromJson` builds from a validated
     * document: the entries converted one by one in order. When an entry
     * cannot be converted the source throws and the areas converted so far
     * stay. The selection is left as it was.
     */
    method PopulateFromJson(data: Value) returns (complete: bool)
      requires Valid() && IsValidRichMenuJson(data)
      modifies this`areas
      ensures Valid()
      ensures var items := Prop(data, "areas").value.items;
        && |areas| <= |items|
        && (forall j :: 0 <= j < |areas| ==> ImportArea(items[j], j) == Some(areas[j]))
        && (complete <==> |areas| == |items|)
        && (!complete ==> ImportArea(items[|areas|], |areas|).None?)
    {
      var items := Prop(data, "areas").value.items;
      areas := [];
      for i := 0 to |items|
        invariant |areas| == i
        invariant forall j :: 0 <= j < i ==> ImportArea(items[j], j) == Some(areas[j])
      {
        var area := ImportArea(items[i], i);
        if area.None? {
          return false;
        }
        areas := areas + [area.value];
      }
      return true;
    }
  }

  /**
   * One area drawn and added, then opened with `editArea(0)` and the Update
   * button pressed with the form unchanged: as wired, the area is copied
   * and the update refused.
   */
  method EditThenPressExample(f: ActionForm) returns (before: seq<Area>, after: seq<Area>, updated: bool)
    requires Trim(f.labelInput) != ""
    ensures |before| == 1 && after == before + before && !updated
  {
    var e := new Editor();
    var b := FormBounds(10, 10, 100, 50);
    FormRoundTrip(b);
    var ok := e.AddArea(b, f);
    before := e.areas;
    e.EditArea(0);
    var added;
    added, updated := e.PressAddButton(f);
    after := e.areas;
  }

  /** The same steps with the intended press: the area is rewritten in place and editing ends. */
  method EditThenPressIntendedExample(f: ActionForm, g: ActionForm) returns (before: seq<Area>, after: seq<Area>, editing: bool)
    requires Trim(f.labelInput) != "" && Trim(g.labelInput) != ""
    ensures |before| == 1 && |after| == 1 && after[0].bounds == before[0].bounds
    ensures after[0].action == NewAction(g) && !editing
  {
    var e := new Editor();
    var b := FormBounds(10, 10, 100, 50);
    FormRoundTrip(b);
    var ok := e.AddArea(b, f);
    before := e.areas;
    e.EditArea(0);
    var changed := e.PressButtonIntended(g);
    after := e.areas;
    editing := e.isEditingMode;
  }

  /**
   * Three areas, the third opened with `editArea(2)`, then the first removed
   * twice from the list: the button still holds the update of index 2 with
   * one area left. A press appends the form's area and the update refuses
   * the cleared form before it uses the index.
   */
  method StaleSlotPressExample(f: ActionForm) returns (added: bool, updated: bool, count: nat)
    requires Trim(f.labelInput) != ""
    ensures added && !updated && count == 2
  {
    var e := new Editor();
    var b := FormBounds(10, 10, 100, 50);
    var v := FormArea(b, f);
    assert v.Some?;
    var ok := e.AddArea(b, f);
    ok := e.AddArea(b, f);
    ok := e.AddArea(b, f);
    assert e.areas == [v.value, v.value, v.value];
    FormRoundTrip(b);
    e.EditArea(2);
    assert e.form == b;
    e.RemoveArea(0);
    assert |e.areas| == 2;
    e.RemoveArea(0);
    assert |e.areas| == 1;
    added, updated := e.PressAddButton(f);
    count := |e.areas|;
  }
}
