/**
 * The editor's list of clickable areas (`currentAreas` in static/main.js):
 * an area is a box in logical pixels and an action, kept as the plain object
 * the page builds. The list order is the drawing order, so the last area is
 * on top.
 */
module Areas {
  import opened Wrappers
  import opened Json
  import opened JsValues
  import opened Strings
  import opened Geometry

  datatype Area = Area(bounds: Bounds, action: map<string, Value>)

  /**
   * `getAreaAtPosition`: the topmost area whose scaled box contains the
   * point, edges included, or -1 when there is none.
   */
  function AreaAt(areas: seq<Area>, scale: real, px: real, py: real): (i: int)
    ensures -1 <= i < |areas|
    ensures i >= 0 ==> ContainsPoint(areas[i].bounds, scale, px, py)
    ensures i >= 0 ==> forall j :: i < j < |areas| ==> !ContainsPoint(areas[j].bounds, scale, px, py)
    ensures i == -1 <==> forall j :: 0 <= j < |areas| ==> !ContainsPoint(areas[j].bounds, scale, px, py)
  {
    if areas == [] then -1
    else if ContainsPoint(areas[|areas| - 1].bounds, scale, px, py) then |areas| - 1
    else AreaAt(areas[..|areas| - 1], scale, px, py)
  }

  /** Where two areas overlap, the later one (drawn on top) is hit. */
  lemma TopmostWins(areas: seq<Area>, scale: real, px: real, py: real, lower: nat, upper: nat)
    requires lower < upper < |areas|
    requires ContainsPoint(areas[lower].bounds, scale, px, py)
    requires ContainsPoint(areas[upper].bounds, scale, px, py)
    ensures AreaAt(areas, scale, px, py) >= upper
  {
  }

  /** `currentAreas.splice(index, 1)`; an index past the end removes nothing. */
  function RemoveAt(areas: seq<Area>, index: nat): (r: seq<Area>)
    ensures index < |areas| ==> |r| == |areas| - 1
    ensures index < |areas| ==> forall j :: 0 <= j < index ==> r[j] == areas[j]
    ensures index < |areas| ==> forall j :: index <= j < |r| ==> r[j] == areas[j + 1]
    ensures index >= |areas| ==> r == areas
  {
    if index < |areas| then areas[..index] + areas[index + 1..] else areas
  }

  /** How `removeArea` re-indexes `selectedAreaIndex`. */
  function SelectionAfterRemove(selected: int, index: nat): (r: int)
    ensures selected >= -1 ==> r >= -1 && (r == -1 <==> selected == -1 || selected == index)
    ensures selected != index ==> r == selected || r == selected - 1
    ensures selected != index && r == selected - 1 ==> selected > index
  {
    if selected == index then -1 else if selected > index then selected - 1 else selected
  }

  /**
   * The selection follows the selected area through a removal: it is
   * cleared when that area is removed, and otherwise still designates the
   * same area in the shortened list.
   */
  lemma {:induction false} SelectionFollowsArea(areas: seq<Area>, selected: int, index: nat)
    requires 0 <= selected < |areas| && index < |areas|
    ensures selected == index ==> SelectionAfterRemove(selected, index) == -1
    ensures selected != index ==>
      var s := SelectionAfterRemove(selected, index);
      0 <= s < |RemoveAt(areas, index)| && RemoveAt(areas, index)[s] == areas[selected]
  {
    var r := RemoveAt(areas, index);
    if selected > index {
      assert r[selected - 1] == areas[selected];
    }
  }

  /** The raw inputs of the area form: action type and the text fields, untrimmed. */
  datatype ActionForm = ActionForm(actionType: string, labelInput: string, textInput: string,
                                   uriInput: string, dataInput: string, displayTextInput: string)

  /**
   * The action object `addArea` and `updateArea` build: the type and the
   * trimmed label, plus the one field its type needs, trimmed
   * (`displayText` only when it is not blank).
   */
  function NewAction(f: ActionForm): (a: map<string, Value>)
    ensures "type" in a && a["type"] == Str(f.actionType)
    ensures "label" in a && a["label"] == Str(Trim(f.labelInput))
    ensures f.actionType == "message" ==> a.Keys == {"type", "label", "text"} && a["text"] == Str(Trim(f.textInput))
    ensures f.actionType == "uri" ==> a.Keys == {"type", "label", "uri"} && a["uri"] == Str(Trim(f.uriInput))
    ensures f.actionType == "postback" ==>
      && "data" in a && a["data"] == Str(Trim(f.dataInput))
      && (if Trim(f.displayTextInput) == "" then a.Keys == {"type", "label", "data"}
          else a.Keys == {"type", "label", "data", "displayText"} && a["displayText"] == Str(Trim(f.displayTextInput)))
    ensures f.actionType !in {"message", "uri", "postback"} ==> a.Keys == {"type", "label"}
  {
    var base := map["type" := Str(f.actionType), "label" := Str(Trim(f.labelInput))];
    if f.actionType == "message" then base["text" := Str(Trim(f.textInput))]
    else if f.actionType == "uri" then base["uri" := Str(Trim(f.uriInput))]
    else if f.actionType == "postback" then
      var withData := base["data" := Str(Trim(f.dataInput))];
      if Trim(f.displayTextInput) != "" then withData["displayText" := Str(Trim(f.displayTextInput))] else withData
    else base
  }

  /**
   * The check and construction shared by `addArea` and `updateArea`: the
   * form is refused when its width or height is 0 or its trimmed label is
   * empty (other sizes, negative ones included, are taken as they are).
   */
  function FormArea(b: FormBounds, f: ActionForm): (r: Option<Area>)
    ensures r.None? <==> (b.width == 0 || b.height == 0 || Trim(f.labelInput) == "")
    ensures r.Some? ==> r.value.bounds == BoundsOf(b) && r.value.action == NewAction(f)
    ensures r.Some? ==> IsNonEmptyString(Get(r.value.action, "label"))
  {
    if b.width == 0 || b.height == 0 || Trim(f.labelInput) == "" then None
    else Some(Area(BoundsOf(b), NewAction(f)))
  }

  const DefaultAreaLabel: string := "區域"

  /**
   * The label the area list and the canvas show:
   * `label || text || type || '區域'`, except that a message action with a
   * text shows its text.
   */
  function ShownLabel(action: map<string, Value>): (l: Value)
    ensures Get(action, "type") == Some(Str("message")) && IsTruthy(Get(action, "text")) ==> l == action["text"]
    ensures !(Get(action, "type") == Some(Str("message")) && IsTruthy(Get(action, "text"))) ==>
      l == (if IsTruthy(Get(action, "label")) then action["label"]
            else if IsTruthy(Get(action, "text")) then action["text"]
            else if IsTruthy(Get(action, "type")) then action["type"]
            else Str(DefaultAreaLabel))
    ensures Truthy(l)
  {
    var fallback := Or(Get(action, "label"), Or(Get(action, "text"), Or(Get(action, "type"), Str(DefaultAreaLabel))));
    if Get(action, "type") == Some(Str("message")) && IsTruthy(Get(action, "text")) then action["text"] else fallback
  }

  /** `drawAreaLabel`'s shortening: more than 10 characters become the first 8 and "...". */
  function CanvasLabel(shown: string): (r: string)
    ensures |r| <= 11
    ensures |shown| <= 10 ==> r == shown
    ensures |shown| > 10 ==> r == shown[..8] + "..."
  {
    if |shown| > 10 then shown[..8] + "..." else shown
  }

  /**
   * What the area list shows for an area made from the form: the trimmed
   * text of a message with a text, the trimmed label otherwise.
   */
  lemma FormAreaShownLabel(b: FormBounds, f: ActionForm)
    requires FormArea(b, f).Some?
    ensures ShownLabel(FormArea(b, f).value.action) ==
      (if f.actionType == "message" && Trim(f.textInput) != "" then Str(Trim(f.textInput))
       else Str(Trim(f.labelInput)))
  {
    var a := FormArea(b, f).value.action;
    assert Get(a, "type") == Some(Str(f.actionType));
    assert Get(a, "label") == Some(Str(Trim(f.labelInput)));
    if f.actionType == "message" {
      assert Get(a, "text") == Some(Str(Trim(f.textInput)));
    }
  }

  /**
   * The rectangle drawn in `Geometry.DrawExample`, committed from the form
   * with a label, becomes an area with exactly those bounds.
   */
  lemma {:induction false} DrawnAreaAdded(f: ActionForm)
    requires Trim(f.labelInput) != ""
    ensures FormArea(DrawnForm(100.0, 100.0, 200.0, 150.0, 0.32), f)
         == Some(Area(Bounds(313.0, 313.0, 313.0, 156.0), NewAction(f)))
  {
    DrawExample();
  }
}
