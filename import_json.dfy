/**
 * Importing a rich-menu document into the editor (static/main.js):
 * `validateRichMenuJson`, which rejects a structurally unusable document,
 * and the per-area conversion of `populateFormFromJson`, with its label
 * fallbacks.
 */
module ImportJson {
  import opened Wrappers
  import opened Json
  import opened JsValues
  import opened Strings
  import opened Geometry
  import opened Areas

  /** `name` is a non-empty string. */
  predicate NameOk(data: Value)
  {
    IsNonEmptyString(Prop(data, "name"))
  }

  /** `size` is an object (or array) whose `width` and `height` are truthy. */
  predicate SizeOk(data: Value)
  {
    IsObjectLike(Prop(data, "size"))
    && IsTruthy(Prop(Prop(data, "size").value, "width"))
    && IsTruthy(Prop(Prop(data, "size").value, "height"))
  }

  /** `areas` is an array. */
  predicate AreasOk(data: Value)
  {
    Prop(data, "areas").Some? && Prop(data, "areas").value.Arr?
  }

  /** The field each known action type needs; an unknown type needs nothing. */
  predicate ActionFieldsOk(action: Value, actionType: string)
  {
    && (actionType == "message" ==> IsTruthy(Prop(action, "text")) || IsTruthy(Prop(action, "label")))
    && (actionType == "uri" ==> IsTruthy(Prop(action, "uri")))
    && (actionType == "postback" ==> IsTruthy(Prop(action, "data")))
  }

  /** One entry of `areas`: numeric bounds and an action with a non-empty string type. */
  predicate AreaOk(area: Value)
  {
    var bounds := Prop(area, "bounds");
    var action := Prop(area, "action");
    && IsObjectLike(bounds)
    && IsNumberProp(Prop(bounds.value, "x")) && IsNumberProp(Prop(bounds.value, "y"))
    && IsNumberProp(Prop(bounds.value, "width")) && IsNumberProp(Prop(bounds.value, "height"))
    && IsObjectLike(action)
    && IsNonEmptyString(Prop(action.value, "type"))
    && ActionFieldsOk(action.value, Prop(action.value, "type").value.s)
  }

  /** The documents `validateRichMenuJson` accepts. */
  predicate IsValidRichMenuJson(data: Value)
    ensures IsValidRichMenuJson(data) ==>
      data.Obj? && "areas" in data.fields && data.fields["areas"].Arr? && "name" in data.fields
      && data.fields["name"].Str? && data.fields["name"].s != ""
  {
    && NameOk(data) && SizeOk(data) && AreasOk(data)
    && forall i :: 0 <= i < |Prop(data, "areas").value.items| ==> AreaOk(Prop(data, "areas").value.items[i])
  }

  /**
   * `validateRichMenuJson`: the top-level checks in order, then the areas
   * one by one, returning false at the first failure.
   */
  method ValidateRichMenuJson(data: Value) returns (ok: bool)
    ensures ok == IsValidRichMenuJson(data)
  {
    if !NameOk(data) { return false; }
    if !IsObjectLike(Prop(data, "size")) { return false; }
    var size := Prop(data, "size").value;
    if !IsTruthy(Prop(size, "width")) || !IsTruthy(Prop(size, "height")) { return false; }
    if !AreasOk(data) { return false; }
    var areas := Prop(data, "areas").value.items;
    for i := 0 to |areas|
      invariant forall j :: 0 <= j < i ==> AreaOk(areas[j])
    {
      var area := areas[i];
      var bounds := Prop(area, "bounds");
      if !IsObjectLike(bounds) { return false; }
      if !IsNumberProp(Prop(bounds.value, "x")) || !IsNumberProp(Prop(bounds.value, "y")) { return false; }
      if !IsNumberProp(Prop(bounds.value, "width")) || !IsNumberProp(Prop(bounds.value, "height")) { return false; }
      var action := Prop(area, "action");
      if !IsObjectLike(action) { return false; }
      if !IsNonEmptyString(Prop(action.value, "type")) { return false; }
      var actionType := Prop(action.value, "type").value.s;
      if actionType == "message" {
        if !IsTruthy(Prop(action.value, "text")) && !IsTruthy(Prop(action.value, "label")) { return false; }
      } else if actionType == "uri" {
        if !IsTruthy(Prop(action.value, "uri")) { return false; }
      } else if actionType == "postback" {
        if !IsTruthy(Prop(action.value, "data")) { return false; }
      }
    }
    return true;
  }

  /** A document whose one area lacks `bounds.width` is rejected as a whole. */
  lemma MissingBoundsWidthRejected(name: string, size: Value, bounds: map<string, Value>, action: Value)
    requires "width" !in bounds
    ensures !IsValidRichMenuJson(Obj(map["name" := Str(name), "size" := size,
                                         "areas" := Arr([Obj(map["bounds" := Obj(bounds), "action" := action])])]))
  {
    var area := Obj(map["bounds" := Obj(bounds), "action" := action]);
    var doc := Obj(map["name" := Str(name), "size" := size, "areas" := Arr([area])]);
    assert Prop(doc, "areas").value.items[0] == area;
    assert !AreaOk(area);
  }

  /**
   * An action type the page does not know passes, as the `switch` has no
   * default: a document whose one area is a `datetimepicker` is valid.
   */
  lemma UnknownActionTypeAccepted(name: string)
    requires name != ""
    ensures IsValidRichMenuJson(Obj(map[
              "name" := Str(name),
              "size" := Obj(map["width" := Int(2500), "height" := Int(1686)]),
              "areas" := Arr([Obj(map[
                "bounds" := Obj(map["x" := Int(0), "y" := Int(0), "width" := Int(100), "height" := Float(50.5)]),
                "action" := Obj(map["type" := Str("datetimepicker")])])])]))
  {
    var area := Obj(map[
      "bounds" := Obj(map["x" := Int(0), "y" := Int(0), "width" := Int(100), "height" := Float(50.5)]),
      "action" := Obj(map["type" := Str("datetimepicker")])]);
    var doc := Obj(map[
      "name" := Str(name),
      "size" := Obj(map["width" := Int(2500), "height" := Int(1686)]),
      "areas" := Arr([area])]);
    assert Prop(doc, "areas").value.items == [area];
    assert AreaOk(area);
  }

  /** Fields the validator does not look at never matter: adding one at the top level keeps a valid document valid. */
  lemma ExtraTopLevelFieldAccepted(fields: map<string, Value>, k: string, v: Value)
    requires k !in {"name", "size", "areas"}
    requires IsValidRichMenuJson(Obj(fields))
    ensures IsValidRichMenuJson(Obj(fields[k := v]))
  {
    assert Prop(Obj(fields[k := v]), "areas") == Prop(Obj(fields), "areas");
  }

  /** Zero, the empty string, false and null all count as a missing size. */
  lemma ZeroSizeRejected(data: Value)
    requires IsObjectLike(Prop(data, "size"))
    requires Prop(Prop(data, "size").value, "width") == Some(Int(0))
          || Prop(Prop(data, "size").value, "width") == Some(Float(0.0))
    ensures !IsValidRichMenuJson(data)
  {
  }

  const ImportAreaWord: string := "區域"
  const ImportActionWord: string := "動作"

  /** `s.substring(0, 10) + (s.length > 10 ? '...' : '')`. */
  function ShortLabel(s: string): (r: string)
    ensures |s| <= 10 ==> r == s
    ensures |s| > 10 ==> |r| == 13 && HasPrefix(s, r[..10]) && r[10..] == "..."
  {
    Prefix(s, 10) + (if |s| > 10 then "..." else "")
  }

  /**
   * One entry of `data.areas` as `populateFormFromJson` converts it, the
   * entry at position `index`. None is the `TypeError` the conversion
   * raises when it must shorten a `uri` or `data` that is not a string.
   */
  function ImportArea(area: Value, index: nat): (r: Option<Area>)
    requires AreaOk(area)
    ensures r.Some? ==> "type" in r.value.action && "label" in r.value.action
    ensures r.Some? ==> r.value.action["type"] == Prop(area, "action").value.fields["type"]
    ensures r.Some? && Prop(Prop(area, "action").value, "type") == Some(Str("message")) ==>
      "text" in r.value.action
  {
    var b := Prop(area, "bounds").value;
    var bounds := Bounds(NumberValue(Prop(b, "x").value), NumberValue(Prop(b, "y").value),
                         NumberValue(Prop(b, "width").value), NumberValue(Prop(b, "height").value));
    var a := Prop(area, "action").value;
    var actionType := Prop(a, "type").value.s;
    var number := NatToString(index + 1);
    var labelProp, textProp := Prop(a, "label"), Prop(a, "text");
    var base := map["type" := Str(actionType),
                    "label" := Or(labelProp, Or(textProp, Str(ImportAreaWord + " " + number)))];
    if actionType == "message" then
      Some(Area(bounds, base["text" := Or(textProp, Or(labelProp, Str(ImportActionWord + " " + number)))]))
    else if actionType == "uri" then
      var uriProp := Prop(a, "uri");
      var withUri := base["uri" := Or(uriProp, Str(""))];
      if !IsTruthy(labelProp) && IsTruthy(uriProp) then
        if uriProp.value.Str? then Some(Area(bounds, withUri["label" := Str(ShortLabel(uriProp.value.s))]))
        else None
      else Some(Area(bounds, withUri))
    else if actionType == "postback" then
      var dataProp, shownProp := Prop(a, "data"), Prop(a, "displayText");
      var withData := base["data" := Or(dataProp, Str(""))];
      var withShown := if IsTruthy(shownProp) then withData["displayText" := shownProp.value] else withData;
      if !IsTruthy(labelProp) && IsTruthy(dataProp) then
        if dataProp.value.Str? then Some(Area(bounds, withShown["label" := Str(ShortLabel(dataProp.value.s))]))
        else None
      else Some(Area(bounds, withShown))
    else Some(Area(bounds, base))
  }

  /**
   * The label fallback rules of the import: a truthy label is kept; a uri
   * or postback action without one is labelled with its shortened uri or
   * data; otherwise the text, and failing that "區域 <n>" for the n-th area.
   * A message action's text falls back to its label, then to "動作 <n>".
   * The type is copied, the bounds are the document's numbers, and the
   * result has a truthy label (and a message a truthy text) in every case.
   */
  lemma {:induction false} ImportedLabels(area: Value, index: nat)
    requires AreaOk(area)
    ensures var a := Prop(area, "action").value;
      var t := Prop(a, "type").value.s;
      var lp, tp := Prop(a, "label"), Prop(a, "text");
      var r := ImportArea(area, index);
      && (r.None? <==> !IsTruthy(lp) && ((t == "uri" && !Prop(a, "uri").value.Str?)
                                           || (t == "postback" && !Prop(a, "data").value.Str?)))
      && (r.Some? ==>
          && r.value.action["type"] == Str(t)
          && r.value.bounds.x == NumberValue(Prop(Prop(area, "bounds").value, "x").value)
          && r.value.bounds.y == NumberValue(Prop(Prop(area, "bounds").value, "y").value)
          && r.value.bounds.width == NumberValue(Prop(Prop(area, "bounds").value, "width").value)
          && r.value.bounds.height == NumberValue(Prop(Prop(area, "bounds").value, "height").value)
          && Truthy(r.value.action["label"])
          && (IsTruthy(lp) ==> r.value.action["label"] == lp.value)
          && (!IsTruthy(lp) && t == "uri" ==> r.value.action["label"] == Str(ShortLabel(Prop(a, "uri").value.s)))
          && (!IsTruthy(lp) && t == "postback" ==> r.value.action["label"] == Str(ShortLabel(Prop(a, "data").value.s)))
          && (!IsTruthy(lp) && t != "uri" && t != "postback" ==>
                r.value.action["label"] == Or(tp, Str(ImportAreaWord + " " + NatToString(index + 1))))
          && (t == "message" ==>
                Truthy(r.value.action["text"]) && r.value.action["text"] == Or(tp, Or(lp, Str(ImportActionWord + " " + NatToString(index + 1)))))
          && (t == "uri" ==> r.value.action["uri"] == Or(Prop(a, "uri"), Str("")))
          && (t == "postback" ==>
                && r.value.action["data"] == Or(Prop(a, "data"), Str(""))
                && ("displayText" in r.value.action <==> IsTruthy(Prop(a, "displayText"))))
          && (t != "message" && t != "uri" && t != "postback" ==> r.value.action.Keys == {"type", "label"}))
  {
    var a := Prop(area, "action").value;
    var t := Prop(a, "type").value.s;
    if t == "uri" && Prop(a, "uri").value.Str? {
      assert Prop(a, "uri").value.s != "";
      assert |ShortLabel(Prop(a, "uri").value.s)| > 0;
    }
    if t == "postback" && Prop(a, "data").value.Str? {
      assert Prop(a, "data").value.s != "";
      assert |ShortLabel(Prop(a, "data").value.s)| > 0;
    }
  }
}
