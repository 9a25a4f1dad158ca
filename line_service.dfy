/**
 * The request-side logic of internal/services/line_service.go:
 * `NormalizeRichMenuNumbers`, which rounds the six numeric fields of a rich
 * menu that the platform expects as integers, the empty-body guard of
 * `ParseRichMenuRequest`, and this file's copy of `ValidateImageFile`.
 */
module LineService {
  import opened Wrappers
  import opened Json
  import opened Strings
  import Validation

  /**
   * Go's `math.Round`: the nearest integer, halves rounded away from zero.
   */
  function RoundHalfAwayFromZero(r: real): (n: int)
    ensures -0.5 <= r - n as real <= 0.5
    ensures r - n as real == 0.5 ==> r < 0.0
    ensures r - n as real == -0.5 ==> r > 0.0
  {
    if r >= 0.0 then (r + 0.5).Floor else -((-r + 0.5).Floor)
  }

  /** No integer is closer to `r` than its rounding. */
  lemma RoundIsNearest(r: real, m: int)
    ensures var n := RoundHalfAwayFromZero(r);
      (if r >= n as real then r - n as real else n as real - r)
      <= (if r >= m as real then r - m as real else m as real - r)
  {
    var n := RoundHalfAwayFromZero(r);
    if m < n {
      assert r - m as real == (r - n as real) + (n - m) as real;
    } else if m > n {
      assert m as real - r == (m - n) as real - (r - n as real);
    }
  }

  /** Rounding is symmetric about zero, and integers round to themselves. */
  lemma RoundSymmetric(r: real, m: int)
    ensures RoundHalfAwayFromZero(-r) == -RoundHalfAwayFromZero(r)
    ensures RoundHalfAwayFromZero(m as real) == m
  {
  }

  /** The `toInt` closure: floats become their rounded integer, anything else is kept. */
  function ToInt(v: Value): (r: Value)
    ensures !r.Float?
  {
    match v
    case Float(f) => Int(RoundHalfAwayFromZero(f))
    case _ => v
  }

  lemma ToIntCases(v: Value)
    ensures v.Float? ==> ToInt(v) == Int(RoundHalfAwayFromZero(v.f))
    ensures !v.Float? ==> ToInt(v) == v
    ensures ToInt(ToInt(v)) == ToInt(v)
  {
  }

  /** `if x, ok := m[k]; ok { m[k] = toInt(x) }`, on a map value. */
  function NormalizeKey(fields: map<string, Value>, k: string): (r: map<string, Value>)
  {
    if k in fields then fields[k := ToInt(fields[k])] else fields
  }

  function NormalizeSizeFields(size: map<string, Value>): map<string, Value>
  {
    NormalizeKey(NormalizeKey(size, "width"), "height")
  }

  function NormalizeBoundsFields(bounds: map<string, Value>): map<string, Value>
  {
    NormalizeKey(NormalizeKey(NormalizeKey(NormalizeKey(bounds, "x"), "y"), "width"), "height")
  }

  /** One entry of `areas`: only an object holding a `bounds` object is touched. */
  function NormalizeArea(a: Value): Value
  {
    if a.Obj? && "bounds" in a.fields && a.fields["bounds"].Obj? then
      Obj(a.fields["bounds" := Obj(NormalizeBoundsFields(a.fields["bounds"].fields))])
    else a
  }

  /** The document `NormalizeRichMenuNumbers` leaves behind, as a pure function. */
  function Normalized(m: map<string, Value>): (r: map<string, Value>)
    ensures r.Keys == m.Keys
    ensures forall k :: k in m && k != "size" && k != "areas" ==> r[k] == m[k]
    ensures "size" in m && !m["size"].Obj? ==> r["size"] == m["size"]
    ensures "areas" in m && m["areas"].Arr? ==> r["areas"].Arr? && |r["areas"].items| == |m["areas"].items|
  {
    var m1 := if "size" in m && m["size"].Obj? then
                m["size" := Obj(NormalizeSizeFields(m["size"].fields))]
              else m;
    if "areas" in m1 && m1["areas"].Arr? then
      m1["areas" := Arr(seq(|m1["areas"].items|,
                            i requires 0 <= i < |m1["areas"].items| => NormalizeArea(m1["areas"].items[i])))]
    else m1
  }

  /**
   * `after` is `before` with the values at `keys` passed through `toInt`:
   * the same keys, and every other value as it was.
   */
  ghost predicate RoundedAt(before: map<string, Value>, after: map<string, Value>, keys: set<string>)
  {
    after.Keys == before.Keys
    && forall k :: k in before ==> after[k] == if k in keys then ToInt(before[k]) else before[k]
  }

  /** What happens to one entry of `areas`. */
  ghost predicate AreaNormalized(before: Value, after: Value)
  {
    if before.Obj? && "bounds" in before.fields && before.fields["bounds"].Obj? then
      after.Obj? && after.fields.Keys == before.fields.Keys
      && (forall k :: k in before.fields && k != "bounds" ==> after.fields[k] == before.fields[k])
      && after.fields["bounds"].Obj?
      && RoundedAt(before.fields["bounds"].fields, after.fields["bounds"].fields,
                   {"x", "y", "width", "height"})
    else after == before
  }

  lemma {:induction false} NormalizeKeyRounds(fields: map<string, Value>, k: string)
    ensures RoundedAt(fields, NormalizeKey(fields, k), {k})
  {
  }

  lemma {:induction false} RoundedAtCompose(a: map<string, Value>, b: map<string, Value>, c: map<string, Value>,
                                            ka: set<string>, kb: set<string>)
    requires RoundedAt(a, b, ka) && RoundedAt(b, c, kb) && ka !! kb
    ensures RoundedAt(a, c, ka + kb)
  {
    forall k | k in a ensures c[k] == if k in ka + kb then ToInt(a[k]) else a[k] {
      assert c[k] == if k in kb then ToInt(b[k]) else b[k];
    }
  }

  lemma {:induction false} SizeFieldsRounded(size: map<string, Value>)
    ensures RoundedAt(size, NormalizeSizeFields(size), {"width", "height"})
  {
    var s1 := NormalizeKey(size, "width");
    NormalizeKeyRounds(size, "width");
    NormalizeKeyRounds(s1, "height");
    RoundedAtCompose(size, s1, NormalizeKey(s1, "height"), {"width"}, {"height"});
  }

  lemma {:induction false} BoundsFieldsRounded(bounds: map<string, Value>)
    ensures RoundedAt(bounds, NormalizeBoundsFields(bounds), {"x", "y", "width", "height"})
  {
    var b1 := NormalizeKey(bounds, "x");
    var b2 := NormalizeKey(b1, "y");
    var b3 := NormalizeKey(b2, "width");
    NormalizeKeyRounds(bounds, "x");
    NormalizeKeyRounds(b1, "y");
    NormalizeKeyRounds(b2, "width");
    NormalizeKeyRounds(b3, "height");
    RoundedAtCompose(bounds, b1, b2, {"x"}, {"y"});
    RoundedAtCompose(bounds, b2, b3, {"x", "y"}, {"width"});
    RoundedAtCompose(bounds, b3, NormalizeKey(b3, "height"), {"x", "y", "width"}, {"height"});
  }

  lemma {:induction false} AreaIsNormalized(a: Value)
    ensures AreaNormalized(a, NormalizeArea(a))
  {
    if a.Obj? && "bounds" in a.fields && a.fields["bounds"].Obj? {
      BoundsFieldsRounded(a.fields["bounds"].fields);
    }
  }

  /**
   * The whole effect of the normaliser: no key is added or removed; `size`,
   * when it is an object, has `width` and `height` rounded and nothing else
   * changed; every entry of `areas`, when it is an array, is normalised as
   * `AreaNormalized` says; `size` and `areas` of any other shape, and every
   * other top-level key, are left as they were.
   */
  lemma {:induction false} NormalizedCharacterization(m: map<string, Value>)
    ensures var out := Normalized(m);
      && out.Keys == m.Keys
      && (forall k :: k in m && k != "size" && k != "areas" ==> out[k] == m[k])
      && ("size" in m && m["size"].Obj? ==>
            out["size"].Obj? && RoundedAt(m["size"].fields, out["size"].fields, {"width", "height"}))
      && ("size" in m && !m["size"].Obj? ==> out["size"] == m["size"])
      && ("areas" in m && m["areas"].Arr? ==>
            out["areas"].Arr? && |out["areas"].items| == |m["areas"].items|
            && forall i :: 0 <= i < |m["areas"].items| ==>
                 AreaNormalized(m["areas"].items[i], out["areas"].items[i]))
      && ("areas" in m && !m["areas"].Arr? ==> out["areas"] == m["areas"])
  {
    if "size" in m && m["size"].Obj? {
      SizeFieldsRounded(m["size"].fields);
    }
    if "areas" in m && m["areas"].Arr? {
      var items := m["areas"].items;
      forall i | 0 <= i < |items| ensures AreaNormalized(items[i], Normalized(m)["areas"].items[i]) {
        AreaIsNormalized(items[i]);
      }
    }
  }

  lemma {:induction false} NormalizeKeyIdempotent(fields: map<string, Value>, k: string)
    ensures NormalizeKey(NormalizeKey(fields, k), k) == NormalizeKey(fields, k)
  {
    if k in fields {
      ToIntCases(fields[k]);
    }
  }

  lemma {:induction false} RoundedAtIdempotent(a: map<string, Value>, b: map<string, Value>,
                                               c: map<string, Value>, keys: set<string>)
    requires RoundedAt(a, b, keys) && RoundedAt(b, c, keys)
    ensures c == b
  {
    forall k | k in b ensures c[k] == b[k] {
      if k in keys { ToIntCases(a[k]); }
    }
  }

  /**
   * Normalising twice is normalising once: every value written is an
   * integer, which `toInt` passes through unchanged.
   */
  lemma {:induction false} NormalizeIdempotent(m: map<string, Value>)
    ensures Normalized(Normalized(m)) == Normalized(m)
  {
    var once := Normalized(m);
    var twice := Normalized(once);
    NormalizedCharacterization(m);
    NormalizedCharacterization(once);
    if "size" in m && m["size"].Obj? {
      RoundedAtIdempotent(m["size"].fields, once["size"].fields, twice["size"].fields, {"width", "height"});
    }
    if "areas" in m && m["areas"].Arr? {
      var items := m["areas"].items;
      forall i | 0 <= i < |items| ensures twice["areas"].items[i] == once["areas"].items[i] {
        var a, b, c := items[i], once["areas"].items[i], twice["areas"].items[i];
        if a.Obj? && "bounds" in a.fields && a.fields["bounds"].Obj? {
          RoundedAtIdempotent(a.fields["bounds"].fields, b.fields["bounds"].fields,
                              c.fields["bounds"].fields, {"x", "y", "width", "height"});
          assert c.fields == b.fields;
        }
      }
      assert twice["areas"].items == once["areas"].items;
    }
    forall k | k in once ensures twice[k] == once[k] {
    }
  }

  /**
   * `NormalizeRichMenuNumbers`. The source updates the decoded maps in
   * place; here the updated document is returned.
   */
  method NormalizeRichMenuNumbers(m: map<string, Value>) returns (r: map<string, Value>)
    ensures r == Normalized(m)
  {
    r := m;
    if "size" in r && r["size"].Obj? {
      var size := r["size"].fields;
      if "width" in size {
        size := size["width" := ToInt(size["width"])];
      }
      if "height" in size {
        size := size["height" := ToInt(size["height"])];
      }
      assert size == NormalizeSizeFields(m["size"].fields);
      r := r["size" := Obj(size)];
    }
    if "areas" in r && r["areas"].Arr? {
      ghost var original := r["areas"].items;
      var areas := r["areas"].items;
      var i := 0;
      while i < |areas|
        invariant 0 <= i <= |areas| == |original|
        invariant forall j :: 0 <= j < i ==> areas[j] == NormalizeArea(original[j])
        invariant forall j :: i <= j < |areas| ==> areas[j] == original[j]
      {
        var a := areas[i];
        if a.Obj? && "bounds" in a.fields && a.fields["bounds"].Obj? {
          var bounds := a.fields["bounds"].fields;
          if "x" in bounds {
            bounds := bounds["x" := ToInt(bounds["x"])];
          }
          if "y" in bounds {
            bounds := bounds["y" := ToInt(bounds["y"])];
          }
          if "width" in bounds {
            bounds := bounds["width" := ToInt(bounds["width"])];
          }
          if "height" in bounds {
            bounds := bounds["height" := ToInt(bounds["height"])];
          }
          assert bounds == NormalizeBoundsFields(a.fields["bounds"].fields);
          areas := areas[i := Obj(a.fields["bounds" := Obj(bounds)])];
        }
        i := i + 1;
      }
      assert areas == seq(|original|, j requires 0 <= j < |original| => NormalizeArea(original[j]));
      r := r["areas" := Arr(areas)];
    }
  }

  type byte = b: int | 0 <= b < 256

  datatype ParseError = EmptyBody | InvalidJson

  const EmptyBodyMessage: string := "empty request body"

  datatype Parsed = Request(raw: map<string, Value>) | Failed(err: ParseError)

  /**
   * `ParseRichMenuRequest` up to the normalised map; `decode` stands for
   * `json.Unmarshal` into `map[string]interface{}` (None when it fails).
   */
  function ParseRichMenuRequest(body: seq<byte>, decode: seq<byte> -> Option<map<string, Value>>): (r: Parsed)
    ensures |body| == 0 ==> r == Failed(EmptyBody)
    ensures |body| > 0 && decode(body).None? ==> r == Failed(InvalidJson)
    ensures |body| > 0 && decode(body).Some? ==> r == Request(Normalized(decode(body).value))
  {
    if |body| == 0 then Failed(EmptyBody)
    else match decode(body)
      case None => Failed(InvalidJson)
      case Some(raw) => Request(Normalized(raw))
  }

  /** The empty-body guard comes before decoding: no decoder is ever consulted. */
  lemma EmptyBodyBeforeDecoding(d1: seq<byte> -> Option<map<string, Value>>,
                                d2: seq<byte> -> Option<map<string, Value>>)
    ensures ParseRichMenuRequest([], d1) == ParseRichMenuRequest([], d2) == Failed(EmptyBody)
  {
  }

  /** A parsed request is already normal: normalising it again changes nothing. */
  lemma {:induction false} ParsedRequestIsNormal(body: seq<byte>, decode: seq<byte> -> Option<map<string, Value>>)
    requires ParseRichMenuRequest(body, decode).Request?
    ensures Normalized(ParseRichMenuRequest(body, decode).raw) == ParseRichMenuRequest(body, decode).raw
  {
    NormalizeIdempotent(decode(body).value);
  }

  /** This file's copy of `ValidateImageFile`, written out as the source repeats it. */
  function ValidateImageFile(filename: string): (r: Validation.Checked)
    ensures r.err.None? <==> r.contentType != ""
  {
    var lower := ToLower(filename);
    if HasSuffix(lower, ".jpeg") || HasSuffix(lower, ".jpg") then
      Validation.Checked(Validation.Jpeg, None)
    else if HasSuffix(lower, ".png") then
      Validation.Checked(Validation.Png, None)
    else
      Validation.Checked("", Some(Validation.ImageTypeError))
  }

  /** The two copies agree on every file name. */
  lemma SameAsUtilsCopy(filename: string)
    ensures ValidateImageFile(filename) == Validation.ValidateImageFile(filename)
  {
  }
}
