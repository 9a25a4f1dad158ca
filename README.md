# Rich-menu admin console: a verified model of its editing core

This is a Dafny model of the logic inside a small admin console for LINE rich
menus. A rich menu is an image with rectangular tap areas, and each area
carries an action: a message, a URI or a postback.

The model covers four parts:

- **The browser-side area editor** (`static/main.js`). It keeps a list of
  areas in logical image pixels and a selection index. Mouse input on a
  scaled canvas hit-tests, moves and resizes areas and draws new ones. A form
  adds, updates and removes areas. Keys delete, cancel and edit. A JSON
  document can be validated and imported as a list of areas.
- **Request normalisation** (`internal/services/line_service.go`). Before the
  server decodes a rich-menu request into the platform's structs, it rounds
  the float values at six known integer positions of the decoded JSON tree.
  It also refuses an empty body before any decoding.
- **The image-extension check** (`internal/utils/validation.go`, with a
  second copy in `line_service.go`). It is a case-insensitive suffix test
  with three outcomes: JPEG, PNG or an error.
- **Bearer-token extraction** (`middleware/auth.go`). It rejects with 401 or
  stores the token for later handlers.

Module layout:

- `Wrappers`, `Json` and `JsValues` hold the shared types. `Json` is a JSON
  value whose numbers are either `Float(real)` or `Int(int)`, as Go's decoder
  and the normaliser tell them apart. `JsValues` holds JavaScript truthiness,
  `||` fallback and property access on that value.
- `Strings` covers prefixes and suffixes, ASCII lower-casing, JavaScript
  `trim` and decimal rendering.
- `Auth`, `Validation` and `LineService` model the Go side.
- `Geometry`, `Areas` and `ImportJson` hold the pure parts of the editor.
- `AreaEditor` holds its state, as class `Editor`. Its fields are those that
  `RichMenuManager` updates in place. Its methods are the event handlers,
  each specified against the functions of `Geometry`, `Areas` and
  `ImportJson`.

The pure specification functions say what each read-only scan of the source
computes. Each such scan (the hit test, the handle test, the JSON validator
and the normaliser's loop over `areas`) is a method with a loop, proved equal
to its function.

Where the source touches things outside the model, the model takes them as
parameters:

- A mouse position arrives already converted to canvas pixels.
- The pixel size of a loaded image arrives as a number.
- The four bounds inputs of the area form are the field `Editor.form`, held as
  the integers `parseInt(...) || 0` reads. The action inputs (type, label,
  text, uri, data, display text) are not state: each add, update or press
  takes them as an `ActionForm` parameter.
- Whether the editor is hidden, and whether focus is in a form field, arrive
  as booleans.
- The Authorization header and the request context are values.
- The first `json.Unmarshal`, into a generic map, is a function parameter of `ParseRichMenuRequest`.

## Model

| member | source | states |
|---|---|---|
| Areas.AreaAt | static/main.js:837-853 | returns the largest index whose scaled box contains the point, edges included; -1 exactly when no area contains it |
| Areas.TopmostWins | static/main.js:837-853 | when two areas both contain the point, the hit test never returns the lower one |
| AreaEditor.Editor.GetAreaAtPosition | static/main.js:837-853 | the downward loop with early return computes `AreaAt` |
| Geometry.HandleAt | static/main.js:855-885 | None exactly when no handle anchor is within 8 on both axes; otherwise a near handle with no earlier near handle in the order nw, ne, sw, se, n, s, w, e |
| Geometry.FirstNear | static/main.js:877-884 | the first index of a handle list whose anchor is near, or -1 when none is |
| AreaEditor.Editor.GetResizeHandle | static/main.js:855-885 | the loop over the handle order returns exactly `HandleAt` |
| Geometry.Moved | static/main.js:919-922 | a move keeps width and height and leaves x, y at 0 or more; the area stays inside the image when it fits; it follows the mouse exactly when there is room |
| Geometry.ApplyHandle | static/main.js:941-976 | each handle moves only its own edges: w/nw/sw keep x + width, n/nw/ne keep y + height, e/se/ne keep x, s/se/sw keep y, and an unknown handle changes nothing |
| Geometry.Clamped | static/main.js:978-982 | x, y at 0 or more, width and height at least 10, inside the image whenever at least 10 pixels remain; a box that is already fine is left unchanged |
| Geometry.ClampIdempotent | static/main.js:978-982 | clamping a clamped box changes nothing |
| Geometry.Resized | static/main.js:938-983 | after any resize, x, y at 0 or more, width and height at least 10, and inside the image whenever at least 10 pixels remain |
| Geometry.ResizeSouthEastExample | static/main.js:938-983 | a 50-pixel south-east drag grows the drawn 313 by 156 area at 313, 313 to 363 by 206 |
| AreaEditor.Editor.UpdateSelectedArea | static/main.js:910-936 | the selected area's bounds become the moved or resized bounds for the mouse delta divided by the scale; the form shows them rounded and the drag start becomes the mouse; nothing changes for no selection or for a selection past the end |
| AreaEditor.Editor.MouseDown | static/main.js:763-799 | on a hit: select the topmost area, start resizing when a handle is near and moving otherwise, and enter editing mode; elsewhere: drop the selection and start drawing at the point; the selection is always in range afterwards |
| AreaEditor.Editor.MouseMove | static/main.js:801-821 | in editing mode with a selection, the drag as in `UpdateSelectedArea`, which keeps a moved area's size and a resized area at least 10 by 10 with a non-negative origin; else, while drawing, the form follows the drawn rectangle; else nothing changes |
| AreaEditor.Editor.MouseUp | static/main.js:823-831 | ends editing mode and the drag (mode none, no handle), or else stops drawing |
| AreaEditor.Editor.SelectArea | static/main.js:985-990 | sets the selection; the form shows the area's rounded bounds when the index is in range |
| AreaEditor.Editor.DeselectArea | static/main.js:992-1001 | nothing selected and the form cleared |
| Geometry.FormOf | static/main.js:1003-1011 | each form field is within ½ of the area's coordinate, halves going up, as `Math.round` gives |
| Geometry.FormRoundTrip | static/main.js:1003-1011 | an area built from whole-number form values shows the same values when selected |
| AreaEditor.Editor.StartDrawing | static/main.js:1062-1085 | drawing starts at the point; the form shows the rounded logical start and a 0 by 0 size |
| Geometry.StartForm | static/main.js:1076-1082 | the form shows the logical start point rounded, and a width and height of 0 |
| Geometry.DrawnForm | static/main.js:1087-1116 | the drawn form has non-negative size; each field is the nearest integer, halves up, to the logical corner or extent |
| Geometry.DrawDirectionIrrelevant | static/main.js:1099-1103 | dragging from A to B gives the same form as dragging from B to A |
| Geometry.DrawExample | static/main.js:1087-1116 | at scale 0.32, a drag from (100,100) to (200,150) gives x 313, y 313, width 313, height 156 |
| Areas.DrawnAreaAdded | static/main.js:1087-1116 | the rectangle of `DrawExample`, passed to `AddArea` as the form with a label, becomes an area with bounds 313, 313, 313, 156 |
| AreaEditor.Editor.Draw | static/main.js:1087-1116 | while drawing, the form becomes `DrawnForm`; otherwise it is unchanged |
| AreaEditor.Editor.StopDrawing | static/main.js:1118-1126 | drawing is over |
| Geometry.JsRound | static/main.js:1006-1009 | `Math.round`: the integer in (r − ½, r + ½] |
| Geometry.JsRoundHalvesGoUp | static/main.js:1006-1009 | `Math.round` sends 312.5 to 313 and −0.5 to 0 |
| Areas.ShownLabel | static/main.js:1179-1184 | label, else text, else type, else "區域", except that a message with a text shows the text; the label is always truthy |
| Areas.CanvasLabel | static/main.js:1192-1194 | labels longer than 10 become their first 8 characters plus "...", shorter ones are unchanged; at most 11 characters |
| Areas.NewAction | static/main.js:1277-1292 | the action has the type and the trimmed label, plus exactly text for message, uri for uri, data (and displayText only when non-empty) for postback, and nothing else |
| Areas.FormArea | static/main.js:1262-1295 | refused exactly when width is 0, height is 0 or the trimmed label is empty; otherwise the form's bounds with `NewAction`, whose label is a non-empty string |
| Areas.FormAreaShownLabel | static/main.js:1310-1313 | an area made from the form is listed under its trimmed text when it is a message with a text, and under its trimmed label otherwise |
| AreaEditor.Editor.AddArea | static/main.js:1262-1304 | a refused form changes nothing; an accepted one appends exactly that area at the end and clears the form; the selection is untouched |
| Areas.RemoveAt | static/main.js:1337-1338 | removing a valid index shortens the list by one and keeps the other areas in order; an index past the end removes nothing |
| Areas.SelectionAfterRemove | static/main.js:1339-1344 | a selection of -1 or more stays -1 or more, and becomes -1 exactly when it was -1 or the removed index; otherwise it is kept or, only when it was after the index, decremented |
| Areas.SelectionFollowsArea | static/main.js:1339-1344 | after a removal, the selection is -1 when the removed area was selected, and otherwise designates the same area as before |
| AreaEditor.Editor.RemoveArea | static/main.js:1337-1347 | the list becomes `RemoveAt`; the selection becomes -1, one less or unchanged as it was at, after or before the index, and stays in range |
| AreaEditor.Editor.EditArea | static/main.js:1358-1376 | selects the area (form filled when in range), enters editing mode and binds the button's `onclick` to the update of that index |
| AreaEditor.Editor.PressAddButton | static/main.js:73 | as wired: the permanent listener's `addArea` appends the form's area and clears the form exactly when the form is accepted; the `onclick` handler that follows never updates; editing mode, the selection and the binding stay |
| AreaEditor.Editor.PressButtonIntended | static/main.js:1363-1365 | the intended press: while the button's `onclick` is bound to an update, only that update runs, replacing the area at the index (appending at the list's length) and leaving editing mode, and a refused form changes nothing whatever the index; otherwise exactly one `addArea` |
| AreaEditor.StaleSlotPressExample | static/main.js:1389-1391 | with the button still bound to index 2 after two removals leave one area, a press appends the form's area and the update refuses the cleared form before using the index |
| AreaEditor.EditThenPressExample | static/main.js:73 | one added area, opened for editing and pressed unchanged, ends as two equal copies and no update |
| AreaEditor.EditThenPressIntendedExample | static/main.js:1363-1365 | under the intended press the same steps leave one area with its bounds and the new action, and editing over |
| AreaEditor.Editor.UpdateArea | static/main.js:1378-1421 | a refused form changes nothing, whatever the index; an accepted one replaces exactly the area at the index, or appends it when the index is the list's length (the bound area was removed meanwhile), then leaves editing mode with nothing selected and the form cleared |
| AreaEditor.Editor.CancelEditArea | static/main.js:1423-1442 | not editing, nothing selected, form cleared, the button's `onclick` bound back to `addArea` |
| AreaEditor.Editor.KeyDown | static/main.js:1444-1472 | ignored when the editor is hidden or focus is in a field; Delete/Backspace remove the selected area and leave nothing selected; Escape clears the selection and form, and in editing mode also leaves it and binds the button back to `addArea` (outside editing mode the binding stays); Enter starts editing the selected area when not already editing, binding the button to its update; other keys change nothing |
| ImportJson.IsValidRichMenuJson | static/main.js:1600-1630 | a valid document is an object with a non-empty string name and an `areas` array |
| ImportJson.ValidateRichMenuJson | static/main.js:1600-1630 | the checks in order with early return accept exactly the documents of `IsValidRichMenuJson` |
| ImportJson.MissingBoundsWidthRejected | static/main.js:1609-1611 | one area without `bounds.width` makes the whole document invalid |
| ImportJson.UnknownActionTypeAccepted | static/main.js:1616-1626 | a document whose area has the unknown type `datetimepicker` is valid |
| ImportJson.ZeroSizeRejected | static/main.js:1604 | a size width of 0 (integer or float) rejects the document |
| ImportJson.ExtraTopLevelFieldAccepted | static/main.js:1600-1630 | adding a top-level field other than name, size and areas keeps a valid document valid |
| ImportJson.ShortLabel | static/main.js:1666 | strings of at most 10 characters are kept; longer ones become 13 characters: their first 10 and "..." |
| ImportJson.ImportArea | static/main.js:1641-1679 | a converted entry has a type, copied from the document, and a label, and a message also has a text; None is the TypeError of shortening a non-string uri or data |
| ImportJson.ImportedLabels | static/main.js:1641-1679 | the conversion of one entry: a truthy label is kept; without one, a uri or postback is labelled with its shortened uri or data, and other types with the text or "區域 n"; a message's text falls back to the label, then to "動作 n"; the type and all four bounds are copied; a uri's `uri` and a postback's `data` are the document's value or ""; a postback has `displayText` exactly when the document's is truthy; an unknown type has only `type` and `label`; the label is always truthy; the conversion fails exactly when a non-string uri or data would be shortened |
| AreaEditor.Editor.PopulateFromJson | static/main.js:1632-1695 | the area list is replaced by the entries' conversions in order; when one fails, the earlier ones stay, and it reports that it stopped there |
| AreaEditor.Editor.constructor | static/main.js:3-25 | no areas, nothing selected, no drag, not drawing, not editing, scale 1, image size 0, start points 0; the constructor does not touch the form, and the blank form of a freshly loaded page is taken as its initial state (`ClearedForm`), with no `onclick` handler on the Add button (`NoSlot`) |
| AreaEditor.Editor.LoadImage | static/main.js:665-680 | records the image size and sets the scale to `ImageScale` |
| Geometry.ImageScale | static/main.js:665-680 | 0 < scale ≤ 1; the scaled image fits in 800 by 600 and is never enlarged; the scale is 1 or one of the two dimensions fills its bound |
| Geometry.ImageScaleExample | static/main.js:665-680 | a 2500 by 1686 image is shown at scale 0.32 |
| LineService.RoundHalfAwayFromZero | internal/services/line_service.go:100-102 | `math.Round`: within ½ of the input, and a tie goes away from zero |
| LineService.RoundIsNearest | internal/services/line_service.go:100-102 | no integer is closer to the input than its rounding |
| LineService.RoundSymmetric | internal/services/line_service.go:100-102 | rounding commutes with negation, and integers round to themselves |
| LineService.ToInt | internal/services/line_service.go:96-106 | the result is never a float |
| LineService.ToIntCases | internal/services/line_service.go:96-106 | a float becomes its rounded integer; every other value, an integer included, is returned as it is; applying it twice equals applying it once |
| LineService.NormalizeKeyRounds | internal/services/line_service.go:110-115 | a present key is rounded, an absent key is not added, and every other key is kept |
| LineService.SizeFieldsRounded | internal/services/line_service.go:109-116 | exactly `width` and `height` of the size object are rounded; nothing else changes |
| LineService.BoundsFieldsRounded | internal/services/line_service.go:123-136 | exactly x, y, width and height of a bounds object are rounded; nothing else changes |
| LineService.AreaIsNormalized | internal/services/line_service.go:121-137 | an area that is an object with a `bounds` object gets its bounds rounded with its other fields kept; any other entry is unchanged |
| LineService.Normalized | internal/services/line_service.go:94-139 | the key set is kept, every top-level key other than size and areas is unchanged, a non-object size is unchanged, and an `areas` array keeps its length |
| LineService.NormalizedCharacterization | internal/services/line_service.go:94-139 | the key set is the same; `size` is rounded when it is an object; every area entry is normalised in place when `areas` is an array; every other top-level key is unchanged |
| LineService.NormalizeIdempotent | internal/services/line_service.go:94-139 | normalising twice equals normalising once |
| LineService.NormalizeRichMenuNumbers | internal/services/line_service.go:94-139 | the in-place walk, with its loop over `areas`, produces exactly `Normalized` of its input |
| LineService.ParseRichMenuRequest | internal/services/line_service.go:154-166 | an empty body fails with the empty-body error, a body that does not decode fails as invalid JSON, and any other body yields its decoded map normalised |
| LineService.EmptyBodyBeforeDecoding | internal/services/line_service.go:154-157 | an empty body fails with the empty-body error whatever the decoder would do |
| LineService.ParsedRequestIsNormal | internal/services/line_service.go:154-170 | a map that parses successfully is already normal |
| LineService.ValidateImageFile | internal/services/line_service.go:142-151 | no error exactly when a content type is returned |
| LineService.SameAsUtilsCopy | internal/services/line_service.go:142-151 | this file's `ValidateImageFile` equals the one in `internal/utils` on every name |
| Validation.ValidateImageFile | internal/utils/validation.go:9-17 | no error exactly when a content type is returned; the only outcomes are jpeg, png or the error |
| Validation.JpegExtensions | internal/utils/validation.go:10-12 | a name whose lowercase ends in ".jpeg" or ".jpg" gives image/jpeg with no error |
| Validation.PngExtension | internal/utils/validation.go:13-14 | a name whose lowercase ends in ".png" gives image/png |
| Validation.AcceptedHasExtension | internal/utils/validation.go:9-17 | the result is image/jpeg exactly when the lowercase name ends in ".jpeg" or ".jpg", and image/png exactly when it ends in ".png" and in neither of those |
| Validation.CaseInsensitive | internal/utils/validation.go:10 | a name and its lowercase form give the same result |
| Validation.OnlySuffixInspected | internal/utils/validation.go:11-13 | for names of at least five characters, prepending any string does not change the result |
| Validation.PrependingToShortNameMatters | internal/utils/validation.go:11-13 | "pg" is refused, while ".j" + "pg" is a JPEG |
| Auth.DecideHeader | middleware/auth.go:12-20 | rejects with 401 and the message exactly when the header does not start with "Bearer "; otherwise the token t satisfies "Bearer " + t == header |
| Auth.AuthMiddleware | middleware/auth.go:10-26 | a rejected header sets status 401 and the error body to the message and aborts, with the stored values untouched; an accepted one stores the token under `channelAccessToken` and changes nothing else |
| Auth.EmptyHeaderRejected | middleware/auth.go:13-16 | an empty header is rejected: status 401, error body "Missing or invalid authorization header", the request aborted, and no token stored |
| Auth.PrefixIsExact | middleware/auth.go:13 | "bearer abc", "BEARER abc", "Bearer" and "Bearerabc" are rejected: the prefix is case-sensitive and needs the space |
| Auth.SinglePrefixStripped | middleware/auth.go:20 | "Bearer Bearer x" stores "Bearer x", and "Bearer " alone stores the empty token |
| Auth.HandlerSeesToken | middleware/auth.go:10-34 | after an accepted header, the request is not aborted and `GetChannelAccessToken` returns the t with "Bearer " + t == header; after a rejected one it is aborted with status 401 and the message as error body, and the stored token is what it was |
| Auth.GetChannelAccessToken | middleware/auth.go:29-34 | the stored string, or "" when nothing was stored |
| Strings.Trim | static/main.js:1271 | `trim()`: a slice of the input with no JavaScript whitespace at either end, everything cut off being whitespace; empty exactly when the input is all whitespace |
| Strings.NatToStringRoundTrip | static/main.js:1652 | the decimal rendering of the area number reads back as that number |
| Strings.ToLowerIdempotent | internal/utils/validation.go:10 | lower-casing twice equals lower-casing once |

## Behaviour of the code worth knowing

- Canvas and area-list labels fall back as `label || text || type || '區域'`.
  An action's `data` is never consulted for the label (static/main.js:1179,
  1310).
- Escape does not end a drawing in progress: `isDrawing` stays set. During a
  drag, Escape calls `cancelEditArea`, which leaves `dragMode` and
  `resizeHandle` as they were (static/main.js:1457-1463). The next mouse-up
  then takes the `stopDrawing` branch, so the mode still stays.
- Moving and resizing do not check that an image is loaded. With image size
  0, a move pins the area at 0,0 and a resize still forces 10 by 10
  (static/main.js:919-922, 979-982).
- `Math.round` sends halves up: at scale 0.32, a logical coordinate of
  100 / 0.32 = 312.5 is shown as 313 (`Geometry.DrawExample`).
- `populateFormFromJson` does not reset `selectedAreaIndex`, so a selection
  can point past the imported list. `updateSelectedArea` then throws before
  changing anything, which is modelled as no change.
- `editArea` enters editing mode without a mouse press. The next mouse move
  over the canvas therefore goes to `updateSelectedArea` with whatever
  `dragMode` was left. After an ordinary mouse-up that mode is none, so the
  bounds stay, but the form is rewritten and the drag start moves. After a
  drag ended by Escape, the mode is still move or resize. The area then jumps
  by the distance between the mouse and the drag start recorded before the
  Escape.
- The Update handler keeps the index `editArea` gave it (static/main.js:1365).
  If areas are removed in the meantime, `currentAreas[index] = …`
  (static/main.js:1411) overwrites whichever area now sits at that index.
  With areas A, B, C, `editArea(0)` and then the removal of A, the update
  overwrites B. It appends only when the index equals the new length.
- The Add button always runs `addArea` from the click listener registered
  at start-up (static/main.js:73). `editArea` and `cancelEditArea` only
  swap its `onclick` handler (static/main.js:1365, 1429), which runs as
  well. In editing mode a press therefore appends a copy of the form's area
  and clears the form, and `updateArea` then refuses the cleared form
  (see "## Findings"). After a cancel, a press runs `addArea` twice, and the
  second run refuses the cleared form with the error alert.

## Findings

| source | as written | input that shows it | evidently intended | confidence | as-written member | corrected member |
|---|---|---|---|---|---|---|
| static/main.js:73 | the Add button keeps its click listener running `addArea` while `editArea` sets its `onclick` to `updateArea(index)` (static/main.js:1365), so one press runs both, listener first | add an area, `editArea(0)`, press the button with the form unchanged: the area is appended a second time, the form cleared, and `updateArea` refuses the cleared form with the error alert | a press while the button's `onclick` is bound to an update runs only `updateArea(index)`, which rewrites the area in place and ends editing | not executed; the double dispatch follows from the code, the order assumes the page gives the button no inline handler | AreaEditor.Editor.PressAddButton, AreaEditor.EditThenPressExample | AreaEditor.Editor.PressButtonIntended, AreaEditor.EditThenPressIntendedExample |

## Left out

- Canvas painting (`redrawCanvas`, `drawArea`, `drawResizeHandles`, `drawCurrentEditingArea`), `updateCursor`, and the list's HTML: these are side effects on the DOM and the 2D context.
- Network calls, file reading (`loadImage` apart from its scale computation, `readFileAsText`), local storage, modals and `exportToJson`: asynchronous I/O outside the logic.
- `updateRect` (typing into the bounds inputs while editing): this is a DOM-driven path outside the listed handlers.
- Form parsing (`parseInt(...) || 0`): the bounds inputs are held as the integers it yields, in `FormBounds`.
- The action inputs of the area form as page state: `updateAreaInputs` fills type, label, text, uri, data and display text from the selected area (static/main.js:1013-1027), and `clearAreaForm` empties them and sets the type to 'message' (static/main.js:1479-1485). The model keeps only the bounds inputs as state and passes `ActionForm` to each add, update and press, so it does not capture SelectArea, EditArea and UpdateSelectedArea overwriting action fields the user typed, nor DeselectArea, AddArea and CancelEditArea resetting them.
- The menu name and chat-bar fields `populateFormFromJson` writes into the page: DOM only; the model covers the area list it builds.
- IEEE-754 doubles: coordinates are `real`, so no rounding error, NaN or infinity is modelled. JavaScript's `Math.round` and Go's `math.Round` are modelled exactly on reals.
- String length: measured in code points, whereas JavaScript counts UTF-16 code units. `ShortLabel` and `CanvasLabel` differ only for characters outside the Basic Multilingual Plane.
- Strings.ToLower: folds ASCII only, whereas Go's `strings.ToLower` folds Unicode. The suffixes compared are ASCII, but a non-ASCII letter that lowercases to an ASCII one is not covered.
- `float32` and int64 overflow in `toInt`: the decoded map only ever holds `float64`, and the conversion of values beyond the int64 range is not modelled.
- `ParseRichMenuRequest` after normalisation: the `json.Marshal` back to bytes and the `json.Unmarshal` into the SDK's `RichMenuRequest` (internal/services/line_service.go:169-179), with their two error returns, are dropped; the model ends at the normalised map. Only the first `json.Unmarshal` into a generic map is modelled, as the `decode` parameter.
- LineService.NormalizeRichMenuNumbers: returns the new map instead of mutating the caller's, so the aliasing of the nested maps is not captured.
- AreaEditor.Editor.UpdateArea: for an accepted form, requires an index of at most the list's length (a refused form is admitted with any index and changes nothing). A stale index more than one past the end, left after several removals, makes the source leave a sparse array with holes, which a sequence cannot represent.
- ImportJson.ValidateRichMenuJson: returns false where the source throws a TypeError, namely for a document that is `null` (static/main.js:1602) and for a `null` entry of `areas` reached by the loop (static/main.js:1608-1609). `importFromJson` catches the throw and shows its parse-failure alert, not the invalid-format one (static/main.js:1585-1588). In both cases the document is refused and nothing is imported.
- AreaEditor.Editor.KeyDown: Delete and Backspace `preventDefault` is a DOM effect, not modelled.
- Non-string labels on the canvas: `drawAreaLabel` measures `label.length` of whatever value it picked; `CanvasLabel` is stated for strings only.
- The gin context is reduced to its key/value store, its status, the `error` field of its JSON body and its aborted flag; the rest of the response writer is not modelled.
- The HTTP handlers, the server entry points and the SDK pass-through methods: plumbing over code that is not part of this model.
