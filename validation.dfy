/**
 * The upload check of internal/utils/validation.go: an image file name is
 * classified by its extension, ignoring case, into a JPEG or PNG content
 * type, or refused.
 */
module Validation {
  import opened Wrappers
  import opened Strings

  const Jpeg: string := "image/jpeg"
  const Png: string := "image/png"
  const ImageTypeError: string := "image file must be jpeg or png"

  /** Go's `(string, error)` pair: the content type and the error, if any. */
  datatype Checked = Checked(contentType: string, err: Option<string>)

  function ValidateImageFile(filename: string): (r: Checked)
    ensures r.err.None? <==> r.contentType != ""
    ensures r.contentType == Jpeg || r.contentType == Png || r == Checked("", Some(ImageTypeError))
  {
    var lower := ToLower(filename);
    if HasSuffix(lower, ".jpeg") || HasSuffix(lower, ".jpg") then
      Checked(Jpeg, None)
    else if HasSuffix(lower, ".png") then
      Checked(Png, None)
    else
      Checked("", Some(ImageTypeError))
  }

  /** A name whose last characters spell ".jpg" or ".jpeg" in any case is a JPEG. */
  lemma {:induction false} JpegExtensions(stem: string, ext: string)
    requires ToLower(ext) == ".jpg" || ToLower(ext) == ".jpeg"
    ensures ValidateImageFile(stem + ext) == Checked(Jpeg, None)
  {
    ToLowerAppend(stem, ext);
    var lower := ToLower(stem + ext);
    assert lower[|lower| - |ext|..] == ToLower(ext);
  }

  /** A name whose last characters spell ".png" in any case is a PNG. */
  lemma {:induction false} PngExtension(stem: string, ext: string)
    requires ToLower(ext) == ".png"
    ensures ValidateImageFile(stem + ext) == Checked(Png, None)
  {
    ToLowerAppend(stem, ext);
    var lower := ToLower(stem + ext);
    assert lower[|lower| - 4..] == ".png";
    assert !HasSuffix(lower, ".jpeg") by {
      if |lower| >= 5 {
        assert lower[|lower| - 2] == lower[|lower| - 4..][2] == 'n';
        assert lower[|lower| - 5..][3] == lower[|lower| - 2];
      }
    }
    assert !HasSuffix(lower, ".jpg") by { assert lower[|lower| - 4..][1] == 'p'; }
  }

  /** An accepted name really ends in one of the three extensions, ignoring case. */
  lemma AcceptedHasExtension(filename: string)
    ensures ValidateImageFile(filename).contentType == Jpeg <==>
      (HasSuffix(ToLower(filename), ".jpeg") || HasSuffix(ToLower(filename), ".jpg"))
    ensures ValidateImageFile(filename).contentType == Png <==>
      (!HasSuffix(ToLower(filename), ".jpeg") && !HasSuffix(ToLower(filename), ".jpg")
       && HasSuffix(ToLower(filename), ".png"))
  {
  }

  /** The check ignores case: a name and its lower-case form agree. */
  lemma CaseInsensitive(filename: string)
    ensures ValidateImageFile(ToLower(filename)) == ValidateImageFile(filename)
  {
    ToLowerIdempotent(filename);
  }

  /**
   * Only the last five characters are inspected: prepending anything to a
   * name of at least five characters leaves the result as it was.
   */
  lemma {:induction false} OnlySuffixInspected(prefix: string, filename: string)
    requires |filename| >= 5
    ensures ValidateImageFile(prefix + filename) == ValidateImageFile(filename)
  {
    ToLowerAppend(prefix, filename);
    var short := ToLower(filename);
    SuffixOfAppend(ToLower(prefix), short, ".jpeg");
    SuffixOfAppend(ToLower(prefix), short, ".jpg");
    SuffixOfAppend(ToLower(prefix), short, ".png");
  }

  lemma SuffixOfAppend(a: string, b: string, suffix: string)
    requires |suffix| <= |b|
    ensures HasSuffix(a + b, suffix) == HasSuffix(b, suffix)
  {
    assert (a + b)[|a + b| - |suffix|..] == b[|b| - |suffix|..];
  }

  /** For shorter names prepending can change the result: "pg" is refused, ".jpg" is not. */
  lemma PrependingToShortNameMatters()
    ensures ValidateImageFile("pg").err.Some?
    ensures ValidateImageFile(".j" + "pg") == Checked(Jpeg, None)
  {
    JpegExtensions("", ".jpg");
    assert ".j" + "pg" == "" + ".jpg";
  }
}
