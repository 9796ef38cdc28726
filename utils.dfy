/** The upload check for lesion images and the patient-id generator. */
module Utils {
  import opened Wrappers
  import opened JsText

  /** The parts of a browser `File` the checks look at. */
  datatype FileInfo = FileInfo(name: string, mimeType: string, size: nat)

  datatype ImageCheck = ImageCheck(valid: bool, error: Option<string>)

  const ValidTypes: seq<string> := ["image/jpeg", "image/jpg", "image/png"]
  const MaxImageSize: nat := 5 * 1024 * 1024
  const TypeError := "Invalid file type. Please upload a JPEG or PNG image."
  const SizeError := "File size too large. Maximum size is 5MB."

  /** `validateImage`: the type is checked before the size. */
  function ValidateImage(file: FileInfo): (r: ImageCheck)
    ensures r.valid <==> file.mimeType in ValidTypes && file.size <= MaxImageSize
    ensures r.valid <==> r.error.None?
    ensures file.mimeType !in ValidTypes ==> r.error == Some(TypeError)
    ensures file.mimeType in ValidTypes && file.size > MaxImageSize ==> r.error == Some(SizeError)
  {
    if file.mimeType !in ValidTypes then ImageCheck(false, Some(TypeError))
    else if file.size > MaxImageSize then ImageCheck(false, Some(SizeError))
    else ImageCheck(true, None)
  }

  /** The limit is inclusive: a file of exactly 5 MiB passes, one byte more does not. */
  lemma ImageSizeBoundary(name: string, mimeType: string)
    requires mimeType in ValidTypes
    ensures ValidateImage(FileInfo(name, mimeType, 5242880)).valid
    ensures !ValidateImage(FileInfo(name, mimeType, 5242881)).valid
  {
  }

  /** A GIF, say, is refused with the type message whatever its size. */
  lemma TypeCheckedFirst(name: string, size: nat)
    ensures ValidateImage(FileInfo(name, "image/gif", size)).error == Some(TypeError)
  {
  }

  /** The lower-case base-36 digit of `d`. */
  function Digit36(d: nat): (c: char)
    requires d < 36
  {
    if d < 10 then (48 + d) as char else (87 + d) as char
  }

  /** The value of a base-36 digit in either case, -1 for anything else. */
  function DigitValue36(c: char): int {
    if '0' <= c <= '9' then c as int - 48
    else if 'a' <= c <= 'z' then c as int - 87
    else if 'A' <= c <= 'Z' then c as int - 55
    else -1
  }

  /** `n.toString(36)` for a non-negative integer. */
  function Base36(n: nat): (s: string)
    ensures |s| >= 1
    decreases n
  {
    if n < 36 then [Digit36(n)] else Base36(n / 36) + [Digit36(n % 36)]
  }

  /** The number a string of base-36 digits denotes. */
  function Value36(s: string): int
    decreases |s|
  {
    if s == [] then 0 else Value36(s[..|s| - 1]) * 36 + DigitValue36(s[|s| - 1])
  }

  /** Reading back the upper-cased base-36 text gives the number again. */
  lemma {:induction false} Base36Value(n: nat)
    ensures Value36(ToUpper(Base36(n))) == n
    decreases n
  {
    var s := Base36(n);
    var u := ToUpper(s);
    if n >= 36 {
      Base36Value(n / 36);
      assert u[..|u| - 1] == ToUpper(Base36(n / 36));
    }
    assert u[|u| - 1] == UpperChar(s[|s| - 1]);
  }

  /** `s.substring(start, end)` for `start <= end`: both ends are clamped to the length. */
  function Substring(s: string, start: nat, end: nat): (r: string)
    requires start <= end
    ensures |r| <= end - start
  {
    var e := if end < |s| then end else |s|;
    var b := if start < e then start else e;
    s[b..e]
  }

  /** `generatePatientId`, with the clock reading `now` and the text of
      `Math.random().toString(36)` passed in. */
  function GeneratePatientId(now: nat, randomText: string): (id: string)
  {
    "PT" + ToUpper(Base36(now)) + ToUpper(Substring(randomText, 2, 6))
  }

  /** Generated ids start with "PT" followed by the upper-case base-36 clock
      reading, which can be read back, and at most four random characters. */
  lemma PatientIdShape(now: nat, randomText: string)
    ensures var id := GeneratePatientId(now, randomText);
      var t := ToUpper(Base36(now));
      |id| <= 2 + |t| + 4 && id[..2] == "PT" && id[2..2 + |t|] == t && Value36(t) == now
  {
    Base36Value(now);
    var id := GeneratePatientId(now, randomText);
    var t := ToUpper(Base36(now));
    assert id == "PT" + t + ToUpper(Substring(randomText, 2, 6));
  }
}
