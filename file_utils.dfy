/**
 * Upload validation for resume files (lib/file-utils.ts): a size limit, a
 * MIME-type allow-list and an extension allow-list, checked in that order.
 */
module FileUtils {
  import opened Wrappers

  /** The browser `File` handed to the validator: name, MIME type, size in bytes, and its bytes. */
  datatype FileInfo = FileInfo(name: string, mimeType: string, size: nat, contents: string)

  /** `{ valid, error? }` as returned by the validator. */
  datatype Validation = Validation(valid: bool, error: Option<string>)

  const MaxFileSize: nat := 10 * 1024 * 1024
  const PdfMimeType: string := "application/pdf"
  const DocxMimeType: string := "application/vnd.openxmlformats-officedocument.wordprocessingml.document"
  const AllowedFileTypes: seq<string> := [PdfMimeType, DocxMimeType]
  const AllowedExtensions: seq<string> := [".pdf", ".docx"]
  const SizeError: string := "File size must be less than 10MB"
  const TypeError: string := "Only PDF and DOCX files are allowed"

  /** Lower-casing of one character (ASCII letters only). */
  function ToLower(c: char): (r: char)
    ensures 'A' <= c <= 'Z' ==> 'a' <= r <= 'z' && r as int - c as int == 32
    ensures !('A' <= c <= 'Z') ==> r == c
  {
    if 'A' <= c <= 'Z' then (c as int + 32) as char else c
  }

  /** `String.prototype.toLowerCase`, character by character. */
  function Lower(s: string): (r: string)
    ensures |r| == |s|
    ensures forall i :: 0 <= i < |s| ==> r[i] == ToLower(s[i])
  {
    seq(|s|, i requires 0 <= i < |s| => ToLower(s[i]))
  }

  /**
   * `s.split('.').pop()`: the text after the last '.', or all of `s` when it
   * holds no '.'. The three postconditions pin the result down: it is the
   * longest suffix of `s` without a '.'.
   */
  function LastSegment(s: string): (r: string)
    ensures '.' !in r
    ensures |r| <= |s| && r == s[|s| - |r|..]
    ensures |r| < |s| ==> s[|s| - |r| - 1] == '.'
  {
    if s == [] then []
    else if s[|s| - 1] == '.' then []
    else LastSegment(s[..|s| - 1]) + [s[|s| - 1]]
  }

  /**
   * The "extension" the validator compares: the last segment of the
   * lower-cased name, which holds no '.' and no upper-case ASCII letter.
   */
  function Extension(name: string): (r: string)
    ensures '.' !in r && |r| <= |name|
    ensures forall i :: 0 <= i < |r| ==> !('A' <= r[i] <= 'Z')
  {
    LastSegment(Lower(name))
  }

  /**
   * A non-empty extension which, prefixed with '.', is on the allow-list; the
   * allow-list admits nothing longer than four characters.
   */
  predicate ExtensionAllowed(ext: string): (r: bool)
    ensures r ==> 0 < |ext| <= 4
  {
    ext != "" && "." + ext in AllowedExtensions
  }

  /** `validateFile`: size first, then MIME type, then extension; the first failure wins. */
  function ValidateFile(f: FileInfo): (r: Validation)
    ensures r.valid <==> f.size <= MaxFileSize && f.mimeType in AllowedFileTypes && ExtensionAllowed(Extension(f.name))
    ensures r.valid <==> r.error == None
    ensures f.size > MaxFileSize ==> r.error == Some(SizeError)
    ensures f.size <= MaxFileSize && !r.valid ==> r.error == Some(TypeError)
  {
    if f.size > MaxFileSize then
      Validation(false, Some(SizeError))
    else if f.mimeType !in AllowedFileTypes then
      Validation(false, Some(TypeError))
    else if !ExtensionAllowed(Extension(f.name)) then
      Validation(false, Some(TypeError))
    else
      Validation(true, None)
  }

  predicate EndsWith(s: string, suffix: string) {
    |suffix| <= |s| && s[|s| - |suffix|..] == suffix
  }

  /** A name without any '.' is its own last segment. */
  lemma LastSegmentWithoutDot(s: string)
    requires '.' !in s
    ensures LastSegment(s) == s
  {
    var r := LastSegment(s);
    if |r| < |s| {
      assert false;
    }
  }

  /** Whatever precedes the last '.', the last segment is what follows it. */
  lemma LastSegmentAfterDot(t: string, u: string)
    requires '.' !in u
    ensures LastSegment(t + "." + u) == u
  {
    var s := t + "." + u;
    var r := LastSegment(s);
    assert s[|t|] == '.';
    if |r| > |u| {
      assert false;
    } else if |r| < |u| {
      assert false;
    }
    assert s[|s| - |u|..] == u;
  }

  /**
   * For a dot-free, non-empty `ext`: the last segment of `l` is `ext` exactly
   * when `l` ends in "." + `ext` or is `ext` itself.
   */
  lemma LastSegmentIs(l: string, ext: string)
    requires '.' !in ext && ext != ""
    ensures LastSegment(l) == ext <==> EndsWith(l, "." + ext) || l == ext
  {
    if LastSegment(l) == ext {
      LastSegmentFollowsDot(l);
    } else if EndsWith(l, "." + ext) {
      assert l == l[..|l| - |ext| - 1] + "." + ext;
      LastSegmentAfterDot(l[..|l| - |ext| - 1], ext);
    } else if l == ext {
      LastSegmentWithoutDot(l);
    }
  }

  /** A last segment that is not the whole text ends the text after a '.'. */
  lemma LastSegmentFollowsDot(l: string)
    ensures EndsWith(l, "." + LastSegment(l)) || l == LastSegment(l)
  {
    var ext := LastSegment(l);
    var n := |l| - |ext|;
    if n > 0 {
      calc {
        l[n - 1..];
        [l[n - 1]] + l[n..];
        ['.'] + ext;
      }
    }
  }

  /** The allow-list holds exactly the extensions "pdf" and "docx". */
  lemma ExtensionAllowedMeans(ext: string)
    ensures ExtensionAllowed(ext) <==> ext == "pdf" || ext == "docx"
  {
    if "." + ext == ".pdf" {
      assert ext == ("." + ext)[1..];
    }
    if "." + ext == ".docx" {
      assert ext == ("." + ext)[1..];
    }
  }

  /** True when a lower-cased name carries an accepted extension, stated without splitting. */
  predicate AcceptedName(l: string) {
    EndsWith(l, ".pdf") || EndsWith(l, ".docx") || l == "pdf" || l == "docx"
  }

  // LastSegmentIsPdf and LastSegmentIsDocx are the two instances of
  // LastSegmentIs for the allow-list. Each is its own lemma because the
  // solver handles one literal extension at a time far more cheaply than two.

  /** The last segment is "pdf" exactly when the name ends in ".pdf" or is "pdf". */
  lemma LastSegmentIsPdf(l: string)
    ensures LastSegment(l) == "pdf" <==> EndsWith(l, ".pdf") || l == "pdf"
  {
    assert "." + "pdf" == ".pdf";
    LastSegmentIs(l, "pdf");
  }

  /** The last segment is "docx" exactly when the name ends in ".docx" or is "docx". */
  lemma LastSegmentIsDocx(l: string)
    ensures LastSegment(l) == "docx" <==> EndsWith(l, ".docx") || l == "docx"
  {
    assert "." + "docx" == ".docx";
    LastSegmentIs(l, "docx");
  }

  /** The allow-list test on the last segment of any (already lower-cased) text. */
  lemma {:induction false} LastSegmentAllowedIff(l: string)
    ensures ExtensionAllowed(LastSegment(l)) <==> AcceptedName(l)
  {
    LastSegmentIsPdf(l);
    LastSegmentIsDocx(l);
    ExtensionAllowedMeans(LastSegment(l));
  }

  /**
   * The extension check: the lower-cased name ends in ".pdf" or ".docx", or
   * is exactly "pdf" or "docx" (a name with no '.').
   */
  lemma ExtensionAllowedIff(name: string)
    ensures ExtensionAllowed(Extension(name)) <==> AcceptedName(Lower(name))
  {
    LastSegmentAllowedIff(Lower(name));
  }

  /** Upper-case extensions pass: "CV.PDF" is a valid PDF name. */
  lemma UpperCaseExtensionAccepted()
    ensures ValidateFile(FileInfo("CV.PDF", PdfMimeType, 1000, "")).valid
  {
    var l := Lower("CV.PDF");
    assert l == "cv.pdf";
    assert l[|l| - 4..] == ".pdf";
    ExtensionAllowedIff("CV.PDF");
  }

  /** A name ending in '.' has an empty extension and is refused. */
  lemma TrailingDotRejected(stem: string, mime: string, size: nat)
    requires size <= MaxFileSize && mime in AllowedFileTypes
    ensures ValidateFile(FileInfo(stem + ".", mime, size, "")).error == Some(TypeError)
  {
    assert Lower(stem + ".")[|stem|] == '.';
  }

  /** With no '.', the whole lower-cased name is the extension: a file named "pdf" passes. */
  lemma BareExtensionNameAccepted()
    ensures ValidateFile(FileInfo("pdf", PdfMimeType, 1, "")).valid
  {
    assert Lower("pdf") == "pdf";
    LastSegmentWithoutDot("pdf");
    ExtensionAllowedMeans("pdf");
  }

  /** The size bound is inclusive: exactly 10 MiB passes the size check, one more byte fails it. */
  lemma SizeBoundary(f: FileInfo)
    ensures f.size == MaxFileSize ==> ValidateFile(f).error != Some(SizeError)
    ensures f.size == MaxFileSize + 1 ==> ValidateFile(f).error == Some(SizeError)
  {
  }
}
