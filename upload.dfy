/**
 * The upload policy of the document-upload middleware: which files are
 * accepted (an extension allow-list, case-insensitive, and a size cap), which
 * folder a file is stored in (by form field) and the name it is stored under.
 */
module Upload {
  import opened Wrappers
  import opened Text

  const MaxFileSize: nat := 5 * 1024 * 1024
  const AllowedExtensions: seq<string> := [".jpg", ".jpeg", ".png", ".pdf"]
  const FilterRejection := "Only images and PDFs are allowed"
  /** The message multer gives a file over the size limit. */
  const SizeRejection := "File too large"
  const PanCardsDir := "uploads/pancards"
  const AadharCardsDir := "uploads/aadharcards"

  // ---------------------------------------------------------------------------
  // path.extname, as Node defines it for POSIX paths
  // ---------------------------------------------------------------------------

  function TrimTrailingSlashes(p: string): (r: string)
    ensures |r| <= |p| && r == p[..|r|]
    ensures r == [] || r[|r| - 1] != '/'
  {
    if p != [] && p[|p| - 1] == '/' then TrimTrailingSlashes(p[..|p| - 1]) else p
  }

  /** The text after the last `/`. */
  function LastSegment(p: string): (r: string)
    ensures |r| <= |p| && r == p[|p| - |r|..]
    ensures forall k :: 0 <= k < |r| ==> r[k] != '/'
  {
    if p == [] || p[|p| - 1] == '/' then [] else LastSegment(p[..|p| - 1]) + [p[|p| - 1]]
  }

  /** The index of the last `.`, if any. */
  function LastDot(s: string): (r: Option<nat>)
    ensures r.Some? ==> r.value < |s| && s[r.value] == '.'
    ensures r.Some? ==> forall k :: r.value < k < |s| ==> s[k] != '.'
    ensures r.None? ==> forall k :: 0 <= k < |s| ==> s[k] != '.'
  {
    if s == [] then None
    else if s[|s| - 1] == '.' then Some(|s| - 1)
    else LastDot(s[..|s| - 1])
  }

  /**
   * The extension of one path segment: from its last dot to its end, except that
   * a segment without a dot, one whose only dots lead it (`.pdf`, `..pdf` keeps
   * `.pdf` but `.pdf` alone has none) and the segment `..` have no extension.
   */
  function SegmentExtension(seg: string): string {
    match LastDot(seg)
    case None => ""
    case Some(i) => if i == 0 || seg == ".." then "" else seg[i..]
  }

  /** `path.extname(p)`: trailing slashes are ignored and only the last segment counts. */
  function Extname(p: string): (ext: string)
    ensures ext == "" || (ext[0] == '.' && forall k :: 1 <= k < |ext| ==> ext[k] != '.' && ext[k] != '/')
  {
    SegmentExtension(LastSegment(TrimTrailingSlashes(p)))
  }

  // ---------------------------------------------------------------------------
  // fileFilter, destination, filename and the size limit
  // ---------------------------------------------------------------------------

  predicate AllowedExtension(ext: string) {
    ToLower(ext) in AllowedExtensions
  }

  /** `fileFilter`: accepts a file exactly when its lower-cased extension is allowed. */
  function FileFilter(originalName: string): (r: Result<bool, string>)
    ensures r.Ok? <==> ToLower(Extname(originalName)) in AllowedExtensions
    ensures r.Ok? ==> r.value
    ensures r.Err? ==> r.error == FilterRejection
  {
    if AllowedExtension(Extname(originalName)) then Ok(true) else Err(FilterRejection)
  }

  /** `storage.destination`: Aadhaar documents and everything else go to different folders. */
  function Destination(fieldName: string): (dir: string)
    ensures dir == AadharCardsDir <==> fieldName == "aadharDocument"
    ensures dir == PanCardsDir <==> fieldName != "aadharDocument"
  {
    if fieldName == "aadharDocument" then AadharCardsDir else PanCardsDir
  }

  /** `storage.filename`: the upload time in milliseconds, a dash, then the original name. */
  function StoredName(timestamp: nat, originalName: string): (name: string)
    ensures |name| > |originalName| + 1
    ensures name[|name| - |originalName|..] == originalName
    ensures name[|name| - |originalName| - 1] == '-'
    ensures forall k :: 0 <= k < |name| - |originalName| - 1 ==> IsDigit(name[k])
  {
    NatToString(timestamp) + "-" + originalName
  }

  /** The digits before the dash read back as the upload time. */
  lemma StoredNameReadsTimestamp(timestamp: nat, originalName: string)
    ensures var name := StoredName(timestamp, originalName);
      DecimalValue(name[..|name| - |originalName| - 1]) == timestamp
  {
    var name := StoredName(timestamp, originalName);
    assert name[..|name| - |originalName| - 1] == NatToString(timestamp);
    DecimalOfNatToString(timestamp);
  }

  /** A file as multer sees it: the form field, the client's file name and the byte count. */
  datatype IncomingFile = IncomingFile(fieldName: string, originalName: string, size: nat)

  /** Where an accepted file ends up; `path` is what the handlers persist. */
  datatype StoredFile = StoredFile(destination: string, fileName: string, path: string)

  /**
   * The whole middleware for one file: the filter runs first, then the file is
   * streamed to its folder and refused if it exceeds the size limit.
   */
  function Admit(file: IncomingFile, timestamp: nat): (r: Result<StoredFile, string>)
    ensures r.Ok? <==> ToLower(Extname(file.originalName)) in AllowedExtensions && file.size <= 5242880
    ensures r.Err? && FileFilter(file.originalName).Err? ==> r.error == FilterRejection
    ensures r.Err? && FileFilter(file.originalName).Ok? ==> r.error == SizeRejection
    ensures r.Ok? ==> r.value.destination == Destination(file.fieldName)
    ensures r.Ok? ==> r.value.fileName == StoredName(timestamp, file.originalName)
    ensures r.Ok? ==> r.value.path == r.value.destination + "/" + r.value.fileName
  {
    if FileFilter(file.originalName).Err? then Err(FilterRejection)
    else if file.size > MaxFileSize then Err(SizeRejection)
    else
      var dir := Destination(file.fieldName);
      var name := StoredName(timestamp, file.originalName);
      Ok(StoredFile(dir, name, dir + "/" + name))
  }

  // ---------------------------------------------------------------------------
  // Properties of the policy
  // ---------------------------------------------------------------------------

  /** For a name without slashes, the extension runs from its last dot, unless that dot leads it. */
  lemma ExtnameOfPlainName(name: string, i: nat)
    requires '/' !in name && LastDot(name) == Some(i)
    ensures Extname(name) == if i == 0 || name == ".." then "" else name[i..]
  {
    assert name == [] || name[|name| - 1] != '/';
    LastSegmentWhole(name);
  }

  /** The last dot of a name whose final dot is followed by dot-free text. */
  lemma {:induction false} LastDotBeforeSuffix(prefix: string, suffix: string)
    requires '.' !in suffix
    ensures LastDot(prefix + "." + suffix) == Some(|prefix|)
  {
    var s := prefix + "." + suffix;
    if suffix == [] {
      assert s[|s| - 1] == '.';
    } else {
      var init := suffix[..|suffix| - 1];
      assert s[..|s| - 1] == prefix + "." + init;
      assert s[|s| - 1] == suffix[|suffix| - 1];
      LastDotBeforeSuffix(prefix, init);
    }
  }

  /** A non-empty name without slashes is its own last segment. */
  lemma ExtnameOfSegment(name: string)
    requires name != [] && '/' !in name
    ensures Extname(name) == SegmentExtension(name)
  {
    assert name[|name| - 1] in name;
    assert TrimTrailingSlashes(name) == name;
    LastSegmentWhole(name);
  }

  /** A segment's extension runs from its last dot, when something precedes that dot. */
  lemma SegmentExtensionOfStem(stem: string, ext: string)
    requires stem != [] && ext != [] && '.' !in ext
    ensures SegmentExtension(stem + "." + ext) == "." + ext
  {
    var name := stem + "." + ext;
    LastDotBeforeSuffix(stem, ext);
    assert |name| > 2;
    assert name[|stem|..] == "." + ext;
  }

  /** For a slash-free name, the extension is the text from its last dot, when something precedes that dot. */
  lemma ExtnameOfStem(stem: string, ext: string)
    requires stem != [] && '/' !in stem && ext != [] && '.' !in ext && '/' !in ext
    ensures Extname(stem + "." + ext) == "." + ext
  {
    assert '/' !in stem + "." + ext;
    ExtnameOfSegment(stem + "." + ext);
    SegmentExtensionOfStem(stem, ext);
  }

  lemma LowerCasePdf()
    ensures ToLower(".PDF") == ".pdf"
  {
    var low := ToLower(".PDF");
    assert |low| == 4;
    assert low[0] == LowerChar('.') && low[1] == LowerChar('P') && low[2] == LowerChar('D') && low[3] == LowerChar('F');
  }

  /** The allow-list ignores case: a name ending in an upper-case `.PDF` is accepted. */
  lemma UpperCaseExtensionAccepted(stem: string)
    requires stem != [] && '/' !in stem
    ensures FileFilter(stem + ".PDF").Ok?
  {
    var ext := "PDF";
    assert stem + ".PDF" == stem + "." + ext;
    ExtnameOfStem(stem, ext);
    LowerCasePdf();
    assert AllowedExtensions[3] == ".pdf";
  }

  /** A bare dot-file has no extension, so `.pdf` (or any `.<text>`) is refused. */
  lemma DotFileRejected(ext: string)
    requires '.' !in ext && '/' !in ext
    ensures Extname("." + ext) == ""
    ensures FileFilter("." + ext).Err?
  {
    var name := "." + ext;
    assert Extname(name) == "" by {
      assert name == "" + "." + ext;
      LastDotBeforeSuffix("", ext);
      assert '/' !in name;
      ExtnameOfSegment(name);
    }
    assert ToLower("") == "";
  }

  lemma NotInSlice(s: string, i: nat, j: nat, c: char)
    requires i <= j <= |s| && c !in s
    ensures c !in s[i..j]
  {
    forall k | 0 <= k < j - i ensures s[i..j][k] != c {
      assert s[i..j][k] == s[i + k];
    }
  }

  /** A name with no dot at all has no extension and is refused. */
  lemma NoDotRejected(name: string)
    requires '.' !in name
    ensures Extname(name) == ""
    ensures FileFilter(name).Err?
  {
    var trimmed := TrimTrailingSlashes(name);
    var seg := LastSegment(trimmed);
    assert seg == name[|trimmed| - |seg|..|trimmed|];
    NotInSlice(name, |trimmed| - |seg|, |trimmed|, '.');
    assert LastDot(seg).None?;
    assert Extname(name) == "";
    assert ToLower("") == "";
  }

  /** Prefixing with text that does not end in a slash leaves the trailing slashes where they were. */
  lemma {:induction false} TrimAfterPrefix(prefix: string, p: string)
    requires prefix != [] && prefix[|prefix| - 1] != '/'
    ensures TrimTrailingSlashes(prefix + p) == prefix + TrimTrailingSlashes(p)
  {
    if p == [] {
      assert prefix + p == prefix;
    } else if p[|p| - 1] == '/' {
      assert (prefix + p)[..|prefix + p| - 1] == prefix + p[..|p| - 1];
      TrimAfterPrefix(prefix, p[..|p| - 1]);
    }
  }

  lemma {:induction false} LastSegmentWhole(s: string)
    requires '/' !in s
    ensures LastSegment(s) == s
  {
    if s != [] {
      assert s[..|s| - 1] + [s[|s| - 1]] == s;
      LastSegmentWhole(s[..|s| - 1]);
    }
  }

  /** Prefixing with slash-free text changes the last segment only when the path has no slash. */
  lemma {:induction false} LastSegmentAfterPrefix(prefix: string, p: string)
    requires '/' !in prefix
    ensures '/' in p ==> LastSegment(prefix + p) == LastSegment(p)
    ensures '/' !in p ==> LastSegment(prefix + p) == prefix + p
  {
    if p == [] {
      assert prefix + p == prefix;
      LastSegmentWhole(prefix);
    } else {
      var init := p[..|p| - 1];
      var last := p[|p| - 1];
      assert init + [last] == p;
      assert (prefix + p)[..|prefix + p| - 1] == prefix + init;
      LastSegmentAfterPrefix(prefix, init);
      if last != '/' {
        assert '/' in p <==> '/' in init;
      }
    }
  }

  /** A prefix without dots moves the last dot but does not change which one it is. */
  lemma LastDotAfterPrefix(prefix: string, seg: string, i: nat)
    requires '.' !in prefix
    requires LastDot(seg) == Some(i)
    ensures LastDot(prefix + seg) == Some(|prefix| + i)
  {
    var s := prefix + seg;
    assert s[|prefix| + i] == '.';
    assert forall k :: |prefix| + i < k < |s| ==> s[k] == seg[k - |prefix|];
  }

  /** A dot-free prefix ending in a non-dot keeps a segment's extension. */
  lemma SegmentExtensionAfterPrefix(prefix: string, seg: string)
    requires prefix != [] && '.' !in prefix
    requires SegmentExtension(seg) != ""
    ensures SegmentExtension(prefix + seg) == SegmentExtension(seg)
  {
    var i := LastDot(seg).value;
    LastDotAfterPrefix(prefix, seg, i);
    assert (prefix + seg)[|prefix| + i..] == seg[i..];
    assert (prefix + seg)[0] != '.';
  }

  /** Storing a file under `<timestamp>-<name>` keeps the extension the filter checked. */
  lemma StoredNameKeepsExtension(timestamp: nat, originalName: string)
    requires Extname(originalName) != ""
    ensures Extname(StoredName(timestamp, originalName)) == Extname(originalName)
  {
    var digits := NatToString(timestamp);
    var prefix := digits + "-";
    assert StoredName(timestamp, originalName) == prefix + originalName;
    assert '/' !in prefix && '.' !in prefix by {
      forall k | 0 <= k < |prefix| ensures prefix[k] != '/' && prefix[k] != '.' {
        if k < |digits| {
          assert IsDigit(digits[k]);
        }
      }
    }
    var trimmed := TrimTrailingSlashes(originalName);
    TrimAfterPrefix(prefix, originalName);
    LastSegmentAfterPrefix(prefix, trimmed);
    if '/' !in trimmed {
      LastSegmentWhole(trimmed);
      SegmentExtensionAfterPrefix(prefix, trimmed);
    }
  }

  /** An accepted upload is stored under a name with the same, allowed, extension. */
  lemma AdmittedKeepsExtension(file: IncomingFile, timestamp: nat)
    requires Admit(file, timestamp).Ok?
    ensures Extname(Admit(file, timestamp).value.fileName) == Extname(file.originalName)
    ensures AllowedExtension(Extname(Admit(file, timestamp).value.fileName))
  {
    assert ToLower("") == "";
    StoredNameKeepsExtension(timestamp, file.originalName);
  }
}
