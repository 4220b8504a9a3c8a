/**
 Artifact bundles: the canonical form, and its encoding. JSON text, gzip and the digest are
 parameters: a `Format` that is assumed to be faithful.
 */
module Bundle {
  import opened Paths
  import opened Results
  import opened Sorting
  import opened TextSort

  datatype Error = InvalidPath | InvalidBundle | LimitExceeded | Corrupt | FormatUnsupported

  datatype Entry = Entry(key: string, value: string)

  /** The own entries of a JavaScript object, in the order it lists them. */
  type Entries = es: seq<Entry> | DistinctKeys(EntryKey, es) witness []

  function EntryKey(e: Entry): string {
    e.key
  }

  datatype File = File(path: string, content: string, language: string, runId: Option<string>)

  datatype PackageJson = PackageJson(dependencies: Entries, devDependencies: Entries, scripts: Entries)

  datatype Bundle = Bundle(files: seq<File>, packageJson: PackageJson)

  const LANGUAGES: set<string> :=
    {"ts", "tsx", "js", "css", "json", "html", "md"}

  const EXTENSIONS: seq<string> := [".ts", ".tsx", ".js", ".cjs", ".mjs", ".css", ".json", ".html", ".md"]

  // ----- paths -----

  predicate IsSpace(c: char) {
    c in {' ', '\t', '\n', '\r', '\U{0B}', '\U{0C}', '\U{A0}', '\U{1680}', '\U{2028}', '\U{2029}', '\U{202F}',
          '\U{205F}', '\U{3000}', '\U{FEFF}'}
    || '\U{2000}' <= c <= '\U{200A}'
  }

  /** Trimming would not change the text. */
  predicate Trimmed(s: string) {
    s == "" || (!IsSpace(s[0]) && !IsSpace(s[|s| - 1]))
  }

  predicate Blank(s: string) {
    forall i | 0 <= i < |s| :: IsSpace(s[i])
  }

  predicate SafeSegments(s: string) {
    forall i | 0 <= i < |Segments(s)| :: Segments(s)[i] !in {"", ".", ".."}
  }

  predicate HasSuffix(s: string, suffix: string) {
    |suffix| <= |s| && s[|s| - |suffix|..] == suffix
  }

  predicate HasDrive(s: string) {
    |s| >= 3 && ('a' <= s[0] <= 'z' || 'A' <= s[0] <= 'Z') && s[1] == ':' && s[2] == '/'
  }

  predicate SafePath(s: string) {
    && !HasDrive(s) && '\0' !in s && SafeSegments(s)
    && exists i | 0 <= i < |EXTENSIONS| :: HasSuffix(s, EXTENSIONS[i])
  }

  function CanonicalPath(input: string): Result<string, Error> {
    if input == "" || !Trimmed(input) || !SafePath(Slashed(input)) then Err(InvalidPath) else Ok(Slashed(input))
  }

  // ----- maps, run ids and files -----

  function CanonicalMap(es: Entries): Result<Entries, Error> {
    if exists e | e in es :: Blank(e.key) || Blank(e.value) then Err(InvalidBundle)
    else
      SortAscends(EntryKey, es);
      SortOfAscending(EntryKey, Sort(ByText(EntryKey), es));
      Ok(Sort(ByText(EntryKey), es))
  }

  predicate IsHex(c: char) {
    '0' <= c <= '9' || 'a' <= c <= 'f' || 'A' <= c <= 'F'
  }

  function LowerHex(c: char): (r: char)
    ensures IsHex(c) ==> IsHex(r) && !('A' <= r <= 'F')
  {
    if 'A' <= c <= 'F' then ((c as int) - ('A' as int) + ('a' as int)) as char else c
  }

  function Lower(s: string): (r: string)
    ensures |r| == |s| && forall i | 0 <= i < |s| :: r[i] == LowerHex(s[i])
  {
    if s == "" then "" else [LowerHex(s[0])] + Lower(s[1..])
  }

  predicate IsRunId(s: string) {
    |s| == 24 && forall i | 0 <= i < 24 :: IsHex(s[i])
  }

  function CanonicalRunId(id: Option<string>): Result<Option<string>, Error> {
    match id
    case None => Ok(None)
    case Some(s) => if IsRunId(s) then Ok(Some(Lower(s))) else Err(InvalidBundle)
  }

  function CanonicalFile(f: File): Result<File, Error> {
    if '\0' in f.content || f.language !in LANGUAGES then Err(InvalidBundle)
    else
      match CanonicalPath(f.path)
      case Err(e) => Err(e)
      case Ok(path) =>
        match CanonicalRunId(f.runId)
        case Err(e) => Err(e)
        case Ok(id) => Ok(File(path, f.content, f.language, id))
  }

  function FilePath(f: File): string {
    f.path
  }

  /** Every file in its canonical form, or the error of the first that has none. */
  function CanonicalFiles(fs: seq<File>): (r: Result<seq<File>, Error>)
    ensures r.Ok? <==> forall i | 0 <= i < |fs| :: CanonicalFile(fs[i]).Ok?
    ensures r.Ok? ==> |r.value| == |fs| && forall i | 0 <= i < |fs| :: r.value[i] == CanonicalFile(fs[i]).value
  {
    if fs == [] then Ok([])
    else
      match CanonicalFile(fs[0])
      case Err(e) => Err(e)
      case Ok(f) =>
        match CanonicalFiles(fs[1..])
        case Err(e) => Err(e)
        case Ok(rest) => Ok([f] + rest)
  }

  function CanonicalPackageJson(p: PackageJson): Result<PackageJson, Error> {
    match CanonicalMap(p.dependencies)
    case Err(e) => Err(e)
    case Ok(dependencies) =>
      match CanonicalMap(p.devDependencies)
      case Err(e) => Err(e)
      case Ok(devDependencies) =>
        match CanonicalMap(p.scripts)
        case Err(e) => Err(e)
        case Ok(scripts) => Ok(PackageJson(dependencies, devDependencies, scripts))
  }

  function Canonicalize(b: Bundle): Result<Bundle, Error> {
    match CanonicalFiles(b.files)
    case Err(e) => Err(e)
    case Ok(files) =>
      if !DistinctKeys(FilePath, files) then Err(InvalidPath)
      else
        match CanonicalPackageJson(b.packageJson)
        case Err(e) => Err(e)
        case Ok(packageJson) => Ok(Bundle(Sort(ByText(FilePath), files), packageJson))
  }

  // ----- canonicalization as the loops of the source -----

  /** The loop over a set of paths that finds a duplicate. */
  method PathsAreDistinct(files: seq<File>) returns (distinct: bool)
    ensures distinct == DistinctKeys(FilePath, files)
  {
    var paths: set<string> := {};
    for i := 0 to |files|
      invariant forall k | 0 <= k < i :: files[k].path in paths
      invariant forall p | p in paths :: exists k | 0 <= k < i :: files[k].path == p
      invariant DistinctKeys(FilePath, files[..i])
    {
      if files[i].path in paths {
        var k :| 0 <= k < i && files[k].path == files[i].path;
        assert FilePath(files[k]) == FilePath(files[i]);
        return false;
      }
      assert files[..i + 1] == files[..i] + [files[i]];
      paths := paths + {files[i].path};
    }
    assert files[..|files|] == files;
    return true;
  }

  method CanonicalizeBundle(input: Bundle) returns (result: Result<Bundle, Error>)
    ensures result == Canonicalize(input)
  {
    var files := CanonicalFiles(input.files);
    if files.Err? {
      return Err(files.error);
    }
    var distinct := PathsAreDistinct(files.value);
    if !distinct {
      return Err(InvalidPath);
    }
    var packageJson := CanonicalPackageJson(input.packageJson);
    if packageJson.Err? {
      return Err(packageJson.error);
    }
    result := Ok(Bundle(Sort(ByText(FilePath), files.value), packageJson.value));
  }

  // ----- canonicalization is idempotent -----

  lemma SlashesKeepTrim(s: string)
    ensures Trimmed(Slashed(s)) == Trimmed(s)
  {
  }

  lemma PathIsStable(input: string)
    requires CanonicalPath(input).Ok?
    ensures CanonicalPath(Slashed(input)) == CanonicalPath(input)
  {
    SlashedTwice(Slashed(input));
    SlashesKeepTrim(input);
  }

  lemma LowerTwice(s: string)
    requires IsRunId(s)
    ensures IsRunId(Lower(s)) && Lower(Lower(s)) == Lower(s)
  {
  }

  lemma FileIsStable(f: File)
    requires CanonicalFile(f).Ok?
    ensures CanonicalFile(CanonicalFile(f).value) == CanonicalFile(f)
  {
    PathIsStable(f.path);
    if f.runId.Some? {
      LowerTwice(f.runId.value);
    }
  }

  lemma MapIsStable(es: Entries)
    requires CanonicalMap(es).Ok?
    ensures Ascending(EntryKey, CanonicalMap(es).value) && CanonicalMap(CanonicalMap(es).value) == CanonicalMap(es)
  {
    SortAscends(EntryKey, es);
    SortKeepsItems(ByText(EntryKey), es);
    var sorted := Sort(ByText(EntryKey), es);
    forall e | e in sorted ensures !Blank(e.key) && !Blank(e.value) {
      assert e in multiset(sorted);
      assert e in es;
    }
    SortOfAscending(EntryKey, sorted);
  }

  /** The file is its own canonical form. */
  predicate IsCanonical(f: File) {
    CanonicalFile(f) == Ok(f)
  }

  lemma CanonicalFilesAreCanonical(fs: seq<File>, f: File)
    requires CanonicalFiles(fs).Ok? && f in CanonicalFiles(fs).value
    ensures IsCanonical(f)
  {
    var k :| 0 <= k < |CanonicalFiles(fs).value| && CanonicalFiles(fs).value[k] == f;
    FileIsStable(fs[k]);
  }

  lemma {:induction false} CanonicalStays(fs: seq<File>)
    requires forall f | f in fs :: IsCanonical(f)
    ensures CanonicalFiles(fs) == Ok(fs)
    decreases |fs|
  {
    if fs != [] {
      assert IsCanonical(fs[0]) && fs == [fs[0]] + fs[1..];
      CanonicalStays(fs[1..]);
    }
  }

  lemma FilesAreStable(fs: seq<File>)
    requires CanonicalFiles(fs).Ok? && DistinctKeys(FilePath, CanonicalFiles(fs).value)
    ensures var sorted := Sort(ByText(FilePath), CanonicalFiles(fs).value);
            && CanonicalFiles(sorted) == Ok(sorted)
            && DistinctKeys(FilePath, sorted) && Sort(ByText(FilePath), sorted) == sorted
  {
    var files := CanonicalFiles(fs).value;
    var sorted := Sort(ByText(FilePath), files);
    SortAscends(FilePath, files);
    SortOfAscending(FilePath, sorted);
    forall f | f in sorted ensures IsCanonical(f) {
      SortKeepsMembers(ByText(FilePath), files, f);
      CanonicalFilesAreCanonical(fs, f);
    }
    CanonicalStays(sorted);
  }

  lemma PackageJsonIsStable(p: PackageJson)
    requires CanonicalPackageJson(p).Ok?
    ensures CanonicalPackageJson(CanonicalPackageJson(p).value) == CanonicalPackageJson(p)
  {
    MapIsStable(p.dependencies);
    MapIsStable(p.devDependencies);
    MapIsStable(p.scripts);
  }

  /** A canonical bundle is its own canonical form. */
  lemma CanonicalizeIsIdempotent(b: Bundle)
    requires Canonicalize(b).Ok?
    ensures Canonicalize(Canonicalize(b).value) == Canonicalize(b)
  {
    FilesAreStable(b.files);
    PackageJsonIsStable(b.packageJson);
  }

  // ----- the encoding -----

  type Bytes = seq<bv8>

  /** JSON text in UTF-8, gzip and SHA-256, none of which is looked into. */
  datatype Format = Format(
    write: Bundle -> Bytes, parse: Bytes -> Option<Bundle>,
    gzip: Bytes -> Bytes, gunzip: Bytes -> Option<Bytes>, sha256: Bytes -> string)

  ghost predicate Faithful(f: Format) {
    && (forall b :: f.parse(f.write(b)) == Some(b))
    && (forall x :: f.gunzip(f.gzip(x)) == Some(x))
  }

  datatype Limits = Limits(maxCompressedBytes: int, maxUncompressedBytes: int, maxFiles: int)

  const MAX_SAFE_INTEGER: int := 9007199254740991

  predicate PositiveSafe(n: int) {
    0 < n <= MAX_SAFE_INTEGER
  }

  predicate ValidLimits(l: Limits) {
    PositiveSafe(l.maxCompressedBytes) && PositiveSafe(l.maxUncompressedBytes) && PositiveSafe(l.maxFiles)
  }

  const FORMAT_NAME := "open-v0.bundle+json+gzip"

  datatype Integrity = Integrity(
    format: string, formatVersion: int, sha256: string, uncompressedBytes: int, compressedBytes: int, fileCount: int)

  datatype Encoded = Encoded(compressedBytes: Bytes, manifest: Integrity)

  /** Encoding, once the bundle has been canonicalized; `count` is the number of files given. */
  function EncodeCanonical(f: Format, count: nat, canonical: Result<Bundle, Error>, l: Limits): Result<Encoded, Error> {
    if !ValidLimits(l) then Err(InvalidBundle)
    else if count > l.maxFiles then Err(LimitExceeded)
    else if canonical.Err? then Err(canonical.error)
    else
      var bytes := f.write(canonical.value);
      if |bytes| > l.maxUncompressedBytes then Err(LimitExceeded)
      else if |f.gzip(bytes)| > l.maxCompressedBytes then Err(LimitExceeded)
      else
        Ok(Encoded(f.gzip(bytes), Integrity(FORMAT_NAME, 1, f.sha256(bytes), |bytes|, |f.gzip(bytes)|,
                                            |canonical.value.files|)))
  }

  function Encode(f: Format, bundle: Bundle, l: Limits): Result<Encoded, Error> {
    EncodeCanonical(f, |bundle.files|, Canonicalize(bundle), l)
  }

  /** The bytes that were digested, checked against the manifest. */
  function Unpack(f: Format, compressed: Bytes, m: Integrity, l: Limits): Result<Bytes, Error> {
    if !ValidLimits(l) then Err(InvalidBundle)
    else if m.format != FORMAT_NAME || m.formatVersion != 1 then Err(FormatUnsupported)
    else if m.compressedBytes != |compressed| || m.compressedBytes > MAX_SAFE_INTEGER then Err(Corrupt)
    else if |compressed| > l.maxCompressedBytes then Err(LimitExceeded)
    else
      match f.gunzip(compressed)
      case None => Err(Corrupt)
      case Some(bytes) =>
        if |bytes| > l.maxUncompressedBytes then Err(LimitExceeded)
        else if m.uncompressedBytes != |bytes| || f.sha256(bytes) != m.sha256 then Err(Corrupt)
        else Ok(bytes)
  }

  function ParseBundle(f: Format, bytes: Bytes, maxFiles: int): Result<Bundle, Error> {
    match f.parse(bytes)
    case None => Err(Corrupt)
    case Some(parsed) =>
      if |parsed.files| > maxFiles then Err(LimitExceeded)
      else if Canonicalize(parsed).Err? then Err(Corrupt)
      else Canonicalize(parsed)
  }

  function Decode(f: Format, compressed: Bytes, m: Integrity, l: Limits): Result<Bundle, Error> {
    match Unpack(f, compressed, m, l)
    case Err(e) => Err(e)
    case Ok(bytes) => CheckCount(ParseBundle(f, bytes, l.maxFiles), m.fileCount)
  }

  function CheckCount(r: Result<Bundle, Error>, count: int): Result<Bundle, Error> {
    if r.Ok? && count != |r.value.files| then Err(Corrupt) else r
  }

  lemma CanonicalKeepsCount(b: Bundle)
    requires Canonicalize(b).Ok?
    ensures |Canonicalize(b).value.files| == |b.files|
  {
    var files := CanonicalFiles(b.files).value;
    SortKeepsItems(ByText(FilePath), files);
    assert |multiset(Sort(ByText(FilePath), files))| == |multiset(files)|;
  }

  lemma UnpackUndoesPacking(f: Format, count: nat, canonical: Result<Bundle, Error>, l: Limits)
    requires Faithful(f) && EncodeCanonical(f, count, canonical, l).Ok?
    ensures var e := EncodeCanonical(f, count, canonical, l).value;
            && canonical.Ok? && e.manifest.fileCount == |canonical.value.files| && count <= l.maxFiles
            && Unpack(f, e.compressedBytes, e.manifest, l) == Ok(f.write(canonical.value))
  {
    assert f.gunzip(f.gzip(f.write(canonical.value))) == Some(f.write(canonical.value));
  }

  lemma ParseUndoesWrite(f: Format, canonical: Bundle, maxFiles: int)
    requires Faithful(f) && Canonicalize(canonical) == Ok(canonical) && |canonical.files| <= maxFiles
    ensures ParseBundle(f, f.write(canonical), maxFiles) == Ok(canonical)
  {
    assert f.parse(f.write(canonical)) == Some(canonical);
  }

  /** Whatever encodes decodes, under the same limits, to its canonical form. */
  lemma DecodeUndoesEncode(f: Format, b: Bundle, l: Limits)
    requires Faithful(f) && Encode(f, b, l).Ok?
    ensures var e := Encode(f, b, l).value;
            Canonicalize(b).Ok? && Decode(f, e.compressedBytes, e.manifest, l) == Canonicalize(b)
  {
    UnpackUndoesPacking(f, |b.files|, Canonicalize(b), l);
    CanonicalizeIsIdempotent(b);
    CanonicalKeepsCount(b);
    ParseUndoesWrite(f, Canonicalize(b).value, l.maxFiles);
  }

  lemma UnpackChecksDigest(f: Format, x: Bytes, m: Integrity, l: Limits)
    requires Unpack(f, x, m, l).Ok?
    ensures f.sha256(Unpack(f, x, m, l).value) == m.sha256
  {
  }

  lemma DecodeParses(f: Format, x: Bytes, m: Integrity, l: Limits)
    requires Decode(f, x, m, l).Ok?
    ensures Unpack(f, x, m, l).Ok? && Decode(f, x, m, l) == ParseBundle(f, Unpack(f, x, m, l).value, l.maxFiles)
  {
  }

  /**
   A digest is decoded to one bundle only, whatever bytes and sizes come with it: two bundles under
   one digest would be a collision of the digest, in hand.
   */
  lemma DigestFixesTheBundle(f: Format, x: Bytes, m: Integrity, y: Bytes, n: Integrity, l: Limits)
    requires Decode(f, x, m, l).Ok? && Decode(f, y, n, l).Ok? && m.sha256 == n.sha256
    ensures Unpack(f, x, m, l).Ok? && Unpack(f, y, n, l).Ok?
    ensures var a, b := Unpack(f, x, m, l).value, Unpack(f, y, n, l).value;
            Decode(f, x, m, l) == Decode(f, y, n, l) || (a != b && f.sha256(a) == f.sha256(b))
  {
    DecodeParses(f, x, m, l);
    DecodeParses(f, y, n, l);
    UnpackChecksDigest(f, x, m, l);
    UnpackChecksDigest(f, y, n, l);
  }

  // ----- what the encoding does not depend on -----

  function PlainFile(f: File): File {
    File(Slashed(f.path), f.content, f.language, if f.runId.Some? then Some(Lower(f.runId.value)) else None)
  }

  function AllPlain(fs: seq<File>): (r: seq<File>)
    ensures |r| == |fs| && forall i | 0 <= i < |fs| :: r[i] == PlainFile(fs[i])
  {
    if fs == [] then [] else [PlainFile(fs[0])] + AllPlain(fs[1..])
  }

  /**
   Two presentations of one bundle: files in any order, written with either slash and run ids in
   either case, and map entries in any order.
   */
  ghost predicate SameContent(a: Bundle, b: Bundle) {
    && multiset(AllPlain(a.files)) == multiset(AllPlain(b.files))
    && multiset(a.packageJson.dependencies) == multiset(b.packageJson.dependencies)
    && multiset(a.packageJson.devDependencies) == multiset(b.packageJson.devDependencies)
    && multiset(a.packageJson.scripts) == multiset(b.packageJson.scripts)
  }

  lemma PlainFileIsEquivalent(f: File)
    ensures CanonicalFile(f).Ok? <==> CanonicalFile(PlainFile(f)).Ok?
    ensures CanonicalFile(f).Ok? ==> CanonicalFile(f) == Ok(PlainFile(f)) == CanonicalFile(PlainFile(f))
  {
    SlashesKeepTrim(f.path);
    SlashedTwice(Slashed(f.path));
    if f.runId.Some? {
      LowerKeepsRunId(f.runId.value);
      if IsRunId(f.runId.value) {
        LowerTwice(f.runId.value);
      }
    }
  }

  lemma LowerKeepsRunId(s: string)
    ensures IsRunId(Lower(s)) == IsRunId(s)
  {
    forall i | 0 <= i < |s| ensures IsHex(Lower(s)[i]) == IsHex(s[i]) {
      assert Lower(s)[i] == LowerHex(s[i]);
    }
  }

  /** Canonical files are the plain files, whenever all of them have a canonical form. */
  lemma CanonicalFilesArePlain(fs: seq<File>)
    ensures CanonicalFiles(fs).Ok? <==> CanonicalFiles(AllPlain(fs)).Ok?
    ensures CanonicalFiles(fs).Ok? ==> CanonicalFiles(fs).value == AllPlain(fs)
  {
    forall i | 0 <= i < |fs|
      ensures CanonicalFile(fs[i]).Ok? <==> CanonicalFile(AllPlain(fs)[i]).Ok?
      ensures CanonicalFile(fs[i]).Ok? ==> CanonicalFile(fs[i]).value == AllPlain(fs)[i]
    {
      PlainFileIsEquivalent(fs[i]);
    }
  }

  lemma FilesForgetOrder(a: seq<File>, b: seq<File>)
    requires multiset(a) == multiset(b) && CanonicalFiles(a).Ok?
    ensures CanonicalFiles(b).Ok?
  {
    forall i | 0 <= i < |b| ensures CanonicalFile(b[i]).Ok? {
      assert b[i] in multiset(a);
      var k :| 0 <= k < |a| && a[k] == b[i];
    }
  }

  lemma MapForgetsOrder(a: Entries, b: Entries)
    requires multiset(a) == multiset(b)
    ensures CanonicalMap(a) == CanonicalMap(b)
  {
    forall e ensures e in a <==> e in b {
      assert e in multiset(a) <==> e in multiset(b);
    }
    SortForgetsOrder(EntryKey, a, b);
  }

  lemma SameFiles(a: seq<File>, b: seq<File>)
    requires multiset(AllPlain(a)) == multiset(AllPlain(b)) && CanonicalFiles(a).Ok?
    requires DistinctKeys(FilePath, CanonicalFiles(a).value)
    ensures CanonicalFiles(b).Ok? && DistinctKeys(FilePath, CanonicalFiles(b).value)
    ensures Sort(ByText(FilePath), CanonicalFiles(b).value) == Sort(ByText(FilePath), CanonicalFiles(a).value)
  {
    CanonicalFilesArePlain(a);
    CanonicalFilesArePlain(b);
    FilesForgetOrder(AllPlain(a), AllPlain(b));
    SortForgetsOrder(FilePath, CanonicalFiles(a).value, CanonicalFiles(b).value);
  }

  lemma SamePackageJson(a: PackageJson, b: PackageJson)
    requires multiset(a.dependencies) == multiset(b.dependencies)
             && multiset(a.devDependencies) == multiset(b.devDependencies)
    requires multiset(a.scripts) == multiset(b.scripts)
    ensures CanonicalPackageJson(a) == CanonicalPackageJson(b)
  {
    MapForgetsOrder(a.dependencies, b.dependencies);
    MapForgetsOrder(a.devDependencies, b.devDependencies);
    MapForgetsOrder(a.scripts, b.scripts);
  }

  lemma OneWay(a: Bundle, b: Bundle)
    requires SameContent(a, b) && Canonicalize(a).Ok?
    ensures Canonicalize(b) == Canonicalize(a)
  {
    SameFiles(a.files, b.files);
    SamePackageJson(a.packageJson, b.packageJson);
  }

  lemma EncodingIsOfTheCanonical(f: Format, count: nat, a: Result<Bundle, Error>, b: Result<Bundle, Error>, l: Limits)
    requires a.Ok? ==> b == a
    requires b.Ok? ==> a == b
    ensures var x, y := EncodeCanonical(f, count, a, l), EncodeCanonical(f, count, b, l);
            (x.Ok? <==> y.Ok?) && (x.Ok? ==> y == x)
  {
  }

  /** Presentations of one bundle encode to identical bytes and manifests, or not at all. */
  lemma EncodingForgetsPresentation(f: Format, a: Bundle, b: Bundle, l: Limits)
    requires SameContent(a, b)
    ensures Encode(f, a, l).Ok? <==> Encode(f, b, l).Ok?
    ensures Encode(f, a, l).Ok? ==> Encode(f, b, l) == Encode(f, a, l)
  {
    SameCanonicalForm(a, b);
    EncodingIsOfTheCanonical(f, |a.files|, Canonicalize(a), Canonicalize(b), l);
  }

  /** They have the same canonical form, or neither has one. */
  lemma SameCanonicalForm(a: Bundle, b: Bundle)
    requires SameContent(a, b)
    ensures |a.files| == |b.files|
    ensures Canonicalize(a).Ok? <==> Canonicalize(b).Ok?
    ensures Canonicalize(a).Ok? ==> Canonicalize(b) == Canonicalize(a)
  {
    assert |multiset(AllPlain(a.files))| == |a.files| && |multiset(AllPlain(b.files))| == |b.files|;
    if Canonicalize(a).Ok? {
      OneWay(a, b);
    }
    if Canonicalize(b).Ok? {
      OneWay(b, a);
    }
  }
}
