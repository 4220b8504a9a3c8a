/** The generated project: file operations on its tree, and the package.json the server owns. */
module ProjectFiles {
  import opened Paths
  import opened Results
  import opened TextSort

  datatype Error = NotRelative | EscapesRoot | UnsupportedExtension | RequiredFile | BinaryContent

  datatype ProjectFile = ProjectFile(path: string, content: string, language: string, runId: Option<string>)

  datatype Operation = Write(path: string, content: string) | Delete(path: string)

  const REQUIRED_TEMPLATE_FILES: set<string> :=
    {"package.json", "index.html", "postcss.config.cjs", "tailwind.config.js", "src/main.tsx"}

  // ----- paths and languages -----

  predicate IsSeparator(c: char) {
    c == '/' || c == '\\'
  }

  /** Absolute for POSIX or for Windows. */
  predicate IsAbsolute(s: string) {
    && s != ""
    && (IsSeparator(s[0])
        || (|s| > 2 && ('a' <= s[0] <= 'z' || 'A' <= s[0] <= 'Z') && s[1] == ':' && IsSeparator(s[2])))
  }

  function NormalizeProjectPath(raw: string): Result<string, Error> {
    var normalized := Normalize(Slashed(raw));
    if IsAbsolute(raw) then Err(NotRelative)
    else if normalized in {".", ".."} || "../" <= normalized then Err(EscapesRoot)
    else Ok(normalized)
  }

  /** The last segment, not counting slashes at the end. */
  function BaseName(segments: seq<string>): string {
    if segments == [] then ""
    else if segments[|segments| - 1] != "" then segments[|segments| - 1]
    else BaseName(segments[..|segments| - 1])
  }

  /** From the last dot on; nothing when the only dot is the first character. */
  function DotSuffix(s: string): string {
    if s == "" then "" else if s[|s| - 1] == '.' then "." else
      var suffix := DotSuffix(s[..|s| - 1]);
      if suffix == "" then "" else suffix + [s[|s| - 1]]
  }

  function Extension(path: string): string {
    var base := BaseName(Segments(path));
    var suffix := DotSuffix(base);
    if base == ".." || suffix == base then "" else suffix
  }

  const SUPPORTED_EXTENSIONS: map<string, string> := map[
    ".ts" := "ts", ".tsx" := "tsx", ".js" := "js", ".cjs" := "js", ".mjs" := "js",
    ".css" := "css", ".json" := "json", ".html" := "html", ".md" := "md"]

  function InferLanguage(path: string): Result<string, Error> {
    var extension := Extension(path);
    if extension in SUPPORTED_EXTENSIONS then Ok(SUPPORTED_EXTENSIONS[extension]) else Err(UnsupportedExtension)
  }

  /** The normalized path of a file or operation, if its language is known. */
  function Locate(raw: string): Result<string, Error> {
    match NormalizeProjectPath(raw)
    case Err(e) => Err(e)
    case Ok(path) => if InferLanguage(path).Err? then Err(UnsupportedExtension) else Ok(path)
  }

  /** A path that any path located at it would have. */
  predicate Tidy(path: string) {
    Normalize(path) == path && '\\' !in path && InferLanguage(path).Ok?
  }

  lemma LocatedIsTidy(raw: string)
    requires Locate(raw).Ok?
    ensures Tidy(Locate(raw).value)
  {
    NormalizeIsIdempotent(Slashed(raw));
    NormalizeKeepsChars(Slashed(raw), '\\');
  }

  lemma TidyStaysWhereItIs(path: string)
    requires Tidy(path) && Locate(path).Ok?
    ensures Locate(path) == Ok(path)
  {
    SlashedTwice(path);
  }

  // ----- the tree: files in insertion order, at most one per path -----

  type Tree = seq<ProjectFile>

  predicate HasPath(t: Tree, path: string) {
    exists i | 0 <= i < |t| :: t[i].path == path
  }

  function PathOf(f: ProjectFile): string {
    f.path
  }

  predicate Unique(t: Tree) {
    DistinctKeys(PathOf, t)
  }

  function Put(t: Tree, f: ProjectFile): Tree {
    if t == [] then [f] else if t[0].path == f.path then [f] + t[1..] else [t[0]] + Put(t[1..], f)
  }

  function Remove(t: Tree, path: string): Tree {
    if t == [] then [] else if t[0].path == path then t[1..] else [t[0]] + Remove(t[1..], path)
  }

  function LoadFile(t: Tree, f: ProjectFile): Result<Tree, Error> {
    match Locate(f.path)
    case Err(e) => Err(e)
    case Ok(path) => Ok(Put(t, f.(path := path, language := InferLanguage(path).value)))
  }

  function Load(t: Tree, base: seq<ProjectFile>): Result<Tree, Error>
    decreases |base|
  {
    if base == [] then Ok(t)
    else
      match LoadFile(t, base[0])
      case Err(e) => Err(e)
      case Ok(next) => Load(next, base[1..])
  }

  function ApplyOperation(t: Tree, op: Operation, runId: Option<string>): Result<Tree, Error> {
    match Locate(op.path)
    case Err(e) => Err(e)
    case Ok(path) =>
      match op
      case Delete(_) => if path in REQUIRED_TEMPLATE_FILES then Err(RequiredFile) else Ok(Remove(t, path))
      case Write(_, content) =>
        if '\0' in content then Err(BinaryContent)
        else Ok(Put(t, ProjectFile(path, content, InferLanguage(path).value, runId)))
  }

  function ApplyAll(t: Tree, ops: seq<Operation>, runId: Option<string>): Result<Tree, Error>
    decreases |ops|
  {
    if ops == [] then Ok(t)
    else
      match ApplyOperation(t, ops[0], runId)
      case Err(e) => Err(e)
      case Ok(next) => ApplyAll(next, ops[1..], runId)
  }

  /** How the files are ordered at the end, which the model leaves open. */
  type Order = Tree -> Tree

  ghost predicate Permutes(order: Order) {
    forall t :: multiset(order(t)) == multiset(t)
  }

  function Applied(order: Order, base: seq<ProjectFile>, ops: seq<Operation>,
                   runId: Option<string>): Result<Tree, Error> {
    match Load([], base)
    case Err(e) => Err(e)
    case Ok(t) =>
      match ApplyAll(t, ops, runId)
      case Err(e) => Err(e)
      case Ok(final) => Ok(order(final))
  }

  method ApplyFileOperations(order: Order, baseFiles: seq<ProjectFile>, operations: seq<Operation>,
                             runId: Option<string>)
    returns (result: Result<Tree, Error>)
    ensures result == Applied(order, baseFiles, operations, runId)
  {
    var filesByPath: Tree := [];
    for i := 0 to |baseFiles|
      invariant Load([], baseFiles) == Load(filesByPath, baseFiles[i..])
    {
      assert baseFiles[i..][1..] == baseFiles[i + 1..];
      var loaded := LoadFile(filesByPath, baseFiles[i]);
      if loaded.Err? {
        return Err(loaded.error);
      }
      filesByPath := loaded.value;
    }
    for i := 0 to |operations|
      invariant Load([], baseFiles).Ok?
      invariant ApplyAll(Load([], baseFiles).value, operations, runId) == ApplyAll(filesByPath, operations[i..], runId)
    {
      assert operations[i..][1..] == operations[i + 1..];
      var applied := ApplyOperation(filesByPath, operations[i], runId);
      if applied.Err? {
        return Err(applied.error);
      }
      filesByPath := applied.value;
    }
    result := Ok(order(filesByPath));
  }

  // ----- what Put and Remove do -----

  lemma {:induction false} PutIsUpdate(t: Tree, f: ProjectFile)
    requires Unique(t)
    ensures Unique(Put(t, f)) && f in Put(t, f)
    ensures forall g | g in Put(t, f) :: g == f || (g in t && g.path != f.path)
    ensures forall g | g in t && g.path != f.path :: g in Put(t, f)
    decreases |t|
  {
    if t != [] && t[0].path != f.path {
      PutIsUpdate(t[1..], f);
      var r := Put(t[1..], f);
      forall j | 0 <= j < |r| ensures r[j].path != t[0].path {
        assert r[j] in r;
      }
    }
  }

  lemma {:induction false} RemoveIsDeletion(t: Tree, path: string)
    requires Unique(t)
    ensures Unique(Remove(t, path))
    ensures forall g :: g in Remove(t, path) <==> g in t && g.path != path
    decreases |t|
  {
    if t != [] {
      if t[0].path != path {
        RemoveIsDeletion(t[1..], path);
        var r := Remove(t[1..], path);
        forall j | 0 <= j < |r| ensures r[j].path != t[0].path {
          assert r[j] in r;
        }
      } else {
        forall g | g in t[1..] ensures g.path != path {
          var k :| 0 <= k < |t[1..]| && t[1..][k] == g;
          assert t[k + 1] == g;
        }
      }
    }
  }

  lemma {:induction false} PutKeepsPaths(t: Tree, f: ProjectFile)
    ensures HasPath(Put(t, f), f.path)
    ensures forall p :: HasPath(t, p) ==> HasPath(Put(t, f), p)
    decreases |t|
  {
    var r := Put(t, f);
    if t == [] {
      assert r[0].path == f.path;
    } else if t[0].path == f.path {
      assert r[0].path == f.path;
      forall p | HasPath(t, p) ensures HasPath(r, p) {
        var i :| 0 <= i < |t| && t[i].path == p;
        assert r[i].path == p;
      }
    } else {
      PutKeepsPaths(t[1..], f);
      var rest := Put(t[1..], f);
      assert forall i | 0 <= i < |rest| :: r[i + 1] == rest[i];
      var k :| 0 <= k < |rest| && rest[k].path == f.path;
      assert r[k + 1].path == f.path;
      forall p | HasPath(t, p) ensures HasPath(r, p) {
        var i :| 0 <= i < |t| && t[i].path == p;
        if i == 0 {
          assert r[0].path == p;
        } else {
          assert t[1..][i - 1].path == p;
          assert HasPath(rest, p);
          var j :| 0 <= j < |rest| && rest[j].path == p;
          assert r[j + 1].path == p;
        }
      }
    }
  }

  // ----- what a whole application keeps -----

  predicate TidyFile(f: ProjectFile) {
    Tidy(f.path) && InferLanguage(f.path) == Ok(f.language)
  }

  /** What every tree is: one file per path, tidy paths with their language, and text only. */
  ghost predicate TreeValid(t: Tree) {
    Unique(t) && forall f | f in t :: TidyFile(f)
  }

  ghost predicate TextOnly(files: seq<ProjectFile>) {
    forall f | f in files :: '\0' !in f.content
  }

  lemma LoadFileKeeps(t: Tree, f: ProjectFile)
    requires TreeValid(t) && LoadFile(t, f).Ok?
    ensures var r := LoadFile(t, f).value;
            && TreeValid(r) && HasPath(r, Locate(f.path).value) && (forall p :: HasPath(t, p) ==> HasPath(r, p))
            && (TextOnly(t) && '\0' !in f.content ==> TextOnly(r))
            && (forall g | g in r :: g in t || g.path == Locate(f.path).value)
  {
    LocatedIsTidy(f.path);
    var path := Locate(f.path).value;
    var g := f.(path := path, language := InferLanguage(path).value);
    PutIsUpdate(t, g);
    PutKeepsPaths(t, g);
  }

  lemma {:induction false} LoadKeeps(t: Tree, base: seq<ProjectFile>)
    requires TreeValid(t) && Load(t, base).Ok?
    ensures var r := Load(t, base).value;
            && TreeValid(r) && (forall p :: HasPath(t, p) ==> HasPath(r, p))
            && (forall f | f in base :: Locate(f.path).Ok? && HasPath(r, Locate(f.path).value))
            && (TextOnly(t) && TextOnly(base) ==> TextOnly(r))
    decreases |base|
  {
    if base != [] {
      LoadFileKeeps(t, base[0]);
      assert TextOnly(base) ==> '\0' !in base[0].content && TextOnly(base[1..]);
      LoadKeeps(LoadFile(t, base[0]).value, base[1..]);
    }
  }

  lemma ApplyOperationKeeps(t: Tree, op: Operation, runId: Option<string>)
    requires TreeValid(t) && ApplyOperation(t, op, runId).Ok?
    ensures var r := ApplyOperation(t, op, runId).value;
            && TreeValid(r) && (TextOnly(t) ==> TextOnly(r))
            && (forall p | p in REQUIRED_TEMPLATE_FILES :: HasPath(t, p) ==> HasPath(r, p))
            && (forall g | g in r :: g in t || g.path == Locate(op.path).value)
  {
    LocatedIsTidy(op.path);
    var path := Locate(op.path).value;
    match op
    case Delete(_) =>
      RemoveIsDeletion(t, path);
      RemoveKeepsOthers(t, path);
    case Write(_, content) =>
      var f := ProjectFile(path, content, InferLanguage(path).value, runId);
      PutIsUpdate(t, f);
      PutKeepsPaths(t, f);
  }

  lemma RemoveKeepsOthers(t: Tree, path: string)
    requires Unique(t)
    ensures forall p | p != path && HasPath(t, p) :: HasPath(Remove(t, path), p)
  {
    RemoveIsDeletion(t, path);
    forall p | p != path && HasPath(t, p) ensures HasPath(Remove(t, path), p) {
      var i :| 0 <= i < |t| && t[i].path == p;
      assert t[i] in Remove(t, path);
    }
  }

  lemma {:induction false} ApplyAllKeeps(t: Tree, ops: seq<Operation>, runId: Option<string>)
    requires TreeValid(t) && ApplyAll(t, ops, runId).Ok?
    ensures var r := ApplyAll(t, ops, runId).value;
            && TreeValid(r) && (TextOnly(t) ==> TextOnly(r))
            && (forall p | p in REQUIRED_TEMPLATE_FILES :: HasPath(t, p) ==> HasPath(r, p))
    decreases |ops|
  {
    if ops != [] {
      ApplyOperationKeeps(t, ops[0], runId);
      ApplyAllKeeps(ApplyOperation(t, ops[0], runId).value, ops[1..], runId);
    }
  }

  lemma OrderKeeps(order: Order, t: Tree)
    requires Permutes(order) && TreeValid(t)
    ensures TreeValid(order(t)) && (TextOnly(t) ==> TextOnly(order(t)))
    ensures forall f :: f in order(t) <==> f in t
    ensures forall p :: HasPath(t, p) <==> HasPath(order(t), p)
  {
    var r := order(t);
    assert multiset(r) == multiset(t);
    forall f ensures f in r <==> f in t {
      assert f in multiset(r) <==> f in multiset(t);
    }
    DistinctForgetsOrder(PathOf, t, r);
    forall p ensures HasPath(t, p) <==> HasPath(r, p) {
      if HasPath(t, p) {
        var i :| 0 <= i < |t| && t[i].path == p;
        assert t[i] in r;
      }
      if HasPath(r, p) {
        var i :| 0 <= i < |r| && r[i].path == p;
        assert r[i] in t;
      }
    }
  }

  /** A template file of the base is still there, whatever the operations were. */
  ghost predicate KeepsRequired(base: seq<ProjectFile>, t: Tree) {
    forall f | f in base && Locate(f.path).Ok? && Locate(f.path).value in REQUIRED_TEMPLATE_FILES ::
      HasPath(t, Locate(f.path).value)
  }

  /** Applying operations gives a valid tree that keeps the required template files of the base. */
  lemma AppliedIsValid(order: Order, base: seq<ProjectFile>, ops: seq<Operation>, runId: Option<string>)
    requires Permutes(order) && Applied(order, base, ops, runId).Ok?
    ensures var r := Applied(order, base, ops, runId).value;
            TreeValid(r) && KeepsRequired(base, r) && (TextOnly(base) ==> TextOnly(r))
  {
    LoadKeeps([], base);
    var loaded := Load([], base).value;
    ApplyAllKeeps(loaded, ops, runId);
    OrderKeeps(order, ApplyAll(loaded, ops, runId).value);
  }

  // ----- package.json -----

  datatype PackageJson = PackageJson(
    dependencies: map<string, string>, devDependencies: map<string, string>, scripts: map<string, string>)

  const REQUIRED_DEPENDENCIES: map<string, string> := map["react" := "^18.2.0", "react-dom" := "^18.2.0"]

  const REQUIRED_DEV_DEPENDENCIES: map<string, string> := map[
    "@types/react" := "^18.2.0", "@types/react-dom" := "^18.2.0", "@vitejs/plugin-react" := "^4.3.0",
    "autoprefixer" := "^10.4.20", "postcss" := "^8.4.49", "tailwindcss" := "^3.4.17",
    "typescript" := "^5.4.0", "vite" := "^5.4.0"]

  const SERVER_SCRIPTS: map<string, string> :=
    map["dev" := "vite", "type-check" := "tsc --noEmit", "build" := "tsc && vite build"]

  const NO_PACKAGE := PackageJson(map[], map[], map[])

  function MergeProjectPackageJson(
      base: Option<PackageJson>, dependencies: map<string, string>, devDependencies: map<string, string>): PackageJson
  {
    var before := base.GetOr(NO_PACKAGE);
    PackageJson(REQUIRED_DEPENDENCIES + before.dependencies + dependencies,
                REQUIRED_DEV_DEPENDENCIES + before.devDependencies + devDependencies,
                SERVER_SCRIPTS)
  }

  /** What the server guarantees of the package.json it tracks. */
  predicate ServerOwned(p: PackageJson) {
    && p.scripts == SERVER_SCRIPTS
    && REQUIRED_DEPENDENCIES.Keys <= p.dependencies.Keys && REQUIRED_DEV_DEPENDENCIES.Keys <= p.devDependencies.Keys
  }

  /** Exactly the names of all three, each with the model's version, else the one before, else the server's. */
  ghost predicate Prefers(
      merged: map<string, string>, generated: map<string, string>,
      before: map<string, string>, required: map<string, string>)
  {
    && merged.Keys == generated.Keys + before.Keys + required.Keys
    && (forall k | k in generated :: merged[k] == generated[k])
    && (forall k | k in before && k !in generated :: merged[k] == before[k])
    && (forall k | k in required && k !in before && k !in generated :: merged[k] == required[k])
  }

  /** A merge is server-owned, keeps what the model asked for, and otherwise what was there before. */
  lemma MergeIsServerOwned(base: Option<PackageJson>, dependencies: map<string, string>,
                           devDependencies: map<string, string>)
    ensures var p, before := MergeProjectPackageJson(base, dependencies, devDependencies), base.GetOr(NO_PACKAGE);
            && ServerOwned(p)
            && Prefers(p.dependencies, dependencies, before.dependencies, REQUIRED_DEPENDENCIES)
            && Prefers(p.devDependencies, devDependencies, before.devDependencies, REQUIRED_DEV_DEPENDENCIES)
  {
    var before := base.GetOr(NO_PACKAGE);
    MergePrefers(REQUIRED_DEPENDENCIES, before.dependencies, dependencies);
    MergePrefers(REQUIRED_DEV_DEPENDENCIES, before.devDependencies, devDependencies);
  }

  lemma MergePrefers(required: map<string, string>, before: map<string, string>, generated: map<string, string>)
    ensures Prefers(required + before + generated, generated, before, required)
  {
  }

  const PACKAGE_JSON := "package.json"

  lemma {:induction false} SuffixFromLastDot(stem: string, extension: string)
    requires extension != "" && extension[0] == '.' && '.' !in extension[1..]
    ensures DotSuffix(stem + extension) == extension
    decreases |extension|
  {
    var all := stem + extension;
    var n := |extension| - 1;
    assert all[..|all| - 1] == stem + extension[..n];
    if n == 0 {
      assert extension == ".";
    } else {
      assert extension[n] == extension[1..][n - 1];
      assert extension[..n][1..] == extension[1..][..n - 1];
      SuffixFromLastDot(stem, extension[..n]);
      assert extension == extension[..n] + [extension[n]];
    }
  }

  lemma OneSegmentIsNormal(s: string)
    requires '/' !in s && s !in {"", ".", ".."}
    ensures Normalize(s) == s && Segments(s) == [s]
  {
    FirstSegment(s, "");
    ResolvedIsNormal([s]);
  }

  lemma JsonNameIsPlain(stem: string)
    requires stem != "" && forall i | 0 <= i < |stem| :: stem[i] !in {'/', '\\', '.', ':'}
    ensures var name := stem + ".json";
            && name[0] != '.' && |name| > 5 && '/' !in name && '\\' !in name && ':' !in name
  {
    var name := stem + ".json";
    forall i | 0 <= i < |name| ensures name[i] !in {'/', '\\', ':'} {
      assert name[i] == if i < |stem| then stem[i] else ".json"[i - |stem|];
    }
  }

  lemma SegmentIsNamed(name: string, stem: string)
    requires name == stem + ".json" && stem != "" && Segments(name) == [name]
    ensures Extension(name) == ".json"
  {
    SuffixFromLastDot(stem, ".json");
    assert BaseName([name]) == name;
    assert |name| != |".json"|;
  }

  lemma PlainNameIsNormalized(name: string)
    requires |name| > 5 && name[0] != '.' && '/' !in name && '\\' !in name && ':' !in name
    ensures NormalizeProjectPath(name) == Ok(name) && Segments(name) == [name]
  {
    SlashedTwice(name);
    OneSegmentIsNormal(name);
    assert !("../" <= name);
  }

  lemma JsonNameIsLocated(stem: string)
    requires stem != "" && forall i | 0 <= i < |stem| :: stem[i] !in {'/', '\\', '.', ':'}
    ensures Locate(stem + ".json") == Ok(stem + ".json") && InferLanguage(stem + ".json") == Ok("json")
  {
    var name := stem + ".json";
    JsonNameIsPlain(stem);
    PlainNameIsNormalized(name);
    SegmentIsNamed(name, stem);
  }

  lemma PackageJsonIsLocated()
    ensures Locate(PACKAGE_JSON) == Ok(PACKAGE_JSON) && InferLanguage(PACKAGE_JSON) == Ok("json")
  {
    var stem := "package";
    assert PACKAGE_JSON == stem + ".json";
    JsonNameIsLocated(stem);
  }

  lemma LoadFileOfTidy(t: Tree, f: ProjectFile)
    requires TidyFile(f) && LoadFile(t, f).Ok?
    ensures LoadFile(t, f) == Ok(Put(t, f)) && Locate(f.path) == Ok(f.path)
  {
    TidyStaysWhereItIs(f.path);
  }

  lemma LoadFirst(t: Tree, files: Tree, f: ProjectFile)
    requires files != [] && files[0] == f && TidyFile(f) && Load(t, files).Ok?
    ensures Load(Put(t, f), files[1..]) == Load(t, files) && Locate(f.path) == Ok(f.path)
  {
    LoadFileOfTidy(t, f);
  }

  lemma MoveOver(t: Tree, files: Tree)
    requires files != [] && Unique(t + files)
    ensures t + files == (t + [files[0]]) + files[1..] && Put(t, files[0]) == t + [files[0]]
  {
    assert t + files == t + [files[0]] + files[1..];
    PutAtEnd(t, files[0], files[1..]);
  }

  /** A valid tree, loaded again, is itself, with every path confirmed as it is. */
  lemma {:induction false} LoadOfTidy(t: Tree, files: Tree)
    requires Unique(t + files) && (forall i | 0 <= i < |files| :: TidyFile(files[i]))
    requires Load(t, files).Ok?
    ensures Load(t, files).value == t + files
    ensures forall i | 0 <= i < |files| :: Locate(files[i].path) == Ok(files[i].path)
    decreases |files|
  {
    if files == [] {
      assert t + files == t;
    } else {
      MoveOver(t, files);
      LoadFirst(t, files, files[0]);
      LoadOfTidy(t + [files[0]], files[1..]);
      assert forall i | 0 < i < |files| :: files[i] == files[1..][i - 1];
    }
  }

  lemma {:induction false} PutAtEnd(t: Tree, f: ProjectFile, rest: Tree)
    requires Unique(t + [f] + rest)
    ensures Put(t, f) == t + [f]
    decreases |t|
  {
    if t != [] {
      var all := t + [f] + rest;
      assert PathOf(all[0]) != PathOf(all[|t|]);
      assert all[1..] == t[1..] + [f] + rest;
      forall i, j | 0 <= i < j < |all[1..]| ensures PathOf(all[1..][i]) != PathOf(all[1..][j]) {
        assert PathOf(all[i + 1]) != PathOf(all[j + 1]);
      }
      PutAtEnd(t[1..], f, rest);
    }
  }

  function WriteServerPackageJson(order: Order, files: Tree, content: string,
                                  runId: Option<string>): Result<Tree, Error> {
    Applied(order, files, [Write(PACKAGE_JSON, content)], runId)
  }

  /** Every path is the one it would be normalized to. */
  ghost predicate Normalized(t: Tree) {
    forall f | f in t :: NormalizeProjectPath(f.path) == Ok(f.path)
  }

  lemma ApplyOne(t: Tree, op: Operation, runId: Option<string>)
    ensures ApplyAll(t, [op], runId) == ApplyOperation(t, op, runId)
  {
    assert [op][1..] == [];
  }

  lemma WriteOne(t: Tree, path: string, language: string, content: string, runId: Option<string>)
    requires Locate(path) == Ok(path) && InferLanguage(path) == Ok(language)
    requires ApplyOperation(t, Write(path, content), runId).Ok?
    ensures ApplyOperation(t, Write(path, content), runId) == Ok(Put(t, ProjectFile(path, content, language, runId)))
  {
  }

  lemma LoadOfValid(files: Tree)
    requires TreeValid(files) && Load([], files).Ok?
    ensures Load([], files) == Ok(files) && forall f | f in files :: Locate(f.path) == Ok(f.path)
  {
    assert [] + files == files;
    assert forall i | 0 <= i < |files| :: files[i] in files;
    LoadOfTidy([], files);
  }

  lemma WritingIsPutting(order: Order, files: Tree, content: string, runId: Option<string>)
    requires TreeValid(files) && WriteServerPackageJson(order, files, content, runId).Ok?
    ensures WriteServerPackageJson(order, files, content, runId)
            == Ok(order(Put(files, ProjectFile(PACKAGE_JSON, content, "json", runId))))
    ensures forall f | f in files :: Locate(f.path) == Ok(f.path)
  {
    LoadOfValid(files);
    PackageJsonIsLocated();
    ApplyOne(files, Write(PACKAGE_JSON, content), runId);
    WriteOne(files, PACKAGE_JSON, "json", content, runId);
  }

  lemma LocatedIsNormalized(path: string)
    requires Locate(path) == Ok(path)
    ensures NormalizeProjectPath(path) == Ok(path)
  {
  }

  lemma PutPackageJson(files: Tree, f: ProjectFile)
    requires TreeValid(files) && f.path == PACKAGE_JSON && f.language == "json"
    ensures TreeValid(Put(files, f))
  {
    PackageJsonIsLocated();
    LocatedIsTidy(PACKAGE_JSON);
    PutIsUpdate(files, f);
  }

  /**
   Writing package.json into a valid tree replaces that one file, leaves all others, and confirms
   every path as normalized: a path that only looked relative before is refused here.
   */
  lemma PackageJsonIsWritten(order: Order, files: Tree, content: string, runId: Option<string>)
    requires Permutes(order) && TreeValid(files) && WriteServerPackageJson(order, files, content, runId).Ok?
    ensures var r := WriteServerPackageJson(order, files, content, runId).value;
            && TreeValid(r) && Normalized(r) && ProjectFile(PACKAGE_JSON, content, "json", runId) in r
            && (forall p :: HasPath(files, p) ==> HasPath(r, p))
            && (forall f | f in files && f.path != PACKAGE_JSON :: f in r)
            && (forall f | f in r && f.path != PACKAGE_JSON :: f in files)
  {
    var f := ProjectFile(PACKAGE_JSON, content, "json", runId);
    WritingIsPutting(order, files, content, runId);
    PutPackageJson(files, f);
    PutIsUpdate(files, f);
    PutKeepsPaths(files, f);
    OrderKeeps(order, Put(files, f));
    PackageJsonIsLocated();
    var r := WriteServerPackageJson(order, files, content, runId).value;
    forall g | g in r ensures NormalizeProjectPath(g.path) == Ok(g.path) {
      LocatedIsNormalized(g.path);
    }
  }
}
