/** The resource claims a task takes out before it may run (parallel-runtime.js, lines 1-44). */
module Claims {
  import opened Text

  datatype Mode = Read | Write

  datatype Claim = Claim(resource: string, mode: Mode)

  /** A task's `files` field: absent, a plain list, or a record of lists by intent. */
  datatype Files =
    | NoFiles
    | FileList(paths: seq<string>)
    | FileRecord(creates: seq<string>, modified: seq<string>, tests: seq<string>, deletes: seq<string>, readOnly: seq<string>)

  datatype Task = Task(id: string, files: Files, resources: seq<string>, deps: seq<string>)

  const WRITERS := "@writers"
  const UNKNOWN_SCOPE := "@unknown-scope"

  // ---------- paths ----------

  function ForwardSlashes(p: string): string {
    if p == "" then "" else [if p[0] == '\\' then '/' else p[0]] + ForwardSlashes(p[1..])
  }

  function DropSlashes(p: string): string {
    if p != "" && p[0] == '/' then DropSlashes(p[1..]) else p
  }

  predicate DotSlashed(p: string) {
    |p| >= 2 && p[0] == '.' && p[1] == '/'
  }

  /** Backslashes become slashes, then one leading "./" (with any further slashes) is dropped. */
  function NormalizePath(p: string): string {
    var q := ForwardSlashes(p);
    if DotSlashed(q) then DropSlashes(q[1..]) else q
  }

  /** The normalised, non-empty paths in first-occurrence order, each once. */
  function CleanPaths(paths: seq<string>): seq<string> {
    if paths == [] then []
    else
      var before := CleanPaths(paths[..|paths| - 1]);
      var p := NormalizePath(paths[|paths| - 1]);
      if p == "" || p in before then before else before + [p]
  }

  function WriteFiles(task: Task): seq<string> {
    match task.files
    case NoFiles => []
    case FileList(paths) => CleanPaths(paths)
    case FileRecord(creates, modified, tests, deletes, _) => CleanPaths(creates + modified + tests + deletes)
  }

  function ReadFiles(task: Task): seq<string> {
    match task.files
    case NoFiles => []
    case FileList(paths) => CleanPaths(paths)
    case FileRecord(_, _, _, _, readOnly) => CleanPaths(readOnly)
  }

  // ---------- the claim list, kept like an insertion-ordered JavaScript Map ----------

  predicate Has(claims: seq<Claim>, resource: string) {
    exists i :: 0 <= i < |claims| && claims[i].resource == resource
  }

  /** The mode stored for a resource already present is raised to Write in place. */
  function Raise(claims: seq<Claim>, resource: string): seq<Claim> {
    if claims == [] then []
    else [if claims[0].resource == resource then Claim(resource, Write) else claims[0]] + Raise(claims[1..], resource)
  }

  function Add(claims: seq<Claim>, claim: Claim): seq<Claim> {
    if !Has(claims, claim.resource) then claims + [claim]
    else if claim.mode == Write then Raise(claims, claim.resource)
    else claims
  }

  function AddAll(adds: seq<Claim>): seq<Claim> {
    if adds == [] then [] else Add(AddAll(adds[..|adds| - 1]), adds[|adds| - 1])
  }

  function FileKey(f: string): string {
    "file:" + f
  }

  function ResourceKey(x: string): string {
    "resource:" + x
  }

  function Prefixed(prefix: string, names: seq<string>, mode: Mode): seq<Claim> {
    seq(|names|, i requires 0 <= i < |names| => Claim(prefix + names[i], mode))
  }

  /** True when some written file lies on a shared surface (manifests, lock files, migrations, ...). */
  predicate SharedSurface(task: Task, surface: string -> bool) {
    exists f :: f in WriteFiles(task) && surface(f)
  }

  predicate UnknownScope(task: Task) {
    WriteFiles(task) == [] && ReadFiles(task) == [] && task.resources == []
  }

  function When(condition: bool, claim: Claim): seq<Claim> {
    if condition then [claim] else []
  }

  function FileAdds(task: Task): seq<Claim> {
    Prefixed("file:", ReadFiles(task), Read) + Prefixed("file:", WriteFiles(task), Write)
  }

  /** Every addition made to the claim list, in order. */
  function Adds(task: Task, surface: string -> bool): seq<Claim> {
    FileAdds(task)
    + Prefixed("resource:", task.resources, Write)
    + When(WriteFiles(task) != [], Claim(WRITERS, Read))
    + When(SharedSurface(task, surface), Claim(WRITERS, Write))
    + When(UnknownScope(task), Claim(UNKNOWN_SCOPE, Write))
    + When(UnknownScope(task), Claim(WRITERS, Write))
  }

  function ClaimsOf(task: Task, surface: string -> bool): seq<Claim> {
    AddAll(Adds(task, surface))
  }

  // ---------- the imperative construction ----------

  method AddPrefixed(start: seq<Claim>, ghost adds: seq<Claim>, prefix: string, names: seq<string>, mode: Mode)
    returns (claims: seq<Claim>)
    requires start == AddAll(adds)
    ensures claims == AddAll(adds + Prefixed(prefix, names, mode))
  {
    claims := start;
    assert adds + Prefixed(prefix, names, mode)[..0] == adds;
    for i := 0 to |names|
      invariant claims == AddAll(adds + Prefixed(prefix, names, mode)[..i])
    {
      claims := Add(claims, Claim(prefix + names[i], mode));
      ghost var all := adds + Prefixed(prefix, names, mode)[..i + 1];
      assert all[..|all| - 1] == adds + Prefixed(prefix, names, mode)[..i];
    }
    assert Prefixed(prefix, names, mode)[..|names|] == Prefixed(prefix, names, mode);
  }

  method AnySurface(files: seq<string>, surface: string -> bool) returns (found: bool)
    ensures found <==> exists f :: f in files && surface(f)
  {
    found := false;
    for i := 0 to |files|
      invariant found <==> exists k :: 0 <= k < i && surface(files[k])
    {
      if surface(files[i]) {
        found := true;
      }
    }
  }

  method AddWhen(start: seq<Claim>, ghost adds: seq<Claim>, condition: bool, claim: Claim) returns (claims: seq<Claim>)
    requires start == AddAll(adds)
    ensures claims == AddAll(adds + When(condition, claim))
  {
    claims := start;
    if condition {
      AddOne(adds, claim);
      claims := Add(claims, claim);
    } else {
      assert adds + [] == adds;
    }
  }

  method ClaimMap(task: Task, surface: string -> bool) returns (claims: seq<Claim>)
    ensures claims == ClaimsOf(task, surface)
  {
    var written, readOnly := WriteFiles(task), ReadFiles(task);
    claims := AddPrefixed([], [], "file:", readOnly, Read);
    assert [] + Prefixed("file:", readOnly, Read) == Prefixed("file:", readOnly, Read);
    claims := AddPrefixed(claims, Prefixed("file:", readOnly, Read), "file:", written, Write);
    ghost var adds := FileAdds(task);
    claims := AddPrefixed(claims, adds, "resource:", task.resources, Write);
    adds := adds + Prefixed("resource:", task.resources, Write);
    var shared := AnySurface(written, surface);
    var unknown := written == [] && readOnly == [] && |task.resources| == 0;
    claims := AddWhen(claims, adds, written != [], Claim(WRITERS, Read));
    adds := adds + When(written != [], Claim(WRITERS, Read));
    claims := AddWhen(claims, adds, shared, Claim(WRITERS, Write));
    adds := adds + When(shared, Claim(WRITERS, Write));
    claims := AddWhen(claims, adds, unknown, Claim(UNKNOWN_SCOPE, Write));
    adds := adds + When(unknown, Claim(UNKNOWN_SCOPE, Write));
    claims := AddWhen(claims, adds, unknown, Claim(WRITERS, Write));
  }

  lemma AddOne(adds: seq<Claim>, c: Claim)
    ensures AddAll(adds + [c]) == Add(AddAll(adds), c)
  {
    assert (adds + [c])[..|adds|] == adds;
  }

  // ---------- what the claims mean ----------

  /** A file counts for a task exactly when some listed path normalises to it; it is listed once. */
  lemma {:induction false} CleanPathsMeaning(paths: seq<string>)
    ensures forall f :: f in CleanPaths(paths) <==> f != "" && exists p :: p in paths && NormalizePath(p) == f
    ensures forall i, j :: 0 <= i < j < |CleanPaths(paths)| ==> CleanPaths(paths)[i] != CleanPaths(paths)[j]
  {
    if paths != [] {
      var before, last := paths[..|paths| - 1], paths[|paths| - 1];
      CleanPathsMeaning(before);
      assert paths == before + [last];
    }
  }

  lemma {:induction false} SlashedOnce(p: string)
    ensures '\\' !in ForwardSlashes(p)
    ensures '\\' !in p ==> ForwardSlashes(p) == p
  {
    if p != "" {
      SlashedOnce(p[1..]);
    }
  }

  lemma {:induction false} DropSlashesIsSuffix(p: string)
    ensures |DropSlashes(p)| <= |p| && DropSlashes(p) == p[|p| - |DropSlashes(p)|..]
    ensures p != "" && p[0] == '/' ==> |DropSlashes(p)| < |p|
  {
    if p != "" && p[0] == '/' {
      DropSlashesIsSuffix(p[1..]);
    }
  }

  /** Normalising is not idempotent: one leading "./" is dropped, however many there are. A second
      normalisation changes the result exactly when the path, its backslashes turned, begins with "./"
      and what follows those slashes begins with "./" again. */
  lemma NormalizeTwiceIff(p: string)
    ensures var q := ForwardSlashes(p);
      NormalizePath(NormalizePath(p)) != NormalizePath(p) <==> DotSlashed(q) && DotSlashed(DropSlashes(q[1..]))
  {
    var q, n := ForwardSlashes(p), NormalizePath(p);
    SlashedOnce(p);
    if DotSlashed(q) {
      DropSlashesIsSuffix(q[1..]);
    }
    SlashedOnce(n);
    if DotSlashed(n) {
      DropSlashesIsSuffix(n[1..]);
    }
  }

  /** So two spellings of one file can count as two files: "././a" and "./a" normalise apart. */
  lemma SpellingsApart()
    ensures NormalizePath("././a") == "./a" && NormalizePath("./a") == "a" && NormalizePath(".\\a") == "a"
  {
    SlashedOnce("././a");
    SlashedOnce("./a");
    assert ForwardSlashes("a") == "a" && ForwardSlashes("\\a") == "/" + ForwardSlashes("a");
    assert ForwardSlashes(".\\a") == "." + ForwardSlashes("\\a");
    assert "././a"[1..] == "/./a" && "/./a"[1..] == "./a" && "./a"[1..] == "/a" && "/a"[1..] == "a";
  }

  /** What normalising is: backslashes turned, and then the path from position `k` on, where "./" and
      any further slashes at its start are behind. */
  lemma NormalizePathMeaning(p: string) returns (q: string, k: nat)
    ensures |q| == |p| && forall i :: 0 <= i < |p| ==> q[i] == if p[i] == '\\' then '/' else p[i]
    ensures k <= |q| && NormalizePath(p) == q[k..]
    ensures k == 0 ==> !("./" <= q)
    ensures k > 0 ==> k >= 2 && q[0] == '.' && (forall i :: 1 <= i < k ==> q[i] == '/') && (k < |q| ==> q[k] != '/')
  {
    q, k := ForwardSlashes(p), 0;
    SlashedMeaning(p);
    if DotSlashed(q) {
      k := SlashesDropped(q[1..]);
      k := k + 1;
    }
  }

  lemma {:induction false} SlashedMeaning(p: string)
    ensures var q := ForwardSlashes(p);
      |q| == |p| && forall i :: 0 <= i < |p| ==> q[i] == if p[i] == '\\' then '/' else p[i]
  {
    if p != "" {
      SlashedMeaning(p[1..]);
    }
  }

  lemma {:induction false} SlashesDropped(p: string) returns (k: nat)
    ensures k <= |p| && DropSlashes(p) == p[k..]
    ensures (forall i :: 0 <= i < k ==> p[i] == '/') && (k < |p| ==> p[k] != '/')
  {
    k := 0;
    if p != "" && p[0] == '/' {
      k := SlashesDropped(p[1..]);
      k := k + 1;
    }
  }

  // ---------- what a task says it touches, read off its lists ----------

  /** Some listed path is the file `f`. */
  predicate Lists(paths: seq<string>, f: string) {
    f != "" && exists p :: p in paths && NormalizePath(p) == f
  }

  /** The files a task creates, modifies, tests or deletes; a plain list may be written and read. */
  predicate WritesFile(task: Task, f: string) {
    match task.files
    case NoFiles => false
    case FileList(paths) => Lists(paths, f)
    case FileRecord(creates, modified, tests, deletes, _) =>
      Lists(creates, f) || Lists(modified, f) || Lists(tests, f) || Lists(deletes, f)
  }

  predicate ReadsFile(task: Task, f: string) {
    match task.files
    case NoFiles => false
    case FileList(paths) => Lists(paths, f)
    case FileRecord(_, _, _, _, readOnly) => Lists(readOnly, f)
  }

  /** It says neither what it writes nor what it reads nor which resources it needs. */
  ghost predicate Unscoped(task: Task) {
    task.resources == [] && forall f :: !WritesFile(task, f) && !ReadsFile(task, f)
  }

  ghost predicate WritesSome(task: Task) {
    exists f :: WritesFile(task, f)
  }

  ghost predicate WritesShared(task: Task, surface: string -> bool) {
    exists f :: WritesFile(task, f) && surface(f)
  }

  lemma FilesMeaning(task: Task, f: string)
    ensures f in WriteFiles(task) <==> WritesFile(task, f)
    ensures f in ReadFiles(task) <==> ReadsFile(task, f)
  {
    match task.files
    case NoFiles =>
    case FileList(paths) => CleanPathsMeaning(paths);
    case FileRecord(creates, modified, tests, deletes, readOnly) =>
      CleanPathsMeaning(creates + modified + tests + deletes);
      CleanPathsMeaning(readOnly);
  }

  lemma ScopeMeaning(task: Task, surface: string -> bool)
    ensures WriteFiles(task) != [] <==> WritesSome(task)
    ensures SharedSurface(task, surface) <==> WritesShared(task, surface)
    ensures UnknownScope(task) <==> Unscoped(task)
  {
    forall f ensures (f in WriteFiles(task) <==> WritesFile(task, f)) && (f in ReadFiles(task) <==> ReadsFile(task, f)) {
      FilesMeaning(task, f);
    }
    EmptyOrMember(WriteFiles(task));
    EmptyOrMember(ReadFiles(task));
  }

  predicate DistinctResources(claims: seq<Claim>) {
    forall i, j :: 0 <= i < j < |claims| ==> claims[i].resource != claims[j].resource
  }

  /** The resources a task must claim, stated without reference to insertion order. */
  ghost predicate Expected(task: Task, surface: string -> bool, r: string) {
    || (exists f :: (WritesFile(task, f) || ReadsFile(task, f)) && r == FileKey(f))
    || (exists x :: x in task.resources && r == ResourceKey(x))
    || (r == WRITERS && (WritesSome(task) || Unscoped(task)))
    || (r == UNKNOWN_SCOPE && Unscoped(task))
  }

  ghost function ExpectedMode(task: Task, surface: string -> bool, r: string): Mode {
    if || (exists f :: WritesFile(task, f) && r == FileKey(f))
       || (exists x :: x in task.resources && r == ResourceKey(x))
       || (r == WRITERS && (WritesShared(task, surface) || Unscoped(task)))
       || r == UNKNOWN_SCOPE
    then Write else Read
  }

  lemma {:induction false} RaiseMeaning(claims: seq<Claim>, r: string)
    ensures |Raise(claims, r)| == |claims|
    ensures forall i :: 0 <= i < |claims| ==>
      Raise(claims, r)[i] == if claims[i].resource == r then Claim(r, Write) else claims[i]
  {
    if claims != [] {
      RaiseMeaning(claims[1..], r);
    }
  }

  lemma {:induction false} AddAllMember(adds: seq<Claim>, d: Claim)
    ensures d in AddAll(adds) <==> d in adds && (d.mode == Read ==> Claim(d.resource, Write) !in adds)
    decreases |adds|
  {
    if adds != [] {
      var p, c := adds[..|adds| - 1], adds[|adds| - 1];
      assert adds == p + [c];
      AddAllMember(p, d);
      AddAllMember(p, Claim(c.resource, Read));
      AddAllMember(p, Claim(c.resource, Write));
      HasMode(AddAll(p), c.resource);
      AddMember(AddAll(p), c, d);
    }
  }

  lemma {:induction false} AddAllDistinct(adds: seq<Claim>)
    ensures DistinctResources(AddAll(adds))
  {
    if adds != [] {
      AddAllDistinct(adds[..|adds| - 1]);
      RaiseMeaning(AddAll(adds[..|adds| - 1]), adds[|adds| - 1].resource);
    }
  }

  /** However often and in whatever order a resource is added, it ends up claimed once,
      and for writing exactly when some addition asked for writing. */
  lemma AddAllMeaning(adds: seq<Claim>)
    ensures DistinctResources(AddAll(adds))
    ensures forall c :: c in AddAll(adds) <==>
      c in adds && (c.mode == Read ==> Claim(c.resource, Write) !in adds)
    ensures forall r :: Has(AddAll(adds), r) <==> Claim(r, Read) in adds || Claim(r, Write) in adds
  {
    AddAllDistinct(adds);
    forall d ensures d in AddAll(adds) <==> d in adds && (d.mode == Read ==> Claim(d.resource, Write) !in adds) {
      AddAllMember(adds, d);
    }
    forall r ensures Has(AddAll(adds), r) <==> Claim(r, Read) in adds || Claim(r, Write) in adds {
      HasMode(AddAll(adds), r);
    }
  }

  lemma HasMode(claims: seq<Claim>, r: string)
    ensures Has(claims, r) <==> Claim(r, Read) in claims || Claim(r, Write) in claims
  {
    if Has(claims, r) {
      var i :| 0 <= i < |claims| && claims[i].resource == r;
      match claims[i].mode
      case Read => assert claims[i] == Claim(r, Read);
      case Write => assert claims[i] == Claim(r, Write);
    }
  }

  lemma AddMember(claims: seq<Claim>, c: Claim, d: Claim)
    ensures d in Add(claims, c) <==>
      if !Has(claims, c.resource) then d in claims || d == c
      else if c.mode == Write && d.resource == c.resource then d.mode == Write
      else d in claims
  {
    RaiseMeaning(claims, c.resource);
    var a := Add(claims, c);
    if Has(claims, c.resource) && c.mode == Write {
      if d in a {
        var i :| 0 <= i < |a| && a[i] == d;
        assert claims[i] == claims[i];
      }
      if d in claims && d.resource != c.resource {
        var i :| 0 <= i < |claims| && claims[i] == d;
        assert a[i] == d;
      }
      var k :| 0 <= k < |claims| && claims[k].resource == c.resource;
      assert a[k] == Claim(c.resource, Write);
    }
  }

  lemma PrefixedMember(prefix: string, names: seq<string>, mode: Mode, c: Claim)
    ensures c in Prefixed(prefix, names, mode) <==> c.mode == mode && exists n :: n in names && c.resource == prefix + n
  {
    var p := Prefixed(prefix, names, mode);
    if c in p {
      var i :| 0 <= i < |p| && p[i] == c;
      assert names[i] in names;
    }
    if c.mode == mode && exists n :: n in names && c.resource == prefix + n {
      var n :| n in names && c.resource == prefix + n;
      var i :| 0 <= i < |names| && names[i] == n;
      assert p[i] == c;
    }
  }

  /** "file:", "resource:" and the two "@" names never collide, and a prefixed name is read back uniquely. */
  lemma KeysApart()
    ensures forall f, x {:trigger FileKey(f), ResourceKey(x)} :: FileKey(f) != ResourceKey(x)
    ensures forall f {:trigger FileKey(f)} :: FileKey(f) != WRITERS && FileKey(f) != UNKNOWN_SCOPE
    ensures forall x {:trigger ResourceKey(x)} :: ResourceKey(x) != WRITERS && ResourceKey(x) != UNKNOWN_SCOPE
    ensures forall f, g :: FileKey(f) == FileKey(g) ==> f == g
    ensures forall x, y :: ResourceKey(x) == ResourceKey(y) ==> x == y
    ensures WRITERS != UNKNOWN_SCOPE
  {
    forall f: string ensures FileKey(f)[0] == 'f' && FileKey(f)[5..] == f {}
    forall x: string ensures ResourceKey(x)[0] == 'r' && ResourceKey(x)[9..] == x {}
    assert WRITERS[0] == '@' && UNKNOWN_SCOPE[0] == '@' && WRITERS[1] == 'w' && UNKNOWN_SCOPE[1] == 'u';
  }

  lemma FileKeysMeaning(task: Task, r: string)
    ensures (exists f :: f in ReadFiles(task) && r == FileKey(f)) <==> exists f :: ReadsFile(task, f) && r == FileKey(f)
    ensures (exists f :: f in WriteFiles(task) && r == FileKey(f)) <==> exists f :: WritesFile(task, f) && r == FileKey(f)
  {
    forall f ensures (f in WriteFiles(task) <==> WritesFile(task, f)) && (f in ReadFiles(task) <==> ReadsFile(task, f)) {
      FilesMeaning(task, f);
    }
  }

  lemma AddsMember(task: Task, surface: string -> bool, c: Claim)
    ensures c in Adds(task, surface) <==>
      || (c.mode == Read && exists f :: ReadsFile(task, f) && c.resource == FileKey(f))
      || (c.mode == Write && exists f :: WritesFile(task, f) && c.resource == FileKey(f))
      || (c.mode == Write && exists x :: x in task.resources && c.resource == ResourceKey(x))
      || (c == Claim(WRITERS, Read) && WritesSome(task))
      || (c == Claim(WRITERS, Write) && (WritesShared(task, surface) || Unscoped(task)))
      || (c == Claim(UNKNOWN_SCOPE, Write) && Unscoped(task))
  {
    ScopeMeaning(task, surface);
    FileKeysMeaning(task, c.resource);
    PrefixedMember("file:", ReadFiles(task), Read, c);
    PrefixedMember("file:", WriteFiles(task), Write, c);
    PrefixedMember("resource:", task.resources, Write, c);
  }

  /** The claim list claims exactly the expected resources, each once, each in the expected mode. */
  lemma ClaimsMeaning(task: Task, surface: string -> bool)
    ensures DistinctResources(ClaimsOf(task, surface))
    ensures forall c :: c in ClaimsOf(task, surface) <==>
      Expected(task, surface, c.resource) && c.mode == ExpectedMode(task, surface, c.resource)
    ensures forall r :: Has(ClaimsOf(task, surface), r) <==> Expected(task, surface, r)
  {
    var adds := Adds(task, surface);
    AddAllMeaning(adds);
    forall c: Claim
      ensures c in ClaimsOf(task, surface) <==>
        Expected(task, surface, c.resource) && c.mode == ExpectedMode(task, surface, c.resource)
    {
      ClaimMember(task, surface, c);
    }
    forall r ensures Has(ClaimsOf(task, surface), r) <==> Expected(task, surface, r) {
      HasMode(ClaimsOf(task, surface), r);
      ClaimMember(task, surface, Claim(r, Read));
      ClaimMember(task, surface, Claim(r, Write));
    }
  }

  lemma ClaimMember(task: Task, surface: string -> bool, c: Claim)
    ensures c in ClaimsOf(task, surface) <==>
      Expected(task, surface, c.resource) && c.mode == ExpectedMode(task, surface, c.resource)
  {
    var r := c.resource;
    var adds := Adds(task, surface);
    AddAllMeaning(adds);
    AddsByMode(task, surface, r);
  }

  lemma AddsByMode(task: Task, surface: string -> bool, r: string)
    ensures var adds := Adds(task, surface);
      && (Claim(r, Write) in adds <==> Expected(task, surface, r) && ExpectedMode(task, surface, r) == Write)
      && (Claim(r, Read) in adds && Claim(r, Write) !in adds <==>
          Expected(task, surface, r) && ExpectedMode(task, surface, r) == Read)
  {
    AddsMember(task, surface, Claim(r, Read));
    AddsMember(task, surface, Claim(r, Write));
    KeysApart();
  }

  // ---------- compatibility of two claim lists, and what it says about files ----------

  /** Two claim lists can be held together: a shared resource is only read by both. */
  predicate Compatible(a: seq<Claim>, b: seq<Claim>) {
    forall c, d :: c in a && d in b && c.resource == d.resource ==> c.mode == Read && d.mode == Read
  }

  /** A task of unknown scope, or one writing a shared surface, excludes every other writer. */
  ghost predicate ExcludesWriters(task: Task, surface: string -> bool) {
    Unscoped(task) || WritesShared(task, surface)
  }

  ghost predicate MayWrite(task: Task) {
    WritesSome(task) || Unscoped(task)
  }

  /** The promise about two tasks in progress together, in terms of what they list: no file one of them
      writes is written or read by the other, and no explicit resource is shared. */
  ghost predicate SafeTogether(a: Task, b: Task, surface: string -> bool) {
    && (forall f :: WritesFile(a, f) ==> !WritesFile(b, f) && !ReadsFile(b, f))
    && (forall f :: WritesFile(b, f) ==> !ReadsFile(a, f))
    && (forall x :: x in a.resources ==> x !in b.resources)
    && (ExcludesWriters(a, surface) ==> !MayWrite(b))
    && (ExcludesWriters(b, surface) ==> !MayWrite(a))
  }

  lemma FileClaim(task: Task, surface: string -> bool, f: string)
    ensures WritesFile(task, f) ==> Claim(FileKey(f), Write) in ClaimsOf(task, surface)
    ensures ReadsFile(task, f) ==>
      Claim(FileKey(f), Read) in ClaimsOf(task, surface) || Claim(FileKey(f), Write) in ClaimsOf(task, surface)
  {
    ClaimMember(task, surface, Claim(FileKey(f), Write));
    ClaimMember(task, surface, Claim(FileKey(f), Read));
  }

  lemma ScopeClaim(task: Task, surface: string -> bool)
    ensures ExcludesWriters(task, surface) ==> Claim(WRITERS, Write) in ClaimsOf(task, surface)
    ensures MayWrite(task) ==>
      Claim(WRITERS, Read) in ClaimsOf(task, surface) || Claim(WRITERS, Write) in ClaimsOf(task, surface)
  {
    ClaimMember(task, surface, Claim(WRITERS, Write));
    ClaimMember(task, surface, Claim(WRITERS, Read));
  }

  /** Claims are compatible exactly when the two tasks are safe together: the claim language
      neither misses a conflict nor forbids a harmless pair. */
  lemma CompatibleIffSafe(a: Task, b: Task, surface: string -> bool)
    ensures Compatible(ClaimsOf(a, surface), ClaimsOf(b, surface)) <==> SafeTogether(a, b, surface)
  {
    if Compatible(ClaimsOf(a, surface), ClaimsOf(b, surface)) {
      CompatibleIsSafe(a, b, surface);
    }
    if SafeTogether(a, b, surface) {
      SafeIsCompatible(a, b, surface);
    }
  }

  lemma CompatibleIsSafe(a: Task, b: Task, surface: string -> bool)
    requires Compatible(ClaimsOf(a, surface), ClaimsOf(b, surface))
    ensures SafeTogether(a, b, surface)
  {
    forall f ensures WritesFile(a, f) ==> !WritesFile(b, f) && !ReadsFile(b, f)
             ensures WritesFile(b, f) ==> !ReadsFile(a, f) {
      FileClaim(a, surface, f);
      FileClaim(b, surface, f);
    }
    forall x | x in a.resources ensures x !in b.resources {
      ClaimMember(a, surface, Claim(ResourceKey(x), Write));
      ClaimMember(b, surface, Claim(ResourceKey(x), Write));
    }
    ScopeClaim(a, surface);
    ScopeClaim(b, surface);
  }

  lemma SafeLists(a: Task, b: Task, surface: string -> bool, x: seq<Claim>, y: seq<Claim>)
    requires SafeTogether(a, b, surface)
    requires forall c :: c in x ==> Expected(a, surface, c.resource) && c.mode == ExpectedMode(a, surface, c.resource)
    requires forall c :: c in y ==> Expected(b, surface, c.resource) && c.mode == ExpectedMode(b, surface, c.resource)
    ensures Compatible(x, y)
  {
    forall c, d | c in x && d in y && c.resource == d.resource ensures c.mode == Read && d.mode == Read {
      SafeModes(a, b, surface, c.resource);
    }
  }

  lemma SafeIsCompatible(a: Task, b: Task, surface: string -> bool)
    requires SafeTogether(a, b, surface)
    ensures Compatible(ClaimsOf(a, surface), ClaimsOf(b, surface))
  {
    ClaimsMeaning(a, surface);
    ClaimsMeaning(b, surface);
    SafeLists(a, b, surface, ClaimsOf(a, surface), ClaimsOf(b, surface));
  }

  lemma SafeModes(a: Task, b: Task, surface: string -> bool, r: string)
    requires SafeTogether(a, b, surface)
    requires Expected(a, surface, r) && Expected(b, surface, r)
    ensures ExpectedMode(a, surface, r) == Read && ExpectedMode(b, surface, r) == Read
  {
    KeysApart();
    if f :| (WritesFile(a, f) || ReadsFile(a, f)) && r == FileKey(f) {
      assert exists g :: (WritesFile(b, g) || ReadsFile(b, g)) && r == FileKey(g);
      assert WritesFile(b, f) || ReadsFile(b, f);
    } else if r == WRITERS {
      assert MayWrite(a) && MayWrite(b);
    }
  }
}
