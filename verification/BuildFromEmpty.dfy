/** The whole of it on an empty disk: Git extracts a source, the compiler writes a binary, nobody else does
    anything, and what is built is installed. */
module BuildFromEmpty {
  import opened Options
  import opened Manifest
  import opened Disks
  import opened Install
  import Build
  import opened BuildInstall

  function SourcePaths(out: Path,
                       source: map<string, Bytes>): set<Path> { set n | n in source :: Build.Frozen(out) + [n] }

  /** What Git's archive puts into the frozen source. */
  function Extraction(out: Path, source: map<string, Bytes>): Edits {
    map p | p in SourcePaths(out, source) :: Some(File(source[p[|p| - 1]]))
  }

  /** What the compiler writes. */
  function Compilation(out: Path, binary: Bytes): Edits { map[out + [BINARY] := Some(File(binary))] }

  /** Git acts just before the second look at the disk, the compiler just before the third, and someone else
      just before action `last`. */
  function With(out: Path, source: map<string, Bytes>, binary: Bytes, last: nat, late: Edits): Env {
    Env(k =>
          if k == 1 then Extraction(out, source)
          else if k == 2 then Compilation(out, binary)
          else if k == last then late
          else map[],
        k => false)
  }

  /** Nobody but Git and the compiler acts. */
  function Alone(out: Path, source: map<string, Bytes>, binary: Bytes): Env { With(out, source, binary, 3, map[]) }

  function Extracted(out: Path, source: map<string, Bytes>): Nodes { Edited(map[], Extraction(out, source)) }

  function AfterCompiler(out: Path, source: map<string, Bytes>, binary: Bytes): Nodes {
    Edited(Extracted(out, source), Compilation(out, binary))
  }

  lemma ExtractionIs(out: Path, source: map<string, Bytes>, n: string)
    ensures Build.Frozen(out) + [n] in Extraction(out, source) <==> n in source
    ensures n in source ==> Extraction(out, source)[Build.Frozen(out) + [n]] == Some(File(source[n]))
  {
    var p := Build.Frozen(out) + [n];
    assert p[|p| - 1] == n;
  }

  /** The frozen source is the source, before the compiler and after it. */
  lemma ExtractedIs(out: Path, source: map<string, Bytes>, binary: Bytes, n: string)
    ensures var p := Build.Frozen(out) + [n];
      && (Build.FileIn(Extracted(out, source), Build.Frozen(out), n) <==> n in source)
      && SameAt(Extracted(out, source), AfterCompiler(out, source, binary), p)
      && (n in source ==> p in Extracted(out, source) && Extracted(out, source)[p] == File(source[n]))
  {
    ExtractionIs(out, source, n);
    Build.FrozenApart(out, n, BINARY);
  }

  /** Every entry is in the output, and the binary is the only one directly in it. */
  lemma EntriesAre(out: Path, source: map<string, Bytes>, binary: Bytes, p: Path)
    requires p in AfterCompiler(out, source, binary)
    ensures Under(out, p) && (p == out + [BINARY] || (|p| == |out| + 2 && p in Extraction(out, source)))
    ensures AfterCompiler(out, source, binary)[p].File?
  {
    if p != out + [BINARY] {
      assert p in Extraction(out, source);
      var n :| n in source && p == Build.Frozen(out) + [n];
    }
  }

  /** The three states the others make. */
  lemma StatesAre(out: Path, source: map<string, Bytes>, binary: Bytes, last: nat, late: Edits)
    requires 3 <= last
    ensures var t := From(map[], With(out, source, binary, last, late), 0);
      At(t, 1) == map[] && At(t, 2) == Extracted(out, source) && At(t, 3) == AfterCompiler(out, source, binary)
  {
    var env := With(out, source, binary, last, late);
    assert Doings(env, 0) == map[];
    assert Later(map[], env, 0, 1) == Edited(Later(map[], env, 0, 0), Doings(env, 0));
    assert Later(map[], env, 0, 2) == Edited(Later(map[], env, 0, 1), Doings(env, 1));
    assert Later(map[], env, 0, 3) == Edited(Later(map[], env, 0, 2), Doings(env, 2));
  }

  /** What the tools must answer, and the compiler write, for a build to succeed. */
  predicate GoodBuild(given: Build.Given, binary: Bytes) {
    && given.arch in {"amd64", "arm64"} && HashLength(given.goSha) == 64 && given.preflight == Fine
    && given.goTargetProven && given.cleanAfter == Fine && given.cleanEnd == Fine
    && Build.TargetRead(binary, given.arch).Some?
  }

  lemma StartableAlone(given: Build.Given, out: Path, pairs: seq<(string, string)>, source: map<string, Bytes>,
                       binary: Bytes)
    requires GoodBuild(given, binary) && forall p :: p in pairs ==> p.0 in source
    ensures var env := Alone(out, source, binary);
      Startable(env, From(map[], env, 0), 0, given, out, pairs)
  {
    StatesAre(out, source, binary, 3, map[]);
    CalmAfter(out, source, binary);
    AfterCompilerHas(out, pairs, source, binary);
    var env := Alone(out, source, binary);
    StartableFrom(env, From(map[], env, 0), Extracted(out, source), AfterCompiler(out, source, binary), given, out,
                  pairs, binary);
  }

  lemma StartableFrom(env: Env, t: Timeline, a: Nodes, b: Nodes, given: Build.Given, out: Path,
                      pairs: seq<(string, string)>, binary: Bytes)
    requires Calm(env, 3) && Lives(env, 0, 3) && At(t, 1) == map[] && At(t, 2) == a && At(t, 3) == b
    requires GoodBuild(given, binary) && forall n :: SameAt(a, b, Build.Frozen(out) + [n])
    requires out + [MANIFEST] !in b && Content(b, out + [BINARY]) == Some(binary)
    requires forall p :: p in pairs ==> Content(b, Build.Frozen(out) + [p.0]).Some?
    ensures Startable(env, t, 0, given, out, pairs)
  {
    CompilableFrom(a, b, given, out, pairs, binary);
  }

  lemma AfterCompilerHas(out: Path, pairs: seq<(string, string)>, source: map<string, Bytes>, binary: Bytes)
    requires forall p :: p in pairs ==> p.0 in source
    ensures var a, b := Extracted(out, source), AfterCompiler(out, source, binary);
      && (forall n :: SameAt(a, b, Build.Frozen(out) + [n]))
      && out + [MANIFEST] !in b && Content(b, out + [BINARY]) == Some(binary)
      && forall p :: p in pairs ==> Content(b, Build.Frozen(out) + [p.0]).Some?
  {
    var a, b := Extracted(out, source), AfterCompiler(out, source, binary);
    forall n ensures SameAt(a, b, Build.Frozen(out) + [n]) { ExtractedIs(out, source, binary, n); }
    ManifestIsNew(out, source, binary);
    BinaryStands(out, source, binary);
    forall p | p in pairs ensures Content(b, Build.Frozen(out) + [p.0]).Some? {
      SourceStands(out, source, binary, p.0);
    }
  }

  lemma BinaryStands(out: Path, source: map<string, Bytes>, binary: Bytes)
    ensures Content(AfterCompiler(out, source, binary), out + [BINARY]) == Some(binary)
  {
    assert out + [BINARY] in Compilation(out, binary);
  }

  lemma SourceStands(out: Path, source: map<string, Bytes>, binary: Bytes, n: string)
    requires n in source
    ensures Content(AfterCompiler(out, source, binary), Build.Frozen(out) + [n]).Some?
  {
    ExtractedIs(out, source, binary, n);
  }

  lemma ManifestIsNew(out: Path, source: map<string, Bytes>, binary: Bytes)
    ensures out + [MANIFEST] !in AfterCompiler(out, source, binary)
  {
    NamesApart(out, BINARY, MANIFEST);
    if out + [MANIFEST] in AfterCompiler(out, source, binary) { EntriesAre(out, source, binary, out + [MANIFEST]); }
  }

  lemma CalmAfter(out: Path, source: map<string, Bytes>, binary: Bytes)
    ensures Calm(Alone(out, source, binary), 3) && Lives(Alone(out, source, binary), 0, 3)
  {
  }

  lemma CompilableFrom(a: Nodes, b: Nodes, given: Build.Given, out: Path, pairs: seq<(string, string)>, binary: Bytes)
    requires GoodBuild(given, binary) && forall n :: SameAt(a, b, Build.Frozen(out) + [n])
    requires out + [MANIFEST] !in b && Content(b, out + [BINARY]) == Some(binary)
    requires forall p :: p in pairs ==> Content(b, Build.Frozen(out) + [p.0]).Some?
    ensures Build.Compilable(a, b, out, given, pairs)
  {
    Build.SameFiles(a, b, Build.Frozen(out));
    var files := Build.Files(b, Build.Frozen(out));
    forall p | p in pairs ensures Build.SourceFine(b, out, p.0, Build.Digests(files)) {
      Build.FilesAre(b, Build.Frozen(out), p.0);
    }
  }

  /** The paths are safe, absolute and apart, and the output is apart from the prefix. */
  predicate GoodRequest(request: Request) {
    && request.apply && AllAbsolute(request) && SafePaths(request) && Safe(request.owners)
    && Separate(request.state.parts, request.prefix.parts) && Separate(request.bundle.parts, request.prefix.parts)
  }

  lemma OutputIsElsewhere(request: Request, p: Path)
    requires Separate(request.bundle.parts, request.prefix.parts) && Under(request.bundle.parts, p)
    ensures !Under(Releases(request), p)
  {
    Comparable(request.prefix.parts, request.bundle.parts, p);
    Within(request.prefix.parts, Releases(request), p);
  }

  lemma Comparable(a: Path, b: Path, p: Path)
    ensures Under(a, p) && Under(b, p) ==> Under(a, b) || Under(b, a)
  {
    if Under(a, p) && Under(b, p) { BothAbove(a, b, p); }
  }

  lemma Within(a: Path, b: Path, p: Path)
    ensures Under(a, b) && Under(b, p) ==> Under(a, p)
  {
    if Under(a, b) && Under(b, p) { AboveAbove(a, b, p); }
  }

  lemma ReceivableAlone(given: Build.Given, request: Request, source: map<string, Bytes>, binary: Bytes)
    requires GoodRequest(request)
    ensures var env := Alone(request.bundle.parts, source, binary);
      Receivable(env, From(map[], env, 0), 0, given, request)
  {
    var out := request.bundle.parts;
    var env, b := Alone(out, source, binary), AfterCompiler(out, source, binary);
    StatesAre(out, source, binary, 3, map[]);
    forall k: nat, p | p in Doings(env, k) ensures !Under(Releases(request), p) {
      if k == 1 { var n :| n in source && p == Build.Frozen(out) + [n]; }
      OutputIsElsewhere(request, p);
    }
    forall p | p in b ensures b[p].File? && !Under(Releases(request), p) {
      EntriesAre(out, source, binary, p);
      OutputIsElsewhere(request, p);
    }
    DestinationIsReady(b, request, ReleaseFor(request, given));
  }

  lemma DestinationIsReady(b: Nodes, request: Request, release: Path)
    requires GoodRequest(request) && Under(Releases(request), release)
    requires forall p :: p in b ==> b[p].File? && !Under(Releases(request), p)
    ensures DestinationReady(b, request, release)
  {
    forall p | p in b ensures !Under(release, p) { Within(Releases(request), release, p); }
  }

  /** What the source is, and what it is called, for the installer to accept what is built from it. */
  predicate Installable(given: Build.Given, source: map<string, Bytes>) {
    && Hex40(Some(given.commit)) && Hex40(Some(given.tree))
    && "connectors/whatsapp/go.mod" in source && "connectors/whatsapp/go.sum" in source
  }

  lemma SourceIsNamed(out: Path, source: map<string, Bytes>, given: Build.Given)
    requires NAMED_INPUTS <= source.Keys
    ensures Named(Extracted(out, source), out)
    ensures Admissible(given, Extracted(out, source), out) <==> Installable(given, source)
  {
    forall n ensures Build.FileIn(Extracted(out, source), Build.Frozen(out), n) <==> n in source {
      ExtractedIs(out, source, Raw([]), n);
    }
  }

  /** Everything is as an undisturbed build and installation need it. */
  ghost predicate Set(env: Env, t: Timeline, c: nat, given: Build.Given, request: Request, good: bool) {
    && Startable(env, t, c, given, request.bundle.parts, SOURCED) && Receivable(env, t, c, given, request)
    && Named(At(t, c + 2), request.bundle.parts) && (good <==> Admissible(given, At(t, c + 2), request.bundle.parts))
  }

  lemma AloneIsSet(given: Build.Given, request: Request, source: map<string, Bytes>, binary: Bytes)
    requires NAMED_INPUTS <= source.Keys && GoodBuild(given, binary) && GoodRequest(request)
    ensures var env := Alone(request.bundle.parts, source, binary);
      Set(env, From(map[], env, 0), 0, given, request, Installable(given, source))
  {
    SourcesAreNamed(source);
    StartableAlone(given, request.bundle.parts, SOURCED, source, binary);
    ReceivableAlone(given, request, source, binary);
    StatesAre(request.bundle.parts, source, binary, 3, map[]);
    SourceIsNamed(request.bundle.parts, source, given);
  }

  lemma SetIsJudged(env: Env, t: Timeline, c: nat, given: Build.Given, request: Request, order: seq<string>, good: bool)
    requires Set(env, t, c, given, request, good) && Fits(given, request)
    requires InOrder(order) && Build.DistinctOrder(order)
    ensures Build.Planned(request.bundle.parts, order, SOURCED) && RulesOn(request.host).Proper()
    ensures Startable(env, t, c, given, request.bundle.parts, SOURCED) && Receivable(env, t, c, given, request)
    ensures Judges(RulesOn(request.host), env, c + 1, request.bundle.parts, given, order, SOURCED, At(t, c + 2), good)
  {
    OwnPlanAndRules(env, t, c, given, request, order, good);
  }

  /** The build alone, and what the installer will say of it. */
  method BuildAlone(given: Build.Given, request: Request, order: seq<string>, source: map<string, Bytes>,
                    binary: Bytes, torn: nat -> Bytes)
      returns (disk: Disk, built: Build.Result, m: Manifest, read: Bytes)
    requires NAMED_INPUTS <= source.Keys && GoodBuild(given, binary) && GoodRequest(request) && Fits(given, request)
    requires InOrder(order) && Build.DistinctOrder(order)
    ensures fresh(disk) && built == Build.Bundle(Sha(Json(m, 0)))
    ensures ReadyFor(disk.nodes, request.(expected := Sha(Json(m, 0))), order, m, read)
    ensures RulesOn(request.host).binary(m, read) == Fine
    ensures RulesOn(request.host).manifest(m) == Fine <==> Installable(given, source)
  {
    var env := Alone(request.bundle.parts, source, binary);
    AloneIsSet(given, request, source, binary);
    disk := new Disk(map[], env, torn);
    built, m, read := BuildSet(disk, given, request, order, 0, disk.without, Installable(given, source));
  }

  method BuildSet(disk: Disk, given: Build.Given, request: Request, order: seq<string>, ghost c: nat,
                  ghost t: Timeline, ghost good: bool)
      returns (built: Build.Result, m: Manifest, read: Bytes)
    requires disk.OnTime() && disk.clock == c && t == disk.without && Set(disk.env, t, c, given, request, good)
    requires InOrder(order) && Build.DistinctOrder(order) && Fits(given, request)
    modifies disk`nodes, disk`clock, disk`touched
    ensures built == Build.Bundle(Sha(Json(m, 0)))
    ensures ReadyFor(disk.nodes, request.(expected := Sha(Json(m, 0))), order, m, read)
    ensures RulesOn(request.host).binary(m, read) == Fine && (RulesOn(request.host).manifest(m) == Fine <==> good)
  {
    SetIsJudged(disk.env, t, c, given, request, order, good);
    built, m, read := BuildReady(disk, RulesOn(request.host), given, request, order, SOURCED, c, t, good);
  }

  method BuildAndInstallSet(disk: Disk, given: Build.Given, request: Request, order: seq<string>, ghost c: nat,
                            ghost t: Timeline, ghost good: bool)
      returns (built: Build.Result, r: Outcome, m: Manifest)
    requires disk.OnTime() && disk.clock == c && t == disk.without && Set(disk.env, t, c, given, request, good)
    requires InOrder(order) && Build.DistinctOrder(order) && Fits(given, request)
    modifies disk
    ensures built.Bundle? && (r.Done? <==> good)
    ensures r.Done? ==> r == Done(m, false) && HoldsBuilt(disk.nodes, request, m)
  {
    built, r, m := BuildAndInstallUndisturbed(disk, given, request, order, c, t);
  }

  /** For every source that has the named files, every binary whose header is of the architecture, every
      good request from a host that fits and every order of the members: with nobody but Git and the compiler
      at work, the build succeeds, and what it built is installed if and only if the commit and the tree are
      40-digit names and the source has go.mod and go.sum. */
  method BuildAndInstallAlone(given: Build.Given, request: Request, order: seq<string>, source: map<string, Bytes>,
                              binary: Bytes, torn: nat -> Bytes)
      returns (disk: Disk, built: Build.Result, r: Outcome, m: Manifest)
    requires NAMED_INPUTS <= source.Keys && GoodBuild(given, binary) && GoodRequest(request) && Fits(given, request)
    requires InOrder(order) && Build.DistinctOrder(order)
    ensures built.Bundle? && (r.Done? <==> Installable(given, source))
    ensures r.Done? ==> r == Done(m, false) && HoldsBuilt(disk.nodes, request, m)
  {
    var env := Alone(request.bundle.parts, source, binary);
    AloneIsSet(given, request, source, binary);
    disk := new Disk(map[], env, torn);
    built, r, m := BuildAndInstallSet(disk, given, request, order, 0, disk.without, Installable(given, source));
  }

  lemma SourcesAreNamed(source: map<string, Bytes>)
    requires NAMED_INPUTS <= source.Keys
    ensures forall p :: p in SOURCED ==> p.0 in source
  {
    forall p | p in SOURCED ensures p.0 in source { assert p.0 in NAMED_INPUTS; }
  }
}
