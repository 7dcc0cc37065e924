/** Whole runs on an empty disk in which one edit of the manifest file is enough for something else to be
    approved or installed than what was built. */
module BuildOvertaken {
  import opened Options
  import opened Manifest
  import opened Disks
  import opened Install
  import opened InstallTheorems
  import Build
  import opened BuildInstall
  import opened BuildFromEmpty

  // ---------------------------------------------------------------- the manifest of a source and a binary

  /** Where the member of this name is copied from. */
  function SourceOf(n: string, pairs: seq<(string, string)>): Option<string> {
    if pairs == [] then None else if pairs[0].1 == n then Some(pairs[0].0) else SourceOf(n, pairs[1..])
  }

  lemma {:induction false} SourceOfIs(pairs: seq<(string, string)>, j: nat)
    requires j < |pairs| && Build.DistinctNames(pairs)
    ensures SourceOf(pairs[j].1, pairs) == Some(pairs[j].0)
  {
    if j == 0 {
    } else {
      assert pairs[1..][j - 1] == pairs[j] && pairs[0].1 != pairs[j].1;
      SourceOfIs(pairs[1..], j - 1);
    }
  }

  function DigestOf(n: string, pairs: seq<(string, string)>, source: map<string, Bytes>, binary: Bytes): Hash {
    var from := SourceOf(n, pairs);
    Sha(if n != BINARY && from.Some? && from.value in source then source[from.value] else binary)
  }

  /** The manifest an undisturbed build writes. */
  function ManifestOf(given: Build.Given, order: seq<string>, pairs: seq<(string, string)>, source: map<string, Bytes>,
                      binary: Bytes): Manifest
    requires Build.TargetRead(binary, given.arch).Some?
  {
    Built(given.commit, given.tree, given.arch, Build.TargetRead(binary, given.arch).value, Build.Digests(source),
          given.goSha, map n | n in order :: DigestOf(n, pairs, source, binary))
  }

  lemma MadeIs(given: Build.Given, out: Path, order: seq<string>, pairs: seq<(string, string)>,
               source: map<string, Bytes>, binary: Bytes, m: Manifest)
    requires Build.Planned(out, order, pairs) && Build.TargetRead(binary, given.arch).Some? && m.files.Some?
    requires m == Built(given.commit, given.tree, given.arch, Build.TargetRead(binary, given.arch).value,
                        Build.Digests(source), given.goSha, m.files.value)
    requires forall n :: n in m.files.value <==> n in order
    requires BINARY in m.files.value && m.files.value[BINARY] == Sha(binary)
    requires forall p :: p in pairs ==> p.0 in source && m.files.value[p.1] == Sha(source[p.0])
    ensures m == ManifestOf(given, order, pairs, source, binary)
  {
    var files, made := m.files.value, ManifestOf(given, order, pairs, source, binary).files.value;
    forall n | n in order ensures files[n] == made[n] {
      if n != BINARY {
        var j :| 0 <= j < |pairs| && pairs[j].1 == n;
        assert pairs[j] in pairs;
        SourceOfIs(pairs, j);
      }
    }
    assert files == made;
  }

  lemma SnapshotIsSource(out: Path, source: map<string, Bytes>, snapshot: map<string, Bytes>)
    requires Build.Taken(Extracted(out, source), out, snapshot)
    ensures snapshot == source
  {
    forall n ensures n in snapshot <==> n in source
      ensures n in source ==> snapshot[n] == source[n]
    {
      ExtractedIs(out, source, Raw([]), n);
    }
    assert snapshot.Keys == source.Keys;
  }

  // ---------------------------------------------------------------- the hash the build returns

  /** The edit that puts these bytes into the manifest file. */
  function Overtaking(out: Path, other: Bytes): Edits { map[out + [MANIFEST] := Some(File(other))] }

  /** What is around a build from the start of an empty disk, overtaken at its last look. */
  function Around(out: Path, order: seq<string>, pairs: seq<(string, string)>, source: map<string, Bytes>,
                  binary: Bytes, other: Bytes): Env {
    With(out, source, binary, Build.LastLook(0, order, pairs), Overtaking(out, other))
  }

  lemma AroundIs(out: Path, order: seq<string>, pairs: seq<(string, string)>, source: map<string, Bytes>,
                 binary: Bytes, other: Bytes)
    ensures var env, last := Around(out, order, pairs, source, binary, other), Build.LastLook(0, order, pairs);
      && 3 <= last && Still(env, 3, last) && Lives(env, 0, 3) && !Stopped(env, last) && Calm(env, last + 1)
      && Doings(env, last) == Overtaking(out, other)
      && Build.Readable(Doings(env, last), out + [MANIFEST]) && Build.OnlyWrites(Doings(env, last), out + [MANIFEST])
  {
  }

  /** What an overtaken build leaves. */
  ghost predicate Overtaken(out: Path, order: seq<string>, pairs: seq<(string, string)>, source: map<string, Bytes>,
                            binary: Bytes, n: Nodes, m: Manifest, other: Bytes) {
    && Build.Finished(AfterCompiler(out, source, binary), n, out, pairs) && Build.Stored(n, out, order, pairs, m)
    && Stands(n, out + [MANIFEST], other)
  }

  /** The build would succeed if it were left alone, and is, until someone replaces the manifest. */
  ghost predicate Overtakable(env: Env, t: Timeline, last: nat, given: Build.Given, out: Path,
                              pairs: seq<(string, string)>, other: Bytes) {
    && Still(env, 3, last) && Lives(env, 0, 3) && !Stopped(env, last) && Doings(env, last) == Overtaking(out, other)
    && Build.MayBegin(At(t, 1), out, given) && Build.Compilable(At(t, 2), At(t, 3), out, given, pairs)
  }

  /** The build is not stopped by being overtaken. */
  lemma OvertakenRuns(env: Env, t: Timeline, last: nat, given: Build.Given, out: Path, order: seq<string>,
                      pairs: seq<(string, string)>, other: Bytes, n: Nodes, built: Build.Result, m: Manifest)
    requires Overtakable(env, t, last, given, out, pairs, other)
    requires Build.Undisturbed(env, t, 0, last, out, given, order, pairs, n, built, m)
    ensures built.Bundle? && Build.Finished(At(t, 3), n, out, pairs) && Build.Stored(n, out, order, pairs, m)
  {
  }

  /** It returns the hash of the other bytes, which then stand there. */
  lemma OtherHash(edits: Edits, n: Nodes, out: Path, b: Bytes, other: Bytes, hash: Hash)
    requires Build.Reread(edits, n, out + [MANIFEST], b, hash) && edits == Overtaking(out, other)
    ensures hash == Sha(other) && Stands(n, out + [MANIFEST], other)
  {
  }

  method RunOvertaken(disk: Disk, given: Build.Given, out: Path, order: seq<string>, pairs: seq<(string, string)>,
                      ghost t: Timeline, ghost last: nat, ghost other: Bytes)
      returns (built: Build.Result, m: Manifest, ghost read: Bytes, ghost snapshot: map<string, Bytes>)
    requires disk.OnTime() && Build.Planned(out, order, pairs) && disk.clock == 0 && t == disk.without
    requires last == Build.LastLook(0, order, pairs) && Overtakable(disk.env, t, last, given, out, pairs, other)
    modifies disk`nodes, disk`clock, disk`touched
    ensures built == Build.Bundle(Sha(other)) && disk.clock == last + 1
    ensures Build.Finished(At(t, 3), disk.nodes, out, pairs) && Build.Stored(disk.nodes, out, order, pairs, m)
    ensures Stands(disk.nodes, out + [MANIFEST], other) && Build.Taken(At(t, 2), out, snapshot)
    ensures Build.Faithful(disk.env, 2, out, given, order, pairs, m, read, Build.Digests(snapshot))
  {
    ghost var looks;
    built, m, read, snapshot, looks := Build.Run(disk, out, given, order, pairs, 0, last);
    OvertakenRuns(disk.env, disk.without, last, given, out, order, pairs, other, disk.nodes, built, m);
    OtherHash(Doings(disk.env, last), disk.nodes, out, Json(m, 0), other, built.manifestHash);
    ToldIs(disk.env, disk.without, out, given, order, pairs, m, read, snapshot, looks);
  }

  lemma ToldIs(env: Env, t: Timeline, out: Path, given: Build.Given, order: seq<string>, pairs: seq<(string, string)>,
               m: Manifest, read: Bytes, snapshot: map<string, Bytes>, looks: seq<map<string, Bytes>>)
    requires Build.Told(env, t, 0, out, given, order, pairs, m, read, snapshot, looks)
    ensures Build.Taken(At(t, 2), out, snapshot)
    ensures Build.Faithful(env, 2, out, given, order, pairs, m, read, Build.Digests(snapshot))
  {
  }

  /** What was built is the manifest of the source and the binary. */
  lemma OvertakenMade(env: Env, last: nat, given: Build.Given, out: Path, order: seq<string>,
                      pairs: seq<(string, string)>, source: map<string, Bytes>, binary: Bytes, other: Bytes, n: Nodes,
                      m: Manifest, read: Bytes, snapshot: map<string, Bytes>)
    requires Build.Planned(out, order, pairs) && GoodBuild(given, binary) && last == Build.LastLook(0, order, pairs)
    requires Still(env, 3, last) && forall p :: p in pairs ==> p.0 in source
    requires Overtaken(out, order, pairs, source, binary, n, m, other)
    requires Build.Taken(Extracted(out, source), out, snapshot)
    requires Build.Faithful(env, 2, out, given, order, pairs, m, read, Build.Digests(snapshot))
    ensures m == ManifestOf(given, order, pairs, source, binary)
  {
    SnapshotIsSource(out, source, snapshot);
    BinaryStays(out, order, pairs, source, binary, n, m, other);
    FaithfulStill(env, last, given, out, order, pairs, m, read, source);
    MadeIs(given, out, order, pairs, source, binary, m);
  }

  /** A build that nobody disturbs lists the source's digests. */
  lemma FaithfulStill(env: Env, last: nat, given: Build.Given, out: Path, order: seq<string>,
                      pairs: seq<(string, string)>, m: Manifest, read: Bytes, source: map<string, Bytes>)
    requires Still(env, 3, last) && last == Build.LastLook(0, order, pairs)
    requires Build.Faithful(env, 2, out, given, order, pairs, m, read, Build.Digests(source))
    ensures forall p :: p in pairs ==> p.0 in source && p.1 in m.files.value && m.files.value[p.1] == Sha(source[p.0])
    ensures m.files.value[BINARY] == Sha(read)
  {
    var d := 2 + Build.Span(order, pairs) + 4;
    forall p | p in pairs ensures p.0 in source && p.1 in m.files.value && m.files.value[p.1] == Sha(source[p.0]) {
      assert Build.BoundPair(env, 5, d, out, p, Build.Digests(source), m.files.value) && Idle(env, out + [p.1], 5, d);
    }
    assert Idle(env, out + [BINARY], 4, d);
  }

  lemma BinaryStays(out: Path, order: seq<string>, pairs: seq<(string, string)>, source: map<string, Bytes>,
                    binary: Bytes, n: Nodes, m: Manifest, other: Bytes)
    requires Build.Planned(out, order, pairs) && Overtaken(out, order, pairs, source, binary, n, m, other)
    ensures Content(n, out + [BINARY]) == Some(binary) && BINARY in m.files.value
    ensures m.files.value[BINARY] == Sha(binary)
  {
    Build.OutsideTargets(out, order, pairs);
    NamesApart(out, BINARY, MANIFEST);
    assert SameAt(AfterCompiler(out, source, binary), n, out + [BINARY]);
    assert Build.Listed(n, out, BINARY, m.files.value);
  }

  /** A build on an empty disk with only Git and the compiler at work, until someone replaces the manifest just
      before the build's last look: it returns the hash of the replacement, whatever that is, for a manifest
      that is the source's and the binary's. */
  method BuildOvertaken(given: Build.Given, out: Path, order: seq<string>, pairs: seq<(string, string)>,
                        source: map<string, Bytes>, binary: Bytes, torn: nat -> Bytes, other: Bytes)
      returns (disk: Disk, built: Build.Result, m: Manifest)
    requires Build.Planned(out, order, pairs) && GoodBuild(given, binary) && forall p :: p in pairs ==> p.0 in source
    ensures fresh(disk) && disk.env == Around(out, order, pairs, source, binary, other)
    ensures disk.clock == Build.LastLook(0, order, pairs) + 1
    ensures built == Build.Bundle(Sha(other)) && m == ManifestOf(given, order, pairs, source, binary)
    ensures Overtaken(out, order, pairs, source, binary, disk.nodes, m, other)
  {
    ghost var last := Build.LastLook(0, order, pairs);
    var env := Around(out, order, pairs, source, binary, other);
    AroundReady(given, out, order, pairs, source, binary, other);
    disk := new Disk(map[], env, torn);
    ghost var t := disk.without;
    ghost var read, snapshot;
    built, m, read, snapshot := RunOvertaken(disk, given, out, order, pairs, t, last, other);
    StatesAre(out, source, binary, last, Overtaking(out, other));
    OvertakenMade(env, last, given, out, order, pairs, source, binary, other, disk.nodes, m, read, snapshot);
  }

  lemma AroundReady(given: Build.Given, out: Path, order: seq<string>, pairs: seq<(string, string)>,
                    source: map<string, Bytes>, binary: Bytes, other: Bytes)
    requires GoodBuild(given, binary) && forall p :: p in pairs ==> p.0 in source
    ensures var env, last := Around(out, order, pairs, source, binary, other), Build.LastLook(0, order, pairs);
      Still(env, 3, last) && Overtakable(env, From(map[], env, 0), last, given, out, pairs, other)
  {
    AroundIs(out, order, pairs, source, binary, other);
    StatesAre(out, source, binary, Build.LastLook(0, order, pairs), Overtaking(out, other));
    AfterCompilerHas(out, pairs, source, binary);
    var env, last := Around(out, order, pairs, source, binary, other), Build.LastLook(0, order, pairs);
    OvertakableFrom(env, From(map[], env, 0), last, Extracted(out, source), AfterCompiler(out, source, binary), given,
                    out, pairs, binary, other);
  }

  lemma OvertakableFrom(env: Env, t: Timeline, last: nat, a: Nodes, b: Nodes, given: Build.Given, out: Path,
                        pairs: seq<(string, string)>, binary: Bytes, other: Bytes)
    requires Still(env, 3, last) && Lives(env, 0, 3) && !Stopped(env, last)
    requires Doings(env, last) == Overtaking(out, other)
    requires At(t, 1) == map[] && At(t, 2) == a && At(t, 3) == b
    requires GoodBuild(given, binary) && forall n :: SameAt(a, b, Build.Frozen(out) + [n])
    requires out + [MANIFEST] !in b && Content(b, out + [BINARY]) == Some(binary)
    requires forall p :: p in pairs ==> Content(b, Build.Frozen(out) + [p.0]).Some?
    ensures Overtakable(env, t, last, given, out, pairs, other)
  {
    CompilableFrom(a, b, given, out, pairs, binary);
  }

  // ---------------------------------------------------------------- another commit is installed

  lemma SourcedDigest(p: (string, string), source: map<string, Bytes>, binary: Bytes)
    requires p in SOURCED && NAMED_INPUTS <= source.Keys
    ensures p.1 in REQUIRED && p.0 in source && DigestOf(p.1, SOURCED, source, binary) == Sha(source[p.0])
  {
    assert p.0 in NAMED_INPUTS && p.1 in REQUIRED;
    forall i, j | 0 <= i < j < |SOURCED| ensures SOURCED[i].1 != SOURCED[j].1 { SourcedDistinct(i, j); }
    var j :| 0 <= j < |SOURCED| && SOURCED[j] == p;
    SourcedNotBinary(p);
    SourceOfIs(SOURCED, j);
  }

  /** The manifest of the source and the binary is what the installer wants, if commit and tree are. */
  lemma MadeIsFine(given: Build.Given, order: seq<string>, source: map<string, Bytes>, binary: Bytes, host: Host)
    requires GoodBuild(given, binary) && NAMED_INPUTS <= source.Keys && InOrder(order) && Installable(given, source)
    requires host.system == "linux" && HostArch(host.machine) == Some(given.arch)
    ensures var m := ManifestOf(given, order, SOURCED, source, binary);
      && WellBuilt(m) && RulesOn(host).manifest(m) == Fine && RulesOn(host).binary(m, binary) == Fine
      && m.files.value[BINARY] == Sha(binary)
  {
    var m := ManifestOf(given, order, SOURCED, source, binary);
    var inputs, files := Build.Digests(source), m.files.value;
    var target := Build.TargetRead(binary, given.arch).value;
    assert files.Keys == REQUIRED;
    forall p | p in SOURCED ensures p.0 in inputs && files[p.1] == inputs[p.0] {
      SourcedDigest(p, source, binary);
    }
    assert WellMade(given.arch, target, inputs, given.goSha, files, binary);
    BuiltIsAdmitted(given.commit, given.tree, given.arch, target, inputs, given.goSha, files, binary);
    BuiltBinaryAdmitted(given.commit, given.tree, given.arch, target, inputs, given.goSha, files, binary, host);
  }

  /** Nobody writes in the releases area. */
  lemma AroundRespects(request: Request, order: seq<string>, pairs: seq<(string, string)>, source: map<string, Bytes>,
                       binary: Bytes, other: Bytes)
    requires GoodRequest(request)
    ensures Respects(Around(request.bundle.parts, order, pairs, source, binary, other), Releases(request))
  {
    var out := request.bundle.parts;
    var env := Around(out, order, pairs, source, binary, other);
    forall k: nat, p | p in Doings(env, k) ensures !Under(Releases(request), p) {
      if k == 1 {
        assert Doings(env, k) == Extraction(out, source);
        var n :| n in source && p == Build.Frozen(out) + [n];
      } else if k == 2 {
        assert Doings(env, k) == Compilation(out, binary);
      } else {
        assert Doings(env, k) == Overtaking(out, other) || Doings(env, k) == map[];
      }
      OutputIsElsewhere(request, p);
    }
  }

  /** The destination is ready after the compiler. */
  lemma CompilerLeaves(request: Request, release: Path, source: map<string, Bytes>, binary: Bytes)
    requires GoodRequest(request) && Under(Releases(request), release)
    ensures var b := AfterCompiler(request.bundle.parts, source, binary);
      && DestinationReady(b, request, release) && request.bundle.parts + [BINARY] in b
      && b[request.bundle.parts + [BINARY]].File? && !Under(Releases(request), request.bundle.parts)
  {
    var out, b := request.bundle.parts, AfterCompiler(request.bundle.parts, source, binary);
    forall p | p in b ensures b[p].File? && !Under(Releases(request), p) {
      EntriesAre(out, source, binary, p);
      OutputIsElsewhere(request, p);
    }
    DestinationIsReady(b, request, release);
    OutputIsElsewhere(request, out);
  }

  /** An overtaken build leaves a bundle ready for another manifest of the same members. */
  lemma OvertakenReady(a: Nodes, n: Nodes, request: Request, given: Build.Given, order: seq<string>,
                       pairs: seq<(string, string)>, m: Manifest, foreign: Manifest, binary: Bytes)
    requires Build.Planned(request.bundle.parts, order, pairs) && InOrder(order) && WellBuilt(foreign)
    requires foreign.files == m.files && foreign.files.value[BINARY] == Sha(binary)
    requires Release(request, foreign) == ReleaseFor(request, given)
    requires Build.Finished(a, n, request.bundle.parts, pairs) && Build.Stored(n, request.bundle.parts, order, pairs, m)
    requires Stands(n, ManifestPath(request), Json(foreign, 0)) && request.expected == Sha(Json(foreign, 0))
    requires request.bundle.parts + [BINARY] in a && a[request.bundle.parts + [BINARY]].File?
    requires DestinationReady(a, request, ReleaseFor(request, given))
    requires !Under(Releases(request), request.bundle.parts)
    ensures ReadyFor(n, request, order, foreign, binary)
  {
    BuiltIsReady(a, n, request, given, order, pairs, foreign, binary);
  }

  /** One edit of the manifest, just before the build looks at it for the hash it returns, and another commit
      is installed: for every good build and request and every two commits, the build returns the hash of a
      manifest that names the other commit, and the installer, left alone and given that hash, installs the
      release under it. */
  method OtherCommitInstalled(given: Build.Given, request: Request, order: seq<string>, source: map<string, Bytes>,
                              binary: Bytes, torn: nat -> Bytes, other: string)
      returns (disk: Disk, built: Build.Result, r: Outcome, m: Manifest)
    requires NAMED_INPUTS <= source.Keys && GoodBuild(given, binary) && GoodRequest(request) && Fits(given, request)
    requires InOrder(order) && Build.DistinctOrder(order) && Installable(given, source) && Hex40(Some(other))
    ensures m == ManifestOf(given, order, SOURCED, source, binary)
    ensures var foreign := m.(source := Some(other));
      && disk.env == Around(request.bundle.parts, order, SOURCED, source, binary, Json(foreign, 0))
      && built == Build.Bundle(Sha(Json(foreign, 0))) && r == Done(foreign, false)
      && HoldsBuilt(disk.nodes, request, foreign)
  {
    var foreign := ManifestOf(given.(commit := other), order, SOURCED, source, binary);
    SourcedPlan(request.bundle.parts, order);
    SourcesAreNamed(source);
    OwnRulesAreProper(request.host);
    MadeIsFine(given.(commit := other), order, source, binary, request.host);
    disk, built, r, m :=
      OtherInstalled(RulesOn(request.host), given, request, order, SOURCED, source, binary, torn, foreign);
  }

  /** The foreign manifest is the one that would be built, but for the commit. */
  predicate Foreign(given: Build.Given, order: seq<string>, pairs: seq<(string, string)>, source: map<string, Bytes>,
                    binary: Bytes, foreign: Manifest)
    requires Build.TargetRead(binary, given.arch).Some?
  {
    foreign == ManifestOf(given, order, pairs, source, binary).(source := foreign.source)
  }

  lemma ForeignHas(given: Build.Given, request: Request, order: seq<string>, pairs: seq<(string, string)>,
                   source: map<string, Bytes>, binary: Bytes, foreign: Manifest)
    requires Build.TargetRead(binary, given.arch).Some? && Foreign(given, order, pairs, source, binary, foreign)
    requires WellBuilt(foreign)
    ensures foreign.files == ManifestOf(given, order, pairs, source, binary).files
    ensures Release(request, foreign) == ReleaseFor(request, given)
  {
  }

  method OtherInstalled(rules: Rules, given: Build.Given, request: Request, order: seq<string>,
                        pairs: seq<(string, string)>, source: map<string, Bytes>, binary: Bytes, torn: nat -> Bytes,
                        foreign: Manifest)
      returns (disk: Disk, built: Build.Result, r: Outcome, m: Manifest)
    requires Build.Planned(request.bundle.parts, order, pairs) && forall p :: p in pairs ==> p.0 in source
    requires GoodBuild(given, binary) && GoodRequest(request) && InOrder(order)
    requires Foreign(given, order, pairs, source, binary, foreign) && WellBuilt(foreign)
    requires foreign.files.value[BINARY] == Sha(binary)
    requires rules.Proper() && rules.manifest(foreign) == Fine && rules.binary(foreign, binary) == Fine
    ensures m == ManifestOf(given, order, pairs, source, binary)
    ensures disk.env == Around(request.bundle.parts, order, pairs, source, binary, Json(foreign, 0))
    ensures built == Build.Bundle(Sha(Json(foreign, 0))) && r == Done(foreign, false)
    ensures HoldsBuilt(disk.nodes, request, foreign)
  {
    ForeignHas(given, request, order, pairs, source, binary, foreign);
    disk, built, m := BuildOvertaken(given, request.bundle.parts, order, pairs, source, binary, torn, Json(foreign, 0));
    r := InstallOther(disk, rules, given, request, order, pairs, source, binary, m, foreign, built.manifestHash);
  }

  method InstallOther(disk: Disk, rules: Rules, given: Build.Given, request: Request, order: seq<string>,
                      pairs: seq<(string, string)>, source: map<string, Bytes>, binary: Bytes, ghost m: Manifest,
                      ghost foreign: Manifest, hash: Hash)
      returns (r: Outcome)
    requires hash == Sha(Json(foreign, 0)) && GoodRequest(request) && InOrder(order)
    requires Build.Planned(request.bundle.parts, order, pairs)
    requires disk.env == Around(request.bundle.parts, order, pairs, source, binary, Json(foreign, 0))
    requires disk.clock == Build.LastLook(0, order, pairs) + 1
    requires Overtaken(request.bundle.parts, order, pairs, source, binary, disk.nodes, m, Json(foreign, 0))
    requires WellBuilt(foreign) && foreign.files == m.files && foreign.files.value[BINARY] == Sha(binary)
    requires Release(request, foreign) == ReleaseFor(request, given)
    requires rules.Proper() && rules.manifest(foreign) == Fine && rules.binary(foreign, binary) == Fine
    modifies disk
    ensures r == Done(foreign, false) && HoldsBuilt(disk.nodes, request, foreign)
  {
    ghost var req := request.(expected := hash);
    AroundIs(request.bundle.parts, order, pairs, source, binary, Json(foreign, 0));
    AroundRespects(request, order, pairs, source, binary, Json(foreign, 0));
    CompilerLeaves(request, ReleaseFor(request, given), source, binary);
    OvertakenReady(AfterCompiler(request.bundle.parts, source, binary), disk.nodes, req, given, order, pairs, m,
                   foreign, binary);
    r := InstallReady(disk, rules, request, order, foreign, binary, hash);
  }

  // ---------------------------------------------------------------- the installer's gaps, in what was built

  /** What is ready is installed when left alone. */
  lemma ReadyInstalls(rules: Rules, n: Nodes, req: Request, order: seq<string>, m: Manifest, binary: Bytes)
    requires ReadyFor(n, req, order, m, binary) && req.apply
    requires rules.binary(m, binary) == Fine && rules.manifest(m) == Fine
    ensures InstallsAlone(rules, n, req, order, order, m)
  {
    CalmAdmits(STILL, rules, k => n, 0, req, order, m, binary, n);
  }

  /** Both gaps of the installer, in what a good build wrote: by an edit between the first two reads it is
      installed under any approved hash, and by an edit before the third it gets any manifest file. */
  method GapsInTheBuilt(given: Build.Given, request: Request, order: seq<string>, source: map<string, Bytes>,
                        binary: Bytes, torn: nat -> Bytes, approved: Bytes, other: Bytes)
      returns (m: Manifest, under: Request, swapped: Disk, r: Outcome, copied: Disk, q: Outcome)
    requires NAMED_INPUTS <= source.Keys && GoodBuild(given, binary) && GoodRequest(request) && Fits(given, request)
    requires InOrder(order) && Build.DistinctOrder(order) && Installable(given, source)
    ensures r == q == Done(m, false) && WellBuilt(m) && under == request.(expected := Sha(approved))
    ensures swapped.env == OneEdit(1, ManifestPath(request), Json(m, 0))
    ensures Complete(swapped.nodes, Release(request, m), m)
    ensures copied.env == OneEdit(5 * |order| + 6, ManifestPath(request), other)
    ensures InstalledManifest(copied.nodes, Release(request, m), Some(other))
  {
    var disk, built, read;
    disk, built, m, read := BuildAlone(given, request, order, source, binary, torn);
    OwnRulesAreProper(request.host);
    under, swapped, r, copied, q :=
      GapsIn(RulesOn(request.host), disk.nodes, request.(expected := built.manifestHash), order, m, read, approved,
             other);
  }

  method GapsIn(rules: Rules, n: Nodes, req: Request, order: seq<string>, m: Manifest, ghost binary: Bytes,
                approved: Bytes, other: Bytes)
      returns (under: Request, swapped: Disk, r: Outcome, copied: Disk, q: Outcome)
    requires rules.Proper() && InOrder(order) && GoodRequest(req) && ReadyFor(n, req, order, m, binary)
    requires rules.binary(m, binary) == Fine && rules.manifest(m) == Fine
    ensures r == q == Done(m, false) && under == req.(expected := Sha(approved))
    ensures swapped.env == OneEdit(1, ManifestPath(req), Json(m, 0)) && Complete(swapped.nodes, Release(req, m), m)
    ensures copied.env == OneEdit(5 * |order| + 6, ManifestPath(req), other)
    ensures InstalledManifest(copied.nodes, Release(req, m), Some(other))
  {
    ReadyInstalls(rules, n, req, order, m, binary);
    OutputIsElsewhere(req, ManifestPath(req));
    swapped, under, r := SwapIsInstalled(rules, n, req, order, order, m, 0, approved);
    copied, q := OtherManifestInstalled(rules, n, req, order, order, m, other);
  }
}
