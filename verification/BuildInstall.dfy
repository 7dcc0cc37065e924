/** Build and install together: what is installed is what was built, and what is built undisturbed can be
    installed. */
module BuildInstall {
  import opened Options
  import opened Manifest
  import opened Disks
  import opened Install
  import opened InstallTheorems
  import Build

  /** The six members, in some order, make a plan with the five sources. */
  lemma SourcedPlan(out: Path, order: seq<string>)
    requires InOrder(order) && Build.DistinctOrder(order)
    ensures Build.Planned(out, order, SOURCED)
  {
    OtherNames(order);
    assert BINARY in REQUIRED && BINARY in order;
    forall i, j | 0 <= i < j < |SOURCED| ensures SOURCED[i].1 != SOURCED[j].1 { SourcedDistinct(i, j); }
    forall p | p in SOURCED ensures p.1 in order && p.1 != BINARY {
      assert p.1 in REQUIRED;
      SourcedNotBinary(p);
    }
    forall n | n in order && n != BINARY ensures exists j :: 0 <= j < |SOURCED| && SOURCED[j].1 == n {
      assert n in REQUIRED;
      SourcedCover(n);
    }
  }

  lemma SourcedDistinct(j: nat, k: nat)
    requires j < k < |SOURCED|
    ensures SOURCED[j].1 != SOURCED[k].1
  {
    assert |SOURCED[0].1| == 21 && |SOURCED[1].1| == 21 && |SOURCED[2].1| == 19 && |SOURCED[3].1| == 23
      && |SOURCED[4].1| == 7;
    assert SOURCED[0].1[9] == 's' && SOURCED[1].1[9] == 'o';
  }

  lemma SourcedNotBinary(p: (string, string))
    requires p in SOURCED
    ensures p.1 != BINARY
  {
    assert |BINARY| == 11;
    assert |SOURCED[0].1| == 21 && |SOURCED[1].1| == 21 && |SOURCED[2].1| == 19 && |SOURCED[3].1| == 23
      && |SOURCED[4].1| == 7;
  }

  lemma SourcedCover(n: string)
    requires n in REQUIRED && n != BINARY
    ensures exists j :: 0 <= j < |SOURCED| && SOURCED[j].1 == n
  {
    assert SOURCED[0].1 == "whatsapp-stt-local.py" && SOURCED[1].1 == "whatsapp-ocr-local.py";
    assert SOURCED[2].1 == "whatsapp-install.py" && SOURCED[3].1 == "THIRD-PARTY-NOTICES.txt"
      && SOURCED[4].1 == "LICENSE";
  }

  // ---------------------------------------------------------------- from hash to hash

  /** Of the edit of `p` just before the build's last look, at action `last`, and the one just before the
      installer's second read, at action `last + 2`, the later one, if any, leaves something that parses to
      `m`. */
  predicate LaterParses(env: Env, last: nat, p: Path, m: Manifest) {
    KeepsParse(Doings(env, if p in Doings(env, last + 2) then last + 2 else last), p, Some(m))
  }

  /** The installer is given the hash of what the build found in the manifest file at its last look, and may
      admit a manifest in that. It is the built one if and only if the later of two edits says so. */
  lemma AdmittedIsBuilt(env: Env, rules: Rules, t: Timeline, last: nat, req: Request, order: seq<string>, m: Manifest,
                        built: Manifest, left: Nodes)
    requires Follows(env, t, last + 1) && Admitted(env, rules, t, last + 1, req, order) == Some(m)
    requires Build.Reread(Doings(env, last), left, ManifestPath(req), Json(built, 0), req.expected)
    ensures m == built <==> LaterParses(env, last, ManifestPath(req), built)
  {
    var p := ManifestPath(req);
    HashedIsParsed(env, rules, t, last + 1, req, order, m);
    assert Content(At(t, last + 2), p) == Some(left[p].bytes);
    assert At(t, last + 3) == Edited(At(t, last + 2), Doings(env, last + 2));
    FoundInSecond(env, rules, t, last + 1, req, order, m);
  }

  lemma FoundInSecond(env: Env, rules: Rules, t: Timeline, c: nat, req: Request, order: seq<string>, m: Manifest)
    requires Admitted(env, rules, t, c, req, order) == Some(m)
    ensures var b := Content(At(t, c + 2), ManifestPath(req)); b.Some? && Parsed(b.value) == Some(m)
  {
  }

  /** A release complete under the built manifest, with that manifest in it. */
  ghost predicate HoldsBuilt(nodes: Nodes, request: Request, m: Manifest) {
    && WellBuilt(m) && Complete(nodes, Release(request, m), m)
    && InstalledManifest(nodes, Release(request, m), Some(Json(m, 0)))
  }

  /** The action whose edits are the last the installer sees of the manifest, in a run after a build whose
      last look was at action `last`. */
  function ThirdRead(last: nat, order: seq<string>): nat { last + 5 * |order| + 7 }

  /** What an accepted installation has done with what a build of `m` left: it has installed a manifest that
      was admitted, the built one if and only if the later of two edits says so, and, as the release's
      manifest, what stood there at the third read. */
  ghost predicate Chained(env: Env, t: Timeline, last: nat, nodes: Nodes, request: Request, order: seq<string>,
                          m: Manifest, installed: Manifest) {
    && Follows(env, t, last + 1)
    && WellBuilt(installed) && Complete(nodes, Release(request, installed), installed)
    && InstalledManifest(nodes, Release(request, installed),
                         Content(At(t, ThirdRead(last, order) + 1), ManifestPath(request)))
    && (installed == m <==> LaterParses(env, last, ManifestPath(request), m))
  }

  /** A manifest file that nobody else writes from the build's last look to the installer's third is the
      one installed. */
  lemma ChainedIdle(env: Env, t: Timeline, last: nat, left: Nodes, nodes: Nodes, request: Request, order: seq<string>,
                    m: Manifest, installed: Manifest, hash: Hash)
    requires Chained(env, t, last, nodes, request, order, m, installed) && At(t, last + 1) == left
    requires Build.Reread(Doings(env, last), left, ManifestPath(request), Json(m, 0), hash)
    requires Idle(env, ManifestPath(request), last, ThirdRead(last, order) + 1)
    ensures installed == m && HoldsBuilt(nodes, request, m)
  {
    var p, k := ManifestPath(request), ThirdRead(last, order) + 1;
    FollowsKept(env, t, last + 1, last + 1, k);
    assert Idle(env, p, last + 1, k) && SameAt(left, At(t, k), p);
  }

  /** Installing, right after a build's last look, by the hash it returned. */
  method InstallBuilt(disk: Disk, rules: Rules, request: Request, order: seq<string>, ghost m: Manifest,
                      hash: Hash, ghost last: nat)
      returns (r: Outcome)
    requires InOrder(order) && request.apply && rules.Proper() && Respects(disk.env, Releases(request))
    requires disk.clock == last + 1
    requires Build.Reread(Doings(disk.env, last), disk.nodes, ManifestPath(request), Json(m, 0), hash)
    modifies disk
    ensures r.Done? ==>
      && r == Done(r.m, false) && rules.manifest(r.m) == Fine && At(disk.without, last + 1) == old(disk.nodes)
      && Chained(disk.env, disk.without, last, disk.nodes, request, order, m, r.m)
  {
    ghost var left := disk.nodes;
    disk.Begin();
    r := Install.Run(disk, rules, request.(expected := hash), order, order);
    if r.Done? { ChainedBy(disk.env, rules, disk.without, last, left, disk.nodes, request, order, m, r.m, hash); }
  }

  lemma ChainedBy(env: Env, rules: Rules, t: Timeline, last: nat, left: Nodes, nodes: Nodes, request: Request,
                  order: seq<string>, m: Manifest, installed: Manifest, hash: Hash)
    requires Follows(env, t, last + 1) && WellBuilt(installed)
    requires Admitted(env, rules, t, last + 1, request.(expected := hash), order) == Some(installed)
    requires Build.Reread(Doings(env, last), left, ManifestPath(request), Json(m, 0), hash)
    requires Complete(nodes, Release(request.(expected := hash), installed), installed)
    requires InstalledManifest(nodes, Release(request.(expected := hash), installed),
                               CopiedManifest(t, last + 1 + |order| + 5, request.(expected := hash), order))
    ensures Chained(env, t, last, nodes, request, order, m, installed)
  {
    AdmittedIsBuilt(env, rules, t, last, request.(expected := hash), order, installed, m, left);
  }

  /** A build by plan from action `c` on, then the installation by the hash it returned. */
  method BuildThenInstallBy(disk: Disk, rules: Rules, given: Build.Given, request: Request, order: seq<string>,
                            pairs: seq<(string, string)>, ghost c: nat, ghost last: nat)
      returns (built: Build.Result, r: Outcome, m: Manifest, ghost snapshot: map<string, Bytes>, ghost left: Nodes)
    requires Build.Planned(request.bundle.parts, order, pairs) && InOrder(order) && request.apply && rules.Proper()
    requires Respects(disk.env, Releases(request)) && disk.clock == c && last == Build.LastLook(c, order, pairs)
    modifies disk
    ensures built.Bundle? ==>
      && m.sourceFiles == Build.Digests(snapshot)
      && Build.Reread(Doings(disk.env, last), left, ManifestPath(request), Json(m, 0), built.manifestHash)
    ensures built.Bundle? && r.Done? ==>
      && r == Done(r.m, false) && rules.manifest(r.m) == Fine && At(disk.without, last + 1) == left
      && Chained(disk.env, disk.without, last, disk.nodes, request, order, m, r.m)
  {
    ghost var looks;
    var binary;
    r := Dead;
    disk.Begin();
    built, m, binary, snapshot, looks := Build.Run(disk, request.bundle.parts, given, order, pairs, c, last);
    left := disk.nodes;
    if !built.Bundle? { return; }
    r := InstallBuilt(disk, rules, request, order, m, built.manifestHash, last);
  }

  /** Build, then install by the hash the build returned, with others at work on everything but the releases
      area, and the hash chain as far as it goes. The hash is that of what stood in the manifest file at the
      build's last look: the built manifest's if and only if the edits just before that look leave its bytes.
      The manifest installed is the built one if and only if, of the edit just before that look and the one
      just before the installer's second read, the later one, if any, leaves its parse. The release then holds,
      for each sourced member, the very bytes of the build's source snapshot, and for every member the bytes
      digested at the end of the build. The release's manifest file is what stood there at the third read; if
      nobody else writes the manifest file from the last look to that read, it is the built manifest. */
  method BuildThenInstall(disk: Disk, given: Build.Given, request: Request, order: seq<string>, ghost last: nat)
      returns (built: Build.Result, r: Outcome, m: Manifest, ghost snapshot: map<string, Bytes>, ghost left: Nodes)
    requires InOrder(order) && Build.DistinctOrder(order) && request.apply
    requires Respects(disk.env, Releases(request)) && last == Build.LastLook(disk.clock, order, SOURCED)
    modifies disk
    ensures built.Bundle? ==>
      && Build.Reread(Doings(disk.env, last), left, ManifestPath(request), Json(m, 0), built.manifestHash)
      && (built.manifestHash == Sha(Json(m, 0))
          <==> Build.BytesKept(Doings(disk.env, last), ManifestPath(request), Json(m, 0)))
    ensures built.Bundle? && r.Done? ==>
      && r == Done(r.m, false) && At(disk.without, last + 1) == left
      && Chained(disk.env, disk.without, last, disk.nodes, request, order, m, r.m)
      && (r.m == m ==> Bound(disk.nodes, Release(request, m), m, snapshot))
      && (Idle(disk.env, ManifestPath(request), last, ThirdRead(last, order) + 1) ==>
            r.m == m && HoldsBuilt(disk.nodes, request, m))
  {
    SourcedPlan(request.bundle.parts, order);
    OwnRulesAreProper(request.host);
    built, r, m, snapshot, left :=
      BuildThenInstallBy(disk, RulesOn(request.host), given, request, order, SOURCED, disk.clock, last);
    if built.Bundle? && r.Done? {
      if r.m == m { BoundByOwnRules(disk.nodes, request, m, snapshot); }
      if Idle(disk.env, ManifestPath(request), last, ThirdRead(last, order) + 1) {
        ChainedIdle(disk.env, disk.without, last, left, disk.nodes, request, order, m, r.m, built.manifestHash);
      }
    }
  }

  lemma BoundByOwnRules(nodes: Nodes, request: Request, m: Manifest, snapshot: map<string, Bytes>)
    requires WellBuilt(m) && Complete(nodes, Release(request, m), m) && RulesOn(request.host).manifest(m) == Fine
    requires m.sourceFiles == Build.Digests(snapshot)
    ensures Bound(nodes, Release(request, m), m, snapshot)
  {
    BoundWhenComplete(nodes, Release(request, m), m, snapshot);
  }

  // ---------------------------------------------------------------- undisturbed

  /** The bundle and the destination as an undisturbed installer needs them. */
  ghost predicate ReadyFor(n: Nodes, req: Request, order: seq<string>, m: Manifest, binary: Bytes) {
    && WellBuilt(m) && req.expected == Sha(Json(m, 0)) && Stands(n, ManifestPath(req), Json(m, 0))
    && (forall name :: name in order ==>
          name in m.files.value && HoldsAt(n, req.bundle.parts + [name], m.files.value[name]))
    && Content(n, req.bundle.parts + [BINARY]) == Some(binary)
    && DestinationReady(n, req, Release(req, m))
  }

  /** Absolute, safe and separate paths, no links on the way, no release yet. */
  ghost predicate DestinationReady(n: Nodes, req: Request, release: Path) {
    && AllAbsolute(req) && SafePaths(req) && Separate(req.state.parts, req.prefix.parts) && Safe(req.owners)
    && LinkFree(n, release) && LinkFree(n, req.state.parts) && !ExistsIn(n, release)
  }

  /** Left alone, the installer accepts a ready bundle exactly when its manifest passes the checks. */
  lemma CalmAdmits(env: Env, rules: Rules, t: Timeline, c: nat, req: Request, order: seq<string>, m: Manifest,
                   binary: Bytes, n: Nodes)
    requires Calm(env, c) && (forall k: nat :: c <= k ==> At(t, k) == n) && ReadyFor(n, req, order, m, binary)
    requires rules.binary(m, binary) == Fine
    ensures Accepts(env, rules, t, c, req, order, order) <==> rules.manifest(m) == Fine
    ensures rules.manifest(m) == Fine ==> Admitted(env, rules, t, c, req, order) == Some(m)
  {
    CalmFound(env, rules, t, c, req, m, n);
    CalmMembers(env, t, c, req, order, m, n);
    assert At(t, c + |order| + 3) == At(t, c + |order| + 4) == At(t, c + |order| + 5) == At(t, c + |order| + 6) == n;
    assert At(t, c + |order| + 5 + 4 * |order| + 2) == n;
  }

  lemma CalmFound(env: Env, rules: Rules, t: Timeline, c: nat, req: Request, m: Manifest, n: Nodes)
    requires Calm(env, c) && At(t, c + 1) == At(t, c + 2) == n && WellBuilt(m)
    requires req.expected == Sha(Json(m, 0)) && Stands(n, ManifestPath(req), Json(m, 0))
    ensures ManifestFound(env, rules, t, c, req) == if rules.manifest(m) == Fine then Some(m) else None
  {
  }

  lemma CalmMembers(env: Env, t: Timeline, c: nat, req: Request, order: seq<string>, m: Manifest, n: Nodes)
    requires Calm(env, c) && (forall k: nat :: c <= k ==> At(t, k) == n) && m.files.Some?
    requires forall name :: name in order ==>
      name in m.files.value && HoldsAt(n, req.bundle.parts + [name], m.files.value[name])
    ensures MembersFine(env, t, c + 2, req, m.files.value, order)
    ensures CopiesFine(env, t, c + |order| + 6, req, m.files.value, order)
  {
    var e, d := c + 2, c + |order| + 6;
    forall i | 0 <= i < |order| ensures MemberFine(t, e, req, m.files.value, order, i) {
      assert order[i] in order && At(t, e + i + 1) == n;
    }
    forall i | 0 <= i < |order| ensures CopyFine(t, d, req, m.files.value, order, i) {
      assert order[i] in order && At(t, d + 4 * i + 1) == n;
    }
  }

  /** An undisturbed installation of a ready bundle. */
  method InstallCalm(disk: Disk, rules: Rules, req: Request, order: seq<string>, ghost m: Manifest, ghost binary: Bytes)
      returns (r: Outcome)
    requires InOrder(order) && req.apply && rules.Proper() && Respects(disk.env, Releases(req))
    requires Calm(disk.env, disk.clock) && ReadyFor(disk.nodes, req, order, m, binary)
    requires rules.binary(m, binary) == Fine
    modifies disk
    ensures r.Done? <==> rules.manifest(m) == Fine
    ensures r.Done? ==> r == Done(m, false) && HoldsBuilt(disk.nodes, req, m)
  {
    disk.Begin();
    ghost var c, n := disk.clock, disk.nodes;
    forall k: nat | c <= k ensures At(disk.without, k) == n { CalmStands(disk.env, disk.without, c, k); }
    CalmAdmits(disk.env, rules, disk.without, c, req, order, m, binary, n);
    r := Install.Run(disk, rules, req, order, order);
  }

  /** The release an installed build gets. */
  function ReleaseFor(request: Request, given: Build.Given): Path {
    Releases(request) + [given.tree + "-" + ("linux-" + given.arch)]
  }

  /** A new output is outside the releases area: someone else, the compiler, writes in it. */
  lemma OutputApart(env: Env, t: Timeline, c: nat, out: Path, request: Request)
    requires Follows(env, t, c) && Respects(env, Releases(request))
    requires !ExistsIn(At(t, c + 1), out) && out + [BINARY] in At(t, c + 3)
    ensures !Under(Releases(request), out)
  {
    var p := out + [BINARY];
    FollowsKept(env, t, c, c + 1, c + 3);
    KeptInside(env, At(t, c + 1), At(t, c + 3), c + 1, c + 3, {}, Releases(request));
    assert Under(out, p) && p !in At(t, c + 1);
    assert !SameAt(At(t, c + 1), At(t, c + 3), p);
    if Under(Releases(request), out) { AboveAbove(Releases(request), out, p); }
  }

  lemma ReleaseAbove(root: Path, release: Path, out: Path, name: string)
    requires IsRelease(root, release) && Under(release, out + [name])
    ensures Under(root, out)
  {
    var p := out + [name];
    assert p[..|root|] == release[..|root|] == root;
    assert out[..|root|] == p[..|root|];
  }

  lemma FileApart(request: Request, release: Path, out: Path, name: string)
    requires IsRelease(Releases(request), release) && !Under(Releases(request), out)
    ensures !Under(release, out + [name])
  {
    if Under(release, out + [name]) { ReleaseAbove(Releases(request), release, out, name); }
  }

  /** What the build writes leaves the destination ready. */
  lemma DestinationStays(a: Nodes, b: Nodes, hole: set<Path>, req: Request, release: Path)
    requires DestinationReady(a, req, release) && AgreeBut(a, b, hole)
    requires forall p :: p in hole ==> p in b && b[p].File? && !Under(release, p)
    ensures DestinationReady(b, req, release)
  {
    LinksStay(a, b, hole, release);
    LinksStay(a, b, hole, req.state.parts);
    if ExistsIn(b, release) { ExistedBefore(a, b, hole, release); }
  }

  lemma ExistedBefore(a: Nodes, b: Nodes, hole: set<Path>, release: Path)
    requires AgreeBut(a, b, hole) && ExistsIn(b, release) && forall p :: p in hole ==> !Under(release, p)
    ensures ExistsIn(a, release)
  {
    if release in b {
      assert SameAt(a, b, release);
    } else {
      var q :| q in b && Under(release, q);
      assert SameAt(a, b, q);
    }
  }

  lemma LinksStay(a: Nodes, b: Nodes, hole: set<Path>, p: Path)
    requires LinkFree(a, p) && AgreeBut(a, b, hole) && forall q :: q in hole ==> q in b && b[q].File?
    ensures LinkFree(b, p)
  {
    forall k | 0 <= k <= |p| ensures p[..k] !in b || !b[p[..k]].Link? {
      if p[..k] !in hole { assert SameAt(a, b, p[..k]); }
    }
  }

  /** What an undisturbed build leaves is ready to be installed. */
  lemma BuiltIsReady(a: Nodes, b: Nodes, req: Request, given: Build.Given, order: seq<string>,
                     pairs: seq<(string, string)>,
                     m: Manifest, binary: Bytes)
    requires Build.Planned(req.bundle.parts, order, pairs) && InOrder(order) && WellBuilt(m)
    requires Build.Finished(a, b, req.bundle.parts, pairs) && Build.Stored(b, req.bundle.parts, order, pairs, m)
    requires Stands(b, ManifestPath(req), Json(m, 0)) && req.expected == Sha(Json(m, 0))
    requires m.files.value[BINARY] == Sha(binary) && Release(req, m) == ReleaseFor(req, given)
    requires req.bundle.parts + [BINARY] in a && a[req.bundle.parts + [BINARY]].File?
    requires DestinationReady(a, req, ReleaseFor(req, given)) && !Under(Releases(req), req.bundle.parts)
    ensures ReadyFor(b, req, order, m, binary)
  {
    var out, release := req.bundle.parts, ReleaseFor(req, given);
    var hole := Build.Targets(out, pairs) + {out + [MANIFEST]};
    Build.OutsideTargets(out, order, pairs);
    NamesApart(out, BINARY, MANIFEST);
    assert SameAt(a, b, out + [BINARY]);
    forall name | name in order ensures name in m.files.value && HoldsAt(b, out + [name], m.files.value[name]) {
      assert Build.Listed(b, out, name, m.files.value);
      if name != BINARY {
        var j :| 0 <= j < |pairs| && pairs[j].1 == name;
        assert pairs[j] in pairs;
      }
    }
    assert Build.Listed(b, out, BINARY, m.files.value);
    forall p | p in hole ensures p in b && b[p].File? && !Under(release, p) {
      if p != out + [MANIFEST] {
        var q :| q in pairs && out + [q.1] == p;
        FileApart(req, release, out, q.1);
      } else {
        FileApart(req, release, out, MANIFEST);
      }
    }
    DestinationStays(a, b, hole, req, release);
  }

  /** What the two names and the extracted source must be for the installer's checks to pass. */
  predicate Admissible(given: Build.Given, extracted: Nodes, out: Path) {
    && Hex40(Some(given.commit)) && Hex40(Some(given.tree))
    && Build.FileIn(extracted, Build.Frozen(out), "connectors/whatsapp/go.mod")
    && Build.FileIn(extracted, Build.Frozen(out), "connectors/whatsapp/go.sum")
  }

  /** The installer's verdicts on what an undisturbed build wrote. */
  lemma BuiltVerdicts(env: Env, c: nat, out: Path, given: Build.Given, order: seq<string>, m: Manifest, binary: Bytes,
                      extracted: Nodes, snapshot: map<string, Bytes>, host: Host)
    requires Build.Faithful(env, c, out, given, order, SOURCED, m, binary, Build.Digests(snapshot)) && Calm(env, c + 1)
    requires Build.Taken(extracted, out, snapshot) && Named(extracted, out) && InOrder(order)
    requires given.arch in {"amd64", "arm64"} && HashLength(given.goSha) == 64
    requires host.system == "linux" && HostArch(host.machine) == Some(given.arch)
    ensures RulesOn(host).manifest(m) == Fine <==> Admissible(given, extracted, out)
    ensures RulesOn(host).binary(m, binary) == Fine && WellBuilt(m)
  {
    NamedInputs(given, extracted, out, snapshot);
    var inputs, files := Build.Digests(snapshot), m.files.value;
    var target := Build.TargetRead(binary, given.arch).value;
    assert files.Keys == REQUIRED;
    forall p | p in SOURCED ensures p.0 in inputs && p.1 in files && files[p.1] == inputs[p.0] {
      var d := c + Build.Span(order, SOURCED) + 4;
      assert Build.BoundPair(env, c + 3, d, out, p, inputs, files) && Idle(env, out + [p.1], c + 3, d);
    }
    BuiltIsAdmitted(given.commit, given.tree, given.arch, target, inputs, given.goSha, files, binary);
    BuiltBinaryAdmitted(given.commit, given.tree, given.arch, target, inputs, given.goSha, files, binary, host);
  }

  /** Nobody does anything after the compiler, and the build can succeed. */
  ghost predicate Startable(env: Env, t: Timeline, c: nat, given: Build.Given, out: Path,
                            pairs: seq<(string, string)>) {
    && Calm(env, c + 3) && Lives(env, c, 3)
    && Build.MayBegin(At(t, c + 1), out, given) && Build.Compilable(At(t, c + 2), At(t, c + 3), out, given, pairs)
  }

  /** The compiler leaves a plain file in an output that was new, and the installer's destination, which
      nobody else writes, is ready. */
  ghost predicate Receivable(env: Env, t: Timeline, c: nat, given: Build.Given, request: Request) {
    var out := request.bundle.parts;
    && Respects(env, Releases(request)) && request.apply && !ExistsIn(At(t, c + 1), out)
    && out + [BINARY] in At(t, c + 3) && At(t, c + 3)[out + [BINARY]].File?
    && DestinationReady(At(t, c + 3), request, ReleaseFor(request, given))
  }

  /** The manifest is faithful to the extracted source. */
  ghost predicate Truthful(env: Env, c: nat, out: Path, given: Build.Given, order: seq<string>,
                           pairs: seq<(string, string)>, extracted: Nodes, m: Manifest, binary: Bytes) {
    exists snapshot ::
      Build.Taken(extracted, out, snapshot)
      && Build.Faithful(env, c + 1, out, given, order, pairs, m, binary, Build.Digests(snapshot))
  }

  predicate Judged(rules: Rules, m: Manifest, binary: Bytes, good: bool) {
    WellBuilt(m) && rules.binary(m, binary) == Fine && (rules.manifest(m) == Fine <==> good)
  }

  /** How the installer's rules judge what a faithful build of the extracted source wrote. */
  ghost predicate Judges(rules: Rules, env: Env, c: nat, out: Path, given: Build.Given, order: seq<string>,
                         pairs: seq<(string, string)>, extracted: Nodes, good: bool) {
    forall m, binary :: Truthful(env, c, out, given, order, pairs, extracted, m, binary) ==>
      Judged(rules, m, binary, good)
  }

  /** What an undisturbed build leaves on the disk `n`. */
  ghost predicate Left(env: Env, c: nat, out: Path, given: Build.Given, order: seq<string>,
                       pairs: seq<(string, string)>,
                       t: Timeline, n: Nodes, m: Manifest, binary: Bytes) {
    && Truthful(env, c + 1, out, given, order, pairs, At(t, c + 2), m, binary) && m.files.Some?
    && BINARY in m.files.value
    && m.files.value[BINARY] == Sha(binary)
    && Build.Finished(At(t, c + 3), n, out, pairs) && Build.Stored(n, out, order, pairs, m)
    && Stands(n, out + [MANIFEST], Json(m, 0))
  }

  /** What an undisturbed build of the plan leaves, and how it will be judged. */
  lemma AfterBuild(env: Env, t: Timeline, c: nat, rules: Rules, given: Build.Given, request: Request,
                   order: seq<string>,
                   pairs: seq<(string, string)>, n: Nodes, m: Manifest, binary: Bytes, good: bool)
    requires Follows(env, t, c) && Calm(env, c + 3) && Receivable(env, t, c, given, request)
    requires Build.Planned(request.bundle.parts, order, pairs) && InOrder(order)
    requires Judges(rules, env, c + 1, request.bundle.parts, given, order, pairs, At(t, c + 2), good)
    requires Left(env, c, request.bundle.parts, given, order, pairs, t, n, m, binary)
    ensures ReadyFor(n, request.(expected := Sha(Json(m, 0))), order, m, binary)
    ensures rules.binary(m, binary) == Fine && (rules.manifest(m) == Fine <==> good)
  {
    OutputApart(env, t, c, request.bundle.parts, request);
    assert Judged(rules, m, binary, good);
    BuiltIsReady(At(t, c + 3), n, request.(expected := Sha(Json(m, 0))), given, order, pairs, m, binary);
  }

  /** The build half: a bundle, faithful to the source it was made from, as it stands on the disk. */
  method BuildUndisturbed(disk: Disk, given: Build.Given, out: Path, order: seq<string>, pairs: seq<(string, string)>,
                          ghost c: nat)
      returns (built: Build.Result, m: Manifest, binary: Bytes)
    requires disk.OnTime() && Build.Planned(out, order, pairs) && disk.clock == c
    requires Startable(disk.env, disk.without, c, given, out, pairs)
    modifies disk`nodes, disk`clock, disk`touched
    ensures built == Build.Bundle(Sha(Json(m, 0))) && Calm(disk.env, disk.clock)
    ensures Left(disk.env, c, out, given, order, pairs, disk.without, disk.nodes, m, binary)
  {
    ghost var snapshot, looks;
    ghost var last := Build.LastLook(c, order, pairs);
    built, m, binary, snapshot, looks := Build.Run(disk, out, given, order, pairs, c, last);
    LeftBy(disk.env, disk.without, c, last, given, out, order, pairs, disk.nodes, built, m, binary, snapshot, looks);
  }

  lemma LeftBy(env: Env, t: Timeline, c: nat, last: nat, given: Build.Given, out: Path, order: seq<string>,
               pairs: seq<(string, string)>, n: Nodes, built: Build.Result, m: Manifest, binary: Bytes,
               snapshot: map<string, Bytes>, looks: seq<map<string, Bytes>>)
    requires Startable(env, t, c, given, out, pairs) && c + 3 <= last
    requires Build.Undisturbed(env, t, c, last, out, given, order, pairs, n, built, m)
    requires built.Bundle? ==> Build.Told(env, t, c, out, given, order, pairs, m, binary, snapshot, looks)
    requires built.Bundle? ==>
      Build.Reread(Doings(env, last), n, out + [MANIFEST], Json(m, 0), built.manifestHash)
    ensures built == Build.Bundle(Sha(Json(m, 0))) && Left(env, c, out, given, order, pairs, t, n, m, binary)
  {
    CalmIsStill(env, c + 3, last);
    assert Build.Faithful(env, c + 2, out, given, order, pairs, m, binary, Build.Digests(snapshot));
    assert Idle(env, out + [BINARY], c + 4, c + Build.Span(order, pairs) + 6);
  }

  lemma CalmIsStill(env: Env, c: nat, d: nat)
    requires Calm(env, c) && c <= d
    ensures Still(env, c, d) && Doings(env, d) == map[] && !Stopped(env, d)
  {
  }

  /** The installation half, of a bundle whose hash is the expected one. */
  method InstallReady(disk: Disk, rules: Rules, request: Request, order: seq<string>, ghost m: Manifest,
                      ghost binary: Bytes,
                      hash: Hash)
      returns (r: Outcome)
    requires InOrder(order) && request.apply && rules.Proper() && Respects(disk.env, Releases(request))
    requires hash == Sha(Json(m, 0)) && ReadyFor(disk.nodes, request.(expected := hash), order, m, binary)
    requires Calm(disk.env, disk.clock) && rules.binary(m, binary) == Fine
    modifies disk
    ensures r.Done? <==> rules.manifest(m) == Fine
    ensures r.Done? ==> r == Done(m, false) && HoldsBuilt(disk.nodes, request, m)
  {
    r := InstallCalm(disk, rules, request.(expected := hash), order, m, binary);
  }

  /** The build half, with what the installer will say of it. */
  method BuildReady(disk: Disk, rules: Rules, given: Build.Given, request: Request, order: seq<string>,
                    pairs: seq<(string, string)>, ghost c: nat, ghost t: Timeline, ghost good: bool)
      returns (built: Build.Result, m: Manifest, binary: Bytes)
    requires disk.OnTime() && c == disk.clock && t == disk.without
    requires Build.Planned(request.bundle.parts, order, pairs) && InOrder(order)
    requires Startable(disk.env, t, c, given, request.bundle.parts, pairs) && Receivable(disk.env, t, c, given, request)
    requires Judges(rules, disk.env, c + 1, request.bundle.parts, given, order, pairs, At(t, c + 2), good)
    modifies disk`nodes, disk`clock, disk`touched
    ensures built == Build.Bundle(Sha(Json(m, 0))) && Calm(disk.env, disk.clock)
    ensures ReadyFor(disk.nodes, request.(expected := Sha(Json(m, 0))), order, m, binary)
    ensures rules.binary(m, binary) == Fine && (rules.manifest(m) == Fine <==> good)
  {
    built, m, binary := BuildUndisturbed(disk, given, request.bundle.parts, order, pairs, c);
    AfterBuild(disk.env, t, c, rules, given, request, order, pairs, disk.nodes, m, binary, good);
  }

  /** Build and install, undisturbed. */
  method ChainBy(disk: Disk, rules: Rules, given: Build.Given, request: Request, order: seq<string>,
                 pairs: seq<(string, string)>, ghost c: nat, ghost t: Timeline, ghost good: bool)
      returns (built: Build.Result, r: Outcome, m: Manifest)
    requires disk.OnTime() && c == disk.clock && t == disk.without
    requires Build.Planned(request.bundle.parts, order, pairs) && InOrder(order) && rules.Proper()
    requires Startable(disk.env, t, c, given, request.bundle.parts, pairs) && Receivable(disk.env, t, c, given, request)
    requires Judges(rules, disk.env, c + 1, request.bundle.parts, given, order, pairs, At(t, c + 2), good)
    modifies disk
    ensures built.Bundle? && (r.Done? <==> good)
    ensures r.Done? ==> r == Done(m, false) && HoldsBuilt(disk.nodes, request, m)
  {
    var binary;
    built, m, binary := BuildReady(disk, rules, given, request, order, pairs, c, t, good);
    r := InstallReady(disk, rules, request, order, m, binary, built.manifestHash);
  }

  /** The archive has every file that is named to it, as Git sees to it. */
  ghost predicate Named(extracted: Nodes, out: Path) {
    forall name :: name in NAMED_INPUTS ==> Build.FileIn(extracted, Build.Frozen(out), name)
  }

  lemma NamedInputs(given: Build.Given, extracted: Nodes, out: Path, snapshot: map<string, Bytes>)
    requires Named(extracted, out) && Build.Taken(extracted, out, snapshot)
    ensures NAMED_INPUTS <= snapshot.Keys
    ensures "connectors/whatsapp/go.mod" in snapshot
      <==> Build.FileIn(extracted, Build.Frozen(out), "connectors/whatsapp/go.mod")
    ensures "connectors/whatsapp/go.sum" in snapshot
      <==> Build.FileIn(extracted, Build.Frozen(out), "connectors/whatsapp/go.sum")
  {
  }

  /** The host fits the build. */
  predicate Fits(given: Build.Given, request: Request) {
    request.host.system == "linux" && HostArch(request.host.machine) == Some(given.arch)
  }

  lemma OwnRulesJudge(env: Env, c: nat, given: Build.Given, request: Request, order: seq<string>, extracted: Nodes,
                      good: bool)
    requires Calm(env, c + 2) && InOrder(order) && Fits(given, request) && Named(extracted, request.bundle.parts)
    requires given.arch in {"amd64", "arm64"} && HashLength(given.goSha) == 64
    requires good <==> Admissible(given, extracted, request.bundle.parts)
    ensures Judges(RulesOn(request.host), env, c, request.bundle.parts, given, order, SOURCED, extracted, good)
  {
    forall m, binary | Truthful(env, c, request.bundle.parts, given, order, SOURCED, extracted, m, binary)
      ensures Judged(RulesOn(request.host), m, binary, good)
    {
      var snapshot :| Build.Taken(extracted, request.bundle.parts, snapshot)
        && Build.Faithful(env, c + 1, request.bundle.parts, given, order, SOURCED, m, binary, Build.Digests(snapshot));
      BuiltVerdicts(env, c + 1, request.bundle.parts, given, order, m, binary, extracted, snapshot, request.host);
    }
  }

  lemma OwnPlanAndRules(env: Env, t: Timeline, c: nat, given: Build.Given, request: Request, order: seq<string>,
                        good: bool)
    requires Startable(env, t, c, given, request.bundle.parts, SOURCED) && Fits(given, request)
    requires InOrder(order) && Build.DistinctOrder(order) && Named(At(t, c + 2), request.bundle.parts)
    requires good <==> Admissible(given, At(t, c + 2), request.bundle.parts)
    ensures Build.Planned(request.bundle.parts, order, SOURCED) && RulesOn(request.host).Proper()
    ensures Judges(RulesOn(request.host), env, c + 1, request.bundle.parts, given, order, SOURCED, At(t, c + 2), good)
  {
    SourcedPlan(request.bundle.parts, order);
    OwnRulesAreProper(request.host);
    OwnRulesJudge(env, c + 1, given, request, order, At(t, c + 2), good);
  }

  /** Build output is admissible, exactly as far as it is: an undisturbed build, then an undisturbed
      installation on a matching host with a destination that is ready, installs what was built if and only
      if the commit and the tree are 40-digit names and the source has go.mod and go.sum. */
  method BuildAndInstallUndisturbed(disk: Disk, given: Build.Given, request: Request, order: seq<string>,
                                    ghost c: nat, ghost t: Timeline)
      returns (built: Build.Result, r: Outcome, m: Manifest)
    requires disk.OnTime() && c == disk.clock && t == disk.without
    requires InOrder(order) && Build.DistinctOrder(order) && Fits(given, request)
    requires Startable(disk.env, t, c, given, request.bundle.parts, SOURCED)
    requires Receivable(disk.env, t, c, given, request)
    requires Named(At(t, c + 2), request.bundle.parts)
    modifies disk
    ensures built.Bundle? && (r.Done? <==> Admissible(given, At(t, c + 2), request.bundle.parts))
    ensures r.Done? ==> r == Done(m, false) && HoldsBuilt(disk.nodes, request, m)
  {
    ghost var good := Admissible(given, At(t, c + 2), request.bundle.parts);
    OwnPlanAndRules(disk.env, t, c, given, request, order, good);
    built, r, m := ChainBy(disk, RulesOn(request.host), given, request, order, SOURCED, c, t, good);
  }
}
