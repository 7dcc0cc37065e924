/** What holds of the installer over any number of runs, how far its hash binds what it installs, and
    runs that show where it does not. */
module InstallTheorems {
  import opened Options
  import opened Manifest
  import opened Disks
  import opened Install

  // ---------------------------------------------------------------- run after run

  datatype Job = Job(req: Request, checks: seq<string>, copies: seq<string>)

  /** For each finished release, the manifest it was installed under. */
  type Ledger = map<Path, Manifest>

  /** Every release with a service file is complete, under its manifest in the ledger. */
  ghost predicate Sound(nodes: Nodes, root: Path, ledger: Ledger) {
    forall release :: IsRelease(root, release) && release + [SERVICE] in nodes ==>
      release in ledger && Complete(nodes, release, ledger[release])
  }

  function Entered(ledger: Ledger, was: Nodes, req: Request, admitted: Option<Manifest>): Ledger {
    if admitted.Some? && WellBuilt(admitted.value) && !ExistsIn(was, Release(req, admitted.value))
    then ledger[Release(req, admitted.value) := admitted.value] else ledger
  }

  lemma CompleteStays(a: Nodes, b: Nodes, root: Path, release: Path, m: Manifest)
    requires ReleasesKept(a, b, root) && IsRelease(root, release) && ExistsIn(a, release) && Complete(a, release, m)
    ensures Complete(b, release, m)
  {
    assert Under(release, release + [MANIFEST]) && SameAt(a, b, release + [MANIFEST]);
    forall n | n in REQUIRED ensures HoldsAt(b, release + [n], m.files.value[n]) {
      assert Under(release, release + [n]) && SameAt(a, b, release + [n]);
    }
  }

  lemma SoundNext(a: Nodes, b: Nodes, req: Request, admitted: Option<Manifest>, ledger: Ledger)
    requires Sound(a, Releases(req), ledger) && ReleasesKept(a, b, Releases(req)) && NewComplete(a, b, req, admitted)
    ensures Sound(b, Releases(req), Entered(ledger, a, req, admitted))
  {
    var root, after := Releases(req), Entered(ledger, a, req, admitted);
    forall release | IsRelease(root, release) && release + [SERVICE] in b
      ensures release in after && Complete(b, release, after[release])
    {
      if ExistsIn(a, release) {
        assert Under(release, release + [SERVICE]) && SameAt(a, b, release + [SERVICE]);
        CompleteStays(a, b, root, release, ledger[release]);
      }
    }
  }

  lemma KeptThrough(a: Nodes, b: Nodes, e: Nodes, root: Path)
    requires ReleasesKept(a, b, root) && ReleasesKept(b, e, root)
    ensures ReleasesKept(a, e, root)
  {
    forall release, p | IsRelease(root, release) && ExistsIn(a, release) && Under(release, p) ensures SameAt(a, e, p) {
      ExistsOn(a, b, root, release);
      assert SameAt(a, b, p) && SameAt(b, e, p);
    }
  }

  lemma ExistsOn(a: Nodes, b: Nodes, root: Path, release: Path)
    requires ReleasesKept(a, b, root) && IsRelease(root, release) && ExistsIn(a, release)
    ensures ExistsIn(b, release)
  {
    if release in a {
      assert SameAt(a, b, release);
    } else {
      var q :| q in a && Under(release, q);
      assert SameAt(a, b, q);
    }
  }

  /** Any number of runs on one prefix, each of them stopped anywhere or not: after all of them every
      release with a service file is complete, under a manifest that passed the checks, and whatever release
      there ever was is as it was. */
  method RunAll(disk: Disk, rules: Rules, root: Path, jobs: seq<Job>,
                ghost ledger: Ledger) returns (ghost after: Ledger)
    requires rules.Proper() && Respects(disk.env, root) && Sound(disk.nodes, root, ledger)
    requires forall j :: 0 <= j < |jobs| ==>
      Releases(jobs[j].req) == root && InOrder(jobs[j].checks) && InOrder(jobs[j].copies)
    modifies disk
    ensures Sound(disk.nodes, root, after) && ReleasesKept(old(disk.nodes), disk.nodes, root)
    ensures forall release :: release in after ==>
      rules.manifest(after[release]) == Fine || (release in ledger && after[release] == ledger[release])
  {
    after := ledger;
    ghost var start := disk.nodes;
    var j := 0;
    while j < |jobs|
      invariant 0 <= j <= |jobs|
      invariant Sound(disk.nodes, root, after) && ReleasesKept(start, disk.nodes, root)
      invariant forall release :: release in after ==>
        rules.manifest(after[release]) == Fine || (release in ledger && after[release] == ledger[release])
    {
      var job := jobs[j];
      disk.Begin();
      ghost var was, c := disk.nodes, disk.clock;
      var ended := Run(disk, rules, job.req, job.checks, job.copies);
      ghost var admitted := Admitted(disk.env, rules, disk.without, c, job.req, job.checks);
      SoundNext(was, disk.nodes, job.req, admitted, after);
      after := Entered(after, was, job.req, admitted);
      KeptThrough(start, was, disk.nodes, root);
      j := j + 1;
    }
  }

  // ---------------------------------------------------------------- the hash chain

  /** An edit of `p`, if it is one, leaves something there that parses to `v`. */
  predicate KeepsParse(edits: Edits, p: Path, v: Option<Manifest>) {
    p in edits ==> edits[p].Some? && !edits[p].value.Dir? && Parsed(edits[p].value.bytes) == v
  }

  /** Which manifest is admitted hangs on one edit: the one just before the second read. The manifest
      parsed is the one whose hash was checked if and only if that edit leaves the file's parse alone. */
  lemma HashedIsParsed(env: Env, rules: Rules, t: Timeline, c: nat, req: Request, order: seq<string>, m: Manifest)
    requires Follows(env, t, c) && Admitted(env, rules, t, c, req, order) == Some(m)
    ensures var hashed := Content(At(t, c + 1), ManifestPath(req));
      && hashed.Some? && Sha(hashed.value) == req.expected
      && (Parsed(hashed.value) == Some(m) <==> KeepsParse(Doings(env, c + 1), ManifestPath(req), Parsed(hashed.value)))
  {
    assert At(t, c + 2) == Edited(At(t, c + 1), Doings(env, c + 1));
  }

  /** The release holds, member by member, the bytes digested into this manifest, and for the five sourced
      members the bytes of this snapshot. */
  ghost predicate Bound(nodes: Nodes, release: Path, m: Manifest, snapshot: map<string, Bytes>) {
    && (forall n :: n in REQUIRED ==>
          m.files.Some? && n in m.files.value && HoldsAt(nodes, release + [n], m.files.value[n]))
    && forall p :: p in SOURCED ==> p.0 in snapshot && Stands(nodes, release + [p.1], snapshot[p.0])
  }

  lemma BoundWhenComplete(nodes: Nodes, release: Path, m: Manifest, snapshot: map<string, Bytes>)
    requires Complete(nodes, release, m) && CheckManifest(m) == Fine
    requires snapshot.Keys == m.sourceFiles.Keys && forall k :: k in snapshot ==> m.sourceFiles[k] == Sha(snapshot[k])
    ensures Bound(nodes, release, m, snapshot)
  {
    assert Sourced(m);
    forall p | p in SOURCED ensures p.0 in snapshot && Stands(nodes, release + [p.1], snapshot[p.0]) {
      assert p.1 in m.files.value.Keys;
      assert HoldsAt(nodes, release + [p.1], m.files.value[p.1]);
    }
  }

  /** The hash chain, with its exact condition: given the hash of a built manifest, an admitted bundle is
      that build's if and only if the edit before the second read leaves the manifest's parse alone; and
      then a complete release holds the very bytes hashed into it. */
  lemma HashChain(env: Env, t: Timeline, c: nat, req: Request, order: seq<string>, m: Manifest,
                  built: Manifest, spelling: nat, nodes: Nodes, snapshot: map<string, Bytes>)
    requires Follows(env, t, c) && Admitted(env, RulesOn(req.host), t, c, req, order) == Some(m)
    requires req.expected == Sha(Json(built, spelling)) && Complete(nodes, Release(req, m), m)
    requires snapshot.Keys == built.sourceFiles.Keys
    requires forall k :: k in snapshot ==> built.sourceFiles[k] == Sha(snapshot[k])
    ensures m == built <==> KeepsParse(Doings(env, c + 1), ManifestPath(req), Some(built))
    ensures m == built ==> Bound(nodes, Release(req, m), built, snapshot)
  {
    HashedIsParsed(env, RulesOn(req.host), t, c, req, order, m);
    if m == built { BoundWhenComplete(nodes, Release(req, m), m, snapshot); }
  }

  // ---------------------------------------------------------------- the gaps are real

  const STILL := Env(k => map[], k => false)

  /** Left alone, an applying run on this disk installs `m`. */
  ghost predicate InstallsAlone(rules: Rules, nodes: Nodes, req: Request, checks: seq<string>, copies: seq<string>,
                                m: Manifest) {
    && req.apply && WellBuilt(m) && Admitted(STILL, rules, k => nodes, 0, req, checks) == Some(m)
    && FillFine(STILL, k => nodes, |checks| + 5, req, m, Release(req, m), copies)
  }

  /** A run that finds the same manifest, and the rest of the disk as it is at every later look, goes the
      same way. */
  lemma AdmitsLater(env: Env, rules: Rules, t: Timeline, nodes: Nodes, alone: Request, req: Request,
                    checks: seq<string>, copies: seq<string>, m: Manifest)
    requires InstallsAlone(rules, nodes, alone, checks, copies, m) && req == alone.(expected := req.expected)
    requires forall k: nat :: !Stopped(env, k)
    requires forall k: nat :: 3 <= k <= |checks| + 4 * |copies| + 6 ==> At(t, k) == nodes
    requires ManifestFound(env, rules, t, 0, req) == Some(m)
    ensures Admitted(env, rules, t, 0, req, checks) == Some(m)
    ensures CopiedManifest(t, |checks| + 5, req, copies).Some? ==>
              FillFine(env, t, |checks| + 5, req, m, Release(req, m), copies)
  {
    MembersLater(env, t, nodes, alone, req, checks, m.files.value);
    CopiesLater(env, t, nodes, alone, req, |checks| + 6, copies, m.files.value);
    assert At(t, |checks| + 3) == At(t, |checks| + 4) == At(t, |checks| + 5) == At(t, |checks| + 6) == nodes;
  }

  lemma MembersLater(env: Env, t: Timeline, nodes: Nodes, alone: Request, req: Request, checks: seq<string>,
                     files: map<string, Hash>)
    requires MembersFine(STILL, k => nodes, 2, alone, files, checks) && req == alone.(expected := req.expected)
    requires forall k: nat :: !Stopped(env, k)
    requires forall k: nat :: 3 <= k <= |checks| + 2 ==> At(t, k) == nodes
    ensures MembersFine(env, t, 2, req, files, checks)
  {
    forall i | 0 <= i < |checks| ensures MemberFine(t, 2, req, files, checks, i) {
      assert MemberFine(k => nodes, 2, alone, files, checks, i);
      assert At(t, 2 + i + 1) == nodes;
    }
  }

  lemma CopiesLater(env: Env, t: Timeline, nodes: Nodes, alone: Request, req: Request, c: nat, copies: seq<string>,
                    files: map<string, Hash>)
    requires CopiesFine(STILL, k => nodes, c, alone, files, copies) && req == alone.(expected := req.expected)
    requires forall k: nat :: !Stopped(env, k)
    requires forall k: nat :: c <= k <= c + 4 * |copies| ==> At(t, k) == nodes
    ensures CopiesFine(env, t, c, req, files, copies)
  {
    forall i | 0 <= i < |copies| ensures CopyFine(t, c, req, files, copies, i) {
      assert CopyFine(k => nodes, c, alone, files, copies, i);
      assert At(t, c + 4 * i + 1) == nodes;
    }
  }

  /** An env in which someone replaces one file, just before one action. */
  function OneEdit(at: nat, p: Path, b: Bytes): Env {
    Env(k => if k == at then map[p := Some(File(b))] else map[], k => false)
  }

  lemma {:induction false} OneEditBefore(nodes: Nodes, at: nat, p: Path, b: Bytes, k: nat)
    requires k <= at
    ensures At(From(nodes, OneEdit(at, p, b), 0), k) == nodes
    decreases k
  {
    if k == 0 {
    } else {
      OneEditBefore(nodes, at, p, b, k - 1);
      FromFollows(nodes, OneEdit(at, p, b), 0);
      EditedNothing(nodes);
    }
  }

  lemma {:induction false} OneEditAfter(nodes: Nodes, at: nat, p: Path, b: Bytes, k: nat)
    requires at < k
    ensures At(From(nodes, OneEdit(at, p, b), 0), k) == nodes[p := File(b)]
    decreases k
  {
    var t := From(nodes, OneEdit(at, p, b), 0);
    FromFollows(nodes, OneEdit(at, p, b), 0);
    if k == at + 1 {
      OneEditBefore(nodes, at, p, b, at);
      EditedOne(nodes, p, File(b));
    } else {
      OneEditAfter(nodes, at, p, b, k - 1);
      EditedNothing(nodes[p := File(b)]);
    }
  }

  /** A run on a new disk. */
  method RunOn(rules: Rules, nodes: Nodes, env: Env, req: Request, checks: seq<string>, copies: seq<string>,
               ghost m: Manifest)
      returns (disk: Disk, r: Outcome)
    requires rules.Proper() && InOrder(checks) && InOrder(copies) && Respects(env, Releases(req)) && req.apply
    requires WellBuilt(m)
    requires Admitted(env, rules, From(nodes, env, 0), 0, req, checks) == Some(m)
    requires Accepts(env, rules, From(nodes, env, 0), 0, req, checks, copies)
    ensures disk.env == env && r == Done(m, false) && Complete(disk.nodes, Release(req, m), m)
    ensures Release(req, m) + [SERVICE] in disk.nodes
    ensures InstalledManifest(disk.nodes, Release(req, m),
                              CopiedManifest(From(nodes, env, 0), |checks| + 5, req, copies))
  {
    disk := new Disk(nodes, env, k => Raw([]));
    r := Run(disk, rules, req, checks, copies);
  }

  lemma SwapAdmitted(rules: Rules, nodes: Nodes, alone: Request, req: Request, checks: seq<string>, copies: seq<string>,
                     other: Manifest, spelling: nat, approved: Bytes)
    requires InstallsAlone(rules, nodes, alone, checks, copies, other) && req == alone.(expected := Sha(approved))
    requires ManifestPath(alone) in nodes && nodes[ManifestPath(alone)] == File(Json(other, spelling))
    ensures var env := OneEdit(1, ManifestPath(req), Json(other, spelling));
      var t := From(nodes[ManifestPath(req) := File(approved)], env, 0);
      Admitted(env, rules, t, 0, req, checks) == Some(other) && Accepts(env, rules, t, 0, req, checks, copies)
  {
    var p, now := ManifestPath(req), Json(other, spelling);
    var env, before := OneEdit(1, p, now), nodes[p := File(approved)];
    var t := From(before, env, 0);
    OneEditBefore(before, 1, p, now, 1);
    assert before[p := File(now)] == nodes;
    forall k: nat | 2 <= k ensures At(t, k) == nodes { OneEditAfter(before, 1, p, now, k); }
    assert ManifestFound(env, rules, t, 0, req) == Some(other);
    assert At(t, |checks| + 5 + 4 * |copies| + 2) == nodes;
    AdmitsLater(env, rules, t, nodes, alone, req, checks, copies, other);
  }

  /** The first gap: whatever manifest would be installed on its own merits is installed under the hash of
      any other bytes, by one edit between the two reads. */
  method SwapIsInstalled(rules: Rules, nodes: Nodes, alone: Request, checks: seq<string>, copies: seq<string>,
                         other: Manifest, spelling: nat, approved: Bytes)
      returns (disk: Disk, req: Request, r: Outcome)
    requires rules.Proper() && InOrder(checks) && InOrder(copies)
    requires InstallsAlone(rules, nodes, alone, checks, copies, other)
    requires ManifestPath(alone) in nodes && nodes[ManifestPath(alone)] == File(Json(other, spelling))
    requires !Under(Releases(alone), ManifestPath(alone))
    ensures req == alone.(expected := Sha(approved)) && disk.env == OneEdit(1, ManifestPath(req), Json(other, spelling))
    ensures r == Done(other, false) && Complete(disk.nodes, Release(req, other), other)
    ensures Release(req, other) + [SERVICE] in disk.nodes
  {
    var p := ManifestPath(alone);
    req := alone.(expected := Sha(approved));
    var env := OneEdit(1, p, Json(other, spelling));
    var before := nodes[p := File(approved)];
    SwapAdmitted(rules, nodes, alone, req, checks, copies, other, spelling, approved);
    disk, r := RunOn(rules, before, env, req, checks, copies, other);
  }

  lemma OtherAdmitted(rules: Rules, nodes: Nodes, req: Request, checks: seq<string>, copies: seq<string>, m: Manifest,
                      other: Bytes)
    requires InstallsAlone(rules, nodes, req, checks, copies, m)
    ensures var env := OneEdit(|checks| + 4 * |copies| + 6, ManifestPath(req), other);
      var t := From(nodes, env, 0);
      && Admitted(env, rules, t, 0, req, checks) == Some(m) && Accepts(env, rules, t, 0, req, checks, copies)
      && CopiedManifest(t, |checks| + 5, req, copies) == Some(other)
  {
    var p, at := ManifestPath(req), |checks| + 4 * |copies| + 6;
    var env := OneEdit(at, p, other);
    var t := From(nodes, env, 0);
    forall k: nat | k <= at ensures At(t, k) == nodes { OneEditBefore(nodes, at, p, other, k); }
    OneEditAfter(nodes, at, p, other, at + 1);
    assert At(t, |checks| + 5 + 4 * |copies| + 2) == nodes[p := File(other)];
    FoundAlike(env, rules, t, nodes, req, m);
    AdmitsLater(env, rules, t, nodes, req, req, checks, copies, m);
  }

  lemma FoundAlike(env: Env, rules: Rules, t: Timeline, nodes: Nodes, req: Request, m: Manifest)
    requires ManifestFound(STILL, rules, k => nodes, 0, req) == Some(m) && At(t, 1) == At(t, 2) == nodes
    requires forall k: nat :: !Stopped(env, k)
    ensures ManifestFound(env, rules, t, 0, req) == Some(m)
  {
  }

  /** The second gap: the manifest file is read a third time to be copied, and not checked again. Whatever
      someone puts there just before is installed as the release's manifest. */
  method OtherManifestInstalled(rules: Rules, nodes: Nodes, req: Request, checks: seq<string>, copies: seq<string>,
                                m: Manifest, other: Bytes)
      returns (disk: Disk, r: Outcome)
    requires rules.Proper() && InOrder(checks) && InOrder(copies) && InstallsAlone(rules, nodes, req, checks, copies, m)
    requires !Under(Releases(req), ManifestPath(req))
    ensures disk.env == OneEdit(|checks| + 4 * |copies| + 6, ManifestPath(req), other)
    ensures r == Done(m, false) && InstalledManifest(disk.nodes, Release(req, m), Some(other))
  {
    var env := OneEdit(|checks| + 4 * |copies| + 6, ManifestPath(req), other);
    OtherAdmitted(rules, nodes, req, checks, copies, m, other);
    disk, r := RunOn(rules, nodes, env, req, checks, copies, m);
  }
}
