/** The hash-bound installer: admission of a bundle, then the release directory filled member by member. */
module Install {
  import opened Options
  import opened Manifest
  import opened Disks

  /** A path argument: absolute or not, and its components. */
  datatype Arg = Arg(absolute: bool, parts: Path)

  datatype Request = Request(
    bundle: Arg, expected: Hash, prefix: Arg, state: Arg, python: Arg, models: Arg, ocrPython: Option<Arg>,
    ocrModels: Option<Arg>, owners: Arg, apply: bool, host: Host)

  datatype Outcome = Dead | Declined(reason: string) | Done(m: Manifest, dryRun: bool)

  predicate SafeText(s: string) { forall c :: c in s ==> c != '\n' && c != '\r' && c != '\"' && c != '%' }

  predicate Safe(a: Arg) { a.absolute && forall c :: c in a.parts ==> SafeText(c) }

  function OcrPython(req: Request): Arg { if req.ocrPython.Some? then req.ocrPython.value else req.python }

  predicate AllAbsolute(req: Request) {
    req.bundle.absolute && req.prefix.absolute && req.state.absolute && req.python.absolute && req.models.absolute
    && OcrPython(req).absolute
  }

  predicate SafePaths(req: Request) {
    && Safe(req.prefix) && Safe(req.state) && Safe(req.python) && Safe(req.models) && Safe(OcrPython(req))
    && (req.ocrModels.Some? ==> Safe(req.ocrModels.value))
  }

  /** Neither of the two directories is inside the other. */
  predicate Separate(state: Path, prefix: Path) { !(prefix <= state) && !(state <= prefix) }

  function Parsed(b: Bytes): Option<Manifest> { if b.Json? then Some(b.manifest) else None }

  function Releases(req: Request): Path { req.prefix.parts + ["releases"] }

  function ReleaseName(m: Manifest): string
    requires m.tree.Some? && m.platform.Some?
  {
    if m.schema == Some(2) then m.tree.value else m.tree.value + "-" + m.platform.value
  }

  function Release(req: Request, m: Manifest): Path
    requires m.tree.Some? && m.platform.Some?
  {
    Releases(req) + [ReleaseName(m)]
  }

  function ManifestPath(req: Request): Path { req.bundle.parts + [MANIFEST] }

  function Service(req: Request, m: Manifest): Bytes
    requires m.tree.Some?
  {
    Unit(m.tree.value)
  }

  /** Everything the manifest promises is in the release: each member with its hash, and a manifest. */
  ghost predicate Complete(nodes: Nodes, release: Path, m: Manifest) {
    && m.files.Some?
    && (forall n :: n in REQUIRED ==> n in m.files.value && HoldsAt(nodes, release + [n], m.files.value[n]))
    && release + [MANIFEST] in nodes && nodes[release + [MANIFEST]].File?
  }

  /** The required members, in some order. */
  ghost predicate InOrder(order: seq<string>) { forall n :: n in order <==> n in REQUIRED }

  // ---------------------------------------------------------------- what the installer accepts

  predicate WellBuilt(m: Manifest) {
    m.tree.Some? && m.platform.Some? && m.files.Some? && m.files.value.Keys == REQUIRED
  }

  lemma FineIsWellBuilt(m: Manifest)
    requires CheckManifest(m) == Fine
    ensures WellBuilt(m)
  {
  }

  /** The checks that depend on nothing but what has been read; how a run goes does not depend on what
      they are. */
  datatype Rules = Rules(manifest: Manifest -> Verdict, binary: (Manifest, Bytes) -> Verdict) {
    ghost predicate Proper() { forall m :: manifest(m) == Fine ==> WellBuilt(m) }
  }

  /** The installer's own checks, on this host. */
  function RulesOn(host: Host): Rules { Rules(m => CheckManifest(m), (m, b) => AdmitTarget(m, b, host)) }

  lemma OwnRulesAreProper(host: Host)
    ensures RulesOn(host).Proper()
  {
    forall m | RulesOn(host).manifest(m) == Fine ensures WellBuilt(m) { FineIsWellBuilt(m); }
  }

  /** The manifest that is parsed, when the one that is hashed has the expected hash: two reads, one after
      the other, from action `c` on. */
  function ManifestFound(env: Env, rules: Rules, t: Timeline, c: nat, req: Request): (found: Option<Manifest>)
    ensures found.Some? ==> WellBuilt(found.value) && rules.manifest(found.value) == Fine
  {
    var hashed, read := Content(At(t, c + 1), ManifestPath(req)), Content(At(t, c + 2), ManifestPath(req));
    if !Lives(env, c, 2) || hashed.None? || Sha(hashed.value) != req.expected || read.None? then None
    else
      var m := Parsed(read.value);
      if m.None? || rules.manifest(m.value) != Fine || !WellBuilt(m.value) then None else m
  }

  /** Each member is a plain file with its hash at the moment it is looked at. */
  predicate MembersFine(env: Env, t: Timeline, c: nat, req: Request, files: map<string, Hash>, order: seq<string>)
  {
    Lives(env, c, |order|) && forall i :: 0 <= i < |order| ==> MemberFine(t, c, req, files, order, i)
  }

  predicate MemberFine(t: Timeline, c: nat, req: Request, files: map<string, Hash>, order: seq<string>, i: nat)
    requires i < |order|
  {
    order[i] in files && HoldsAt(At(t, c + i + 1), req.bundle.parts + [order[i]], files[order[i]])
  }

  predicate BinaryFine(env: Env, rules: Rules, t: Timeline, c: nat, req: Request, m: Manifest) {
    var binary := Content(At(t, c + 1), req.bundle.parts + [BINARY]);
    Lives(env, c, 1) && binary.Some? && rules.binary(m, binary.value) == Fine
  }

  /** The destination: safe and separate paths, no link on the way, no release yet. */
  predicate PlaceFine(env: Env, t: Timeline, c: nat, req: Request, m: Manifest)
    requires WellBuilt(m)
  {
    && SafePaths(req) && Separate(req.state.parts, req.prefix.parts) && Lives(env, c, 2)
    && LinkFree(At(t, c + 1), Release(req, m)) && LinkFree(At(t, c + 1), req.state.parts)
    && !ExistsIn(At(t, c + 2), Release(req, m)) && Safe(req.owners)
  }

  /** The manifest whose bundle checks out from action `c` on, whoever else is at work. */
  function BundleFound(env: Env, rules: Rules, t: Timeline, c: nat, req: Request,
                       order: seq<string>): (found: Option<Manifest>)
    ensures found.Some? ==> WellBuilt(found.value) && rules.manifest(found.value) == Fine
  {
    var m := ManifestFound(env, rules, t, c, req);
    if m.Some? && MembersFine(env, t, c + 2, req, m.value.files.value, order)
       && BinaryFine(env, rules, t, c + |order| + 2, req, m.value)
    then m else None
  }

  /** The manifest the installer admits: the bundle checks out, and the destination is fine after that. */
  function Admitted(env: Env, rules: Rules, t: Timeline, c: nat, req: Request,
                    order: seq<string>): (found: Option<Manifest>)
    ensures found.Some? ==> WellBuilt(found.value) && rules.manifest(found.value) == Fine
  {
    var m := BundleFound(env, rules, t, c, req, order);
    if AllAbsolute(req) && m.Some? && PlaceFine(env, t, c + |order| + 3, req, m.value) then m else None
  }

  /** Each member's copy, four actions apiece, starts from bytes with its hash. */
  predicate CopiesFine(env: Env, t: Timeline, c: nat, req: Request, files: map<string, Hash>, order: seq<string>) {
    CopiedTo(env, t, c, req, files, order, |order|)
  }

  predicate CopiedTo(env: Env, t: Timeline, c: nat, req: Request, files: map<string, Hash>, order: seq<string>, k: nat)
    requires k <= |order|
  {
    Lives(env, c, 4 * k) && forall i :: 0 <= i < k ==> CopyFine(t, c, req, files, order, i)
  }

  predicate CopyFine(t: Timeline, c: nat, req: Request, files: map<string, Hash>, order: seq<string>, i: nat)
    requires i < |order|
  {
    var b := Content(At(t, c + 4 * i + 1), req.bundle.parts + [order[i]]);
    order[i] in files && b.Some? && Sha(b.value) == files[order[i]]
  }

  /** What the manifest file holds after the members copied from action `c` on. */
  function ManifestAfter(t: Timeline, c: nat, req: Request, order: seq<string>): Option<Bytes> {
    Content(At(t, c + 4 * |order| + 1), ManifestPath(req))
  }

  /** What the manifest file holds when it is copied, in a third read of it. */
  function CopiedManifest(t: Timeline, c: nat, req: Request, order: seq<string>): Option<Bytes> {
    ManifestAfter(t, c + 1, req, order)
  }

  /** The release can be filled from action `c` on. */
  predicate PopulateFine(env: Env, t: Timeline, c: nat, req: Request, files: map<string, Hash>, order: seq<string>) {
    && CopiesFine(env, t, c, req, files, order) && ManifestAfter(t, c, req, order).Some?
    && Lives(env, c + 4 * |order|, 5)
  }

  /** The release can be made and filled from action `c` on. */
  predicate FillFine(env: Env, t: Timeline, c: nat, req: Request, m: Manifest, release: Path, order: seq<string>)
    requires WellBuilt(m)
  {
    && Lives(env, c, 1) && !ExistsIn(At(t, c + 1), release)
    && PopulateFine(env, t, c + 1, req, m.files.value, order)
  }

  /** A run accepts, from action `c` on. */
  predicate Accepts(env: Env, rules: Rules, t: Timeline, c: nat, req: Request, checks: seq<string>,
                    copies: seq<string>) {
    var m := Admitted(env, rules, t, c, req, checks);
    m.Some? && (req.apply ==> FillFine(env, t, c + |checks| + 5, req, m.value, Release(req, m.value), copies))
  }

  // ---------------------------------------------------------------- admission

  /** The manifest is read twice, once to be hashed and once to be parsed. */
  method ReadManifest(disk: Disk, rules: Rules, req: Request) returns (r: Outcome)
    requires disk.OnTime() && rules.Proper()
    modifies disk`nodes, disk`clock
    ensures disk.OnTime() && old(disk.clock) <= disk.clock
    ensures var found := ManifestFound(disk.env, rules, disk.without, old(disk.clock), req);
      && (r.Done? <==> found.Some?)
      && (r.Done? ==> r == Done(found.value, true) && disk.clock == old(disk.clock) + 2)
  {
    var alive, first := disk.Read(ManifestPath(req));
    if !alive { r := Dead; return; }
    if first.None? || Sha(first.value) != req.expected { r := Declined("manifest_hash_mismatch"); return; }
    var second;
    alive, second := disk.Read(ManifestPath(req));
    if !alive { r := Dead; return; }
    if second.None? || Parsed(second.value).None? { r := Declined("manifest_unreadable"); return; }
    var m := Parsed(second.value).value;
    var fine := rules.manifest(m);
    if fine != Fine { r := Declined(fine.reason); return; }
    r := Done(m, true);
  }

  /** Every member is a plain file with its hash, one read after the other. */
  method ReadMembers(disk: Disk, req: Request, m: Manifest, order: seq<string>) returns (r: Outcome)
    requires disk.OnTime() && WellBuilt(m) && InOrder(order)
    modifies disk`nodes, disk`clock
    ensures disk.OnTime() && old(disk.clock) <= disk.clock
    ensures r.Done? <==> MembersFine(disk.env, disk.without, old(disk.clock), req, m.files.value, order)
    ensures r.Done? ==> disk.clock == old(disk.clock) + |order|
  {
    ghost var c := disk.clock;
    var i := 0;
    while i < |order|
      invariant 0 <= i <= |order| && disk.OnTime() && disk.clock == c + i && Lives(disk.env, c, i)
      invariant forall j :: 0 <= j < i ==> MemberFine(disk.without, c, req, m.files.value, order, j)
    {
      var name := order[i];
      assert name in order;
      var alive, member := disk.ReadPlain(req.bundle.parts + [name]);
      if !alive { r := Dead; return; }
      if member.None? || Sha(member.value) != m.files.value[name] {
        assert !MemberFine(disk.without, c, req, m.files.value, order, i);
        r := Declined("artifact_hash_or_ownership_mismatch");
        return;
      }
      i := i + 1;
    }
    r := Done(m, true);
  }

  /** The binary's header is read, never run. */
  method CheckBinary(disk: Disk, rules: Rules, req: Request, m: Manifest) returns (r: Outcome)
    requires disk.OnTime()
    modifies disk`nodes, disk`clock
    ensures disk.OnTime() && disk.clock == old(disk.clock) + 1
    ensures r.Done? <==> BinaryFine(disk.env, rules, disk.without, old(disk.clock), req, m)
    ensures r.Done? ==> r == Done(m, true)
  {
    var alive, binary := disk.Read(req.bundle.parts + [BINARY]);
    if !alive { r := Dead; return; }
    if binary.None? { r := Declined("supported_elf64_binary_required"); return; }
    var fine := rules.binary(m, binary.value);
    r := if fine != Fine then Declined(fine.reason) else Done(m, true);
  }

  /** The destination, in two looks. */
  method CheckPlace(disk: Disk, req: Request, m: Manifest) returns (r: Outcome)
    requires disk.OnTime() && WellBuilt(m)
    modifies disk`nodes, disk`clock
    ensures disk.OnTime() && old(disk.clock) <= disk.clock
    ensures r.Done? <==> PlaceFine(disk.env, disk.without, old(disk.clock), req, m)
    ensures r.Done? ==> r == Done(m, !req.apply) && disk.clock == old(disk.clock) + 2
  {
    if !SafePaths(req) { r := Declined("unsafe_service_path"); return; }
    if !Separate(req.state.parts, req.prefix.parts) { r := Declined("state_must_be_separate_from_releases"); return; }
    var alive := disk.Act();
    if !alive { r := Dead; return; }
    if !LinkFree(disk.nodes, Release(req, m)) || !LinkFree(disk.nodes, req.state.parts) {
      r := Declined("symlink_install_destination_refused");
      return;
    }
    alive := disk.Act();
    if !alive { r := Dead; return; }
    if ExistsIn(disk.nodes, Release(req, m)) {
      r := Declined("existing_release_preserved_choose_existing_or_new_source");
      return;
    }
    if !Safe(req.owners) { r := Declined("unsafe_owner_path"); return; }
    r := Done(m, !req.apply);
  }

  /** The checks of the bundle: its manifest, its members, its binary. */
  method CheckBundle(disk: Disk, rules: Rules, req: Request, order: seq<string>) returns (r: Outcome)
    requires disk.OnTime() && rules.Proper() && InOrder(order)
    modifies disk`nodes, disk`clock
    ensures disk.OnTime() && old(disk.clock) <= disk.clock
    ensures var m := BundleFound(disk.env, rules, disk.without, old(disk.clock), req, order);
      && (r.Done? <==> m.Some?)
      && (r.Done? ==> r == Done(m.value, true) && disk.clock == old(disk.clock) + |order| + 3)
  {
    r := ReadManifest(disk, rules, req);
    if !r.Done? { return; }
    var m := r.m;
    r := ReadMembers(disk, req, m, order);
    if !r.Done? { return; }
    r := CheckBinary(disk, rules, req, m);
  }

  /** All the installer's checks, in its order; nothing is written, and a manifest is admitted exactly
      when every check passes at its moment. */
  method Admit(disk: Disk, rules: Rules, req: Request, order: seq<string>) returns (r: Outcome)
    requires disk.OnTime() && rules.Proper() && InOrder(order)
    modifies disk`nodes, disk`clock
    ensures disk.OnTime() && old(disk.clock) <= disk.clock
    ensures var m := Admitted(disk.env, rules, disk.without, old(disk.clock), req, order);
      && (r.Done? <==> m.Some?)
      && (r.Done? ==> r == Done(m.value, !req.apply) && disk.clock == old(disk.clock) + |order| + 5)
  {
    if !AllAbsolute(req) { r := Declined("absolute_install_paths_required"); return; }
    r := CheckBundle(disk, rules, req, order);
    if !r.Done? { return; }
    r := CheckPlace(disk, req, r.m);
  }

  // ---------------------------------------------------------------- filling the release

  /** None of these files of the bundle is inside the release. */
  ghost predicate BundleApart(req: Request, release: Path, names: seq<string>) {
    forall name :: name in names ==> !Under(release, req.bundle.parts + [name])
  }

  /** The release is the installer's to fill, and all it has written so far is in there. */
  ghost predicate Filling(disk: Disk, req: Request, release: Path)
    reads disk
  {
    && disk.Valid() && Respects(disk.env, Releases(req)) && Under(Releases(req), release)
    && forall p :: p in disk.touched ==> Under(release, p)
  }

  /** What is read next of a file outside the release is what the others have put there. */
  lemma ReadsOthers(disk: Disk, req: Request, release: Path, p: Path)
    requires Filling(disk, req, release) && !Under(release, p)
    ensures Content(Edited(disk.nodes, Doings(disk.env, disk.clock)), p) == Content(At(disk.without, disk.clock + 1), p)
  {
    EditedAgrees(disk.nodes, At(disk.without, disk.clock), Doings(disk.env, disk.clock), disk.touched);
    assert SameAt(Edited(disk.nodes, Doings(disk.env, disk.clock)), At(disk.without, disk.clock + 1), p);
  }

  lemma OwnStays(env: Env, a: Nodes, b: Nodes, c: nat, d: nat, req: Request, p: Path)
    requires Kept(env, a, b, c, d, {}) && Respects(env, Releases(req)) && Under(Releases(req), p)
    ensures SameAt(a, b, p)
  {
    KeptInside(env, a, b, c, d, {}, Releases(req));
  }

  /** Copying one member: the bundle's file, then the copy read back against the manifest. */
  method CopyMember(disk: Disk, req: Request, release: Path, name: string, h: Hash) returns (r: Verdict, alive: bool)
    requires Filling(disk, req, release)
    modifies disk`nodes, disk`clock, disk`touched
    ensures Filling(disk, req, release) && old(disk.touched) <= disk.touched <= old(disk.touched) + {release + [name]}
    ensures Kept(disk.env, old(disk.nodes), disk.nodes, old(disk.clock), disk.clock, {release + [name]} * disk.touched)
    ensures var b := Content(Edited(old(disk.nodes), Doings(disk.env, old(disk.clock))), req.bundle.parts + [name]);
      alive && r == Fine <==> Lives(disk.env, old(disk.clock), 4) && b.Some? && Sha(b.value) == h
    ensures alive && r == Fine ==> disk.clock == old(disk.clock) + 4 && HoldsAt(disk.nodes, release + [name], h)
  {
    var to := release + [name];
    r := Fine;
    var copied, back;
    alive, copied := disk.Copy(req.bundle.parts + [name], to);
    if !alive { return; }
    if copied.None? { r := Refused("copy_failed"); return; }
    ghost var was, c := disk.nodes, disk.clock;
    alive, back := disk.Read(to);
    OwnStays(disk.env, was, disk.nodes, c, disk.clock, req, to);
    KeptOn(disk.env, old(disk.nodes), was, disk.nodes, old(disk.clock), c, disk.clock, {to} * disk.touched, {});
    if back.None? || Sha(back.value) != h { r := Refused("copied_artifact_hash_mismatch_preserve_partial_release"); }
  }

  /** How far the release is: the named members hold their hashes, and there is no service file. */
  ghost predicate Filled(nodes: Nodes, release: Path, files: map<string, Hash>, names: seq<string>) {
    && release + [SERVICE] !in nodes
    && forall n :: n in names ==> n in files && HoldsAt(nodes, release + [n], files[n])
  }

  lemma FilledKeeps(a: Nodes, b: Nodes, root: Path, release: Path, files: map<string, Hash>, names: seq<string>,
                    name: string)
    requires Filled(a, release, files, names) && Under(root, release) && SameInside(a, b, root, {release + [name]})
    requires name != SERVICE && (name in names ==> HoldsAt(b, release + [name], files[name]))
    ensures Filled(b, release, files, names)
  {
    NamesApart(release, SERVICE, name);
    assert Under(root, release + [SERVICE]) && SameAt(a, b, release + [SERVICE]);
    forall n | n in names ensures HoldsAt(b, release + [n], files[n]) {
      NamesApart(release, n, name);
      assert Under(root, release + [n]);
      if n != name { assert SameAt(a, b, release + [n]); }
    }
  }

  lemma FilledAnyway(a: Nodes, b: Nodes, root: Path, release: Path, name: string)
    requires release + [SERVICE] !in a && Under(root, release) && name != SERVICE
    requires SameInside(a, b, root, {release + [name]})
    ensures release + [SERVICE] !in b
  {
    NamesApart(release, SERVICE, name);
    assert Under(root, release + [SERVICE]) && SameAt(a, b, release + [SERVICE]);
  }

  /** What one attempt at a member leaves of the rest. */
  lemma MemberTried(disk: Disk, req: Request, release: Path, name: string, start: Nodes, was: Nodes, c: nat, at: nat,
                    had: set<Path>)
    requires Filling(disk, req, release) && name != SERVICE && release + [SERVICE] !in was && had <= disk.touched
    requires Kept(disk.env, start, was, c, at, had)
    requires Kept(disk.env, was, disk.nodes, at, disk.clock, {release + [name]} * disk.touched)
    ensures SameInside(was, disk.nodes, Releases(req), {release + [name]}) && release + [SERVICE] !in disk.nodes
    ensures Kept(disk.env, start, disk.nodes, c, disk.clock, disk.touched)
  {
    var hole := {release + [name]} * disk.touched;
    KeptInside(disk.env, was, disk.nodes, at, disk.clock, hole, Releases(req));
    FilledAnyway(was, disk.nodes, Releases(req), release, name);
    KeptOn(disk.env, start, was, disk.nodes, c, at, disk.clock, had, hole);
    assert had + hole <= disk.touched;
  }

  /** One member more: the release is filled that much further, or the copy did not start from the right
      bytes or the program was stopped. */
  method AddMember(disk: Disk, req: Request, files: map<string, Hash>, release: Path, name: string,
                   ghost names: seq<string>)
      returns (r: Verdict, alive: bool)
    requires Filling(disk, req, release) && name in files && name != SERVICE
    requires Filled(disk.nodes, release, files, names)
    requires !Under(release, req.bundle.parts + [name])
    modifies disk`nodes, disk`clock, disk`touched
    ensures Filling(disk, req, release) && old(disk.touched) <= disk.touched && release + [SERVICE] !in disk.nodes
    ensures Kept(disk.env, old(disk.nodes), disk.nodes, old(disk.clock), disk.clock, disk.touched)
    ensures alive && r == Fine <==> Copyable(disk.env, disk.without, old(disk.clock), req, files, name)
    ensures alive && r == Fine ==>
      disk.clock == old(disk.clock) + 4 && Filled(disk.nodes, release, files, names + [name])
  {
    ghost var was, c, had := disk.nodes, disk.clock, disk.touched;
    ReadsOthers(disk, req, release, req.bundle.parts + [name]);
    r, alive := CopyMember(disk, req, release, name, files[name]);
    assert Kept(disk.env, was, was, c, c, had);
    MemberTried(disk, req, release, name, was, was, c, c, had);
    if alive && r == Fine { FilledKeeps(was, disk.nodes, Releases(req), release, files, names, name); }
  }

  /** One member's copy, begun at action `c`, starts from the right bytes and is not stopped. */
  predicate Copyable(env: Env, t: Timeline, c: nat, req: Request, files: map<string, Hash>, name: string) {
    var b := Content(At(t, c + 1), req.bundle.parts + [name]);
    Lives(env, c, 4) && name in files && b.Some? && Sha(b.value) == files[name]
  }

  /** All copies are fine only if the next one is; and those before it go on with it. */
  lemma CopiesAt(env: Env, t: Timeline, c: nat, req: Request, files: map<string, Hash>, order: seq<string>, i: nat)
    requires i < |order|
    ensures CopiesFine(env, t, c, req, files, order) ==> Copyable(env, t, c + 4 * i, req, files, order[i])
    ensures CopiedTo(env, t, c, req, files, order, i) && Copyable(env, t, c + 4 * i, req, files, order[i]) ==>
              CopiedTo(env, t, c, req, files, order, i + 1)
  {
    if CopiesFine(env, t, c, req, files, order) { assert CopyFine(t, c, req, files, order, i); }
  }

  /** The members, in any order. */
  method FillMembers(disk: Disk, req: Request, files: map<string, Hash>, release: Path,
                     order: seq<string>) returns (r: Verdict)
    requires Filling(disk, req, release) && BundleApart(req, release, order) && release + [SERVICE] !in disk.nodes
    requires SERVICE !in order && forall n :: n in order ==> n in files
    modifies disk`nodes, disk`clock, disk`touched
    ensures Filling(disk, req, release) && old(disk.touched) <= disk.touched && release + [SERVICE] !in disk.nodes
    ensures Kept(disk.env, old(disk.nodes), disk.nodes, old(disk.clock), disk.clock, disk.touched)
    ensures r == Fine ==> Filled(disk.nodes, release, files, order) && disk.clock == old(disk.clock) + 4 * |order|
    ensures r == Fine <==> CopiesFine(disk.env, disk.without, old(disk.clock), req, files, order)
  {
    ghost var c, start := disk.clock, disk.nodes;
    var i := 0;
    while i < |order|
      invariant 0 <= i <= |order| && disk.clock == c + 4 * i
      invariant Filling(disk, req, release) && old(disk.touched) <= disk.touched
      invariant Kept(disk.env, start, disk.nodes, c, disk.clock, disk.touched)
      invariant Filled(disk.nodes, release, files, order[..i])
      invariant CopiedTo(disk.env, disk.without, c, req, files, order, i)
    {
      var name := order[i];
      assert name in order && order[..i + 1] == order[..i] + [name];
      ghost var was, at, had := disk.nodes, disk.clock, disk.touched;
      CopiesAt(disk.env, disk.without, c, req, files, order, i);
      var fine, alive := AddMember(disk, req, files, release, name, order[..i]);
      KeptGrows(disk.env, start, was, disk.nodes, c, at, disk.clock, had, disk.touched);
      if !alive || fine != Fine { r := if alive then fine else Refused(STOPPED); return; }
      i := i + 1;
    }
    assert order[..i] == order;
    r := Fine;
  }

  const STOPPED := "stopped"

  function Ending(r: Verdict): Outcome
    requires r != Fine
  {
    if r.reason == STOPPED then Dead else Declined(r.reason)
  }

  lemma KeptGrows(env: Env, a: Nodes, b: Nodes, e: Nodes, i: nat, j: nat, k: nat, hole: set<Path>, more: set<Path>)
    requires Kept(env, a, b, i, j, hole) && Kept(env, b, e, j, k, more) && hole <= more
    ensures Kept(env, a, e, i, k, more)
  {
    KeptOn(env, a, b, e, i, j, k, hole, more);
    assert hole + more == more;
  }

  lemma CompleteKeeps(a: Nodes, b: Nodes, root: Path, release: Path, m: Manifest)
    requires Complete(a, release, m) && Under(root, release) && SameInside(a, b, root, {release + [SERVICE]})
    ensures Complete(b, release, m) && SameAt(a, b, release + [MANIFEST])
  {
    NamesApart(release, MANIFEST, SERVICE);
    assert Under(root, release + [MANIFEST]) && SameAt(a, b, release + [MANIFEST]);
    forall n | n in REQUIRED ensures HoldsAt(b, release + [n], m.files.value[n]) {
      NamesApart(release, n, SERVICE);
      assert Under(root, release + [n]) && SameAt(a, b, release + [n]);
    }
  }

  lemma FilledIsComplete(nodes: Nodes, release: Path, m: Manifest, order: seq<string>)
    requires WellBuilt(m) && InOrder(order) && Filled(nodes, release, m.files.value, order)
    requires release + [MANIFEST] in nodes && nodes[release + [MANIFEST]].File?
    ensures Complete(nodes, release, m)
  {
  }

  /** The manifest, then the service file: wherever the run ends, a release with a service file is
      complete. */
  method Finish(disk: Disk, req: Request, m: Manifest, release: Path, order: seq<string>) returns (r: Outcome)
    requires Filling(disk, req, release) && WellBuilt(m) && InOrder(order) && MANIFEST !in order
    requires Filled(disk.nodes, release, m.files.value, order)
    modifies disk`nodes, disk`clock, disk`touched
    ensures Filling(disk, req, release) && old(disk.touched) <= disk.touched
    ensures Kept(disk.env, old(disk.nodes), disk.nodes, old(disk.clock), disk.clock, disk.touched)
    ensures release + [SERVICE] in disk.nodes ==> Complete(disk.nodes, release, m)
    ensures var b := Content(Edited(old(disk.nodes), Doings(disk.env, old(disk.clock))), ManifestPath(req));
      && (r.Done? <==> Lives(disk.env, old(disk.clock), 5) && b.Some?)
      && (r.Done? ==> r == Done(m, false) && release + [SERVICE] in disk.nodes
                      && release + [MANIFEST] in disk.nodes && disk.nodes[release + [MANIFEST]] == File(b.value))
  {
    ghost var start, c, had := disk.nodes, disk.clock, disk.touched;
    var alive, copied := disk.Copy(ManifestPath(req), release + [MANIFEST]);
    assert Kept(disk.env, start, start, c, c, had);
    MemberTried(disk, req, release, MANIFEST, start, start, c, c, had);
    if !alive { r := Dead; return; }
    if copied.None? { r := Declined("copy_failed"); return; }
    FilledKeeps(start, disk.nodes, Releases(req), release, m.files.value, order, MANIFEST);
    FilledIsComplete(disk.nodes, release, m, order);
    ghost var was, at, before := disk.nodes, disk.clock, disk.touched;
    alive := disk.Write(release + [SERVICE], Service(req, m));
    ghost var hole := {release + [SERVICE]} * disk.touched;
    KeptInside(disk.env, was, disk.nodes, at, disk.clock, hole, Releases(req));
    CompleteKeeps(was, disk.nodes, Releases(req), release, m);
    KeptOn(disk.env, start, was, disk.nodes, c, at, disk.clock, before, hole);
    assert before + hole <= disk.touched;
    r := if alive then Done(m, false) else Dead;
  }

  /** The members in any order, then the manifest, the service file last. */
  method Populate(disk: Disk, req: Request, m: Manifest, release: Path, order: seq<string>) returns (r: Outcome)
    requires Filling(disk, req, release) && BundleApart(req, release, order) && !Under(release, ManifestPath(req))
    requires WellBuilt(m) && InOrder(order) && release + [SERVICE] !in disk.nodes
    modifies disk`nodes, disk`clock, disk`touched
    ensures Filling(disk, req, release) && old(disk.touched) <= disk.touched
    ensures Kept(disk.env, old(disk.nodes), disk.nodes, old(disk.clock), disk.clock, disk.touched)
    ensures release + [SERVICE] in disk.nodes ==> Complete(disk.nodes, release, m)
    ensures r.Done? <==> PopulateFine(disk.env, disk.without, old(disk.clock), req, m.files.value, order)
    ensures r.Done? ==>
      && r == Done(m, false) && release + [SERVICE] in disk.nodes
      && InstalledManifest(disk.nodes, release, ManifestAfter(disk.without, old(disk.clock), req, order))
  {
    ghost var start, c := disk.nodes, disk.clock;
    OtherNames(order);
    var members := FillMembers(disk, req, m.files.value, release, order);
    if members != Fine { r := Ending(members); return; }
    ghost var was, at, had := disk.nodes, disk.clock, disk.touched;
    ReadsOthers(disk, req, release, ManifestPath(req));
    r := Finish(disk, req, m, release, order);
    KeptGrows(disk.env, start, was, disk.nodes, c, at, disk.clock, had, disk.touched);
  }

  /** The manifest and the service file are no members. */
  lemma OtherNames(order: seq<string>)
    requires InOrder(order)
    ensures MANIFEST !in order && SERVICE !in order
  {
    assert MANIFEST !in REQUIRED && SERVICE !in REQUIRED;
  }

  /** The release directory, which must be new. */
  method MakeRelease(disk: Disk, req: Request, release: Path) returns (alive: bool, made: bool)
    requires disk.OnTime() && disk.touched == {} && Filling(disk, req, release)
    modifies disk`nodes, disk`clock, disk`touched
    ensures Filling(disk, req, release) && disk.clock == old(disk.clock) + 1
    ensures Kept(disk.env, old(disk.nodes), disk.nodes, old(disk.clock), disk.clock, disk.touched)
    ensures made <==> Lives(disk.env, old(disk.clock), 1) && !ExistsIn(At(disk.without, old(disk.clock) + 1), release)
    ensures made ==> !old(ExistsIn(disk.nodes, release)) && release + [SERVICE] !in disk.nodes
    ensures !made ==> disk.touched == {} && (release + [SERVICE] in disk.nodes ==> old(ExistsIn(disk.nodes, release)))
  {
    ghost var start, c := disk.nodes, disk.clock;
    StillThere(start, disk.env, c, req, release);
    alive, made := disk.MakeDir(release);
    KeptInside(disk.env, start, disk.nodes, c, disk.clock, disk.touched, Releases(req));
    if made {
      ServiceNot(start, disk.nodes, Releases(req), release);
    } else {
      ServiceWas(start, disk.nodes, Releases(req), release);
    }
  }

  /** The release is created and filled. It succeeds exactly when there is no release yet, every copy
      starts from the right bytes and the program lives; wherever it ends, a release with a service file is
      complete. */
  method Fill(disk: Disk, req: Request, m: Manifest, release: Path, order: seq<string>) returns (r: Outcome)
    requires disk.OnTime() && disk.touched == {} && Filling(disk, req, release) && WellBuilt(m) && InOrder(order)
    requires BundleApart(req, release, order) && !Under(release, ManifestPath(req))
    modifies disk`nodes, disk`clock, disk`touched
    ensures Filling(disk, req, release)
    ensures Kept(disk.env, old(disk.nodes), disk.nodes, old(disk.clock), disk.clock, disk.touched)
    ensures old(ExistsIn(disk.nodes, release)) ==> disk.touched == {}
    ensures !old(ExistsIn(disk.nodes, release)) && release + [SERVICE] in disk.nodes ==>
      Complete(disk.nodes, release, m)
    ensures r.Done? <==> FillFine(disk.env, disk.without, old(disk.clock), req, m, release, order)
    ensures r.Done? ==>
      && r == Done(m, false) && !old(ExistsIn(disk.nodes, release)) && release + [SERVICE] in disk.nodes
      && InstalledManifest(disk.nodes, release, CopiedManifest(disk.without, old(disk.clock), req, order))
  {
    ghost var start, c := disk.nodes, disk.clock;
    var alive, made := MakeRelease(disk, req, release);
    if !made { r := if alive then Declined("release_exists") else Dead; return; }
    ghost var was, at, had := disk.nodes, disk.clock, disk.touched;
    r := Populate(disk, req, m, release, order);
    KeptGrows(disk.env, start, was, disk.nodes, c, at, disk.clock, had, disk.touched);
  }

  /** The release's manifest file holds these bytes. */
  predicate InstalledManifest(nodes: Nodes, release: Path, b: Option<Bytes>) {
    b.Some? && release + [MANIFEST] in nodes && nodes[release + [MANIFEST]] == File(b.value)
  }

  lemma StillThere(a: Nodes, env: Env, c: nat, req: Request, release: Path)
    requires Respects(env, Releases(req)) && Under(Releases(req), release)
    ensures ExistsIn(a, release) <==> ExistsIn(Edited(a, Doings(env, c)), release)
  {
    EditedKept(env, a, c);
    KeptInside(env, a, Edited(a, Doings(env, c)), c, c + 1, {}, Releases(req));
    SameExists(a, Edited(a, Doings(env, c)), Releases(req), release);
  }

  lemma ServiceWas(a: Nodes, b: Nodes, root: Path, release: Path)
    requires SameInside(a, b, root, {}) && Under(root, release)
    ensures release + [SERVICE] in b ==> ExistsIn(a, release)
  {
    assert Under(root, release + [SERVICE]) && SameAt(a, b, release + [SERVICE]);
    assert Under(release, release + [SERVICE]);
  }

  lemma ServiceNot(a: Nodes, b: Nodes, root: Path, release: Path)
    requires SameInside(a, b, root, {release}) && Under(root, release) && !ExistsIn(a, release)
    ensures release + [SERVICE] !in b
  {
    assert Under(root, release + [SERVICE]) && |release + [SERVICE]| > |release|;
    assert SameAt(a, b, release + [SERVICE]) && Under(release, release + [SERVICE]);
  }
  /** Two directories above one path are one above the other. */
  lemma BothAbove(x: Path, y: Path, p: Path)
    requires Under(x, p) && Under(y, p)
    ensures Under(x, y) || Under(y, x)
  {
    if |x| <= |y| {
      assert y[..|x|] == p[..|y|][..|x|] == p[..|x|];
    } else {
      assert x[..|y|] == p[..|x|][..|y|] == p[..|y|];
    }
  }

  lemma AboveAbove(x: Path, y: Path, z: Path)
    requires Under(x, y) && Under(y, z)
    ensures Under(x, z)
  {
    assert z[..|x|] == z[..|y|][..|x|];
  }

  /** Nothing written to the release touches the state directory, or is above it. */
  lemma ReleaseApartFromState(req: Request, m: Manifest, p: Path)
    requires Separate(req.state.parts, req.prefix.parts) && m.tree.Some? && m.platform.Some?
    requires Under(Release(req, m), p)
    ensures !Under(req.state.parts, p) && !Under(p, req.state.parts)
  {
    var prefix, state := req.prefix.parts, req.state.parts;
    assert Release(req, m)[..|prefix|] == prefix;
    AboveAbove(prefix, Release(req, m), p);
    if Under(state, p) { BothAbove(state, prefix, p); }
    if Under(p, state) { AboveAbove(prefix, p, state); }
  }


  // ---------------------------------------------------------------- a whole run

  predicate IsRelease(root: Path, release: Path) { Under(root, release) && |release| == |root| + 1 }

  /** Every release there was is as it was, entry for entry. */
  ghost predicate ReleasesKept(a: Nodes, b: Nodes, root: Path) {
    forall release, p :: IsRelease(root, release) && ExistsIn(a, release) && Under(release, p) ==> SameAt(a, b, p)
  }

  /** A new release with a service file is the admitted manifest's, and complete. */
  ghost predicate NewComplete(a: Nodes, b: Nodes, req: Request, admitted: Option<Manifest>) {
    forall release :: IsRelease(Releases(req), release) && !ExistsIn(a, release) && release + [SERVICE] in b ==>
      admitted.Some? && WellBuilt(admitted.value) && release == Release(req, admitted.value)
      && Complete(b, release, admitted.value)
  }

  /** What was written is in the admitted manifest's release, and apart from the state directory. */
  ghost predicate WrittenInside(touched: set<Path>, req: Request, admitted: Option<Manifest>) {
    touched != {} ==>
      && req.apply && admitted.Some? && WellBuilt(admitted.value)
      && forall p :: p in touched ==>
           Under(Release(req, admitted.value), p) && !Under(req.state.parts, p) && !Under(p, req.state.parts)
  }

  lemma StillInside(env: Env, t: Timeline, c: nat, k: nat, end: nat, req: Request, release: Path, p: Path)
    requires Follows(env, t, c) && Respects(env, Releases(req)) && c <= k <= end && p in At(t, k)
    requires Under(Releases(req), release) && Under(release, p)
    ensures ExistsIn(At(t, end), release)
  {
    FollowsKept(env, t, c, k, end);
    KeptInside(env, At(t, k), At(t, end), k, end, {}, Releases(req));
    AboveAbove(Releases(req), release, p);
    assert SameAt(At(t, k), At(t, end), p);
  }

  /** An admitted bundle has its files; a release that does not exist has none of them. */
  lemma BundleIsApart(env: Env, rules: Rules, t: Timeline, c: nat, req: Request, checks: seq<string>, m: Manifest,
                      order: seq<string>)
    requires Follows(env, t, c) && Respects(env, Releases(req)) && InOrder(checks) && InOrder(order)
    requires Admitted(env, rules, t, c, req, checks) == Some(m)
    ensures BundleApart(req, Release(req, m), order) && !Under(Release(req, m), ManifestPath(req))
  {
    var release, end := Release(req, m), c + |checks| + 5;
    assert Under(Releases(req), release) && ManifestPath(req) in At(t, c + 1);
    if Under(release, ManifestPath(req)) { StillInside(env, t, c, c + 1, end, req, release, ManifestPath(req)); }
    forall name | name in order ensures !Under(release, req.bundle.parts + [name]) {
      assert name in checks;
      var i :| 0 <= i < |checks| && checks[i] == name;
      assert MemberFine(t, c + 2, req, m.files.value, checks, i);
      if Under(release, req.bundle.parts + [name]) {
        StillInside(env, t, c, c + 2 + i + 1, end, req, release, req.bundle.parts + [name]);
      }
    }
  }

  lemma OneReleaseAbove(root: Path, x: Path, y: Path, p: Path)
    requires IsRelease(root, x) && IsRelease(root, y) && Under(x, p) && Under(y, p)
    ensures x == y
  {
    BothAbove(x, y, p);
  }

  /** What filling leaves of the releases there were, and of new ones. */
  lemma FillLeaves(a: Nodes, b: Nodes, req: Request, m: Manifest, touched: set<Path>)
    requires WellBuilt(m) && SameInside(a, b, Releases(req), touched)
    requires forall p :: p in touched ==> Under(Release(req, m), p)
    requires ExistsIn(a, Release(req, m)) ==> touched == {}
    requires !ExistsIn(a, Release(req, m)) && Release(req, m) + [SERVICE] in b ==> Complete(b, Release(req, m), m)
    ensures ReleasesKept(a, b, Releases(req)) && NewComplete(a, b, req, Some(m))
  {
    var root, ours := Releases(req), Release(req, m);
    forall release, p | IsRelease(root, release) && ExistsIn(a, release) && Under(release, p) ensures SameAt(a, b, p) {
      AboveAbove(root, release, p);
      if p in touched { OneReleaseAbove(root, release, ours, p); }
    }
    forall release | IsRelease(root, release) && !ExistsIn(a, release) && release + [SERVICE] in b
      ensures release == ours && Complete(b, release, m)
    {
      var p := release + [SERVICE];
      AboveAbove(root, release, p);
      assert Under(release, p);
      if p in touched { OneReleaseAbove(root, release, ours, p); }
    }
  }

  lemma NothingNew(a: Nodes, b: Nodes, req: Request, admitted: Option<Manifest>)
    requires SameInside(a, b, Releases(req), {})
    ensures ReleasesKept(a, b, Releases(req)) && NewComplete(a, b, req, admitted)
  {
    forall release, p | IsRelease(Releases(req), release) && Under(release, p) ensures SameAt(a, b, p) {
      AboveAbove(Releases(req), release, p);
    }
    forall release | IsRelease(Releases(req), release) && release + [SERVICE] in b ensures ExistsIn(a, release) {
      assert Under(release, release + [SERVICE]) && SameAt(a, b, release + [SERVICE]);
    }
  }

  /** Looking first changes nothing of what filling leaves. */
  lemma LookThenFill(a: Nodes, mid: Nodes, b: Nodes, req: Request, admitted: Option<Manifest>)
    requires SameInside(a, mid, Releases(req), {})
    requires ReleasesKept(mid, b, Releases(req)) && NewComplete(mid, b, req, admitted)
    ensures ReleasesKept(a, b, Releases(req)) && NewComplete(a, b, req, admitted)
  {
    var root := Releases(req);
    forall release, p | IsRelease(root, release) && ExistsIn(a, release) && Under(release, p) ensures SameAt(a, b, p) {
      AboveAbove(root, release, p);
      SameExists(a, mid, root, release);
      assert SameAt(a, mid, p) && SameAt(mid, b, p);
    }
    forall release | IsRelease(root, release) && !ExistsIn(a, release) && release + [SERVICE] in b
      ensures !ExistsIn(mid, release)
    {
      SameExists(a, mid, root, release);
    }
  }

  /** Filling the admitted manifest's release. */
  method FillAdmitted(disk: Disk, req: Request, m: Manifest, order: seq<string>) returns (r: Outcome)
    requires disk.OnTime() && disk.touched == {} && WellBuilt(m) && InOrder(order)
    requires Filling(disk, req, Release(req, m))
    requires BundleApart(req, Release(req, m), order) && !Under(Release(req, m), ManifestPath(req))
    requires req.apply && Separate(req.state.parts, req.prefix.parts)
    modifies disk`nodes, disk`clock, disk`touched
    ensures disk.Valid()
    ensures r.Done? <==> FillFine(disk.env, disk.without, old(disk.clock), req, m, Release(req, m), order)
    ensures r.Done? ==>
      && r == Done(m, false) && Release(req, m) + [SERVICE] in disk.nodes && Complete(disk.nodes, Release(req, m), m)
      && InstalledManifest(disk.nodes, Release(req, m), CopiedManifest(disk.without, old(disk.clock), req, order))
    ensures ReleasesKept(old(disk.nodes), disk.nodes, Releases(req))
    ensures NewComplete(old(disk.nodes), disk.nodes, req, Some(m)) && WrittenInside(disk.touched, req, Some(m))
    ensures Kept(disk.env, old(disk.nodes), disk.nodes, old(disk.clock), disk.clock, disk.touched)
  {
    ghost var start, c := disk.nodes, disk.clock;
    r := Fill(disk, req, m, Release(req, m), order);
    KeptInside(disk.env, start, disk.nodes, c, disk.clock, disk.touched, Releases(req));
    FillLeaves(start, disk.nodes, req, m, disk.touched);
    forall p | p in disk.touched ensures !Under(req.state.parts, p) && !Under(p, req.state.parts) {
      ReleaseApartFromState(req, m, p);
    }
  }

  /** The start of a run: its checks, which leave everything of its own area as it was. */
  method LookFirst(disk: Disk, rules: Rules, req: Request, checks: seq<string>) returns (r: Outcome)
    requires disk.OnTime() && rules.Proper() && Respects(disk.env, Releases(req)) && InOrder(checks)
    modifies disk`nodes, disk`clock
    ensures disk.OnTime()
    ensures var m := Admitted(disk.env, rules, disk.without, old(disk.clock), req, checks);
      && (r.Done? <==> m.Some?)
      && (r.Done? ==> r == Done(m.value, !req.apply) && disk.clock == old(disk.clock) + |checks| + 5)
    ensures Kept(disk.env, old(disk.nodes), disk.nodes, old(disk.clock), disk.clock, {})
    ensures SameInside(old(disk.nodes), disk.nodes, Releases(req), {})
    ensures ReleasesKept(old(disk.nodes), disk.nodes, Releases(req))
    ensures forall admitted :: NewComplete(old(disk.nodes), disk.nodes, req, admitted)
  {
    ghost var start, c := disk.nodes, disk.clock;
    r := Admit(disk, rules, req, checks);
    FollowsKept(disk.env, disk.without, c, c, disk.clock);
    KeptInside(disk.env, start, disk.nodes, c, disk.clock, {}, Releases(req));
    forall admitted ensures NewComplete(start, disk.nodes, req, admitted) {
      NothingNew(start, disk.nodes, req, admitted);
    }
    NothingNew(start, disk.nodes, req, None);
  }

  /** One run of the installer, whoever else is at work and wherever it ends. It accepts exactly when every
      check and every copy finds what it must at its moment. No existing release ever changes, not even by
      an addition; a new one with a service file is complete; nothing is written but in the admitted release,
      and a dry run writes nothing. */
  method Run(disk: Disk, rules: Rules, req: Request, checks: seq<string>, copies: seq<string>) returns (r: Outcome)
    requires disk.OnTime() && disk.touched == {} && rules.Proper() && Respects(disk.env, Releases(req))
    requires InOrder(checks) && InOrder(copies)
    modifies disk`nodes, disk`clock, disk`touched
    ensures disk.Valid()
    ensures var admitted := Admitted(disk.env, rules, disk.without, old(disk.clock), req, checks);
      && (r.Done? <==> Accepts(disk.env, rules, disk.without, old(disk.clock), req, checks, copies))
      && (r.Done? ==> r == Done(admitted.value, !req.apply))
      && (r.Done? && req.apply ==>
            var at := old(disk.clock) + |checks| + 5;
            && Release(req, r.m) + [SERVICE] in disk.nodes && Complete(disk.nodes, Release(req, r.m), r.m)
            && InstalledManifest(disk.nodes, Release(req, r.m), CopiedManifest(disk.without, at, req, copies)))
      && NewComplete(old(disk.nodes), disk.nodes, req, admitted) && WrittenInside(disk.touched, req, admitted)
    ensures ReleasesKept(old(disk.nodes), disk.nodes, Releases(req))
    ensures Kept(disk.env, old(disk.nodes), disk.nodes, old(disk.clock), disk.clock, disk.touched)
  {
    ghost var start, c := disk.nodes, disk.clock;
    r := LookFirst(disk, rules, req, checks);
    if !r.Done? || !req.apply { return; }
    BundleIsApart(disk.env, rules, disk.without, c, req, checks, r.m, copies);
    ghost var mid, at, m := disk.nodes, disk.clock, r.m;
    r := FillAdmitted(disk, req, r.m, copies);
    KeptGrows(disk.env, start, mid, disk.nodes, c, at, disk.clock, {}, disk.touched);
    LookThenFill(start, mid, disk.nodes, req, Some(m));
  }
}
