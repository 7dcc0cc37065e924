/** The source-bound build: the frozen source is digested, drift is checked again and again, the members
    are copied and digested, and the manifest is written. Git, tar and the Go compiler are other programs:
    what they write is among what everyone else does to the disk. */
module Build {
  import opened Options
  import opened Manifest
  import opened Disks

  /** What the build is told and what Git answers: whether the tools passed their preflight, the commit
      and tree, and whether the source is still clean at that commit at each of the two later checks. */
  datatype Given = Given(
    preflight: Verdict, arch: string, goSha: Hash, commit: string, tree: string, cleanAfter: Verdict, cleanEnd: Verdict,
    goTargetProven: bool)

  datatype Result = Died | Failed(reason: string) | Bundle(manifestHash: Hash)

  function Frozen(out: Path): Path { out + [".source"] }

  predicate FileIn(nodes: Nodes, root: Path, name: string) { root + [name] in nodes && !nodes[root + [name]].Dir? }

  /** The names in a directory. */
  function Names(nodes: Nodes, root: Path): set<string> { set p | p in nodes && IsEntry(root, p) :: p[|root|] }

  predicate IsEntry(root: Path, p: Path) { |p| == |root| + 1 && root <= p }

  /** The files of a directory by relative name, with their contents. */
  function Files(nodes: Nodes, root: Path): map<string, Bytes> {
    map n | n in Names(nodes, root) && FileIn(nodes, root, n) :: nodes[root + [n]].bytes
  }

  /** The snapshot is of the frozen source as it is in `n`. */
  ghost predicate Taken(n: Nodes, out: Path, snapshot: map<string, Bytes>) {
    && (forall name :: name in snapshot <==> FileIn(n, Frozen(out), name))
    && forall name :: name in snapshot ==> snapshot[name] == n[Frozen(out) + [name]].bytes
  }

  lemma FilesAre(nodes: Nodes, root: Path, n: string)
    ensures n in Files(nodes, root) <==> FileIn(nodes, root, n)
    ensures n in Files(nodes, root) ==> Files(nodes, root)[n] == nodes[root + [n]].bytes
  {
    if FileIn(nodes, root, n) { assert IsEntry(root, root + [n]) && (root + [n])[|root|] == n; }
  }

  lemma FilesTaken(nodes: Nodes, out: Path)
    ensures Taken(nodes, out, Files(nodes, Frozen(out)))
  {
    var fs := Files(nodes, Frozen(out));
    forall name
      ensures name in fs <==> FileIn(nodes, Frozen(out), name)
      ensures name in fs ==> fs[name] == nodes[Frozen(out) + [name]].bytes
    {
      FilesAre(nodes, Frozen(out), name);
    }
  }

  function Digests(fs: map<string, Bytes>): (ds: map<string, Hash>)
    ensures ds.Keys == fs.Keys && forall n :: n in ds ==> ds[n] == Sha(fs[n])
  {
    map n | n in fs :: Sha(fs[n])
  }

  lemma SameDigests(a: map<string, Bytes>, b: map<string, Bytes>)
    requires Digests(a) == Digests(b)
    ensures a == b
  {
    forall n | n in a ensures n in b && a[n] == b[n] {
      assert n in Digests(a) && Digests(a)[n] == Digests(b)[n];
    }
    assert a.Keys == b.Keys;
  }

  /** Directories that agree entry by entry list alike. */
  lemma SameFiles(a: Nodes, b: Nodes, root: Path)
    requires forall n :: SameAt(a, b, root + [n])
    ensures Files(a, root) == Files(b, root)
  {
    forall n
      ensures n in Files(a, root) <==> n in Files(b, root)
      ensures n in Files(a, root) ==> Files(a, root)[n] == Files(b, root)[n]
    {
      FilesAre(a, root, n);
      FilesAre(b, root, n);
      assert SameAt(a, b, root + [n]);
    }
  }

  lemma FrozenApart(out: Path, source: string, name: string)
    ensures Frozen(out) + [source] != out + [name]
  {
    assert |Frozen(out) + [source]| == |out + [name]| + 1;
  }

  /** `files(root)`: the digests of a directory as it is now. */
  method DigestFiles(disk: Disk, root: Path) returns (alive: bool, ds: map<string, Hash>, ghost fs: map<string, Bytes>)
    requires disk.Valid()
    modifies disk`nodes, disk`clock
    ensures disk.Valid() && disk.clock == old(disk.clock) + 1 && (alive <==> !Stopped(disk.env, old(disk.clock)))
    ensures disk.nodes == Edited(old(disk.nodes), Doings(disk.env, old(disk.clock)))
    ensures Kept(disk.env, old(disk.nodes), disk.nodes, old(disk.clock), disk.clock, {})
    ensures fs == Files(disk.nodes, root) && ds == Digests(fs)
  {
    alive := disk.Act();
    fs := Files(disk.nodes, root);
    ds := Digests(Files(disk.nodes, root));
  }

  // ---------------------------------------------------------------- after the compiler

  /** The frozen source is the snapshot's, the binary's header names the architecture, and the answers of
      the tools are good. */
  predicate Compiled(n: Nodes, out: Path, given: Given, inputs: map<string, Hash>) {
    var binary := Content(n, out + [BINARY]);
    && Digests(Files(n, Frozen(out))) == inputs && binary.Some? && TargetRead(binary.value, given.arch).Some?
    && given.goTargetProven && given.cleanAfter == Fine
  }

  function TargetRead(binary: Bytes, arch: string): Option<Target> {
    var (v, target) := BinaryTarget(binary);
    if v == Fine && target.goarch == arch then Some(target) else None
  }

  /** The checks between the compiler and the copies: no drift, a readable header of the right
      architecture, a proven Go target, no drift again. */
  method CheckCompiled(disk: Disk, out: Path, given: Given, inputs: map<string, Hash>)
      returns (r: Verdict, alive: bool, binary: Bytes, ghost first: map<string, Bytes>,
               ghost second: map<string, Bytes>)
    requires disk.Valid()
    modifies disk`nodes, disk`clock
    ensures disk.Valid() && Kept(disk.env, old(disk.nodes), disk.nodes, old(disk.clock), disk.clock, {})
    ensures alive && r == Fine ==>
      && disk.clock == old(disk.clock) + 3 && Digests(first) == inputs && Digests(second) == inputs
      && TargetRead(binary, given.arch).Some?
      && (Idle(disk.env, out + [BINARY], old(disk.clock) + 2, disk.clock) ==>
            Content(disk.nodes, out + [BINARY]) == Some(binary))
    ensures Still(disk.env, old(disk.clock) + 1, old(disk.clock) + 3) && !Stopped(disk.env, old(disk.clock)) ==>
      var n := Edited(old(disk.nodes), Doings(disk.env, old(disk.clock)));
      disk.nodes == n && (alive && r == Fine <==> Compiled(n, out, given, inputs))
  {
    var now, read;
    ghost var c := disk.clock;
    binary, second := Raw([]), map[];
    r := Fine;
    alive, now, first := DigestFiles(disk, Frozen(out));
    ghost var n := disk.nodes;
    if !alive { return; }
    if now != inputs { r := Refused("frozen_source_drift_detected"); return; }
    alive, read := disk.Read(out + [BINARY]);
    StillRound(disk.env, c + 1, n);
    KeptOn(disk.env, old(disk.nodes), n, disk.nodes, c, c + 1, c + 2, {}, {});
    if !alive { return; }
    if read.None? { r := Refused("supported_elf64_binary_required"); return; }
    binary := read.value;
    r := BinaryTarget(binary).0;
    if r != Fine { return; }
    if BinaryTarget(binary).1.goarch != given.arch { r := Refused("compiled_target_mismatch"); return; }
    if !given.goTargetProven { r := Refused("compiled_go_target_unproven"); return; }
    ghost var before := disk.nodes;
    alive, now, second := DigestFiles(disk, Frozen(out));
    StillRound(disk.env, c + 2, before);
    KeptOn(disk.env, old(disk.nodes), before, disk.nodes, c, c + 2, c + 3, {}, {});
    if !alive { return; }
    if now != inputs { r := Refused("frozen_source_drift_detected"); return; }
    if given.cleanAfter != Fine { r := given.cleanAfter; }
  }

  /** Nothing happens in a still round. */
  lemma StillRound(env: Env, c: nat, n: Nodes)
    ensures forall i: nat, j: nat :: i <= c < j && Still(env, i, j) ==>
      Edited(n, Doings(env, c)) == n && !Stopped(env, c)
  {
    EditedNothing(n);
  }

  // ---------------------------------------------------------------- the copies

  /** The snapshot has this source, and it stands there with those bytes. */
  predicate SourceFine(n: Nodes, out: Path, source: string, inputs: map<string, Hash>) {
    var b := Content(n, Frozen(out) + [source]);
    source in inputs && b.Some? && Sha(b.value) == inputs[source]
  }

  /** One source, copied and read back against the snapshot. */
  method CopySource(disk: Disk, out: Path, source: string, name: string, inputs: map<string, Hash>)
      returns (r: Verdict, alive: bool)
    requires disk.Valid()
    modifies disk`nodes, disk`clock, disk`touched
    ensures disk.Valid() && disk.touched <= old(disk.touched) + {out + [name]}
    ensures Kept(disk.env, old(disk.nodes), disk.nodes, old(disk.clock), disk.clock, {out + [name]})
    ensures alive && r == Fine ==>
      && source in inputs && disk.clock == old(disk.clock) + 4
      && (Idle(disk.env, out + [name], old(disk.clock), disk.clock) ==>
            HoldsAt(disk.nodes, out + [name], inputs[source]))
    ensures Still(disk.env, old(disk.clock), old(disk.clock) + 4) ==>
      (alive && r == Fine <==> SourceFine(old(disk.nodes), out, source, inputs))
  {
    var to := out + [name];
    ghost var c, start := disk.clock, disk.nodes;
    StillRound(disk.env, c, start);
    r := Fine;
    var copied, back;
    alive, copied := disk.Copy(Frozen(out) + [source], to);
    if !alive { return; }
    if copied.None? { r := Refused("source_missing"); return; }
    ghost var was, at := disk.nodes, disk.clock;
    StillRound(disk.env, at, was);
    alive, back := disk.Read(to);
    KeptOn(disk.env, start, was, disk.nodes, c, at, disk.clock, {to}, {});
    assert Idle(disk.env, to, c, disk.clock) ==> Idle(disk.env, to, at, disk.clock);
    if !alive { return; }
    if source !in inputs || back.None? || Sha(back.value) != inputs[source] {
      r := Refused("copied_member_drift_detected");
    }
  }

  function Targets(out: Path, pairs: seq<(string, string)>): set<Path> { set p | p in pairs :: out + [p.1] }

  /** Each source's copy stands in the output as the snapshot has it, unless someone else has written it
      between actions `c` and `d`. */
  ghost predicate Copied(env: Env, c: nat, d: nat, n: Nodes, out: Path, inputs: map<string, Hash>,
                         pairs: seq<(string, string)>) {
    forall j :: 0 <= j < |pairs| ==> CopiedPair(env, c, d, n, out, inputs, pairs[j])
  }

  ghost predicate CopiedPair(env: Env, c: nat, d: nat, n: Nodes, out: Path, inputs: map<string, Hash>,
                             p: (string, string)) {
    p.0 in inputs && (Idle(env, out + [p.1], c, d) ==> HoldsAt(n, out + [p.1], inputs[p.0]))
  }

  ghost predicate DistinctNames(pairs: seq<(string, string)>) {
    forall i, j :: 0 <= i < j < |pairs| ==> pairs[i].1 != pairs[j].1
  }

  lemma CopiedStays(env: Env, c: nat, a: Nodes, b: Nodes, out: Path, inputs: map<string, Hash>,
                    pairs: seq<(string, string)>, i: nat, j: nat, hole: set<Path>)
    requires Copied(env, c, i, a, out, inputs, pairs) && Kept(env, a, b, i, j, hole) && c <= i
    requires forall k :: 0 <= k < |pairs| ==> out + [pairs[k].1] !in hole
    ensures Copied(env, c, j, b, out, inputs, pairs)
  {
    forall k | 0 <= k < |pairs| ensures CopiedPair(env, c, j, b, out, inputs, pairs[k]) {
      assert CopiedPair(env, c, i, a, out, inputs, pairs[k]);
      var p := out + [pairs[k].1];
      if Idle(env, p, c, j) { assert Idle(env, p, c, i) && Idle(env, p, i, j) && SameAt(a, b, p); }
    }
  }

  /** The sources, copied one by one. */
  method CopySources(disk: Disk, out: Path, inputs: map<string, Hash>, pairs: seq<(string, string)>)
      returns (r: Verdict, alive: bool)
    requires disk.Valid() && DistinctNames(pairs)
    modifies disk`nodes, disk`clock, disk`touched
    ensures disk.Valid() && disk.touched <= old(disk.touched) + Targets(out, pairs)
    ensures Kept(disk.env, old(disk.nodes), disk.nodes, old(disk.clock), disk.clock, Targets(out, pairs))
    ensures alive && r == Fine ==>
      && disk.clock == old(disk.clock) + 4 * |pairs|
      && Copied(disk.env, old(disk.clock), disk.clock, disk.nodes, out, inputs, pairs)
    ensures Still(disk.env, old(disk.clock), old(disk.clock) + 4 * |pairs|) ==>
      (alive && r == Fine <==> forall p :: p in pairs ==> SourceFine(old(disk.nodes), out, p.0, inputs))
  {
    ghost var c, start := disk.clock, disk.nodes;
    r, alive := Fine, true;
    var i := 0;
    while i < |pairs|
      invariant 0 <= i <= |pairs| && alive && r == Fine && disk.clock == c + 4 * i
      invariant disk.Valid() && disk.touched <= old(disk.touched) + Targets(out, pairs)
      invariant Kept(disk.env, start, disk.nodes, c, disk.clock, Targets(out, pairs))
      invariant Copied(disk.env, c, disk.clock, disk.nodes, out, inputs, pairs[..i])
      invariant Still(disk.env, c, c + 4 * |pairs|) ==>
        forall j :: 0 <= j < i ==> SourceFine(start, out, pairs[j].0, inputs)
    {
      var (source, name) := pairs[i];
      assert pairs[i] in pairs && out + [name] in Targets(out, pairs);
      ghost var was, at := disk.nodes, disk.clock;
      SourceStays(disk.env, c, at, c + 4 * |pairs|, start, was, out, pairs, source, inputs);
      r, alive := CopySource(disk, out, source, name, inputs);
      KeptMore(disk.env, start, was, disk.nodes, c, at, disk.clock, Targets(out, pairs), out + [name]);
      if !alive || r != Fine { return; }
      CopiedNext(disk.env, c, was, disk.nodes, out, inputs, pairs, i, at, disk.clock);
      i := i + 1;
    }
    assert pairs[..i] == pairs;
    assert forall p :: p in pairs ==> exists j :: 0 <= j < |pairs| && pairs[j] == p;
  }

  lemma KeptMore(env: Env, a: Nodes, b: Nodes, e: Nodes, i: nat, j: nat, k: nat, hole: set<Path>, p: Path)
    requires Kept(env, a, b, i, j, hole) && Kept(env, b, e, j, k, {p}) && p in hole
    ensures Kept(env, a, e, i, k, hole)
  {
    KeptOn(env, a, b, e, i, j, k, hole, {p});
    assert hole + {p} == hole;
  }

  /** Left alone, the copies do not touch the frozen source. */
  lemma SourceStays(env: Env, c: nat, d: nat, e: nat, a: Nodes, b: Nodes, out: Path, pairs: seq<(string, string)>,
                    source: string, inputs: map<string, Hash>)
    requires Kept(env, a, b, c, d, Targets(out, pairs)) && d + 4 <= e
    ensures Still(env, c, e) ==>
      Still(env, d, d + 4) && (SourceFine(a, out, source, inputs) <==> SourceFine(b, out, source, inputs))
  {
    var p := Frozen(out) + [source];
    forall q | q in pairs ensures out + [q.1] != p { FrozenApart(out, source, q.1); }
    if Still(env, c, e) { assert Idle(env, p, c, d) && SameAt(a, b, p); }
  }

  lemma CopiedNext(env: Env, c: nat, a: Nodes, b: Nodes, out: Path, inputs: map<string, Hash>,
                   pairs: seq<(string, string)>, i: nat, at: nat, d: nat)
    requires i < |pairs| && DistinctNames(pairs) && c <= at && Copied(env, c, at, a, out, inputs, pairs[..i])
    requires Kept(env, a, b, at, d, {out + [pairs[i].1]}) && pairs[i].0 in inputs
    requires Idle(env, out + [pairs[i].1], at, d) ==> HoldsAt(b, out + [pairs[i].1], inputs[pairs[i].0])
    ensures Copied(env, c, d, b, out, inputs, pairs[..i + 1])
  {
    forall k | 0 <= k < i ensures out + [pairs[..i][k].1] != out + [pairs[i].1] {
      NamesApart(out, pairs[k].1, pairs[i].1);
    }
    CopiedStays(env, c, a, b, out, inputs, pairs[..i], at, d, {out + [pairs[i].1]});
    var next := pairs[..i + 1];
    forall k | 0 <= k < |next| ensures CopiedPair(env, c, d, b, out, inputs, next[k]) {
      if k < i {
        assert next[k] == pairs[..i][k];
      } else {
        assert Idle(env, out + [pairs[i].1], c, d) ==> Idle(env, out + [pairs[i].1], at, d);
      }
    }
  }

  /** Each later look at the frozen source found these digests. */
  ghost predicate LooksLike(inputs: map<string, Hash>, looks: seq<map<string, Bytes>>) {
    |looks| == 3 && forall i :: 0 <= i < |looks| ==> Digests(looks[i]) == inputs
  }

  /** From the compiler's output to the copied members: what must be fine when left alone. */
  ghost predicate Preparable(n: Nodes, out: Path, given: Given, inputs: map<string, Hash>,
                             pairs: seq<(string, string)>) {
    Compiled(n, out, given, inputs) && Copyable(n, out, given, inputs, pairs)
  }

  /** The frozen source is the snapshot's and has every source to be copied. */
  ghost predicate Copyable(n: Nodes, out: Path, given: Given, inputs: map<string, Hash>,
                           pairs: seq<(string, string)>) {
    && Digests(Files(n, Frozen(out))) == inputs && given.cleanEnd == Fine
    && forall p :: p in pairs ==> SourceFine(n, out, p.0, inputs)
  }

  lemma FrozenStays(env: Env, a: Nodes, b: Nodes, c: nat, d: nat, out: Path, pairs: seq<(string, string)>)
    requires Kept(env, a, b, c, d, Targets(out, pairs)) && Still(env, c, d)
    ensures Files(a, Frozen(out)) == Files(b, Frozen(out))
  {
    forall n ensures SameAt(a, b, Frozen(out) + [n]) {
      forall q | q in pairs ensures out + [q.1] != Frozen(out) + [n] { FrozenApart(out, n, q.1); }
      assert Idle(env, Frozen(out) + [n], c, d);
    }
    SameFiles(a, b, Frozen(out));
  }

  /** The copies, and the last look at the frozen source after them. */
  method CopyAndLook(disk: Disk, out: Path, given: Given, inputs: map<string, Hash>, pairs: seq<(string, string)>)
      returns (r: Verdict, alive: bool, ghost third: map<string, Bytes>)
    requires disk.Valid() && DistinctNames(pairs)
    modifies disk`nodes, disk`clock, disk`touched
    ensures disk.Valid() && disk.touched <= old(disk.touched) + Targets(out, pairs)
    ensures Kept(disk.env, old(disk.nodes), disk.nodes, old(disk.clock), disk.clock, Targets(out, pairs))
    ensures alive && r == Fine ==>
      && Digests(third) == inputs && disk.clock == old(disk.clock) + 4 * |pairs| + 1
      && Copied(disk.env, old(disk.clock), disk.clock, disk.nodes, out, inputs, pairs)
    ensures Still(disk.env, old(disk.clock), old(disk.clock) + 4 * |pairs| + 1) ==>
      (alive && r == Fine <==> Copyable(old(disk.nodes), out, given, inputs, pairs))
  {
    ghost var start, c := disk.nodes, disk.clock;
    third := map[];
    r, alive := CopySources(disk, out, inputs, pairs);
    if !alive || r != Fine { return; }
    ghost var copied, at := disk.nodes, disk.clock;
    var now;
    StillRound(disk.env, at, copied);
    alive, now, third := DigestFiles(disk, Frozen(out));
    if Still(disk.env, c, c + 4 * |pairs| + 1) { FrozenStays(disk.env, start, copied, c, at, out, pairs); }
    CopiedStays(disk.env, c, copied, disk.nodes, out, inputs, pairs, at, disk.clock, {});
    KeptOn(disk.env, start, copied, disk.nodes, c, at, disk.clock, Targets(out, pairs), {});
    assert Targets(out, pairs) + {} == Targets(out, pairs);
    r := if now != inputs then Refused("frozen_source_drift_detected") else given.cleanEnd;
  }

  /** From the compiler's output to the copied members: every look at the frozen source finds the
      snapshot's digests. */
  method Prepare(disk: Disk, out: Path, given: Given, inputs: map<string, Hash>, pairs: seq<(string, string)>)
      returns (r: Verdict, alive: bool, binary: Bytes, ghost looks: seq<map<string, Bytes>>)
    requires disk.Valid() && DistinctNames(pairs) && out + [BINARY] !in Targets(out, pairs)
    modifies disk`nodes, disk`clock, disk`touched
    ensures disk.Valid() && disk.touched <= old(disk.touched) + Targets(out, pairs)
    ensures Kept(disk.env, old(disk.nodes), disk.nodes, old(disk.clock), disk.clock, Targets(out, pairs))
    ensures alive && r == Fine ==>
      && disk.clock == old(disk.clock) + 4 * |pairs| + 4
      && LooksLike(inputs, looks) && TargetRead(binary, given.arch).Some?
      && Copied(disk.env, old(disk.clock) + 3, disk.clock, disk.nodes, out, inputs, pairs)
      && (Idle(disk.env, out + [BINARY], old(disk.clock) + 2, disk.clock) ==>
            Content(disk.nodes, out + [BINARY]) == Some(binary))
    ensures PreparedAlone(disk.env, old(disk.clock), Edited(old(disk.nodes), Doings(disk.env, old(disk.clock))),
                          disk.nodes, out, given, inputs, pairs, alive && r == Fine)
  {
    ghost var start, c := disk.nodes, disk.clock;
    looks := [];
    ghost var first, second, third;
    r, alive, binary, first, second := CheckCompiled(disk, out, given, inputs);
    KeptWider(disk.env, start, disk.nodes, c, disk.clock, Targets(out, pairs));
    StillWithin(disk.env, c + 1, c + 3, c + 4 * |pairs| + 4);
    if !alive || r != Fine { return; }
    ghost var was := disk.nodes;
    r, alive, third := CopyAndLook(disk, out, given, inputs, pairs);
    KeptThen(disk.env, start, was, disk.nodes, c, c + 3, disk.clock, Targets(out, pairs));
    if !alive || r != Fine { return; }
    StillKept(disk.env, c + 1, c + 4 * |pairs| + 4, was, disk.nodes, c + 3, disk.clock, Targets(out, pairs));
    IdleKept(disk.env, was, disk.nodes, c + 2, c + 3, disk.clock, Targets(out, pairs), out + [BINARY]);
    looks := [first, second, third];
    LookedThrice(inputs, first, second, third);
  }

  lemma LookedThrice(inputs: map<string, Hash>, a: map<string, Bytes>, b: map<string, Bytes>, e: map<string, Bytes>)
    requires Digests(a) == Digests(b) == Digests(e) == inputs
    ensures LooksLike(inputs, [a, b, e])
  {
  }

  /** Left alone after what was done just before action `c`, which made the disk `n`, the preparation is good
      exactly when `n` can be prepared, and changes nothing but the copies. */
  ghost predicate PreparedAlone(env: Env, c: nat, n: Nodes, now: Nodes, out: Path, given: Given,
                                inputs: map<string, Hash>, pairs: seq<(string, string)>, good: bool) {
    Still(env, c + 1, c + 4 * |pairs| + 4) && !Stopped(env, c) ==>
      && (good <==> Preparable(n, out, given, inputs, pairs)) && (good ==> AgreeBut(n, now, Targets(out, pairs)))
  }

  lemma StillWithin(env: Env, c: nat, d: nat, e: nat)
    requires c <= d <= e
    ensures Still(env, c, e) ==> Still(env, c, d) && Still(env, d, e)
  {
  }

  lemma IdleKept(env: Env, a: Nodes, b: Nodes, since: nat, i: nat, j: nat, hole: set<Path>, p: Path)
    requires Kept(env, a, b, i, j, hole) && since <= i && p !in hole
    ensures Idle(env, p, since, j) ==> Idle(env, p, since, i) && Content(a, p) == Content(b, p)
  {
    if Idle(env, p, since, j) { assert Idle(env, p, i, j) && SameAt(a, b, p); }
  }

  lemma KeptThen(env: Env, a: Nodes, b: Nodes, e: Nodes, i: nat, j: nat, k: nat, hole: set<Path>)
    requires Kept(env, a, b, i, j, {}) && Kept(env, b, e, j, k, hole)
    ensures Kept(env, a, e, i, k, hole)
  {
    KeptOn(env, a, b, e, i, j, k, {}, hole);
    assert {} + hole == hole;
  }

  lemma StillKept(env: Env, c: nat, d: nat, a: Nodes, b: Nodes, i: nat, j: nat, hole: set<Path>)
    requires Kept(env, a, b, i, j, hole)
    ensures Still(env, c, d) && c <= i && j <= d ==> AgreeBut(a, b, hole) && Still(env, i, d)
  {
    if Still(env, c, d) && c <= i && j <= d {
      forall p | p !in hole ensures SameAt(a, b, p) { assert Idle(env, p, i, j); }
    }
  }

  lemma KeptWider(env: Env, a: Nodes, b: Nodes, i: nat, j: nat, hole: set<Path>)
    requires Kept(env, a, b, i, j, {})
    ensures Kept(env, a, b, i, j, hole)
  {
  }

  // ---------------------------------------------------------------- the manifest

  function MemberAt(t: Timeline, c: nat, out: Path, order: seq<string>, i: nat): Option<Bytes>
    requires i < |order|
  {
    Content(At(t, c + i + 1), out + [order[i]])
  }

  /** The `i`-th member's digest is that of what stood there when it was looked at. */
  ghost predicate Digested(t: Timeline, c: nat, out: Path, order: seq<string>, ds: map<string, Hash>, i: nat)
    requires i < |order|
  {
    var b := MemberAt(t, c, out, order, i);
    b.Some? && order[i] in ds && ds[order[i]] == Sha(b.value)
  }

  ghost predicate DistinctOrder(order: seq<string>) { forall i, j :: 0 <= i < j < |order| ==> order[i] != order[j] }

  /** The digests of the members, each read at its moment. */
  method DigestMembers(disk: Disk, out: Path, order: seq<string>, ghost t: Timeline)
      returns (alive: bool, ok: bool, ds: map<string, Hash>)
    requires disk.Valid() && DistinctOrder(order) && Follows(disk.env, t, disk.clock) && disk.nodes == At(t, disk.clock)
    modifies disk`nodes, disk`clock
    ensures disk.Valid() && old(disk.clock) <= disk.clock && disk.nodes == At(t, disk.clock)
    ensures alive && ok <==>
      Lives(disk.env, old(disk.clock), |order|)
      && forall i :: 0 <= i < |order| ==> MemberAt(t, old(disk.clock), out, order, i).Some?
    ensures alive && ok ==>
      && disk.clock == old(disk.clock) + |order| && (forall n :: n in ds <==> n in order)
      && forall i :: 0 <= i < |order| ==> Digested(t, old(disk.clock), out, order, ds, i)
  {
    ghost var c := disk.clock;
    alive, ok, ds := true, true, map[];
    var i := 0;
    while i < |order|
      invariant 0 <= i <= |order| && alive && ok && disk.Valid()
      invariant disk.clock == c + i && disk.nodes == At(t, c + i) && Lives(disk.env, c, i)
      invariant forall n :: n in ds <==> n in order[..i]
      invariant forall j :: 0 <= j < i ==> Digested(t, c, out, order, ds, j)
    {
      assert order[..i + 1] == order[..i] + [order[i]];
      var b;
      alive, b := disk.Read(out + [order[i]]);
      if !alive { return; }
      if b.None? {
        assert MemberAt(t, c, out, order, i).None?;
        ok := false;
        return;
      }
      ghost var before := ds;
      ds := ds[order[i] := Sha(b.value)];
      forall j | 0 <= j < i ensures Digested(t, c, out, order, ds, j) {
        assert Digested(t, c, out, order, before, j) && order[j] != order[i];
      }
      i := i + 1;
    }
    assert order[..i] == order;
    forall j | 0 <= j < i ensures MemberAt(t, c, out, order, j).Some? { assert Digested(t, c, out, order, ds, j); }
  }

  /** An edit of `p`, if it is one, leaves a file there. */
  predicate Readable(edits: Edits, p: Path) { p in edits ==> edits[p].Some? && !edits[p].value.Dir? }

  /** An edit of `p`, if it is one, leaves these bytes there. */
  predicate BytesKept(edits: Edits, p: Path, b: Bytes) {
    Readable(edits, p) && (p in edits ==> edits[p].value.bytes == b)
  }

  /** The hash returned is that of what stands at `p` after the edits just before the last look at it, where
      the program had left `b`. */
  predicate Reread(edits: Edits, n: Nodes, p: Path, b: Bytes, hash: Hash) {
    && p in n && !n[p].Dir? && n[p] == (if p in edits && edits[p].Some? then edits[p].value else File(b))
    && hash == Sha(n[p].bytes) && (hash == Sha(b) <==> BytesKept(edits, p, b))
  }

  /** Writing the manifest into a fresh file, and digesting what then stands there: the hash is the written
      manifest's if and only if the edits between the two leave its bytes. */
  method WriteManifest(disk: Disk, out: Path, m: Manifest, ghost last: nat) returns (r: Result)
    requires disk.Valid() && last == disk.clock + 2
    modifies disk`nodes, disk`clock, disk`touched
    ensures disk.Valid() && disk.touched <= old(disk.touched) + {out + [MANIFEST]}
    ensures Kept(disk.env, old(disk.nodes), disk.nodes, old(disk.clock), disk.clock, {out + [MANIFEST]})
    ensures r.Bundle? ==>
      && disk.clock == last + 1
      && Reread(Doings(disk.env, last), disk.nodes, out + [MANIFEST], Json(m, 0), r.manifestHash)
    ensures Still(disk.env, old(disk.clock), last) && !Stopped(disk.env, last) ==>
      (r.Bundle? <==> out + [MANIFEST] !in old(disk.nodes) && Readable(Doings(disk.env, last), out + [MANIFEST]))
  {
    var p := out + [MANIFEST];
    ghost var c, start := disk.clock, disk.nodes;
    StillRound(disk.env, c, start);
    var alive, made := disk.Create(p, Json(m, 0));
    KeptNarrow(disk.env, start, disk.nodes, c, disk.clock, {p} * disk.touched, {p});
    if !alive { r := Died; return; }
    if !made { r := Failed("source_bound_build_failed"); return; }
    ghost var written := disk.nodes;
    var back;
    alive, back := disk.Read(p);
    KeptOn(disk.env, start, written, disk.nodes, c, c + 2, c + 3, {p}, {});
    assert {p} + {} == {p};
    if !alive { r := Died; return; }
    r := if back.None? then Failed("source_bound_build_failed") else Bundle(Sha(back.value));
  }

  lemma KeptNarrow(env: Env, a: Nodes, b: Nodes, i: nat, j: nat, hole: set<Path>, more: set<Path>)
    requires Kept(env, a, b, i, j, hole) && hole <= more
    ensures Kept(env, a, b, i, j, more)
  {
  }

  /** A sourced member carries its source's digest, unless someone else has written it between actions `c`
      and `d`. */
  ghost predicate BoundPair(env: Env, c: nat, d: nat, out: Path, p: (string, string), inputs: map<string, Hash>,
                            ds: map<string, Hash>) {
    p.0 in inputs && p.1 in ds && (Idle(env, out + [p.1], c, d) ==> ds[p.1] == inputs[p.0])
  }

  lemma DigestedIdle(env: Env, t: Timeline, c: nat, out: Path, order: seq<string>, ds: map<string, Hash>, i: nat)
    requires Follows(env, t, c) && i < |order| && Digested(t, c, out, order, ds, i)
    requires Idle(env, out + [order[i]], c, c + |order|)
    ensures var b := Content(At(t, c), out + [order[i]]); b.Some? && ds[order[i]] == Sha(b.value)
  {
    FollowsKept(env, t, c, c, c + i + 1);
    assert Idle(env, out + [order[i]], c, c + i + 1) && SameAt(At(t, c), At(t, c + i + 1), out + [order[i]]);
  }

  lemma PairsBound(env: Env, since: nat, t: Timeline, c: nat, out: Path, order: seq<string>,
                   pairs: seq<(string, string)>, inputs: map<string, Hash>, ds: map<string, Hash>)
    requires Follows(env, t, c) && since <= c && Copied(env, since, c, At(t, c), out, inputs, pairs)
    requires forall i :: 0 <= i < |order| ==> Digested(t, c, out, order, ds, i)
    requires forall p :: p in pairs ==> p.1 in order
    ensures forall p :: p in pairs ==> BoundPair(env, since, c + |order|, out, p, inputs, ds)
  {
    forall p | p in pairs ensures BoundPair(env, since, c + |order|, out, p, inputs, ds) {
      var j :| 0 <= j < |pairs| && pairs[j] == p;
      assert CopiedPair(env, since, c, At(t, c), out, inputs, pairs[j]);
      var i :| 0 <= i < |order| && order[i] == p.1;
      assert Digested(t, c, out, order, ds, i);
      if Idle(env, out + [p.1], since, c + |order|) {
        assert Idle(env, out + [p.1], since, c) && Idle(env, out + [p.1], c, c + |order|);
        DigestedIdle(env, t, c, out, order, ds, i);
      }
    }
  }

  /** What stands there now is what every look of a still stretch finds. */
  lemma MembersStill(env: Env, t: Timeline, c: nat, d: nat, out: Path, order: seq<string>)
    requires Follows(env, t, c) && Still(env, c, d) && c + |order| <= d
    ensures At(t, c + |order|) == At(t, c)
    ensures forall i :: 0 <= i < |order| ==> MemberAt(t, c, out, order, i) == Content(At(t, c), out + [order[i]])
  {
    forall i | 0 <= i < |order| ensures MemberAt(t, c, out, order, i) == Content(At(t, c), out + [order[i]]) {
      StillStands(env, t, c, d, c + i + 1);
    }
    StillStands(env, t, c, d, c + |order|);
  }

  ghost predicate AllThere(n: Nodes, out: Path, order: seq<string>) {
    forall i :: 0 <= i < |order| ==> Content(n, out + [order[i]]).Some?
  }

  /** The end of the build: the members are digested and the manifest is written. */
  method Emit(disk: Disk, out: Path, given: Given, inputs: map<string, Hash>, target: Target, order: seq<string>,
              ghost pairs: seq<(string, string)>, ghost since: nat, ghost last: nat)
      returns (r: Result, m: Manifest)
    requires last == disk.clock + |order| + 2
    requires disk.Valid() && since <= disk.clock && Copied(disk.env, since, disk.clock, disk.nodes, out, inputs, pairs)
    requires DistinctOrder(order) && forall p :: p in pairs ==> p.1 in order
    modifies disk`nodes, disk`clock, disk`touched
    ensures disk.Valid() && disk.touched <= old(disk.touched) + {out + [MANIFEST]}
    ensures Kept(disk.env, old(disk.nodes), disk.nodes, old(disk.clock), disk.clock, {out + [MANIFEST]})
    ensures r.Bundle? ==>
      && Emitted(disk.env, since, old(disk.clock), old(disk.nodes), out, given, inputs, target, order, pairs, m)
      && disk.clock == last + 1
      && Reread(Doings(disk.env, last), disk.nodes, out + [MANIFEST], Json(m, 0), r.manifestHash)
    ensures EmittedAlone(disk.env, old(disk.nodes), old(disk.clock), last, out, order, r)
  {
    ghost var c, start := disk.clock, disk.nodes;
    ghost var t := From(start, disk.env, c);
    FromFollows(start, disk.env, c);
    m := Manifest(None, None, None, None, None, None, None, None, map[], None);
    var alive, ok, files := DigestMembers(disk, out, order, t);
    FollowsKept(disk.env, t, c, c, disk.clock);
    KeptWider(disk.env, start, disk.nodes, c, disk.clock, {out + [MANIFEST]});
    if Still(disk.env, c, last) { MembersStill(disk.env, t, c, last, out, order); }
    if !alive { r := Died; return; }
    if !ok { r := Failed("source_bound_build_failed"); return; }
    m := Built(given.commit, given.tree, given.arch, target, inputs, given.goSha, files);
    EmittedNow(disk.env, since, t, c, start, out, given, inputs, target, order, pairs, m);
    ghost var was, at := disk.nodes, disk.clock;
    r := WriteManifest(disk, out, m, last);
    KeptThen(disk.env, start, was, disk.nodes, c, at, disk.clock, {out + [MANIFEST]});
  }

  lemma EmittedNow(env: Env, since: nat, t: Timeline, c: nat, n: Nodes, out: Path, given: Given,
                   inputs: map<string, Hash>, target: Target, order: seq<string>, pairs: seq<(string, string)>,
                   m: Manifest)
    requires Follows(env, t, c) && At(t, c) == n && since <= c && Copied(env, since, c, n, out, inputs, pairs)
    requires m.files.Some?
    requires m == Built(given.commit, given.tree, given.arch, target, inputs, given.goSha, m.files.value)
    requires forall k :: k in m.files.value <==> k in order
    requires forall i :: 0 <= i < |order| ==> Digested(t, c, out, order, m.files.value, i)
    requires forall p :: p in pairs ==> p.1 in order
    ensures Emitted(env, since, c, n, out, given, inputs, target, order, pairs, m)
  {
    var files := m.files.value;
    PairsBound(env, since, t, c, out, order, pairs, inputs, files);
    forall i | 0 <= i < |order| && Idle(env, out + [order[i]], c, c + |order|) ensures Listed(n, out, order[i], files) {
      assert Digested(t, c, out, order, files, i);
      DigestedIdle(env, t, c, out, order, files, i);
    }
  }

  /** What the manifest says of the disk `n` from which the end of a build sets out at action `c`. */
  ghost predicate Emitted(env: Env, since: nat, c: nat, n: Nodes, out: Path, given: Given, inputs: map<string, Hash>,
                          target: Target, order: seq<string>, pairs: seq<(string, string)>, m: Manifest) {
    && m.files.Some? && m == Built(given.commit, given.tree, given.arch, target, inputs, given.goSha, m.files.value)
    && (forall k :: k in m.files.value <==> k in order)
    && (forall p :: p in pairs ==> BoundPair(env, since, c + |order|, out, p, inputs, m.files.value))
    && forall k :: k in order && Idle(env, out + [k], c, c + |order|) ==> Listed(n, out, k, m.files.value)
  }

  /** Left alone until its last look, the end of the build succeeds exactly when every member is there, the
      manifest is not, and what is done to it just before that look leaves a file. */
  ghost predicate EmittedAlone(env: Env, n: Nodes, c: nat, last: nat, out: Path, order: seq<string>, r: Result) {
    Still(env, c, last) && !Stopped(env, last) ==>
      (r.Bundle? <==>
         out + [MANIFEST] !in n && AllThere(n, out, order) && Readable(Doings(env, last), out + [MANIFEST]))
  }

  // ---------------------------------------------------------------- a whole build

  /** The snapshot has not drifted since: each later look at the frozen source found the same files. */
  ghost predicate Steady(snapshot: map<string, Bytes>, looks: seq<map<string, Bytes>>) {
    |looks| == 3 && forall i :: 0 <= i < |looks| ==> looks[i] == snapshot
  }

  lemma SteadyWhen(snapshot: map<string, Bytes>, looks: seq<map<string, Bytes>>)
    requires LooksLike(Digests(snapshot), looks)
    ensures Steady(snapshot, looks)
  {
    forall i | 0 <= i < |looks| ensures looks[i] == snapshot { SameDigests(looks[i], snapshot); }
  }

  /** The plan of a build: which sources are copied under which names, and the order of the members. */
  ghost predicate Planned(out: Path, order: seq<string>, pairs: seq<(string, string)>) {
    && DistinctNames(pairs) && DistinctOrder(order) && BINARY in order && MANIFEST !in order
    && (forall p :: p in pairs ==> p.1 in order && p.1 != BINARY)
    && forall n :: n in order ==> n == BINARY || exists j :: 0 <= j < |pairs| && pairs[j].1 == n
  }

  /** The actions it takes to copy the sources and to digest the members. */
  function Span(order: seq<string>, pairs: seq<(string, string)>): nat { 4 * |pairs| + |order| }

  /** The action at which a build begun at action `c` looks at its manifest for the hash it returns. */
  function LastLook(c: nat, order: seq<string>, pairs: seq<(string, string)>): nat { c + Span(order, pairs) + 8 }

  /** What is made of the snapshot from action `c` on: the target in the header of the binary that was read,
      whose digest is the member's unless someone else writes it before the members are digested; the members
      in order; and for every sourced member that nobody else writes until then, the snapshot's digest. */
  ghost predicate Faithful(env: Env, c: nat, out: Path, given: Given, order: seq<string>, pairs: seq<(string, string)>,
                           m: Manifest, binary: Bytes, inputs: map<string, Hash>) {
    && m.files.Some? && TargetRead(binary, given.arch).Some?
    && m == Built(given.commit, given.tree, given.arch, TargetRead(binary, given.arch).value, inputs, given.goSha,
                  m.files.value)
    && (forall n :: n in m.files.value <==> n in order) && BINARY in m.files.value
    && (Idle(env, out + [BINARY], c + 2, c + Span(order, pairs) + 4) ==> m.files.value[BINARY] == Sha(binary))
    && forall p :: p in pairs ==> BoundPair(env, c + 3, c + Span(order, pairs) + 4, out, p, inputs, m.files.value)
  }

  /** What a bundle's manifest says of a build begun at action `c`, whatever others did: it is faithful to the
      snapshot, and the frozen source was steady at every later look. */
  ghost predicate Honest(env: Env, c: nat, out: Path, given: Given, order: seq<string>, pairs: seq<(string, string)>,
                         m: Manifest, binary: Bytes, snapshot: map<string, Bytes>, looks: seq<map<string, Bytes>>) {
    Faithful(env, c + 2, out, given, order, pairs, m, binary, Digests(snapshot)) && Steady(snapshot, looks)
  }

  /** A build may begin: the tools are good and the output is fresh. */
  predicate MayBegin(begun: Nodes, out: Path, given: Given) {
    given.arch in {"amd64", "arm64"} && HashLength(given.goSha) == 64 && given.preflight == Fine
      && !ExistsIn(begun, out)
  }

  /** When an undisturbed build succeeds that may begin: `extracted` and `compiled` are the states after
      the rounds of others' doings in which the source is extracted and the compiler runs. */
  ghost predicate Compilable(extracted: Nodes, compiled: Nodes, out: Path, given: Given, pairs: seq<(string, string)>) {
    && out + [MANIFEST] !in compiled
    && Preparable(compiled, out, given, Digests(Files(extracted, Frozen(out))), pairs)
  }

  lemma CopiesThere(env: Env, since: nat, d: nat, n: Nodes, out: Path, inputs: map<string, Hash>,
                    order: seq<string>, pairs: seq<(string, string)>)
    requires Planned(out, order, pairs) && Content(n, out + [BINARY]).Some?
    requires Copied(env, since, d, n, out, inputs, pairs) && Still(env, since, d)
    ensures AllThere(n, out, order)
  {
    forall i | 0 <= i < |order| ensures Content(n, out + [order[i]]).Some? {
      assert order[i] in order;
      if order[i] != BINARY {
        var j :| 0 <= j < |pairs| && pairs[j].1 == order[i];
        assert CopiedPair(env, since, d, n, out, inputs, pairs[j]) && Idle(env, out + [pairs[j].1], since, d);
      }
    }
  }

  lemma OutsideTargets(out: Path, order: seq<string>, pairs: seq<(string, string)>)
    requires Planned(out, order, pairs)
    ensures out + [BINARY] !in Targets(out, pairs) && out + [MANIFEST] !in Targets(out, pairs)
  {
    forall q | q in pairs ensures out + [q.1] != out + [BINARY] && out + [q.1] != out + [MANIFEST] {
      NamesApart(out, q.1, BINARY);
      NamesApart(out, q.1, MANIFEST);
    }
  }

  /** The disk after an undisturbed build: what the compiler left, the copies, and the manifest. */
  ghost predicate Finished(compiled: Nodes, n: Nodes, out: Path, pairs: seq<(string, string)>) {
    AgreeBut(compiled, n, Targets(out, pairs) + {out + [MANIFEST]})
  }

  /** The members as they stand are the ones the manifest lists; the copies are plain files. */
  ghost predicate Stored(n: Nodes, out: Path, order: seq<string>, pairs: seq<(string, string)>, m: Manifest) {
    && m.files.Some?
    && (forall name :: name in order ==> Listed(n, out, name, m.files.value))
    && forall p :: p in pairs ==> out + [p.1] in n && n[out + [p.1]].File?
  }

  predicate Listed(n: Nodes, out: Path, name: string, files: map<string, Hash>) {
    var b := Content(n, out + [name]);
    b.Some? && name in files && files[name] == Sha(b.value)
  }

  /** Left alone, what was digested is what stands there in the end. */
  lemma StoredAlone(env: Env, since: nat, d: nat, a: Nodes, b: Nodes, out: Path, inputs: map<string, Hash>,
                    order: seq<string>, pairs: seq<(string, string)>, m: Manifest)
    requires Planned(out, order, pairs) && AgreeBut(a, b, {out + [MANIFEST]}) && m.files.Some?
    requires Copied(env, since, d, a, out, inputs, pairs) && Still(env, since, d)
    requires forall n :: n in order ==> Listed(a, out, n, m.files.value)
    ensures Stored(b, out, order, pairs, m)
  {
    forall n | n in order ensures Listed(b, out, n, m.files.value) {
      NamesApart(out, n, MANIFEST);
      assert Listed(a, out, n, m.files.value) && SameAt(a, b, out + [n]);
    }
    forall p | p in pairs ensures out + [p.1] in b && b[out + [p.1]].File? {
      var j :| 0 <= j < |pairs| && pairs[j] == p;
      assert CopiedPair(env, since, d, a, out, inputs, pairs[j]) && Idle(env, out + [p.1], since, d);
      NamesApart(out, p.1, MANIFEST);
      assert SameAt(a, b, out + [p.1]);
    }
  }

  /** From the snapshot on, in a build begun at action `c`. */
  method BuildFrom(disk: Disk, out: Path, given: Given, order: seq<string>, pairs: seq<(string, string)>,
                   inputs: map<string, Hash>, ghost c: nat, ghost last: nat)
      returns (r: Result, m: Manifest, binary: Bytes, ghost looks: seq<map<string, Bytes>>)
    requires disk.OnTime() && Planned(out, order, pairs) && disk.clock == c + 2 && last == LastLook(c, order, pairs)
    modifies disk`nodes, disk`clock, disk`touched
    ensures disk.Valid()
    ensures r.Bundle? ==>
      && LooksLike(inputs, looks) && Faithful(disk.env, c + 2, out, given, order, pairs, m, binary, inputs)
      && disk.clock == last + 1
      && Reread(Doings(disk.env, last), disk.nodes, out + [MANIFEST], Json(m, 0), r.manifestHash)
    ensures FinishedAlone(disk.env, c, last, At(disk.without, c + 3), out,
                          Preparable(At(disk.without, c + 3), out, given, inputs, pairs), r)
    ensures LeavesFinished(disk.env, c, last, At(disk.without, c + 3), disk.nodes, out, order, pairs, r, m)
  {
    m := Manifest(None, None, None, None, None, None, None, None, map[], None);
    OutsideTargets(out, order, pairs);
    var fine, alive;
    ghost var b, n := disk.clock, Edited(disk.nodes, Doings(disk.env, disk.clock));
    assert n == At(disk.without, c + 3);
    fine, alive, binary, looks := Prepare(disk, out, given, inputs, pairs);
    ghost var able := Preparable(n, out, given, inputs, pairs);
    PreparedSince(disk.env, b, c, last, n, disk.nodes, out, given, inputs, order, pairs, alive && fine == Fine);
    if !alive { r := Died; return; }
    if fine != Fine { r := Failed(fine.reason); return; }
    ghost var was, at := disk.nodes, disk.clock;
    r, m := BuildOn(disk, out, given, order, pairs, inputs, c, last, n, able, TargetRead(binary, given.arch).value);
    if r.Bundle? { FaithfulNow(disk.env, c, at, was, out, given, order, pairs, m, binary, inputs); }
  }

  /** From the copied members on, in a build begun at action `c`. */
  method BuildOn(disk: Disk, out: Path, given: Given, order: seq<string>, pairs: seq<(string, string)>,
                 inputs: map<string, Hash>, ghost c: nat, ghost last: nat, ghost n: Nodes,
                 ghost able: bool, target: Target)
      returns (r: Result, m: Manifest)
    requires disk.Valid() && Planned(out, order, pairs) && last == LastLook(c, order, pairs)
    requires disk.clock == c + 4 * |pairs| + 6
    requires Since(disk.env, c, last, n, disk.nodes, out, pairs, able, true)
    requires Copied(disk.env, c + 5, disk.clock, disk.nodes, out, inputs, pairs)
    requires Idle(disk.env, out + [BINARY], c + 4, disk.clock) ==> Content(disk.nodes, out + [BINARY]).Some?
    modifies disk`nodes, disk`clock, disk`touched
    ensures disk.Valid()
    ensures r.Bundle? ==>
      && Emitted(disk.env, c + 5, old(disk.clock), old(disk.nodes), out, given, inputs, target, order, pairs, m)
      && disk.clock == last + 1
      && Reread(Doings(disk.env, last), disk.nodes, out + [MANIFEST], Json(m, 0), r.manifestHash)
    ensures FinishedAlone(disk.env, c, last, n, out, able, r)
    ensures LeavesFinished(disk.env, c, last, n, disk.nodes, out, order, pairs, r, m)
  {
    ghost var was, at := disk.nodes, disk.clock;
    r, m := Emit(disk, out, given, inputs, target, order, pairs, c + 5, last);
    EndedSo(disk.env, c, last, at, n, was, disk.nodes, out, given, inputs, order, pairs, target, r, m, able);
  }

  lemma EndedSo(env: Env, c: nat, last: nat, at: nat, n: Nodes, was: Nodes, now: Nodes, out: Path, given: Given,
                inputs: map<string, Hash>, order: seq<string>, pairs: seq<(string, string)>, target: Target, r: Result,
                m: Manifest, able: bool)
    requires Planned(out, order, pairs) && last == LastLook(c, order, pairs) && at == c + 4 * |pairs| + 6
    requires Since(env, c, last, n, was, out, pairs, able, true)
    requires Copied(env, c + 5, at, was, out, inputs, pairs)
    requires Idle(env, out + [BINARY], c + 4, at) ==> Content(was, out + [BINARY]).Some?
    requires r.Bundle? ==>
      && Emitted(env, c + 5, at, was, out, given, inputs, target, order, pairs, m)
      && Kept(env, was, now, at, last + 1, {out + [MANIFEST]})
    requires EmittedAlone(env, was, at, last, out, order, r)
    ensures FinishedAlone(env, c, last, n, out, able, r)
    ensures LeavesFinished(env, c, last, n, now, out, order, pairs, r, m)
  {
    FinishedWhen(env, c, last, at, n, was, out, inputs, order, pairs, r, able);
    if r.Bundle? {
      FinishedNow(env, c, last, at, n, was, now, out, given, inputs, target, order, pairs, r, m, able);
    }
  }

  /** The preparation of what is able to be prepared or not, told from the action `c` at which the build began. */
  ghost predicate Since(env: Env, c: nat, last: nat, n: Nodes, now: Nodes, out: Path, pairs: seq<(string, string)>,
                        able: bool, good: bool) {
    Still(env, c + 3, last) && !Stopped(env, c + 2) ==>
      (good <==> able) && (good ==> AgreeBut(n, now, Targets(out, pairs)))
  }

  lemma PreparedSince(env: Env, b: nat, c: nat, last: nat, n: Nodes, now: Nodes, out: Path, given: Given,
                      inputs: map<string, Hash>, order: seq<string>, pairs: seq<(string, string)>, good: bool)
    requires b == c + 2 && last == LastLook(c, order, pairs)
    requires PreparedAlone(env, b, n, now, out, given, inputs, pairs, good)
    ensures Since(env, c, last, n, now, out, pairs, Preparable(n, out, given, inputs, pairs), good)
  {
    StillWithin(env, c + 3, c + 4 * |pairs| + 6, last);
  }

  lemma FinishedWhen(env: Env, c: nat, last: nat, at: nat, n: Nodes, was: Nodes, out: Path,
                     inputs: map<string, Hash>, order: seq<string>, pairs: seq<(string, string)>, r: Result, able: bool)
    requires Planned(out, order, pairs) && at == c + 4 * |pairs| + 6 <= last
    requires Since(env, c, last, n, was, out, pairs, able, true)
    requires Copied(env, c + 5, at, was, out, inputs, pairs)
    requires Idle(env, out + [BINARY], c + 4, at) ==> Content(was, out + [BINARY]).Some?
    requires EmittedAlone(env, was, at, last, out, order, r)
    ensures FinishedAlone(env, c, last, n, out, able, r)
  {
    if Still(env, c + 3, last) && !Stopped(env, c + 2) {
      MembersThere(env, c + 2, last, at, was, out, inputs, order, pairs);
      OutsideTargets(out, order, pairs);
      assert SameAt(n, was, out + [MANIFEST]);
    }
  }

  lemma FinishedNow(env: Env, c: nat, last: nat, at: nat, n: Nodes, was: Nodes, now: Nodes, out: Path,
                    given: Given, inputs: map<string, Hash>, target: Target, order: seq<string>,
                    pairs: seq<(string, string)>, r: Result, m: Manifest, able: bool)
    requires Planned(out, order, pairs) && c + 5 <= at <= last && at + |order| <= last && m.files.Some?
    requires Copied(env, c + 5, at, was, out, inputs, pairs) && Kept(env, was, now, at, last + 1, {out + [MANIFEST]})
    requires Emitted(env, c + 5, at, was, out, given, inputs, target, order, pairs, m)
    requires Since(env, c, last, n, was, out, pairs, able, true)
    ensures LeavesFinished(env, c, last, n, now, out, order, pairs, r, m)
  {
    var p := out + [MANIFEST];
    if Still(env, c + 3, last) && !Stopped(env, c + 2) && OnlyWrites(Doings(env, last), p) {
      forall q | q != p ensures SameAt(was, now, q) { assert Idle(env, q, at, last + 1); }
      forall k | k in order ensures Listed(was, out, k, m.files.value) {
        assert Idle(env, out + [k], at, at + |order|);
      }
      StoredAlone(env, c + 5, at, was, now, out, inputs, order, pairs, m);
      AgreeThrough(n, was, now, Targets(out, pairs), {p});
    }
  }

  /** Left alone until its last look, a build succeeds from its snapshot on exactly when what the compiler
      left, `n`, is able to be prepared, has no manifest, and what is done to the manifest just before that look
      leaves a file. */
  ghost predicate FinishedAlone(env: Env, c: nat, last: nat, n: Nodes, out: Path, able: bool, r: Result) {
    Still(env, c + 3, last) && !Stopped(env, c + 2) && !Stopped(env, last) ==>
      (r.Bundle? <==> able && out + [MANIFEST] !in n && Readable(Doings(env, last), out + [MANIFEST]))
  }

  /** Nothing else is edited. */
  predicate OnlyWrites(edits: Edits, p: Path) { edits.Keys <= {p} }

  /** Left alone to the end but for the manifest at the last look, a build that succeeds leaves the disk
      finished. */
  ghost predicate LeavesFinished(env: Env, c: nat, last: nat, n: Nodes, now: Nodes, out: Path, order: seq<string>,
                                 pairs: seq<(string, string)>, r: Result, m: Manifest) {
    Still(env, c + 3, last) && !Stopped(env, c + 2) && OnlyWrites(Doings(env, last), out + [MANIFEST]) && r.Bundle? ==>
      Finished(n, now, out, pairs) && Stored(now, out, order, pairs, m)
  }

  /** Left alone so far, every member is there to be digested. */
  lemma MembersThere(env: Env, c: nat, last: nat, at: nat, n: Nodes, out: Path, inputs: map<string, Hash>,
                      order: seq<string>, pairs: seq<(string, string)>)
    requires Planned(out, order, pairs) && c + 3 <= at <= last
    requires Copied(env, c + 3, at, n, out, inputs, pairs)
    requires Idle(env, out + [BINARY], c + 2, at) ==> Content(n, out + [BINARY]).Some?
    ensures Still(env, c + 1, last) ==> Still(env, at, last) && Still(env, c + 3, at) && AllThere(n, out, order)
  {
    if Still(env, c + 1, last) { CopiesThere(env, c + 3, at, n, out, inputs, order, pairs); }
  }

  lemma FaithfulNow(env: Env, c: nat, at: nat, n: Nodes, out: Path, given: Given, order: seq<string>,
                    pairs: seq<(string, string)>, m: Manifest, binary: Bytes, inputs: map<string, Hash>)
    requires Planned(out, order, pairs) && at == c + 4 * |pairs| + 6 && TargetRead(binary, given.arch).Some?
    requires Idle(env, out + [BINARY], c + 4, at) ==> Content(n, out + [BINARY]) == Some(binary)
    requires Emitted(env, c + 5, at, n, out, given, inputs, TargetRead(binary, given.arch).value, order, pairs, m)
    ensures Faithful(env, c + 2, out, given, order, pairs, m, binary, inputs)
  {
    var p := out + [BINARY];
    if Idle(env, p, c + 4, at + |order|) { assert Idle(env, p, c + 4, at) && Idle(env, p, at, at + |order|); }
  }

  lemma AgreeThrough(a: Nodes, b: Nodes, e: Nodes, hole: set<Path>, more: set<Path>)
    requires AgreeBut(a, b, hole) && AgreeBut(b, e, more)
    ensures AgreeBut(a, e, hole + more)
  {
    forall p | p !in hole + more ensures SameAt(a, e, p) { assert SameAt(a, b, p) && SameAt(b, e, p); }
  }

  /** The checks before anything is made. */
  method CheckFresh(disk: Disk, out: Path, given: Given) returns (r: Verdict, alive: bool)
    requires disk.OnTime()
    modifies disk`nodes, disk`clock
    ensures disk.OnTime()
    ensures alive && r == Fine ==> disk.clock == old(disk.clock) + 1
    ensures alive && r == Fine <==>
      Lives(disk.env, old(disk.clock), 1) && MayBegin(At(disk.without, old(disk.clock) + 1), out, given)
  {
    r, alive := Fine, true;
    if given.arch !in {"amd64", "arm64"} { r := Refused("target_must_be_amd64_or_arm64"); return; }
    if HashLength(given.goSha) != 64 { r := Refused("verified_go_executable_hash_required"); return; }
    if given.preflight != Fine { r := given.preflight; return; }
    alive := disk.Act();
    if alive && ExistsIn(disk.nodes, out) { r := Refused("fresh_output_required_preserve_existing_generation"); }
  }

  /** The snapshot, and all that comes after it, in a build begun at action `c`. */
  method SnapshotAndBuild(disk: Disk, out: Path, given: Given, order: seq<string>, pairs: seq<(string, string)>,
                          ghost c: nat, ghost last: nat)
      returns (r: Result, m: Manifest, binary: Bytes, ghost snapshot: map<string, Bytes>,
               ghost looks: seq<map<string, Bytes>>)
    requires disk.OnTime() && Planned(out, order, pairs) && disk.clock == c + 1 && last == LastLook(c, order, pairs)
    modifies disk`nodes, disk`clock, disk`touched
    ensures disk.Valid()
    ensures r.Bundle? ==>
      && Honest(disk.env, c, out, given, order, pairs, m, binary, snapshot, looks)
      && Taken(At(disk.without, c + 2), out, snapshot) && disk.clock == last + 1
      && Reread(Doings(disk.env, last), disk.nodes, out + [MANIFEST], Json(m, 0), r.manifestHash)
    ensures Still(disk.env, c + 3, last) && Lives(disk.env, c + 1, 2) && !Stopped(disk.env, last) ==>
      (r.Bundle? <==> Compilable(At(disk.without, c + 2), At(disk.without, c + 3), out, given, pairs)
                      && Readable(Doings(disk.env, last), out + [MANIFEST]))
    ensures LeavesFinished(disk.env, c, last, At(disk.without, c + 3), disk.nodes, out, order, pairs, r, m)
  {
    looks, binary := [], Raw([]);
    m := Manifest(None, None, None, None, None, None, None, None, map[], None);
    var alive, inputs;
    alive, inputs, snapshot := DigestFiles(disk, Frozen(out));
    FilesTaken(disk.nodes, out);
    assert disk.nodes == At(disk.without, disk.clock);
    if !alive { r := Died; return; }
    r, m, binary, looks := BuildFrom(disk, out, given, order, pairs, inputs, c, last);
    if r.Bundle? { SteadyWhen(snapshot, looks); }
  }

  /** What any bundle from a build begun at action `c` tells, whatever others did: the output was fresh, the
      snapshot is of the source as it was extracted, and the manifest is honest about it. */
  ghost predicate Told(env: Env, t: Timeline, c: nat, out: Path, given: Given, order: seq<string>,
                       pairs: seq<(string, string)>, m: Manifest, binary: Bytes, snapshot: map<string, Bytes>,
                       looks: seq<map<string, Bytes>>) {
    && MayBegin(At(t, c + 1), out, given) && Taken(At(t, c + 2), out, snapshot)
    && Honest(env, c, out, given, order, pairs, m, binary, snapshot, looks)
  }

  /** A build begun at action `c` that nobody disturbs between the compiler and its last look succeeds exactly
      when it may begin, can be compiled, and finds a manifest at that look; undisturbed to the end but for the
      manifest at that look, it leaves the disk finished. */
  ghost predicate Undisturbed(env: Env, t: Timeline, c: nat, last: nat, out: Path, given: Given, order: seq<string>,
                              pairs: seq<(string, string)>, n: Nodes, r: Result, m: Manifest) {
    && (Still(env, c + 3, last) && Lives(env, c, 3) && !Stopped(env, last) ==>
          (r.Bundle? <==>
             && MayBegin(At(t, c + 1), out, given) && Compilable(At(t, c + 2), At(t, c + 3), out, given, pairs)
             && Readable(Doings(env, last), out + [MANIFEST])))
    && LeavesFinished(env, c, last, At(t, c + 3), n, out, order, pairs, r, m)
  }

  /** One build into a fresh directory. A bundle's manifest is honest. The hash returned is that of what stands
      in the manifest file at the last look, so it is the built manifest's if and only if the edits just before
      that look leave its bytes. Undisturbed between the compiler and that look, a build succeeds exactly when
      it is buildable and a manifest is still there. */
  method Run(disk: Disk, out: Path, given: Given, order: seq<string>, pairs: seq<(string, string)>,
             ghost c: nat, ghost last: nat)
      returns (r: Result, m: Manifest, binary: Bytes, ghost snapshot: map<string, Bytes>,
               ghost looks: seq<map<string, Bytes>>)
    requires disk.OnTime() && Planned(out, order, pairs) && disk.clock == c && last == LastLook(c, order, pairs)
    modifies disk`nodes, disk`clock, disk`touched
    ensures disk.Valid()
    ensures r.Bundle? ==>
      && Told(disk.env, disk.without, c, out, given, order, pairs, m, binary, snapshot, looks)
      && disk.clock == last + 1
      && Reread(Doings(disk.env, last), disk.nodes, out + [MANIFEST], Json(m, 0), r.manifestHash)
    ensures Undisturbed(disk.env, disk.without, c, last, out, given, order, pairs, disk.nodes, r, m)
  {
    looks, binary, snapshot := [], Raw([]), map[];
    m := Manifest(None, None, None, None, None, None, None, None, map[], None);
    var fine, alive := CheckFresh(disk, out, given);
    LivesOn(disk.env, c);
    if !alive { r := Died; return; }
    if fine != Fine { r := Failed(fine.reason); return; }
    r, m, binary, snapshot, looks := SnapshotAndBuild(disk, out, given, order, pairs, c, last);
  }

  lemma LivesOn(env: Env, c: nat)
    ensures Lives(env, c, 3) <==> Lives(env, c, 1) && Lives(env, c + 1, 2)
  {
  }
}
