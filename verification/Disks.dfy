/** A shared file system: a program that acts one input or output at a time, may be stopped between any
    two, and everyone else changing files in between. */
module Disks {
  import opened Options
  import opened Manifest

  /** A directory entry; a link is what it resolves to. */
  datatype Node = File(bytes: Bytes) | Link(bytes: Bytes) | Dir

  type Nodes = map<Path, Node>

  /** Changes of everyone else: what stands at a path afterwards, if anything. */
  type Edits = map<Path, Option<Node>>

  /** What everyone else does just before the `k`-th action, and whether the program is stopped there. */
  datatype Env = Env(others: nat -> Edits, stops: nat -> bool)

  /** The state after everyone else's edits before the `k`-th action, at each `k`. */
  type Timeline = nat -> Nodes

  function At(t: Timeline, k: nat): Nodes { t(k) }

  function Doings(env: Env, k: nat): Edits { env.others(k) }

  predicate Stopped(env: Env, k: nat) { env.stops(k) }

  /** `p` is `root` or inside it. */
  predicate Under(root: Path, p: Path) { root <= p }

  lemma NamesApart(dir: Path, a: string, b: string)
    ensures dir + [a] == dir + [b] <==> a == b
  {
    assert (dir + [a])[|dir|] == a && (dir + [b])[|dir|] == b;
  }

  predicate ExistsIn(nodes: Nodes, p: Path) { p in nodes || exists q :: q in nodes && Under(p, q) }

  predicate LinkFree(nodes: Nodes, p: Path) {
    forall k :: 0 <= k <= |p| ==> p[..k] !in nodes || !nodes[p[..k]].Link?
  }

  function Content(nodes: Nodes, p: Path): Option<Bytes> {
    if p in nodes && !nodes[p].Dir? then Some(nodes[p].bytes) else None
  }

  predicate HoldsAt(nodes: Nodes, p: Path, h: Hash) { p in nodes && nodes[p].File? && Sha(nodes[p].bytes) == h }

  predicate Stands(nodes: Nodes, p: Path, b: Bytes) { p in nodes && nodes[p] == File(b) }

  function Edited(nodes: Nodes, edits: Edits): Nodes {
    map p | p in nodes.Keys + edits.Keys && (p in edits ==> edits[p].Some?) ::
      if p in edits then edits[p].value else nodes[p]
  }

  /** The program is not stopped at any of `k` actions from `c` on. */
  predicate Lives(env: Env, c: nat, k: nat) { forall i :: c <= i < c + k ==> !Stopped(env, i) }

  /** From action `c` on, the timeline is what everyone else makes of the disk without the program. */
  ghost predicate Follows(env: Env, t: Timeline, c: nat) {
    forall k: nat :: c <= k ==> At(t, k + 1) == Edited(At(t, k), Doings(env, k))
  }

  function Later(nodes: Nodes, env: Env, c: nat, k: nat): Nodes
    decreases k
  {
    if k == 0 then nodes else Edited(Later(nodes, env, c, k - 1), Doings(env, c + k - 1))
  }

  /** The timeline that starts from these nodes at action `c`. */
  function From(nodes: Nodes, env: Env, c: nat): Timeline {
    k => if k <= c then nodes else Later(nodes, env, c, k - c)
  }

  lemma FromFollows(nodes: Nodes, env: Env, c: nat)
    ensures Follows(env, From(nodes, env, c), c) && At(From(nodes, env, c), c) == nodes
  {
    var t := From(nodes, env, c);
    forall k: nat | c <= k ensures At(t, k + 1) == Edited(At(t, k), Doings(env, k)) {
      assert At(t, k) == Later(nodes, env, c, k - c);
      assert At(t, k + 1) == Later(nodes, env, c, k + 1 - c);
    }
  }

  // ---------------------------------------------------------------- states that agree

  /** The two states agree at `p`. */
  predicate SameAt(a: Nodes, b: Nodes, p: Path) { (p in a <==> p in b) && (p in a ==> a[p] == b[p]) }

  /** The two states agree outside `hole`. */
  ghost predicate AgreeBut(a: Nodes, b: Nodes, hole: set<Path>) { forall p :: p !in hole ==> SameAt(a, b, p) }

  /** The two states agree on everything inside `root` outside `hole`. */
  ghost predicate SameInside(a: Nodes, b: Nodes, root: Path, hole: set<Path>) {
    forall p :: Under(root, p) && p !in hole ==> SameAt(a, b, p)
  }

  /** Nobody else writes inside `root`. */
  ghost predicate Respects(env: Env, root: Path) { forall k: nat, p :: p in Doings(env, k) ==> !Under(root, p) }

  /** Nobody else writes `p` before the actions from `c` up to `d`. */
  ghost predicate Idle(env: Env, p: Path, c: nat, d: nat) { forall k: nat :: c <= k < d ==> p !in Doings(env, k) }

  /** Between actions `c` and `d`, nothing changed that nobody else wrote, outside `hole`. */
  ghost predicate Kept(env: Env, a: Nodes, b: Nodes, c: nat, d: nat, hole: set<Path>) {
    c <= d && forall p :: p !in hole && Idle(env, p, c, d) ==> SameAt(a, b, p)
  }

  lemma KeptOn(env: Env, a: Nodes, b: Nodes, e: Nodes, i: nat, j: nat, k: nat, hole: set<Path>, more: set<Path>)
    requires Kept(env, a, b, i, j, hole) && Kept(env, b, e, j, k, more)
    ensures Kept(env, a, e, i, k, hole + more)
  {
    forall p | p !in hole + more && Idle(env, p, i, k) ensures SameAt(a, e, p) {
      assert Idle(env, p, i, j) && Idle(env, p, j, k);
      assert SameAt(a, b, p) && SameAt(b, e, p);
    }
  }

  lemma KeptInside(env: Env, a: Nodes, b: Nodes, c: nat, d: nat, hole: set<Path>, root: Path)
    requires Kept(env, a, b, c, d, hole) && Respects(env, root)
    ensures SameInside(a, b, root, hole)
  {
    forall p | Under(root, p) && p !in hole ensures SameAt(a, b, p) { assert Idle(env, p, c, d); }
  }

  lemma {:induction false} FollowsKept(env: Env, t: Timeline, c: nat, i: nat, j: nat)
    requires Follows(env, t, c) && c <= i <= j
    ensures Kept(env, At(t, i), At(t, j), i, j, {})
    decreases j - i
  {
    if i == j {
    } else {
      FollowsKept(env, t, c, i, j - 1);
      EditedKept(env, At(t, j - 1), j - 1);
      KeptOn(env, At(t, i), At(t, j - 1), At(t, j), i, j - 1, j, {}, {});
    }
  }

  lemma EditedNothing(a: Nodes)
    ensures Edited(a, map[]) == a
  {
  }

  lemma EditedOne(a: Nodes, p: Path, n: Node)
    ensures Edited(a, map[p := Some(n)]) == a[p := n]
  {
  }

  lemma EditedKept(env: Env, a: Nodes, c: nat)
    ensures Kept(env, a, Edited(a, Doings(env, c)), c, c + 1, {})
  {
  }

  lemma EditedAgrees(a: Nodes, b: Nodes, edits: Edits, hole: set<Path>)
    requires AgreeBut(a, b, hole)
    ensures AgreeBut(Edited(a, edits), Edited(b, edits), hole)
  {
    forall p | p !in hole ensures SameAt(Edited(a, edits), Edited(b, edits), p) { assert SameAt(a, b, p); }
  }

  lemma SameExists(a: Nodes, b: Nodes, root: Path, p: Path)
    requires SameInside(a, b, root, {}) && Under(root, p)
    ensures ExistsIn(a, p) <==> ExistsIn(b, p)
  {
    if q :| q in a && Under(p, q) { assert Under(root, q); assert SameAt(a, b, q); }
    if q :| q in b && Under(p, q) { assert Under(root, q); assert SameAt(a, b, q); }
  }

  /** Nobody else writes anything from action `c` on, and the program is not stopped. */
  ghost predicate Calm(env: Env, c: nat) { forall k: nat :: c <= k ==> Doings(env, k) == map[] && !Stopped(env, k) }

  lemma {:induction false} CalmStands(env: Env, t: Timeline, c: nat, k: nat)
    requires Calm(env, c) && Follows(env, t, c) && c <= k
    ensures At(t, k) == At(t, c)
    decreases k - c
  {
    if k == c {
    } else {
      CalmStands(env, t, c, k - 1);
      EditedNothing(At(t, k - 1));
    }
  }

  /** Nobody else writes anything before the actions from `c` up to `d`, and the program is not stopped. */
  ghost predicate Still(env: Env, c: nat, d: nat) {
    forall k: nat :: c <= k < d ==> Doings(env, k) == map[] && !Stopped(env, k)
  }

  lemma {:induction false} StillStands(env: Env, t: Timeline, c: nat, d: nat, k: nat)
    requires Still(env, c, d) && Follows(env, t, c) && c <= k <= d
    ensures At(t, k) == At(t, c)
    decreases k - c
  {
    if k == c {
    } else {
      StillStands(env, t, c, d, k - 1);
      EditedNothing(At(t, k - 1));
    }
  }

  // ---------------------------------------------------------------- the disk

  class Disk {
    var nodes: Nodes
    var clock: nat
    const env: Env
    /** What an interrupted write leaves behind. */
    const torn: nat -> Bytes
    /** What the disk would be had the program not written. */
    ghost var without: Timeline
    /** Every path the program has written. */
    ghost var touched: set<Path>

    constructor (nodes: Nodes, env: Env, torn: nat -> Bytes)
      ensures this.nodes == nodes && this.env == env && this.torn == torn && clock == 0 && touched == {}
      ensures without == From(nodes, env, 0) && OnTime()
    {
      this.nodes, this.clock, this.env, this.torn, this.touched := nodes, 0, env, torn, {};
      this.without := From(nodes, env, 0);
      new;
      FromFollows(nodes, env, 0);
    }

    /** Outside what the program has written, the disk is as the others alone have made it. */
    ghost predicate Valid()
      reads this
    {
      Follows(env, without, clock) && AgreeBut(nodes, At(without, clock), touched)
    }

    /** Nothing but the others' writing is on the disk. */
    ghost predicate OnTime()
      reads this
    {
      Valid() && nodes == At(without, clock)
    }

    /** A program starts: what it finds is nobody's writing in particular. */
    ghost method Begin()
      modifies this`without, this`touched
      ensures OnTime() && touched == {}
    {
      without, touched := From(nodes, env, clock), {};
      FromFollows(nodes, env, clock);
    }

    /** The others act, then the program may, unless it is stopped. */
    method Act() returns (alive: bool)
      requires Valid()
      modifies this`nodes, this`clock
      ensures Valid() && clock == old(clock) + 1
      ensures alive <==> !Stopped(env, old(clock))
      ensures nodes == Edited(old(nodes), Doings(env, old(clock)))
      ensures Kept(env, old(nodes), nodes, old(clock), clock, {})
    {
      EditedKept(env, nodes, clock);
      nodes := Edited(nodes, Doings(env, clock));
      alive := !Stopped(env, clock);
      clock := clock + 1;
    }

    method Read(p: Path) returns (alive: bool, b: Option<Bytes>)
      requires Valid()
      modifies this`nodes, this`clock
      ensures Valid() && clock == old(clock) + 1
      ensures alive <==> !Stopped(env, old(clock))
      ensures nodes == Edited(old(nodes), Doings(env, old(clock)))
      ensures Kept(env, old(nodes), nodes, old(clock), clock, {})
      ensures b == Content(nodes, p)
    {
      alive := Act();
      b := Content(nodes, p);
    }

    /** A plain file's contents: a link or a missing file is refused. */
    method ReadPlain(p: Path) returns (alive: bool, b: Option<Bytes>)
      requires Valid()
      modifies this`nodes, this`clock
      ensures Valid() && clock == old(clock) + 1
      ensures alive <==> !Stopped(env, old(clock))
      ensures nodes == Edited(old(nodes), Doings(env, old(clock)))
      ensures Kept(env, old(nodes), nodes, old(clock), clock, {})
      ensures b == if p in nodes && nodes[p].File? then Some(nodes[p].bytes) else None
    {
      alive := Act();
      b := if p in nodes && nodes[p].File? then Some(nodes[p].bytes) else None;
    }

    /** Puts one file, as part of an action. */
    method Put(p: Path, b: Bytes)
      requires Valid()
      modifies this`nodes, this`touched
      ensures Valid() && nodes == old(nodes)[p := File(b)] && touched == old(touched) + {p}
      ensures AgreeBut(old(nodes), nodes, {p})
    {
      nodes := nodes[p := File(b)];
      touched := touched + {p};
    }

    /** A write in two actions: the file is opened and holds something, then it holds the contents. */
    method Write(p: Path, b: Bytes) returns (alive: bool)
      requires Valid()
      modifies this`nodes, this`clock, this`touched
      ensures Valid() && (alive <==> Lives(env, old(clock), 2))
      ensures alive ==> clock == old(clock) + 2 && p in nodes && nodes[p] == File(b)
      ensures Kept(env, old(nodes), nodes, old(clock), clock, {p} * touched)
      ensures old(touched) <= touched <= old(touched) + {p}
    {
      alive := Act();
      if !alive { return; }
      Put(p, torn(clock));
      ghost var half := nodes;
      alive := Act();
      KeptOn(env, old(nodes), half, nodes, old(clock), clock - 1, clock, {p} * touched, {});
      if !alive { return; }
      Put(p, b);
    }

    /** Creates a file that must not exist yet: it is opened and holds something, then it holds the
        contents. */
    method Create(p: Path, b: Bytes) returns (alive: bool, made: bool)
      requires Valid()
      modifies this`nodes, this`clock, this`touched
      ensures Valid() && (!alive ==> !Lives(env, old(clock), 2))
      ensures made <==> Lives(env, old(clock), 2) && p !in Edited(old(nodes), Doings(env, old(clock)))
      ensures made ==> alive && clock == old(clock) + 2 && p in nodes && nodes[p] == File(b)
      ensures Kept(env, old(nodes), nodes, old(clock), clock, {p} * touched)
      ensures old(touched) <= touched <= old(touched) + {p}
    {
      made := false;
      alive := Act();
      if !alive || p in nodes { return; }
      Put(p, torn(clock));
      ghost var half := nodes;
      alive := Act();
      KeptOn(env, old(nodes), half, nodes, old(clock), clock - 1, clock, {p} * touched, {});
      if !alive { return; }
      Put(p, b);
      made := true;
    }

    method Copy(from: Path, to: Path) returns (alive: bool, b: Option<Bytes>)
      requires Valid()
      modifies this`nodes, this`clock, this`touched
      ensures Valid()
      ensures var first := Content(Edited(old(nodes), Doings(env, old(clock))), from);
        && (alive && b.Some? <==> Lives(env, old(clock), 3) && first.Some?)
        && (alive && b.Some? ==> b == first && clock == old(clock) + 3 && to in nodes && nodes[to] == File(b.value))
      ensures Kept(env, old(nodes), nodes, old(clock), clock, {to} * touched)
      ensures old(touched) <= touched <= old(touched) + {to}
    {
      alive := Act();
      b := Content(nodes, from);
      if !alive || b.None? { b := None; return; }
      ghost var read := nodes;
      alive := Write(to, b.value);
      KeptOn(env, old(nodes), read, nodes, old(clock), old(clock) + 1, clock, {}, {to} * touched);
    }

    /** Creates a directory that does not exist yet. */
    method MakeDir(p: Path) returns (alive: bool, made: bool)
      requires Valid()
      modifies this`nodes, this`clock, this`touched
      ensures Valid() && clock == old(clock) + 1
      ensures alive <==> !Stopped(env, old(clock))
      ensures made <==> alive && !ExistsIn(Edited(old(nodes), Doings(env, old(clock))), p)
      ensures touched == if made then old(touched) + {p} else old(touched)
      ensures Kept(env, old(nodes), nodes, old(clock), clock, if made then {p} else {})
    {
      alive := Act();
      made := alive && !ExistsIn(nodes, p);
      if !made { return; }
      nodes := nodes[p := Dir];
      touched := touched + {p};
    }
  }
}
