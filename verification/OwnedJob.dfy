/** Owned-process containment: a root process is created suspended, put into a job, checked, resumed,
    watched and drained, while the operating system runs, spawns and ends processes as it likes. */
module OwnedJob {
  import opened Options

  /** Kill every member when the job closes; the two breakaway limits would be further bits. */
  const KILL_ON_JOB_CLOSE := 0x2000
  const STILL_ACTIVE := 259

  /** A process by its creation number, which is never reused. `owned` is whether it descends from the
      root; `inJob` whether it is a member of the exact job. */
  datatype Proc = Proc(alive: bool, suspended: bool, inJob: bool, owned: bool, code: nat)

  /** The script's next step. */
  datatype Pc =
    | SetLimits | QueryLimits | Create | Assign
    | TerminateUnassigned | WaitUnassigned | CodeUnassigned
    | CheckMember | Resume | CheckEscape | Poll | Sample | AfterPoll | Drain
    | FinalCode | FinalWait | FinalDrain | WriteReceipt | Close
    | Over

  /** `mutant` is the script without its assignment and without the membership check. `executed` is
      history: every process that ever ran an instruction; `seen` the sampled members. */
  datatype World = World(
    pc: Pc, mutant: bool, flags: nat, procs: map<nat, Proc>, next: nat, root: Option<nat>,
    confirmed: bool, resumed: bool, receipt: bool, escapeSeen: bool, executed: set<nat>, seen: set<nat>)

  datatype Action =
    /** The script steps; `ok` is an answer or a timing it does not control, `pick` the process it opens. */
    | Script(ok: bool, pick: nat)
    | Run(id: nat)
    | Spawn(parent: nat, breakaway: bool)
    | End(id: nat, code: nat)

  predicate Init(w: World) {
    && w.pc == SetLimits && w.flags == 0 && w.root.None? && !w.confirmed && !w.resumed && !w.receipt && !w.escapeSeen
    && w.executed == {} && w.seen == {}
    && forall id :: id in w.procs ==> id < w.next && !w.procs[id].inJob && !w.procs[id].owned
  }

  // ---------------------------------------------------------------- the operating system

  predicate Alive(w: World, id: nat) { id in w.procs && w.procs[id].alive }

  predicate CanRun(w: World, id: nat) { Alive(w, id) && !w.procs[id].suspended }

  /** The limits let a child leave the job. */
  predicate BreakawayAllowed(w: World) { w.flags != KILL_ON_JOB_CLOSE }

  /** A child belongs to its parent's job unless it asks to leave and the limits let it. */
  function Child(w: World, parent: nat, breakaway: bool): Proc
    requires parent in w.procs
  {
    var p := w.procs[parent];
    Proc(true, false, p.inJob && !(breakaway && BreakawayAllowed(w)), p.owned, 0)
  }

  function OsStep(w: World, a: Action): World {
    match a
    case Run(id) => if CanRun(w, id) then w.(executed := w.executed + {id}) else w
    case Spawn(parent, breakaway) =>
      if !CanRun(w, parent) then w
      else
        w.(procs := w.procs[w.next := Child(w, parent, breakaway)], next := w.next + 1,
           executed := w.executed + {parent})
    case End(id, code) =>
      if Alive(w, id) then w.(procs := w.procs[id := w.procs[id].(alive := false, code := code)]) else w
    case Script(_, _) => w
  }

  // ---------------------------------------------------------------- the script

  /** What GetExitCodeProcess says of the root: a running process looks like code 259. */
  function ExitCode(w: World): nat {
    if w.root.None? || w.root.value !in w.procs then 0
    else if w.procs[w.root.value].alive then STILL_ACTIVE else w.procs[w.root.value].code
  }

  /** The job's count of active processes is zero. */
  predicate Drained(w: World) { forall id :: id in w.procs ==> !(w.procs[id].alive && w.procs[id].inJob) }

  function Update(w: World, p: Proc): World
    requires w.root.Some?
  {
    w.(procs := w.procs[w.root.value := p])
  }

  /** A failed assertion in the guarded part goes to the cleanup; in the cleanup it ends the script. */
  function Raise(w: World): World { w.(pc := FinalCode) }

  function Setup(w: World, ok: bool, pick: nat): World {
    match w.pc
    case SetLimits => if ok then w.(flags := KILL_ON_JOB_CLOSE, pc := QueryLimits) else w.(pc := Over)
    case QueryLimits => if ok && w.flags == KILL_ON_JOB_CLOSE then w.(pc := Create) else w.(pc := Over)
    case _ =>
      if ok then
        w.(root := Some(w.next), procs := w.procs[w.next := Proc(true, true, false, true, 0)], next := w.next + 1,
           pc := Assign)
      else w.(pc := Over)
  }

  function Guarded(w: World, ok: bool, pick: nat): World
    requires w.root.Some? && w.root.value in w.procs
  {
    var root := w.procs[w.root.value];
    match w.pc
    case Assign =>
      if w.mutant then w.(pc := CheckMember)
      else if ok then Update(w, root.(inJob := true)).(pc := CheckMember)
      else w.(pc := TerminateUnassigned)
    case TerminateUnassigned => if ok then w.(pc := WaitUnassigned) else Raise(w)
    case WaitUnassigned => if root.alive then Raise(w) else w.(pc := CodeUnassigned)
    case CodeUnassigned => Raise(w)
    case CheckMember => if w.mutant || root.inJob then w.(confirmed := true, pc := Resume) else Raise(w)
    case Resume =>
      if ok then Update(w, root.(suspended := false)).(resumed := true, pc := CheckEscape)
      else Raise(w)
    case CheckEscape =>
      if !ok then w.(pc := Poll)
      else if !(pick in w.procs && w.procs[pick].owned) then Raise(w)
      else if w.procs[pick].inJob then w.(pc := Poll)
      else w.(escapeSeen := true, pc := FinalCode)
    case Poll => if !root.alive then w.(pc := AfterPoll) else w.(pc := Sample)
    case Sample =>
      if !ok then w.(pc := AfterPoll)
      else if pick !in w.procs then w.(pc := Poll)
      else if !w.procs[pick].inJob then Raise(w)
      else w.(seen := w.seen + {pick}, pc := Poll)
    case AfterPoll => if root.alive then Raise(w) else w.(pc := Drain)
    case _ => if Drained(w) || !ok then Raise(w) else w
  }

  function Cleanup(w: World, ok: bool, pick: nat): World {
    match w.pc
    case FinalCode => w.(pc := if ExitCode(w) == STILL_ACTIVE then FinalWait else FinalDrain)
    case FinalWait => if w.root.Some? && Alive(w, w.root.value) then w.(pc := Over) else w.(pc := FinalDrain)
    case FinalDrain => if Drained(w) then w.(pc := WriteReceipt) else if ok then w else w.(pc := Over)
    case WriteReceipt => w.(receipt := true, pc := Close)
    case _ => w.(pc := Over)
  }

  predicate InSetup(pc: Pc) { pc.SetLimits? || pc.QueryLimits? || pc.Create? }
  predicate InCleanup(pc: Pc) {
    pc.FinalCode? || pc.FinalWait? || pc.FinalDrain? || pc.WriteReceipt? || pc.Close? || pc.Over?
  }

  function ScriptStep(w: World, ok: bool, pick: nat): World {
    if InSetup(w.pc) then Setup(w, ok, pick)
    else if InCleanup(w.pc) then Cleanup(w, ok, pick)
    else if w.root.Some? && w.root.value in w.procs then Guarded(w, ok, pick)
    else w
  }

  function Step(w: World, a: Action): World { if a.Script? then ScriptStep(w, a.ok, a.pick) else OsStep(w, a) }

  /** Any history of the script and the operating system. */
  function Exec(w: World, actions: seq<Action>): World
    decreases |actions|
  {
    if actions == [] then w else Exec(Step(w, actions[0]), actions[1..])
  }

  // ---------------------------------------------------------------- the invariant

  ghost predicate RootOk(w: World) {
    && (InSetup(w.pc) ==> w.root.None?)
    && (w.root.None? ==> InSetup(w.pc) || w.pc.Over?)
    && (w.root.Some? ==> w.root.value in w.procs && w.procs[w.root.value].owned)
  }

  /** Only the root is owned while it is suspended, and it has run nothing. */
  ghost predicate HeldBack(w: World) {
    !w.resumed ==>
      && (forall id :: id in w.procs && w.procs[id].owned ==> w.root == Some(id) && w.procs[id].suspended)
      && (w.root.Some? ==> w.root.value !in w.executed)
  }

  ghost predicate Numbered(w: World) {
    (forall id :: id in w.procs ==> id < w.next) && (forall id :: id in w.executed ==> id < w.next)
  }

  ghost predicate Contained(w: World) {
    && (forall id :: id in w.procs && w.procs[id].owned && w.root != Some(id) ==> w.procs[id].inJob)
    && (w.confirmed ==> w.root.Some? && w.root.value in w.procs && w.procs[w.root.value].inJob)
    && (w.resumed ==> w.confirmed)
    && (w.pc.Resume? ==> w.confirmed) && (w.pc.CheckEscape? ==> w.resumed)
    && (forall id :: id in w.seen ==> id in w.procs && w.procs[id].inJob)
    && (forall id :: id in w.procs && w.procs[id].inJob ==> w.procs[id].owned)
    && !w.escapeSeen
  }

  ghost predicate AllDead(w: World) { forall id :: id in w.procs && w.procs[id].owned ==> !w.procs[id].alive }

  ghost predicate Settled(w: World) {
    && (w.pc.FinalDrain? ==> w.root.Some? && !Alive(w, w.root.value))
    && (w.pc.WriteReceipt? ==> AllDead(w))
    && (w.receipt ==> AllDead(w) && (w.pc.Close? || w.pc.Over?))
  }

  ghost predicate Inv(w: World) {
    && !w.mutant && Numbered(w)
    && (!w.pc.SetLimits? && !w.pc.Over? ==> w.flags == KILL_ON_JOB_CLOSE)
    && (w.root.Some? ==> w.flags == KILL_ON_JOB_CLOSE)
    && RootOk(w) && HeldBack(w) && Contained(w) && Settled(w)
  }

  lemma OsKeeps(w: World, a: Action)
    requires Inv(w) && !a.Script?
    ensures Inv(OsStep(w, a))
  {
    match a {
      case Spawn(parent, breakaway) => SpawnKeeps(w, parent, breakaway);
      case End(id, code) => EndKeeps(w, id, code);
      case _ =>
    }
  }

  lemma SpawnKeeps(w: World, parent: nat, breakaway: bool)
    requires Inv(w)
    ensures Inv(OsStep(w, Spawn(parent, breakaway)))
  {
  }

  lemma EndKeeps(w: World, id: nat, code: nat)
    requires Inv(w)
    ensures Inv(OsStep(w, End(id, code)))
  {
  }

  lemma SetupKeeps(w: World, ok: bool, pick: nat)
    requires Inv(w) && InSetup(w.pc)
    ensures Inv(Setup(w, ok, pick))
  {
  }

  /** The two guarded steps that change the root: it joins the job, and it is resumed. */
  lemma RootChanges(w: World, ok: bool, pick: nat)
    requires Inv(w) && (w.pc.Assign? || w.pc.Resume?)
    ensures w.root.Some? && w.root.value in w.procs && Inv(Guarded(w, ok, pick))
  {
  }

  /** The guarded steps that ask about membership. */
  lemma ChecksKeep(w: World, ok: bool, pick: nat)
    requires Inv(w) && (w.pc.CheckMember? || w.pc.CheckEscape? || w.pc.Sample?)
    ensures w.root.Some? && w.root.value in w.procs && Inv(Guarded(w, ok, pick))
  {
    if w.pc.Sample? { SampleKeeps(w, ok, pick); }
  }

  lemma SampleKeeps(w: World, ok: bool, pick: nat)
    requires Inv(w) && w.pc.Sample?
    ensures w.root.Some? && w.root.value in w.procs && Inv(Guarded(w, ok, pick))
  {
  }

  lemma GuardedKeeps(w: World, ok: bool, pick: nat)
    requires Inv(w) && !InSetup(w.pc) && !InCleanup(w.pc)
    ensures w.root.Some? && w.root.value in w.procs
    ensures Inv(Guarded(w, ok, pick))
  {
    if w.pc.Assign? || w.pc.Resume? {
      RootChanges(w, ok, pick);
    } else if w.pc.CheckMember? || w.pc.CheckEscape? || w.pc.Sample? {
      ChecksKeep(w, ok, pick);
    } else {
      assert Guarded(w, ok, pick).procs == w.procs;
    }
  }

  lemma CleanupKeeps(w: World, ok: bool, pick: nat)
    requires Inv(w) && InCleanup(w.pc)
    ensures Inv(Cleanup(w, ok, pick))
  {
    assert Cleanup(w, ok, pick).procs == w.procs;
    if w.pc.FinalDrain? { DrainedIsDead(w); }
  }

  /** With the root dead, an empty job means that no owned process is left. */
  lemma DrainedIsDead(w: World)
    requires Inv(w) && w.pc.FinalDrain?
    ensures Drained(w) ==> AllDead(w)
  {
  }

  lemma {:induction false} ExecKeeps(w: World, actions: seq<Action>)
    requires Inv(w)
    ensures Inv(Exec(w, actions))
    decreases |actions|
  {
    if actions == [] {
    } else {
      var a := actions[0];
      if !a.Script? { OsKeeps(w, a); }
      else if InSetup(w.pc) { SetupKeeps(w, a.ok, a.pick); }
      else if InCleanup(w.pc) { CleanupKeeps(w, a.ok, a.pick); }
      else { GuardedKeeps(w, a.ok, a.pick); }
      ExecKeeps(Step(w, a), actions[1..]);
    }
  }

  // ---------------------------------------------------------------- the promises

  lemma Reachable(w: World, actions: seq<Action>)
    requires Init(w) && !w.mutant
    ensures Inv(Exec(w, actions))
  {
    ExecKeeps(w, actions);
  }

  /** In every reachable state every descendant of the root is in the exact job, and so is the root as
      soon as membership is confirmed; every sampled member is one; no escape is ever seen. */
  lemma Containment(w: World, actions: seq<Action>, id: nat)
    requires Init(w) && !w.mutant
    ensures var e := Exec(w, actions);
      && (id in e.procs && e.procs[id].owned && e.root != Some(id) ==> e.procs[id].inJob)
      && (e.confirmed && e.root == Some(id) ==> id in e.procs && e.procs[id].inJob)
      && (id in e.seen ==> id in e.procs && e.procs[id].inJob && e.procs[id].owned)
      && !e.escapeSeen
  {
    Reachable(w, actions);
  }

  /** The root executes nothing before its membership is confirmed. */
  lemma NothingRunsUnconfirmed(w: World, actions: seq<Action>)
    requires Init(w) && !w.mutant
    ensures var e := Exec(w, actions); e.root.Some? && e.root.value in e.executed ==> e.confirmed
  {
    Reachable(w, actions);
  }

  /** Whenever the receipt exists, no owned process is alive, whichever way the script got there. */
  lemma ReceiptMeansDead(w: World, actions: seq<Action>, id: nat)
    requires Init(w) && !w.mutant
    ensures var e := Exec(w, actions); e.receipt && id in e.procs && e.procs[id].owned ==> !e.procs[id].alive
  {
    Reachable(w, actions);
  }

  // ---------------------------------------------------------------- what it depends on

  lemma {:induction false} ExecJoins(w: World, a: seq<Action>, b: seq<Action>)
    ensures Exec(w, a + b) == Exec(Exec(w, a), b)
    decreases |a|
  {
    if a == [] {
      assert a + b == b;
    } else {
      assert (a + b)[0] == a[0] && (a + b)[1..] == a[1..] + b;
      ExecJoins(Step(w, a[0]), a[1..], b);
    }
  }

  lemma ThreeSteps(w: World, a: Action, b: Action, e: Action)
    ensures Exec(w, [a, b, e]) == Step(Step(Step(w, a), b), e)
  {
    assert [a, b, e][1..] == [b, e] && [b, e][1..] == [e] && [e][1..] == [];
    assert Exec(Step(Step(w, a), b), [e]) == Exec(Step(Step(Step(w, a), b), e), []);
  }

  const GO := Script(true, 0)
  const NO := Script(false, 0)

  function Fresh(mutant: bool): World {
    World(SetLimits, mutant, 0, map[], 0, None, false, false, false, false, {}, {})
  }

  /** The mutant once its unassigned root is running. */
  function Loose(): World {
    World(CheckEscape, true, KILL_ON_JOB_CLOSE, map[0 := Proc(true, false, false, true, 0)], 1, Some(0), true, true,
          false, false, {}, {})
  }

  lemma MutantStarts()
    ensures Exec(Fresh(true), [GO, GO, GO, GO, GO, GO]) == Loose()
  {
    var w3 := Fresh(true).(flags := KILL_ON_JOB_CLOSE, pc := Assign, root := Some(0), next := 1,
                           procs := map[0 := Proc(true, true, false, true, 0)]);
    assert Exec(Fresh(true), [GO, GO, GO]) == w3 by {
      var w1 := Step(Fresh(true), GO);
      var w2 := Step(w1, GO);
      assert Step(w2, GO) == w3;
      assert Exec(w2, [GO]) == Exec(w3, []);
      assert Exec(w1, [GO, GO]) == Exec(w2, [GO]);
    }
    assert Exec(w3, [GO, GO, GO]) == Loose() by {
      var w4 := Step(w3, GO);
      var w5 := Step(w4, GO);
      assert Step(w5, GO) == Loose();
      assert Exec(w5, [GO]) == Exec(Loose(), []);
      assert Exec(w4, [GO, GO]) == Exec(w5, [GO]);
    }
    ExecJoins(Fresh(true), [GO, GO, GO], [GO, GO, GO]);
    assert [GO, GO, GO] + [GO, GO, GO] == [GO, GO, GO, GO, GO, GO];
  }

  /** The child that outlives its root outside the job. */
  function Orphaned(): World {
    Loose().(procs := map[0 := Proc(false, false, false, true, 0), 1 := Proc(true, false, false, true, 0)],
             next := 2, executed := {0}, pc := Poll)
  }

  lemma MutantOrphans()
    ensures Exec(Loose(), [Spawn(0, false), End(0, 0), NO]) == Orphaned()
  {
    var w1 := Step(Loose(), Spawn(0, false));
    var w2 := Step(w1, End(0, 0));
    assert w2 == Orphaned().(pc := CheckEscape);
    assert Step(w2, NO) == Orphaned();
    assert Exec(w2, [NO]) == Exec(Orphaned(), []);
    assert Exec(w1, [End(0, 0), NO]) == Exec(w2, [NO]);
  }

  lemma MutantDrains()
    ensures Exec(Orphaned(), [GO, GO, GO]) == Orphaned().(pc := FinalCode)
  {
    var w1, w2 := Step(Orphaned(), GO), Step(Step(Orphaned(), GO), GO);
    ThreeSteps(Orphaned(), GO, GO, GO);
    assert w1 == Orphaned().(pc := w1.pc);
    assert w2 == Orphaned().(pc := w2.pc);
  }

  lemma MutantReceipts()
    ensures Exec(Orphaned().(pc := FinalCode), [GO, GO, GO]) == Orphaned().(receipt := true, pc := Close)
  {
    var end := Orphaned().(receipt := true, pc := Close);
    var w1 := Step(Orphaned().(pc := FinalCode), GO);
    var w2 := Step(w1, GO);
    assert Step(w2, GO) == end;
    assert Exec(w2, [GO]) == Exec(end, []);
    assert Exec(w1, [GO, GO]) == Exec(w2, [GO]);
  }

  /** The guarantee depends on the assignment: without it and its check, a history ends with a receipt
      while a descendant of the root is alive. */
  lemma MutantBreaksTheReceipt() returns (actions: seq<Action>)
    ensures Init(Fresh(true))
    ensures var e := Exec(Fresh(true), actions); e.receipt && 1 in e.procs && e.procs[1].owned && e.procs[1].alive
  {
    var a, b, c := [GO, GO, GO, GO, GO, GO], [Spawn(0, false), End(0, 0), NO], [GO, GO, GO];
    MutantStarts();
    MutantOrphans();
    MutantDrains();
    MutantReceipts();
    actions := a + b + c + c;
    ExecJoins(Fresh(true), a, b);
    ExecJoins(Fresh(true), a + b, c);
    ExecJoins(Fresh(true), a + b + c, c);
  }
}
