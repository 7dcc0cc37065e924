/** The Go credential migration as a machine: one operator process that takes the helper's steps
    one input or output at a time, and everything else that may happen between two of them.

    The process may die between any two steps; the credential POST may be lost, refused, answered
    late or delivered after the process died; other operators may change the vault, the node and
    the env files at any moment. Runs on one journal path follow one another. */
module Migration {
  import opened Options
  import opened EnvText

  type Path = string

  /** Operation ids: `Ours` are the ones this helper draws, `Theirs` everyone else's. */
  datatype Operation = Ours(n: nat) | Theirs(n: nat)

  /** An env file with the stamp that identifies this very write of it. */
  datatype File = File(text: string, stamp: nat)

  datatype Entry = Entry(configured: bool, generation: nat, operation: Option<Operation>, key: string)
  datatype Vault = Vault(id: Option<string>, entry: Entry)

  /** The Go route the node reports as effective. */
  datatype Route = Route(source: string, vaultUrl: string, vaultId: string, generation: nat)

  datatype Phase = Sending | AwaitingNodeRoute | Retired

  /** The journal record. It never holds the key. */
  datatype Record = Record(
    vaultId: string, sourcePath: Path, route: string, variable: string, owner: Owner,
    operation: Operation, phase: Phase, stamp: nat, generation: Option<nat>)

  datatype Post = Post(key: string, expectedGeneration: nat, expectedVaultId: string, operation: Operation)
  datatype Commit = Commit(operation: Operation, key: string)

  datatype Mode = Check | Apply | Reconcile
  datatype Args = Args(
    mode: Mode, envFile: Path, vaultUrl: string, hasJournal: bool, hasAdmin: bool, confirmed: bool,
    hasNode: bool, environ: map<string, string>)

  /** The next input or output of the process. */
  datatype Pc =
    | ReadText | StampBefore | GetStatus | GetIdentity
    | JournalExists | SaveSending | SendPost | AwaitPost
    | ReadJournal | GetEntry
    | StampRoute | WriteRoute | StampWritten | SaveRouted
    | GetNode | StampRetire | Reread | StampAgain | WriteRetired | SaveRetired
    | Ended(ok: bool)

  /** The process: where it is, its arguments and its local variables. */
  datatype Run = Run(
    pc: Pc, args: Args, text: string, before: nat, credential: Credential, status: Entry,
    vaultId: Option<string>, record: Option<Record>, entry: Option<Entry>, node: Option<Route>, reread: string)

  /** The four places where an edit of the source by someone else goes unnoticed; the first matters to
      an apply run that finds no journal, since any other apply run is refused. */
  datatype Window = ReadThenStamp | CheckThenWrite | WriteThenStamp | RecheckThenWrite

  /** The world. `posts`, `commits` and `raced` are history: every credential POST ever sent, every
      commit the vault ever made, and every window an outside edit has hit since the launch of the run
      whose journal is in force. */
  datatype World = World(
    files: map<Path, File>, nextStamp: nat, journal: Option<Record>,
    vault: Vault, nextGeneration: nat, nextOperation: nat, node: Option<Route>,
    run: Option<Run>, inflight: Option<Post>, reply: Option<bool>,
    posts: seq<Post>, commits: map<nat, Commit>, raced: set<Window>)

  datatype Action =
    | Script
    | Launch(args: Args)
    | Crash
    | Deliver | LosePost | LoseReply
    | Edit(path: Path, text: Option<string>)
    | OtherCommit(id: Option<string>, key: string, n: nat)
    | OtherDelete(operation: Option<Operation>)
    | NodeReports(route: Option<Route>)

  predicate Init(w: World) {
    && w.journal.None? && w.run.None? && w.inflight.None? && w.reply.None?
    && w.posts == [] && w.raced == {}
    && 0 < w.nextStamp && (forall p :: p in w.files ==> w.files[p].stamp < w.nextStamp)
    && (forall g :: g in w.commits ==> g < w.nextGeneration && w.commits[g].operation.Theirs?)
    && (w.vault.entry.configured ==> Committed(w, w.vault.entry))
  }

  /** The entry is one the vault committed. */
  predicate Committed(w: World, e: Entry) {
    e.generation in w.commits && e.operation == Some(w.commits[e.generation].operation)
      && e.key == w.commits[e.generation].key
  }

  // ---------------------------------------------------------------- steps that only look

  function Fail(r: Run): Run { r.(pc := Ended(false)) }

  /** The stamp check that guards each rewrite: a missing file is refused like a changed one. */
  predicate StampHolds(w: World, r: Run) {
    r.record.Some? && r.args.envFile in w.files && w.files[r.args.envFile].stamp == r.record.value.stamp
  }

  /** After routing: apply is done, reconcile goes on to the node. */
  function AfterRoute(r: Run): Pc {
    if r.args.mode == Apply then Ended(true) else if !r.args.hasNode then Ended(false) else GetNode
  }

  predicate SameScope(j: Record, r: Run) {
    Some(j.vaultId) == r.vaultId && j.sourcePath == r.args.envFile && j.route == r.args.vaultUrl
  }

  /** The node routes Go through exactly this vault at exactly this generation. */
  predicate RouteVerified(route: Option<Route>, r: Run) {
    r.record.Some? && route.Some? && route.value.source == "vault" && route.value.vaultUrl == r.args.vaultUrl
    && route.value.vaultId == r.record.value.vaultId && Some(route.value.generation) == r.record.value.generation
  }

  function DoReadText(w: World, r: Run): Run {
    if r.args.envFile !in w.files then Fail(r) else r.(text := w.files[r.args.envFile].text, pc := StampBefore)
  }

  function DoStampBefore(w: World, r: Run): Run {
    if r.args.envFile !in w.files then Fail(r)
    else r.(before := w.files[r.args.envFile].stamp, credential := Effective(r.text, r.args.environ), pc := GetStatus)
  }

  function DoGetStatus(w: World, r: Run): Run {
    var seen := r.(status := w.vault.entry, vaultId := w.vault.id);
    if r.args.mode == Check then seen.(pc := Ended(true))
    else if !r.args.hasJournal || !r.args.hasAdmin || !r.args.confirmed then Fail(seen)
    else seen.(pc := GetIdentity)
  }

  function DoGetIdentity(w: World, r: Run): Run {
    if r.vaultId.None? || r.vaultId.value == "" || w.vault.id != r.vaultId then Fail(r)
    else r.(pc := if r.args.mode == Apply then JournalExists else ReadJournal)
  }

  function DoAwaitPost(w: World, r: Run): Run { if w.reply == Some(true) then r.(pc := GetEntry) else Fail(r) }

  function DoReadJournal(w: World, r: Run): Run {
    if w.journal.None? || !SameScope(w.journal.value, r) then Fail(r) else r.(record := w.journal, pc := GetEntry)
  }

  function DoGetEntry(w: World, r: Run): Run
    requires r.record.Some?
  {
    var e, record := w.vault.entry, r.record.value;
    var seen := r.(entry := Some(e));
    if e.operation != Some(record.operation) || !e.configured then Fail(seen)
    else if record.generation.Some? && record.generation != Some(e.generation) then Fail(seen)
    else
      seen.(record := Some(record.(generation := Some(e.generation))),
            pc := if record.phase == Sending then StampRoute else AfterRoute(r))
  }

  function DoStampRoute(w: World, r: Run): Run { if StampHolds(w, r) then r.(pc := WriteRoute) else Fail(r) }

  function DoStampWritten(w: World, r: Run): Run
    requires r.record.Some?
  {
    if r.args.envFile !in w.files then Fail(r)
    else
      var stamped := r.record.value.(phase := AwaitingNodeRoute, stamp := w.files[r.args.envFile].stamp);
      r.(record := Some(stamped), pc := SaveRouted)
  }

  function DoGetNode(w: World, r: Run): Run
    requires r.record.Some?
  {
    var seen := r.(node := w.node);
    if !RouteVerified(w.node, r) then Fail(seen)
    else seen.(pc := if r.record.value.phase == Retired then Ended(true) else StampRetire)
  }

  function DoStampRetire(w: World, r: Run): Run { if StampHolds(w, r) then r.(pc := Reread) else Fail(r) }

  function DoReread(w: World, r: Run): Run {
    if r.args.envFile !in w.files then Fail(r) else r.(reread := w.files[r.args.envFile].text, pc := StampAgain)
  }

  function DoStampAgain(w: World, r: Run): Run { if StampHolds(w, r) then r.(pc := WriteRetired) else Fail(r) }

  // ---------------------------------------------------------------- steps that act

  function WriteSource(w: World, r: Run, text: string): World {
    w.(files := w.files[r.args.envFile := File(text, w.nextStamp)], nextStamp := w.nextStamp + 1)
  }

  /** The process has a key to send and may send it. */
  predicate MaySend(r: Run) {
    && r.vaultId.Some? && r.credential.Found? && r.credential.key != ""
    && TrimSlashes(Upstream(r.text, r.args.environ)) == GO_UPSTREAM
    && !r.status.configured
  }

  function NewRecord(w: World, r: Run): Record
    requires MaySend(r)
  {
    Record(r.vaultId.value, r.args.envFile, r.args.vaultUrl, r.credential.name, r.credential.owner,
           Ours(w.nextOperation), Sending, r.before, None)
  }

  function DoJournalExists(w: World, r: Run): World {
    if w.journal.Some? || !MaySend(r) then w.(run := Some(Fail(r)))
    else w.(nextOperation := w.nextOperation + 1, run := Some(r.(record := Some(NewRecord(w, r)), pc := SaveSending)))
  }

  function DoSaveSending(w: World, r: Run): World { w.(journal := r.record, run := Some(r.(pc := SendPost))) }

  function DoSendPost(w: World, r: Run): World
    requires r.record.Some?
  {
    if r.credential.Absent? then w.(run := Some(Fail(r)))
    else
      var post := Post(r.credential.key, r.status.generation, r.record.value.vaultId, r.record.value.operation);
      w.(inflight := Some(post), reply := None, posts := w.posts + [post], run := Some(r.(pc := AwaitPost)))
  }

  function DoWriteRoute(w: World, r: Run): World {
    WriteSource(w, r, WithRoute(r.text, r.args.vaultUrl)).(run := Some(r.(pc := StampWritten)))
  }

  function DoSaveRouted(w: World, r: Run): World { w.(journal := r.record, run := Some(r.(pc := AfterRoute(r)))) }

  function DoWriteRetired(w: World, r: Run): World {
    WriteSource(w, r, Retire(r.reread, RetiredNames(r.text))).(run := Some(r.(pc := SaveRetired)))
  }

  function DoSaveRetired(w: World, r: Run): World
    requires r.record.Some?
  {
    w.(journal := Some(r.record.value.(phase := Retired)), run := Some(r.(pc := Ended(true))))
  }

  predicate Acts(pc: Pc) {
    pc.JournalExists? || pc.SaveSending? || pc.SendPost? || pc.WriteRoute? || pc.SaveRouted? || pc.WriteRetired?
      || pc.SaveRetired?
  }

  /** The steps that need the record; every reachable process there has it. */
  predicate NeedsRecord(pc: Pc) {
    pc.SendPost? || pc.GetEntry? || pc.StampWritten? || pc.GetNode? || pc.SaveRetired?
  }

  predicate CanStep(w: World) {
    w.run.Some? && !w.run.value.pc.Ended? && (NeedsRecord(w.run.value.pc) ==> w.run.value.record.Some?)
  }

  function Look(w: World, r: Run): Run
    requires !Acts(r.pc) && !r.pc.Ended? && (NeedsRecord(r.pc) ==> r.record.Some?)
  {
    match r.pc
    case ReadText => DoReadText(w, r)
    case StampBefore => DoStampBefore(w, r)
    case GetStatus => DoGetStatus(w, r)
    case GetIdentity => DoGetIdentity(w, r)
    case AwaitPost => DoAwaitPost(w, r)
    case ReadJournal => DoReadJournal(w, r)
    case GetEntry => DoGetEntry(w, r)
    case StampRoute => DoStampRoute(w, r)
    case StampWritten => DoStampWritten(w, r)
    case GetNode => DoGetNode(w, r)
    case StampRetire => DoStampRetire(w, r)
    case Reread => DoReread(w, r)
    case StampAgain => DoStampAgain(w, r)
  }

  function Act(w: World, r: Run): World
    requires Acts(r.pc) && (NeedsRecord(r.pc) ==> r.record.Some?)
  {
    match r.pc
    case JournalExists => DoJournalExists(w, r)
    case SaveSending => DoSaveSending(w, r)
    case SendPost => DoSendPost(w, r)
    case WriteRoute => DoWriteRoute(w, r)
    case SaveRouted => DoSaveRouted(w, r)
    case WriteRetired => DoWriteRetired(w, r)
    case SaveRetired => DoSaveRetired(w, r)
  }

  /** One step of the process; one that is over does nothing. */
  function ScriptStep(w: World): World {
    if !CanStep(w) then w
    else if Acts(w.run.value.pc) then Act(w, w.run.value)
    else w.(run := Some(Look(w, w.run.value)))
  }

  // ---------------------------------------------------------------- everyone else

  const NO_ENTRY := Entry(false, 0, None, "")

  function NewRun(args: Args): Run {
    Run(ReadText, args, "", 0, Absent, NO_ENTRY, None, None, None, None, "")
  }

  predicate Idle(w: World) { w.run.None? || w.run.value.pc.Ended? }

  /** The vault's compare-and-set: a stale generation or another vault refuses. */
  function DeliverPost(w: World): World {
    if w.inflight.None? then w
    else
      var p := w.inflight.value;
      if p.expectedGeneration != w.vault.entry.generation || Some(p.expectedVaultId) != w.vault.id
      then w.(inflight := None, reply := Some(false))
      else w.(inflight := None, reply := Some(true),
              vault := w.vault.(entry := Entry(true, w.nextGeneration, Some(p.operation), p.key)),
              commits := w.commits[w.nextGeneration := Commit(p.operation, p.key)],
              nextGeneration := w.nextGeneration + 1)
  }

  /** The window an edit of `path` falls into, if the process is inside one for that file. */
  function WindowAt(w: World, path: Path): set<Window> {
    if Idle(w) || w.run.value.args.envFile != path then {}
    else
      var r := w.run.value;
      if r.pc == StampBefore && r.args.mode == Apply && w.journal.None? then {ReadThenStamp}
      else if r.pc == WriteRoute then {CheckThenWrite}
      else if r.pc == StampWritten then {WriteThenStamp}
      else if r.pc == WriteRetired then {RecheckThenWrite}
      else {}
  }

  function EditFile(w: World, path: Path, text: Option<string>): World {
    var marked := w.(raced := w.raced + WindowAt(w, path));
    match text
    case None => marked.(files := w.files - {path})
    case Some(t) => marked.(files := w.files[path := File(t, w.nextStamp)], nextStamp := w.nextStamp + 1)
  }

  function OtherStep(w: World, a: Action): World {
    match a
    case Script => w
    case Launch(args) =>
      if !Idle(w) then w
      else w.(run := Some(NewRun(args)), reply := None, raced := if w.journal.None? then {} else w.raced)
    case Crash => w.(run := None, reply := None)
    case Deliver => DeliverPost(w)
    case LosePost => w.(inflight := None)
    case LoseReply => w.(reply := None)
    case Edit(path, text) => EditFile(w, path, text)
    case OtherCommit(id, key, n) =>
      w.(vault := Vault(id, Entry(true, w.nextGeneration, Some(Theirs(n)), key)),
         commits := w.commits[w.nextGeneration := Commit(Theirs(n), key)],
         nextGeneration := w.nextGeneration + 1)
    case OtherDelete(operation) => w.(vault := w.vault.(entry := Entry(false, 0, operation, "")))
    case NodeReports(route) => w.(node := route)
  }

  function Step(w: World, a: Action): World { if a == Script then ScriptStep(w) else OtherStep(w, a) }

  /** Any history: every interleaving of the process and the rest of the world. */
  function Exec(w: World, actions: seq<Action>): World
    decreases |actions|
  {
    if actions == [] then w else Exec(Step(w, actions[0]), actions[1..])
  }
}
