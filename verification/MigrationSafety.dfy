/** What holds in every history of the Go credential migration. */
module MigrationSafety {
  import opened Options
  import opened EnvText
  import opened Migration

  // ---------------------------------------------------------------- the invariant

  /** The record an apply run has drawn and not yet bound to a generation. */
  ghost predicate Drawn(nextOperation: nat, r: Run) {
    r.record.Some? && r.credential.Found? && r.args.mode == Apply &&
    var j := r.record.value;
    && j.operation.Ours? && j.operation.n < nextOperation && j.phase == Sending && j.generation.None?
    && j.stamp == r.before && j.sourcePath == r.args.envFile && j.route == r.args.vaultUrl
    && j.variable == r.credential.name && j.owner == r.credential.owner
  }

  ghost predicate InScope(r: Run) {
    r.record.Some? && r.record.value.sourcePath == r.args.envFile && r.record.value.route == r.args.vaultUrl
  }

  /** The process has read a configured entry of the journal's operation, and its record is bound
      to that generation. */
  ghost predicate Bound(r: Run) {
    && InScope(r) && r.entry.Some? && r.entry.value.configured
    && r.entry.value.operation == Some(r.record.value.operation)
    && r.record.value.generation == Some(r.entry.value.generation)
  }

  /** How the process's record and the journal on disk relate at each step. */
  ghost predicate Tied(journal: Option<Record>, sent: bool, nextOperation: nat, r: Run) {
    match r.pc
    case GetIdentity => r.args.mode != Check
    case JournalExists => r.args.mode == Apply
    case SaveSending => journal.None? && Drawn(nextOperation, r)
    case SendPost => journal == r.record && Drawn(nextOperation, r) && !sent
    case AwaitPost => journal == r.record && Drawn(nextOperation, r) && sent
    case ReadJournal => r.args.mode == Reconcile
    case GetEntry =>
      && journal == r.record && InScope(r) && r.args.mode != Check
      && (r.args.mode == Apply ==> Drawn(nextOperation, r) && sent)
    case StampRoute | WriteRoute | StampWritten =>
      && journal.Some? && Bound(r) && journal.value.phase == Sending && r.args.mode != Check
      && r.record == Some(journal.value.(generation := r.record.value.generation))
      && (r.args.mode == Apply ==> r.record.value.stamp == r.before)
    case SaveRouted =>
      && journal.Some? && Bound(r) && journal.value.phase == Sending && r.args.mode != Check
      && r.record == Some(Rerouted(journal.value, r.record.value))
    case GetNode => journal == r.record && Bound(r) && r.record.value.phase != Sending && r.args.mode == Reconcile
    case StampRetire | Reread | StampAgain | WriteRetired | SaveRetired =>
      && journal == r.record && Bound(r) && r.record.value.phase == AwaitingNodeRoute && r.args.mode == Reconcile
      && RouteVerified(r.node, r)
    case _ => true
  }

  function Rerouted(j: Record, record: Record): Record {
    j.(generation := record.generation, phase := AwaitingNodeRoute, stamp := record.stamp)
  }

  ghost predicate JournalOk(journal: Option<Record>, nextOperation: nat) {
    journal.Some? ==>
      && journal.value.operation.Ours? && journal.value.operation.n < nextOperation
      && (journal.value.phase == Sending <==> journal.value.generation.None?)
  }

  /** At most one POST, of the journal's operation, and nothing else ever in flight. */
  ghost predicate PostOk(posts: seq<Post>, inflight: Option<Post>, journal: Option<Record>) {
    && |posts| <= 1
    && (posts != [] ==> journal.Some? && posts[0].operation == journal.value.operation
                        && posts[0].expectedVaultId == journal.value.vaultId)
    && (inflight.Some? ==> posts != [] && inflight.value == posts[0])
  }

  /** The vault committed our operation at most once, and then exactly what was posted. */
  ghost predicate CommitOk(commits: map<nat, Commit>, next: nat, posts: seq<Post>, inflight: Option<Post>) {
    && (forall g :: g in commits ==> g < next)
    && (forall g :: g in commits && commits[g].operation.Ours? ==>
          inflight.None? && posts != [] && commits[g] == Commit(posts[0].operation, posts[0].key))
    && (forall g, h :: g in commits && h in commits && commits[g].operation.Ours? && commits[h].operation.Ours? ==>
          g == h)
  }

  ghost predicate EntryOk(commits: map<nat, Commit>, e: Entry) {
    e.configured ==>
      e.generation in commits && e.operation == Some(commits[e.generation].operation)
        && e.key == commits[e.generation].key
  }

  ghost predicate StampOk(files: map<Path, File>, next: nat, journal: Option<Record>) {
    && 0 < next && (forall p :: p in files ==> files[p].stamp < next)
    && (journal.Some? ==> journal.value.stamp < next)
  }

  ghost predicate RunOk(w: World, r: Run) {
    && Tied(w.journal, w.posts != [], w.nextOperation, r)
    && r.before < w.nextStamp && (r.record.Some? ==> r.record.value.stamp < w.nextStamp)
    && (r.entry.Some? ==> EntryOk(w.commits, r.entry.value))
  }

  ghost predicate Safe(w: World) {
    && JournalOk(w.journal, w.nextOperation)
    && PostOk(w.posts, w.inflight, w.journal)
    && CommitOk(w.commits, w.nextGeneration, w.posts, w.inflight)
    && EntryOk(w.commits, w.vault.entry)
    && StampOk(w.files, w.nextStamp, w.journal)
    && (w.run.Some? ==> RunOk(w, w.run.value))
  }

  // ---------------------------------------------------------------- the key

  ghost predicate Unmoved(files: map<Path, File>, path: Path,
                          stamp: nat) { path in files && files[path].stamp == stamp }

  ghost predicate Holds(files: map<Path, File>, path: Path, text: string) { path in files && files[path].text == text }

  /** The text still defines the journal's variable as the key that was posted. */
  ghost predicate Carries(text: string, j: Record, posts: seq<Post>) {
    posts != [] && Lookup(SplitLines(text), j.variable) == Some(posts[0].key)
  }

  /** The key came from the env file and was read without a race. */
  ghost predicate FromFile(j: Record, raced: set<Window>) { j.owner == EnvFile && ReadThenStamp !in raced }

  ghost predicate JournalKey(files: map<Path, File>, j: Record, posts: seq<Post>, raced: set<Window>) {
    && (FromFile(j, raced) ==> j.variable != ROUTE)
    && (FromFile(j, raced) && j.phase == Sending && posts != [] && Unmoved(files, j.sourcePath, j.stamp) ==>
          Carries(files[j.sourcePath].text, j, posts))
    && (FromFile(j, raced) && j.phase == AwaitingNodeRoute && WriteThenStamp !in raced
        && Unmoved(files, j.sourcePath, j.stamp) ==>
          Carries(files[j.sourcePath].text, j, posts))
  }

  /** The text the process read is the file's, as long as the stamp it will be checked against holds. */
  ghost predicate TextKey(files: map<Path, File>, journal: Option<Record>, raced: set<Window>, r: Run) {
    && (r.pc == StampBefore && r.args.mode == Apply && journal.None? && ReadThenStamp !in raced ==>
          Holds(files, r.args.envFile, r.text))
    && (!r.pc.ReadText? && !r.pc.StampBefore? && !r.pc.Ended? ==> r.credential == Effective(r.text, r.args.environ))
    && (r.args.mode == Apply && BeforeRewrite(r.pc) && !r.pc.StampBefore? && ReadThenStamp !in raced
        && (journal.None? || PastSave(r.pc)) ==>
          (Unmoved(files, r.args.envFile, r.before) ==> Holds(files, r.args.envFile, r.text)))
    && (r.args.mode == Reconcile && BeforeRewrite(r.pc) && journal.Some?
        && journal.value.sourcePath == r.args.envFile ==>
          (Unmoved(files, r.args.envFile, journal.value.stamp) ==> Holds(files, r.args.envFile, r.text)))
  }

  /** An apply run here has saved its journal; before, it goes on only when there is none. */
  ghost predicate PastSave(pc: Pc) { pc.SendPost? || pc.AwaitPost? || pc.GetEntry? || pc.StampRoute? }

  ghost predicate BeforeRewrite(pc: Pc) {
    pc.StampBefore? || pc.GetStatus? || pc.GetIdentity? || pc.JournalExists? || pc.SaveSending? || pc.SendPost?
    || pc.AwaitPost? || pc.ReadJournal? || pc.GetEntry? || pc.StampRoute?
  }

  /** What is known of the file and of the text read from it around the two rewrites. */
  ghost predicate LateKey(files: map<Path, File>, posts: seq<Post>, raced: set<Window>, r: Run) {
    r.record.Some? ==>
      var j, path := r.record.value, r.args.envFile;
      && (r.pc == WriteRoute && FromFile(j, raced) ==> Carries(r.text, j, posts))
      && (r.pc == WriteRoute && (r.args.mode == Apply ==> ReadThenStamp !in raced) && CheckThenWrite !in raced ==>
            Holds(files, path, r.text))
      && (r.pc == StampWritten && FromFile(j, raced) ==> Carries(WithRoute(r.text, r.args.vaultUrl), j, posts))
      && (r.pc == StampWritten && WriteThenStamp !in raced ==> Holds(files, path, WithRoute(r.text, r.args.vaultUrl)))
      && (r.pc == SaveRouted && FromFile(j, raced) && WriteThenStamp !in raced && Unmoved(files, path, j.stamp) ==>
            Carries(files[path].text, j, posts))
      && (Retires(r.pc) && OneLine(r.args.vaultUrl) && WriteThenStamp !in raced && Unmoved(files, path, j.stamp) ==>
            RetiredNames(files[path].text) == RetiredNames(r.text))
      && (r.pc == StampAgain && Unmoved(files, path, j.stamp) ==> Holds(files, path, r.reread))
      && (r.pc == WriteRetired && RecheckThenWrite !in raced ==> Holds(files, path, r.reread))
      && (r.pc == WriteRetired && OneLine(r.args.vaultUrl) && WriteThenStamp !in raced ==>
            RetiredNames(r.reread) == RetiredNames(r.text))
      && (r.pc == WriteRetired && FromFile(j, raced) && WriteThenStamp !in raced ==> Carries(r.reread, j, posts))
  }

  ghost predicate Retires(pc: Pc) { pc.SaveRouted? || pc.GetNode? || pc.StampRetire? || pc.Reread? || pc.StampAgain? }

  ghost predicate Rewritten(pc: Pc) { pc.StampWritten? || pc.SaveRouted? || pc.SaveRetired? }

  ghost predicate KeyRun(w: World, r: Run) {
    && TextKey(w.files, w.journal, w.raced, r) && LateKey(w.files, w.posts, w.raced, r)
    && (Rewritten(r.pc) && w.journal.Some? ==> !Unmoved(w.files, r.args.envFile, w.journal.value.stamp))
  }

  ghost predicate KeySafe(w: World) {
    && (w.journal.Some? ==> JournalKey(w.files, w.journal.value, w.posts, w.raced))
    && (w.run.Some? ==> KeyRun(w, w.run.value))
  }

  /** A credential found in the file is a defined alias of it, and no alias is the route. */
  lemma EffectiveNamed(text: string, environ: map<string, string>)
    ensures var c := Effective(text, environ);
      c.Found? ==> c.name != ROUTE && (c.owner == EnvFile ==> Lookup(SplitLines(text), c.name) == Some(c.key))
  {
    var c := Effective(text, environ);
    EffectiveFromFile(ALIASES, Parse(text), environ);
    if c.Found? {
      AliasNotRoute(c.name);
    }
  }

  lemma RouteCarries(text: string, url: string, j: Record, posts: seq<Post>)
    requires Carries(text, j, posts) && j.variable != ROUTE
    ensures Carries(WithRoute(text, url), j, posts)
  {
    EntryLookup(text, ROUTE, url, j.variable);
  }

  // ---------------------------------------------------------------- its steps, one at a time

  lemma LookReadText(w: World, r: Run)
    requires Safe(w) && KeySafe(w) && w.run == Some(r) && r.pc == ReadText
    ensures RunOk(w, DoReadText(w, r)) && KeyRun(w, DoReadText(w, r))
  {
  }

  lemma LookStampBefore(w: World, r: Run)
    requires Safe(w) && KeySafe(w) && w.run == Some(r) && r.pc == StampBefore
    ensures RunOk(w, DoStampBefore(w, r)) && KeyRun(w, DoStampBefore(w, r))
  {
  }

  lemma LookGetStatus(w: World, r: Run)
    requires Safe(w) && KeySafe(w) && w.run == Some(r) && r.pc == GetStatus
    ensures RunOk(w, DoGetStatus(w, r)) && KeyRun(w, DoGetStatus(w, r))
  {
  }

  lemma LookGetIdentity(w: World, r: Run)
    requires Safe(w) && KeySafe(w) && w.run == Some(r) && r.pc == GetIdentity
    ensures RunOk(w, DoGetIdentity(w, r)) && KeyRun(w, DoGetIdentity(w, r))
  {
  }

  lemma LookAwaitPost(w: World, r: Run)
    requires Safe(w) && KeySafe(w) && w.run == Some(r) && r.pc == AwaitPost
    ensures RunOk(w, DoAwaitPost(w, r)) && KeyRun(w, DoAwaitPost(w, r))
  {
  }

  lemma LookReadJournal(w: World, r: Run)
    requires Safe(w) && KeySafe(w) && w.run == Some(r) && r.pc == ReadJournal
    ensures RunOk(w, DoReadJournal(w, r)) && KeyRun(w, DoReadJournal(w, r))
  {
  }

  lemma LookEntrySending(w: World, r: Run)
    requires Safe(w) && KeySafe(w) && w.run == Some(r) && r.pc == GetEntry && r.record.value.phase == Sending
    ensures RunOk(w, DoGetEntry(w, r)) && KeyRun(w, DoGetEntry(w, r))
  {
    LookEntrySendingKey(w, r);
  }

  lemma LookEntrySendingKey(w: World, r: Run)
    requires Safe(w) && KeySafe(w) && w.run == Some(r) && r.pc == GetEntry && r.record.value.phase == Sending
    ensures KeyRun(w, DoGetEntry(w, r))
  {
  }

  lemma LookEntryLater(w: World, r: Run)
    requires Safe(w) && KeySafe(w) && w.run == Some(r) && r.pc == GetEntry && r.record.value.phase != Sending
    ensures RunOk(w, DoGetEntry(w, r)) && KeyRun(w, DoGetEntry(w, r))
  {
    LookEntryLaterKey(w, r);
  }

  lemma LookEntryLaterKey(w: World, r: Run)
    requires Safe(w) && KeySafe(w) && w.run == Some(r) && r.pc == GetEntry && r.record.value.phase != Sending
    ensures KeyRun(w, DoGetEntry(w, r))
  {
    LookEntryLaterText(w, r);
  }

  lemma LookEntryLaterText(w: World, r: Run)
    requires Safe(w) && KeySafe(w) && w.run == Some(r) && r.pc == GetEntry && r.record.value.phase != Sending
    ensures TextKey(w.files, w.journal, w.raced, DoGetEntry(w, r))
  {
  }

  lemma LookStampRoute(w: World, r: Run)
    requires Safe(w) && KeySafe(w) && w.run == Some(r) && r.pc == StampRoute
    ensures RunOk(w, DoStampRoute(w, r)) && KeyRun(w, DoStampRoute(w, r))
  {
    LookStampRouteKey(w, r);
  }

  lemma LookStampRouteKey(w: World, r: Run)
    requires Safe(w) && KeySafe(w) && w.run == Some(r) && r.pc == StampRoute
    ensures KeyRun(w, DoStampRoute(w, r))
  {
  }

  lemma LookStampWritten(w: World, r: Run)
    requires Safe(w) && KeySafe(w) && w.run == Some(r) && r.pc == StampWritten
    ensures RunOk(w, DoStampWritten(w, r)) && KeyRun(w, DoStampWritten(w, r))
  {
    NamesStay(r.text, r.args.vaultUrl);
  }

  lemma NamesStay(text: string, url: string)
    ensures OneLine(url) ==> RetiredNames(WithRoute(text, url)) == RetiredNames(text)
  {
    RouteNames(text, url);
  }

  lemma LookGetNode(w: World, r: Run)
    requires Safe(w) && KeySafe(w) && w.run == Some(r) && r.pc == GetNode
    ensures RunOk(w, DoGetNode(w, r)) && KeyRun(w, DoGetNode(w, r))
  {
    var next := DoGetNode(w, r);
    assert next == Fail(r.(node := w.node)) || next.pc == Ended(true)
      || (next == r.(node := w.node, pc := StampRetire) && RouteVerified(w.node, r));
  }

  lemma LookStampRetire(w: World, r: Run)
    requires Safe(w) && KeySafe(w) && w.run == Some(r) && r.pc == StampRetire
    ensures RunOk(w, DoStampRetire(w, r)) && KeyRun(w, DoStampRetire(w, r))
  {
  }

  lemma LookReread(w: World, r: Run)
    requires Safe(w) && KeySafe(w) && w.run == Some(r) && r.pc == Reread
    ensures RunOk(w, DoReread(w, r)) && KeyRun(w, DoReread(w, r))
  {
  }

  lemma LookStampAgain(w: World, r: Run)
    requires Safe(w) && KeySafe(w) && w.run == Some(r) && r.pc == StampAgain
    ensures RunOk(w, DoStampAgain(w, r)) && KeyRun(w, DoStampAgain(w, r))
  {
    LookStampAgainOk(w, r);
  }

  lemma LookStampAgainOk(w: World, r: Run)
    requires Safe(w) && KeySafe(w) && w.run == Some(r) && r.pc == StampAgain
    ensures RunOk(w, DoStampAgain(w, r))
  {
  }

  lemma SafeJournalExists(w: World, r: Run)
    requires Safe(w) && KeySafe(w) && w.run == Some(r) && r.pc == JournalExists
    ensures Safe(Act(w, r))
  {
  }

  lemma KeyJournalExists(w: World, r: Run)
    requires Safe(w) && KeySafe(w) && w.run == Some(r) && r.pc == JournalExists
    ensures KeySafe(Act(w, r))
  {
  }

  lemma SafeSaveSending(w: World, r: Run)
    requires Safe(w) && KeySafe(w) && w.run == Some(r) && r.pc == SaveSending
    ensures Safe(Act(w, r))
  {
  }

  lemma KeySaveSending(w: World, r: Run)
    requires Safe(w) && KeySafe(w) && w.run == Some(r) && r.pc == SaveSending
    ensures KeySafe(Act(w, r))
  {
    EffectiveNamed(r.text, r.args.environ);
  }

  lemma SafeSendPost(w: World, r: Run)
    requires Safe(w) && KeySafe(w) && w.run == Some(r) && r.pc == SendPost
    ensures Safe(Act(w, r))
  {
  }

  lemma KeySendPost(w: World, r: Run)
    requires Safe(w) && KeySafe(w) && w.run == Some(r) && r.pc == SendPost
    ensures KeySafe(Act(w, r))
  {
    EffectiveNamed(r.text, r.args.environ);
  }

  lemma SafeWriteRoute(w: World, r: Run)
    requires Safe(w) && KeySafe(w) && w.run == Some(r) && r.pc == WriteRoute
    ensures Safe(Act(w, r))
  {
  }

  lemma KeyWriteRoute(w: World, r: Run)
    requires Safe(w) && KeySafe(w) && w.run == Some(r) && r.pc == WriteRoute
    ensures KeySafe(Act(w, r))
  {
    if FromFile(r.record.value, w.raced) {
      RouteCarries(r.text, r.args.vaultUrl, r.record.value, w.posts);
    }
  }

  lemma SafeSaveRouted(w: World, r: Run)
    requires Safe(w) && KeySafe(w) && w.run == Some(r) && r.pc == SaveRouted
    ensures Safe(Act(w, r))
  {
  }

  lemma KeySaveRouted(w: World, r: Run)
    requires Safe(w) && KeySafe(w) && w.run == Some(r) && r.pc == SaveRouted
    ensures KeySafe(Act(w, r))
  {
  }

  lemma SafeWriteRetired(w: World, r: Run)
    requires Safe(w) && KeySafe(w) && w.run == Some(r) && r.pc == WriteRetired
    ensures Safe(Act(w, r))
  {
  }

  lemma KeyWriteRetired(w: World, r: Run)
    requires Safe(w) && KeySafe(w) && w.run == Some(r) && r.pc == WriteRetired
    ensures KeySafe(Act(w, r))
  {
  }

  lemma SafeSaveRetired(w: World, r: Run)
    requires Safe(w) && KeySafe(w) && w.run == Some(r) && r.pc == SaveRetired
    ensures Safe(Act(w, r))
  {
  }

  lemma KeySaveRetired(w: World, r: Run)
    requires Safe(w) && KeySafe(w) && w.run == Some(r) && r.pc == SaveRetired
    ensures KeySafe(Act(w, r))
  {
  }

  lemma SafeDeliver(w: World)
    requires Safe(w)
    ensures Safe(DeliverPost(w))
  {
  }

  lemma SafeEdit(w: World, path: Path, text: Option<string>)
    requires Safe(w)
    ensures Safe(EditFile(w, path, text))
  {
    StampsEdit(w, path, text);
  }

  lemma StampsEdit(w: World, path: Path, text: Option<string>)
    requires StampOk(w.files, w.nextStamp, w.journal)
    ensures StampOk(EditFile(w, path, text).files, EditFile(w, path, text).nextStamp, w.journal)
  {
  }

  lemma SafeVault(w: World, a: Action)
    requires Safe(w) && (a.OtherCommit? || a.OtherDelete?)
    ensures Safe(OtherStep(w, a))
  {
  }

  lemma SafeProcess(w: World, a: Action)
    requires Safe(w) && (a.Launch? || a.Crash?)
    ensures Safe(OtherStep(w, a))
  {
  }

  lemma SafeOther(w: World, a: Action)
    requires Safe(w) && (a.LosePost? || a.LoseReply? || a.NodeReports? || a.Script?)
    ensures Safe(OtherStep(w, a))
  {
  }

  lemma KeyEditJournal(w: World, path: Path, text: Option<string>)
    requires Safe(w) && KeySafe(w) && w.journal.Some?
    ensures var e := EditFile(w, path, text); JournalKey(e.files, w.journal.value, w.posts, e.raced)
  {
  }

  lemma KeyEditText(w: World, path: Path, text: Option<string>)
    requires Safe(w) && KeySafe(w) && w.run.Some?
    ensures var e := EditFile(w, path, text); TextKey(e.files, w.journal, e.raced, w.run.value)
  {
  }

  /** The new stamp is none of those the process holds, so every guarded fact about the file lapses. */
  lemma KeyEditLate(w: World, path: Path, text: Option<string>)
    requires Safe(w) && KeySafe(w) && w.run.Some?
    ensures var e := EditFile(w, path, text); LateKey(e.files, w.posts, e.raced, w.run.value)
  {
    var r, e := w.run.value, EditFile(w, path, text);
    assert path != r.args.envFile && r.args.envFile in w.files ==>
             r.args.envFile in e.files && e.files[r.args.envFile] == w.files[r.args.envFile];
    assert path != r.args.envFile ==> (r.args.envFile in w.files <==> r.args.envFile in e.files);
    assert r.record.Some? && path == r.args.envFile ==> !Unmoved(e.files, path, r.record.value.stamp);
  }

  lemma KeyEditMoved(w: World, path: Path, text: Option<string>)
    requires Safe(w) && w.journal.Some?
    ensures !Unmoved(w.files, w.journal.value.sourcePath, w.journal.value.stamp) ==>
            !Unmoved(EditFile(w, path, text).files, w.journal.value.sourcePath, w.journal.value.stamp)
    ensures !Unmoved(EditFile(w, w.journal.value.sourcePath, text).files, w.journal.value.sourcePath,
                     w.journal.value.stamp)
  {
  }

  lemma KeyEdit(w: World, path: Path, text: Option<string>)
    requires Safe(w) && KeySafe(w)
    ensures KeySafe(EditFile(w, path, text))
  {
    if w.journal.Some? { KeyEditJournal(w, path, text); KeyEditMoved(w, path, text); }
    if w.run.Some? { KeyEditText(w, path, text); KeyEditLate(w, path, text); }
  }

  lemma KeyOther(w: World, a: Action)
    requires Safe(w) && KeySafe(w) && !a.Edit?
    ensures KeySafe(OtherStep(w, a))
  {
  }

  // ---------------------------------------------------------------- every history

  lemma LookKeeps(w: World, r: Run)
    requires Safe(w) && KeySafe(w) && w.run == Some(r) && CanStep(w) && !Acts(r.pc)
    ensures RunOk(w, Look(w, r)) && KeyRun(w, Look(w, r))
  {
    if r.pc.ReadText? || r.pc.StampBefore? || r.pc.GetStatus? || r.pc.GetIdentity? || r.pc.AwaitPost? {
      LookKeepsEarly(w, r);
    } else {
      LookKeepsLate(w, r);
    }
  }

  lemma LookKeepsEarly(w: World, r: Run)
    requires Safe(w) && KeySafe(w) && w.run == Some(r) && CanStep(w)
    requires r.pc.ReadText? || r.pc.StampBefore? || r.pc.GetStatus? || r.pc.GetIdentity? || r.pc.AwaitPost?
    ensures RunOk(w, Look(w, r)) && KeyRun(w, Look(w, r))
  {
    match r.pc {
      case ReadText => LookReadText(w, r);
      case StampBefore => LookStampBefore(w, r);
      case GetStatus => LookGetStatus(w, r);
      case GetIdentity => LookGetIdentity(w, r);
      case AwaitPost => LookAwaitPost(w, r);
    }
  }

  lemma LookKeepsLate(w: World, r: Run)
    requires Safe(w) && KeySafe(w) && w.run == Some(r) && CanStep(w) && !Acts(r.pc)
    requires !r.pc.ReadText? && !r.pc.StampBefore? && !r.pc.GetStatus? && !r.pc.GetIdentity? && !r.pc.AwaitPost?
    ensures RunOk(w, Look(w, r)) && KeyRun(w, Look(w, r))
  {
    match r.pc {
      case ReadJournal => LookReadJournal(w, r);
      case GetEntry => if r.record.value.phase == Sending { LookEntrySending(w, r); } else { LookEntryLater(w, r); }
      case StampRoute => LookStampRoute(w, r);
      case StampWritten => LookStampWritten(w, r);
      case GetNode => LookGetNode(w, r);
      case StampRetire => LookStampRetire(w, r);
      case Reread => LookReread(w, r);
      case StampAgain => LookStampAgain(w, r);
    }
  }

  lemma SafeMove(w: World, r: Run)
    requires Safe(w) && KeySafe(w) && RunOk(w, r) && KeyRun(w, r)
    ensures Safe(w.(run := Some(r))) && KeySafe(w.(run := Some(r)))
  {
  }

  lemma SafeAct(w: World, r: Run)
    requires Safe(w) && KeySafe(w) && w.run == Some(r) && CanStep(w) && Acts(r.pc)
    ensures Safe(ScriptStep(w)) && KeySafe(ScriptStep(w))
  {
    match r.pc {
      case JournalExists => SafeJournalExists(w, r); KeyJournalExists(w, r);
      case SaveSending => SafeSaveSending(w, r); KeySaveSending(w, r);
      case SendPost => SafeSendPost(w, r); KeySendPost(w, r);
      case WriteRoute => SafeWriteRoute(w, r); KeyWriteRoute(w, r);
      case SaveRouted => SafeSaveRouted(w, r); KeySaveRouted(w, r);
      case WriteRetired => SafeWriteRetired(w, r); KeyWriteRetired(w, r);
      case SaveRetired => SafeSaveRetired(w, r); KeySaveRetired(w, r);
    }
  }

  lemma SafeScript(w: World)
    requires Safe(w) && KeySafe(w)
    ensures Safe(ScriptStep(w)) && KeySafe(ScriptStep(w))
  {
    if CanStep(w) {
      var r := w.run.value;
      if Acts(r.pc) {
        SafeAct(w, r);
      } else {
        LookKeeps(w, r);
        SafeMove(w, Look(w, r));
      }
    }
  }

  lemma SafeStep(w: World, a: Action)
    requires Safe(w) && KeySafe(w)
    ensures Safe(Step(w, a)) && KeySafe(Step(w, a))
  {
    if a == Script {
      SafeScript(w);
    } else if a.Edit? {
      SafeEdit(w, a.path, a.text);
      KeyEdit(w, a.path, a.text);
    } else {
      SafeWorld(w, a);
      KeyOther(w, a);
    }
  }

  lemma SafeWorld(w: World, a: Action)
    requires Safe(w) && a != Script && !a.Edit?
    ensures Safe(OtherStep(w, a))
  {
    match a {
      case Deliver => SafeDeliver(w);
      case OtherCommit(_, _, _) => SafeVault(w, a);
      case OtherDelete(_) => SafeVault(w, a);
      case Launch(_) => SafeProcess(w, a);
      case Crash => SafeProcess(w, a);
      case _ => SafeOther(w, a);
    }
  }

  lemma InitSafe(w: World)
    requires Init(w)
    ensures Safe(w) && KeySafe(w)
  {
  }

  lemma {:induction false} SafeExec(w: World, actions: seq<Action>)
    requires Safe(w) && KeySafe(w)
    ensures Safe(Exec(w, actions)) && KeySafe(Exec(w, actions))
    decreases |actions|
  {
    if actions == [] {
    } else {
      SafeStep(w, actions[0]);
      SafeExec(Step(w, actions[0]), actions[1..]);
    }
  }
}
