/** The promises of the Go credential migration, over every history. */
module MigrationTheorems {
  import opened Options
  import opened EnvText
  import opened Migration
  import opened MigrationSafety

  lemma Reachable(w: World, actions: seq<Action>)
    requires Init(w)
    ensures Safe(Exec(w, actions)) && KeySafe(Exec(w, actions))
  {
    InitSafe(w);
    SafeExec(w, actions);
  }

  // ---------------------------------------------------------------- which step touches what

  ghost predicate Saves(pc: Pc) { pc.SaveSending? || pc.SaveRouted? || pc.SaveRetired? }

  lemma JournalFrame(w: World)
    requires w.run.Some? ==> !Saves(w.run.value.pc)
    ensures ScriptStep(w).journal == w.journal
  {
  }

  lemma FileFrame(w: World)
    requires w.run.Some? ==> !w.run.value.pc.WriteRoute? && !w.run.value.pc.WriteRetired?
    ensures ScriptStep(w).files == w.files
  {
  }

  lemma SendFrame(w: World)
    requires !AboutToSend(w)
    ensures ScriptStep(w).posts == w.posts
  {
  }

  lemma EnterSend(w: World)
    requires w.run.Some? ==> !w.run.value.pc.SaveSending?
    ensures !AboutToSend(ScriptStep(w)) || AboutToSend(w)
  {
  }

  lemma LookEntersRewrite(w: World, r: Run)
    requires w.run == Some(r) && CanStep(w) && !Acts(r.pc) && !Rewriting(r.pc)
    requires !StampHolds(w, r) || !(r.pc.StampRoute? || r.pc.StampAgain?)
    ensures !Rewriting(Look(w, r).pc)
  {
  }

  lemma ActEntersRewrite(w: World, r: Run)
    requires w.run == Some(r) && CanStep(w) && Acts(r.pc) && !Rewriting(r.pc)
    ensures Act(w, r).run.Some? && !Rewriting(Act(w, r).run.value.pc)
  {
  }

  // ---------------------------------------------------------------- one send

  /** Over all runs, crashes and lost answers: at most one credential POST is ever sent, only under a
      journal already on disk and with its operation, and the vault commits it at most once. */
  lemma SendOnce(w: World, actions: seq<Action>)
    requires Init(w)
    ensures var e := Exec(w, actions);
      && |e.posts| <= 1
      && (e.posts != [] ==> e.journal.Some? && e.posts[0].operation == e.journal.value.operation)
      && (forall g :: g in e.commits && e.commits[g].operation.Ours? ==>
            e.posts != [] && e.commits[g] == Commit(e.posts[0].operation, e.posts[0].key))
      && (forall g, h ::
            g in e.commits && h in e.commits && e.commits[g].operation.Ours? && e.commits[h].operation.Ours? ==> g == h)
  {
    Reachable(w, actions);
  }

  /** The process is past its own journal save and about to send. */
  ghost predicate AboutToSend(w: World) { w.run.Some? && w.run.value.pc == SendPost }

  lemma NoSendStep(w: World, a: Action)
    requires Safe(w) && w.journal.Some? && !AboutToSend(w)
    ensures Step(w, a).posts == w.posts && Step(w, a).journal.Some? && !AboutToSend(Step(w, a))
  {
    GrowStep(w, a);
    if a == Script { SendFrame(w); EnterSend(w); }
  }

  /** Once a journal exists, only the process that saved it can still send: after it crashed, or got
      past the send, no later run sends anything, ever. */
  lemma {:induction false} JournalForbidsSend(w: World, actions: seq<Action>)
    requires Safe(w) && KeySafe(w) && w.journal.Some? && !AboutToSend(w)
    ensures Exec(w, actions).posts == w.posts
    decreases |actions|
  {
    if actions == [] {
    } else {
      NoSendStep(w, actions[0]);
      SafeStep(w, actions[0]);
      JournalForbidsSend(Step(w, actions[0]), actions[1..]);
    }
  }

  // ---------------------------------------------------------------- the journal only grows

  function Rank(p: Phase): nat { if p == Sending then 0 else if p == AwaitingNodeRoute then 1 else 2 }

  /** Identity fields never change, the phase never goes back, the generation is written once, and
      nothing changes within a phase. */
  ghost predicate Grows(a: Option<Record>, b: Option<Record>) {
    a.Some? ==>
      && b.Some?
      && b.value == a.value.(phase := b.value.phase, stamp := b.value.stamp, generation := b.value.generation)
      && Rank(a.value.phase) <= Rank(b.value.phase)
      && (a.value.generation.Some? ==> b.value.generation == a.value.generation)
      && (a.value.phase == b.value.phase ==> a == b)
  }

  lemma GrowSave(w: World, r: Run)
    requires Safe(w) && w.run == Some(r) && Saves(r.pc)
    ensures Grows(w.journal, ScriptStep(w).journal)
  {
  }

  lemma GrowStep(w: World, a: Action)
    requires Safe(w)
    ensures Grows(w.journal, Step(w, a).journal)
  {
    if a == Script {
      if w.run.Some? && Saves(w.run.value.pc) { GrowSave(w, w.run.value); } else { JournalFrame(w); }
    }
  }

  lemma {:induction false} JournalGrows(w: World, actions: seq<Action>)
    requires Safe(w) && KeySafe(w)
    ensures Grows(w.journal, Exec(w, actions).journal)
    decreases |actions|
  {
    if actions == [] {
    } else {
      GrowStep(w, actions[0]);
      SafeStep(w, actions[0]);
      JournalGrows(Step(w, actions[0]), actions[1..]);
    }
  }

  /** Journal monotonicity between any two moments of any history. */
  lemma JournalMonotone(w: World, before: seq<Action>, after: seq<Action>)
    requires Init(w)
    ensures Grows(Exec(w, before).journal, Exec(Exec(w, before), after).journal)
  {
    Reachable(w, before);
    JournalGrows(Exec(w, before), after);
  }

  // ---------------------------------------------------------------- where an alias line can go

  ghost predicate HasLine(w: World, path: Path, l: string) { path in w.files && l in SplitLines(w.files[path].text) }

  /** What the process has read before it may retire: a configured entry committed under the
      journal's operation and generation, and a node that routes through the same vault URL, vault id
      and generation. */
  ghost predicate Evidence(w: World, r: Run) {
    && r.args.mode == Reconcile && w.journal.Some? && w.journal == r.record && r.entry.Some?
    && var j, e := w.journal.value, r.entry.value;
       && e.configured && e.operation == Some(j.operation) && Some(e.generation) == j.generation
       && e.generation in w.commits && w.commits[e.generation].operation == j.operation
       && r.node == Some(Route("vault", j.route, j.vaultId, e.generation))
  }

  lemma WriteRouteKeeps(w: World, r: Run, l: string)
    requires Safe(w) && KeySafe(w) && w.run == Some(r) && r.pc == WriteRoute
    requires HasLine(w, r.args.envFile, l) && KeyPart(l) != ROUTE
    requires (r.args.mode == Apply ==> ReadThenStamp !in w.raced) && CheckThenWrite !in w.raced
    ensures HasLine(ScriptStep(w), r.args.envFile, l)
  {
    assert ScriptStep(w) == DoWriteRoute(w, r);
    RouteKeepsLines(r.text, r.args.vaultUrl, l);
  }

  lemma WriteRetiredKeeps(w: World, r: Run, l: string)
    requires Safe(w) && KeySafe(w) && w.run == Some(r) && r.pc == WriteRetired
    requires HasLine(w, r.args.envFile, l) && KeyPart(l) !in GO_ALIASES
    requires RecheckThenWrite !in w.raced
    ensures HasLine(ScriptStep(w), r.args.envFile, l)
  {
    RetireLines(r.reread, RetiredNames(r.text), l);
  }

  lemma OtherFilesStay(w: World, r: Run, path: Path)
    requires w.run == Some(r) && (r.pc.WriteRoute? || r.pc.WriteRetired?) && r.args.envFile != path && path in w.files
    ensures path in ScriptStep(w).files && ScriptStep(w).files[path] == w.files[path]
  {
  }

  /** What may make a line that is not a route line disappear from an env file in one step: someone
      else's edit; a route write after an edit had already hit a race window; or the retirement of a
      dedicated Go alias by a reconcile run holding the full evidence (of another line only after an
      edit had hit the last window). */
  ghost predicate Excused(w: World, a: Action, path: Path, l: string) {
    || (a.Edit? && a.path == path)
    || (a == Script && w.run.Some? && w.run.value.args.envFile == path && ExcusedWrite(w, w.run.value, l))
  }

  ghost predicate ExcusedWrite(w: World, r: Run, l: string) {
    || (r.pc == WriteRoute && ((r.args.mode == Apply && ReadThenStamp in w.raced) || CheckThenWrite in w.raced))
    || (r.pc == WriteRetired && Evidence(w, r) && (KeyPart(l) in GO_ALIASES || RecheckThenWrite in w.raced))
  }

  lemma EvidenceHeld(w: World, r: Run)
    requires Safe(w) && KeySafe(w) && w.run == Some(r) && r.pc == WriteRetired
    ensures Evidence(w, r)
  {
  }

  lemma LineLeaves(w: World, r: Run, path: Path, l: string)
    requires Safe(w) && KeySafe(w) && w.run == Some(r)
    requires HasLine(w, path, l) && KeyPart(l) != ROUTE && !HasLine(ScriptStep(w), path, l)
    ensures r.args.envFile == path && ExcusedWrite(w, r, l)
  {
    if r.pc != WriteRoute && r.pc != WriteRetired {
      FileFrame(w);
    } else if r.args.envFile != path {
      OtherFilesStay(w, r, path);
    } else if r.pc == WriteRoute {
      if (r.args.mode == Apply ==> ReadThenStamp !in w.raced) && CheckThenWrite !in w.raced {
        WriteRouteKeeps(w, r, l);
      }
    } else {
      EvidenceHeld(w, r);
      if KeyPart(l) !in GO_ALIASES && RecheckThenWrite !in w.raced { WriteRetiredKeeps(w, r, l); }
    }
  }

  lemma LineLeavesStep(w: World, a: Action, path: Path, l: string)
    requires Safe(w) && KeySafe(w)
    requires HasLine(w, path, l) && KeyPart(l) != ROUTE && !HasLine(Step(w, a), path, l)
    ensures Excused(w, a, path, l)
  {
    if a == Script && w.run.Some? { LineLeaves(w, w.run.value, path, l); }
  }

  /** In every history, a line that is not a route line leaves an env file only in one of these ways.
      Apply runs never remove one. */
  lemma AliasLeaves(w0: World, actions: seq<Action>, a: Action, path: Path, l: string)
    requires Init(w0)
    requires var w := Exec(w0, actions);
      HasLine(w, path, l) && KeyPart(l) != ROUTE && !HasLine(Step(w, a), path, l)
    ensures Excused(Exec(w0, actions), a, path, l)
  {
    Reachable(w0, actions);
    LineLeavesStep(Exec(w0, actions), a, path, l);
  }

  // ---------------------------------------------------------------- the key is never lost

  /** The apply run took the key from the env file, unraced, and the route write was stamped unraced. */
  ghost predicate KeyUnraced(w: World) {
    w.journal.Some? && w.journal.value.owner == EnvFile && ReadThenStamp !in w.raced && WriteThenStamp !in w.raced
  }

  /** At every retirement outside the two windows that matter for it, the value being retired for the
      effective alias is the one posted, and the vault committed exactly that value at exactly the
      generation the node was seen to use. */
  lemma KeyNeverLost(w0: World, actions: seq<Action>)
    requires Init(w0)
    requires var w := Exec(w0, actions); w.run.Some? && w.run.value.pc == WriteRetired && KeyUnraced(w)
    ensures var w := Exec(w0, actions);
      var r, j := w.run.value, w.journal.value;
      && Evidence(w, r) && w.posts != []
      && w.commits[r.entry.value.generation] == Commit(j.operation, w.posts[0].key)
      && r.entry.value.key == w.posts[0].key
      && j.variable in Parse(r.reread) && Parse(r.reread)[j.variable] == w.posts[0].key
  {
    Reachable(w0, actions);
  }

  /** Dropping two sets of dedicated aliases comes to the same exactly when the first has every one
      that is defined. */
  lemma SameRetirement(text: string, names: set<string>)
    requires forall n :: n in names ==> n in GO_ALIASES
    ensures Parse(text) - names == Parse(text) - RetiredNames(text) <==> RetiredNames(text) <= names
  {
    var m := Parse(text);
    forall n ensures n in RetiredNames(text) <==> n in GO_ALIASES && n in m { RetiredName(text, n); }
    if RetiredNames(text) <= names {
      assert (m - names).Keys == (m - RetiredNames(text)).Keys;
    } else {
      var n :| n in RetiredNames(text) && n !in names;
      assert n in m - names && n !in m - RetiredNames(text);
    }
  }

  /** Retirement is a validated read, for every URL: unless an edit lands between the second check and the
      write, what is written is the file as it is at that moment without the aliases the run read in it.
      These are exactly the file's dedicated aliases if and only if the run had read every one of them;
      which it had when the URL is in one line and the route write was stamped unraced. */
  lemma RetirementIsValidated(w0: World, actions: seq<Action>)
    requires Init(w0)
    requires var w := Exec(w0, actions);
      w.run.Some? && w.run.value.pc == WriteRetired && RecheckThenWrite !in w.raced
    ensures var w := Exec(w0, actions);
      var r, path := w.run.value, w.run.value.args.envFile;
      && path in w.files && path in ScriptStep(w).files
      && var was, now := w.files[path].text, ScriptStep(w).files[path].text;
         && now == Retire(was, RetiredNames(r.text)) && Parse(now) == Parse(was) - RetiredNames(r.text)
         && (Parse(now) == Parse(was) - RetiredNames(was) <==> RetiredNames(was) <= RetiredNames(r.text))
         && (OneLine(r.args.vaultUrl) && WriteThenStamp !in w.raced ==> RetiredNames(was) == RetiredNames(r.text))
  {
    Reachable(w0, actions);
    RetiresWhatItRead(Exec(w0, actions), Exec(w0, actions).run.value);
  }

  lemma RetiresWhatItRead(w: World, r: Run)
    requires Safe(w) && KeySafe(w) && w.run == Some(r) && r.pc == WriteRetired && RecheckThenWrite !in w.raced
    ensures r.args.envFile in w.files && r.args.envFile in ScriptStep(w).files
    ensures var was, now := w.files[r.args.envFile].text, ScriptStep(w).files[r.args.envFile].text;
      && now == Retire(was, RetiredNames(r.text)) && Parse(now) == Parse(was) - RetiredNames(r.text)
      && (Parse(now) == Parse(was) - RetiredNames(was) <==> RetiredNames(was) <= RetiredNames(r.text))
      && (OneLine(r.args.vaultUrl) && WriteThenStamp !in w.raced ==> RetiredNames(was) == RetiredNames(r.text))
  {
    var was := w.files[r.args.envFile].text;
    assert ScriptStep(w) == DoWriteRetired(w, r);
    RetireFrame(was, RetiredNames(r.text));
    SameRetirement(was, RetiredNames(r.text));
  }

  /** The vault committed this value under one of our operations. */
  ghost predicate CommittedByUs(w: World, v: string) {
    exists g :: g in w.commits && w.commits[g].operation.Ours? && w.commits[g].key == v
  }

  /** Every dedicated alias the file defines and this run retires has this value. */
  ghost predicate AllRetiredAre(r: Run, v: string) {
    forall n :: n in RetiredNames(r.text) && n in Parse(r.reread) ==> Parse(r.reread)[n] == v
  }

  /** Nothing retired is lost exactly when the file has no other value than the one that was posted: at every
      retirement, whatever was raced and whoever owned the key, every retired value is one the vault committed
      for us if and only if all of them are the posted one. Any other value is retired all the same. */
  lemma RetiredValuesKept(w0: World, actions: seq<Action>, w: World, r: Run)
    requires Init(w0) && w == Exec(w0, actions) && w.run == Some(r) && r.pc == WriteRetired
    ensures w.posts != []
    ensures (forall n :: n in RetiredNames(r.text) && n in Parse(r.reread) ==> CommittedByUs(w, Parse(r.reread)[n]))
            <==> AllRetiredAre(r, w.posts[0].key)
  {
    Reachable(w0, actions);
    EvidenceHeld(w, r);
    assert CommittedByUs(w, w.posts[0].key);
  }

  // ---------------------------------------------------------------- refusals that last

  /** No step of the process changes any env file along the way. */
  ghost predicate NeverWrites(w: World, actions: seq<Action>)
    decreases |actions|
  {
    actions == [] ||
    ((actions[0] == Script ==> Step(w, Script).files == w.files) && NeverWrites(Step(w, actions[0]), actions[1..]))
  }

  /** The process is about to replace the source, or has replaced it and not yet stamped it. */
  ghost predicate InWrite(pc: Pc) { pc.WriteRoute? || pc.StampWritten? || pc.WriteRetired? }

  /** The process is about to save what it made of the source. */
  ghost predicate LateSave(w: World) { w.run.Some? && (w.run.value.pc.SaveRouted? || w.run.value.pc.SaveRetired?) }

  /** The journal it is about to save. */
  function Upcoming(w: World): Option<Record>
    requires w.run.Some?
  {
    var r := w.run.value;
    if r.pc.SaveRetired? && r.record.Some? then Some(r.record.value.(phase := Retired)) else r.record
  }

  ghost predicate Rewriting(pc: Pc) { Rewritten(pc) || pc.WriteRoute? || pc.WriteRetired? }

  /** The source bears neither the journal's stamp nor one that is about to be journalled, and the
      process is not inside a rewrite. */
  ghost predicate Held(w: World) {
    && w.journal.Some? && !Unmoved(w.files, w.journal.value.sourcePath, w.journal.value.stamp)
    && (w.run.Some? ==>
          && !InWrite(w.run.value.pc)
          && (w.run.value.pc.SaveRouted? && w.run.value.record.Some? ==>
                !Unmoved(w.files, w.journal.value.sourcePath, w.run.value.record.value.stamp)))
  }

  ghost predicate Moved(w: World) { Held(w) && !LateSave(w) }

  lemma HeldOther(w: World, a: Action)
    requires Safe(w) && Held(w) && a != Script
    ensures Held(Step(w, a)) && Step(w, a).journal == w.journal
    ensures LateSave(Step(w, a)) ==> LateSave(w) && Step(w, a).run == w.run
  {
    if a.Edit? { HeldEdit(w, a.path, a.text); }
  }

  lemma HeldEdit(w: World, path: Path, text: Option<string>)
    requires Safe(w) && w.journal.Some?
    requires Held(w) || (path == w.journal.value.sourcePath && (w.run.Some? ==> !InWrite(w.run.value.pc)))
    ensures Held(EditFile(w, path, text))
  {
    KeyEditMoved(w, path, text);
  }

  lemma MovedScript(w: World)
    requires Safe(w) && Moved(w)
    ensures Moved(ScriptStep(w)) && ScriptStep(w).journal == w.journal && ScriptStep(w).files == w.files
  {
    FileFrame(w);
    JournalFrame(w);
    if w.run.Some? {
      var r := w.run.value;
      StampFails(w, r);
      if CanStep(w) {
        if Acts(r.pc) { ActEntersRewrite(w, r); } else { LookEntersRewrite(w, r); }
      }
    }
  }

  lemma StampFails(w: World, r: Run)
    requires Safe(w) && Moved(w) && w.run == Some(r)
    ensures !StampHolds(w, r) || !(r.pc.StampRoute? || r.pc.StampRetire? || r.pc.StampAgain?)
    ensures !r.pc.SaveSending?
  {
  }

  lemma SavesUpcoming(w: World)
    requires Safe(w) && Held(w) && LateSave(w)
    ensures Moved(ScriptStep(w)) && ScriptStep(w).journal == Upcoming(w) && ScriptStep(w).files == w.files
  {
  }

  lemma {:induction false} MovedForever(w: World, actions: seq<Action>)
    requires Safe(w) && KeySafe(w) && Moved(w)
    ensures NeverWrites(w, actions) && Exec(w, actions).journal == w.journal
    decreases |actions|
  {
    if actions == [] {
    } else {
      SafeStep(w, actions[0]);
      if actions[0] == Script { MovedScript(w); } else { HeldOther(w, actions[0]); }
      MovedForever(Step(w, actions[0]), actions[1..]);
    }
  }

  lemma {:induction false} HeldForever(w: World, actions: seq<Action>)
    requires Safe(w) && KeySafe(w) && Held(w)
    ensures NeverWrites(w, actions)
    ensures Exec(w, actions).journal == w.journal || (LateSave(w) && Exec(w, actions).journal == Upcoming(w))
    decreases |actions|
  {
    if actions == [] {
    } else if !LateSave(w) {
      MovedForever(w, actions);
    } else {
      SafeStep(w, actions[0]);
      if actions[0] == Script {
        SavesUpcoming(w);
        MovedForever(Step(w, Script), actions[1..]);
      } else {
        HeldOther(w, actions[0]);
        HeldForever(Step(w, actions[0]), actions[1..]);
      }
    }
  }

  /** An edit of the source is never lost, unless it falls between a stamp check and the rewrite it
      guards, or between the route write and its stamp: from then on the process writes no env file,
      whatever runs follow, and the journal stays as it is or becomes the one that was about to be
      saved. */
  lemma EditHolds(w0: World, before: seq<Action>, text: Option<string>, after: seq<Action>)
    requires Init(w0)
    requires var w := Exec(w0, before); w.journal.Some? && (w.run.Some? ==> !InWrite(w.run.value.pc))
    ensures var w := Exec(w0, before);
      var edited := Step(w, Edit(w.journal.value.sourcePath, text));
      && NeverWrites(edited, after)
      && (Exec(edited, after).journal == w.journal || (LateSave(w) && Exec(edited, after).journal == Upcoming(w)))
  {
    Reachable(w0, before);
    var w := Exec(w0, before);
    var a := Edit(w.journal.value.sourcePath, text);
    SafeStep(w, a);
    HeldEdit(w, a.path, text);
    HeldForever(Step(w, a), after);
  }

  /** An apply run has stamped the source and not yet journalled it. */
  ghost predicate Early(w: World) {
    && w.journal.None? && w.run.Some? && w.run.value.args.mode == Apply
    && (w.run.value.pc.GetStatus? || w.run.value.pc.GetIdentity? || w.run.value.pc.JournalExists?
        || w.run.value.pc.SaveSending?)
  }

  ghost predicate EarlyMoved(w: World) {
    Early(w) && !Unmoved(w.files, w.run.value.args.envFile, w.run.value.before)
  }

  /** No process is at work and none has journalled: the next one reads the source afresh. */
  ghost predicate Afresh(w: World) { w.journal.None? && Idle(w) }

  /** No step of the process changes any env file, unless its run is over without having journalled. */
  ghost predicate NeverOverwrites(w: World, actions: seq<Action>)
    decreases |actions|
  {
    actions == [] || Afresh(w) ||
    ((actions[0] == Script ==> Step(w, Script).files == w.files) && NeverOverwrites(Step(w, actions[0]), actions[1..]))
  }

  lemma {:induction false} NeverWritesIsStronger(w: World, actions: seq<Action>)
    requires NeverWrites(w, actions)
    ensures NeverOverwrites(w, actions)
    decreases |actions|
  {
    if actions == [] {
    } else {
      NeverWritesIsStronger(Step(w, actions[0]), actions[1..]);
    }
  }

  lemma EarlyEdit(w: World, path: Path, text: Option<string>)
    requires Safe(w) && Early(w) && (EarlyMoved(w) || path == w.run.value.args.envFile)
    ensures EarlyMoved(EditFile(w, path, text))
  {
  }

  lemma EarlyStep(w: World, a: Action)
    requires Safe(w) && KeySafe(w) && EarlyMoved(w)
    ensures a == Script ==> Step(w, a).files == w.files
    ensures EarlyMoved(Step(w, a)) || Afresh(Step(w, a)) || Moved(Step(w, a))
  {
    if a == Script {
      EarlyScript(w);
    } else if a.Edit? {
      EarlyEdit(w, a.path, a.text);
    } else {
      EarlyOther(w, a);
    }
  }

  lemma EarlyOther(w: World, a: Action)
    requires EarlyMoved(w) && a != Script && !a.Edit?
    ensures EarlyMoved(OtherStep(w, a)) || Afresh(OtherStep(w, a))
  {
  }

  lemma EarlyScript(w: World)
    requires Safe(w) && KeySafe(w) && EarlyMoved(w)
    ensures ScriptStep(w).files == w.files
    ensures EarlyMoved(ScriptStep(w)) || Afresh(ScriptStep(w)) || Moved(ScriptStep(w))
  {
  }

  lemma {:induction false} EarlyForever(w: World, actions: seq<Action>)
    requires Safe(w) && KeySafe(w) && EarlyMoved(w)
    ensures NeverOverwrites(w, actions)
    decreases |actions|
  {
    if actions == [] {
    } else {
      var v := Step(w, actions[0]);
      SafeStep(w, actions[0]);
      EarlyStep(w, actions[0]);
      if EarlyMoved(v) {
        EarlyForever(v, actions[1..]);
      } else if !Afresh(v) {
        MovedForever(v, actions[1..]);
        NeverWritesIsStronger(v, actions[1..]);
      }
    }
  }

  /** An edit of the source between an apply run's stamp and the journal it saves is not lost either: from then
      on the process writes no env file, unless that run is over before it has journalled, and the next one
      reads the edit. */
  lemma EarlyEditHolds(w0: World, before: seq<Action>, text: Option<string>, after: seq<Action>)
    requires Init(w0) && Early(Exec(w0, before))
    ensures var w := Exec(w0, before); NeverOverwrites(Step(w, Edit(w.run.value.args.envFile, text)), after)
  {
    Reachable(w0, before);
    var w := Exec(w0, before);
    SafeStep(w, Edit(w.run.value.args.envFile, text));
    EarlyEdit(w, w.run.value.args.envFile, text);
    EarlyForever(Step(w, Edit(w.run.value.args.envFile, text)), after);
  }

  /** A crash between a source rewrite and the journal save that should follow it leads only to
      refusals: no later run writes the source or moves the journal. */
  lemma CrashAfterRewriteHolds(w0: World, before: seq<Action>, after: seq<Action>)
    requires Init(w0)
    requires var w := Exec(w0, before); w.run.Some? && Rewritten(w.run.value.pc)
    ensures var crashed := Step(Exec(w0, before), Crash);
      NeverWrites(crashed, after) && Exec(crashed, after).journal == crashed.journal
  {
    Reachable(w0, before);
    SafeStep(Exec(w0, before), Crash);
    MovedForever(Step(Exec(w0, before), Crash), after);
  }

  lemma RetiredStep(w: World, a: Action)
    requires Safe(w) && w.journal.Some? && w.journal.value.phase == Retired
    ensures Step(w, a).journal == w.journal
    ensures a == Script ==> Step(w, a).files == w.files
  {
    if a == Script {
      RetiredTied(w);
      FileFrame(w);
      JournalFrame(w);
    }
  }

  lemma RetiredTied(w: World)
    requires Safe(w) && w.journal.Some? && w.journal.value.phase == Retired
    ensures w.run.Some? ==> !Rewriting(w.run.value.pc) && !w.run.value.pc.SaveSending?
  {
  }

  /** A retired journal is final: no later run writes anything. */
  lemma {:induction false} RetiredForever(w: World, actions: seq<Action>)
    requires Safe(w) && KeySafe(w) && w.journal.Some? && w.journal.value.phase == Retired
    ensures NeverWrites(w, actions) && Exec(w, actions).journal == w.journal
    decreases |actions|
  {
    if actions == [] {
    } else {
      RetiredStep(w, actions[0]);
      SafeStep(w, actions[0]);
      RetiredForever(Step(w, actions[0]), actions[1..]);
    }
  }
}
