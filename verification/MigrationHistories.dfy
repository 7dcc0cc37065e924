/** Whole histories of the Go credential migration: it can complete, and each race is real. */
module MigrationHistories {
  import opened Options
  import opened EnvText
  import opened Migration
  import opened MigrationTheorems

  const ENV: Path := "env"
  const ID := "vault"

  /** An env file and a process environment that define a key for the supported upstream, and the vault's
      URL. */
  datatype Story = Story(
    text: string, url: string, environ: map<string, string>, name: string, key: string, owner: Owner)

  ghost predicate Tellable(s: Story) {
    && Effective(s.text, s.environ) == Found(s.name, s.key, s.owner) && s.key != ""
    && TrimSlashes(Upstream(s.text, s.environ)) == GO_UPSTREAM
  }

  function ArgsOf(s: Story, mode: Mode): Args {
    Args(mode, ENV, s.url, true, true, true, mode == Reconcile, s.environ)
  }

  function Start(s: Story): World {
    World(map[ENV := File(s.text, 0)], 1, None, Vault(Some(ID), NO_ENTRY), 1, 0, None, None, None, None, [], map[], {})
  }

  // ---------------------------------------------------------------- putting steps together

  lemma {:induction false} ExecJoins(w: World, a: seq<Action>, b: seq<Action>)
    ensures Exec(w, a + b) == Exec(Exec(w, a), b)
    decreases |a|
  {
    if a == [] {
      assert a + b == b;
    } else {
      assert (a + b)[0] == a[0] && (a + b)[1..] == a[1..] + b;
      ExecJoins(Step(w, a[0]), a[1..], b);
    }
  }

  lemma OneStep(w: World, a: Action)
    ensures Exec(w, [a]) == Step(w, a)
  {
    assert [a][1..] == [];
  }

  lemma TwoSteps(w: World, a: Action, b: Action)
    ensures Exec(w, [a, b]) == Step(Step(w, a), b)
  {
    assert [a, b][1..] == [b];
    OneStep(Step(w, a), b);
  }

  /** A step that only looks changes only the process. */
  lemma Looks(w: World, now: Run, next: Run)
    requires !Acts(now.pc) && !now.pc.Ended? && (NeedsRecord(now.pc) ==> now.record.Some?)
    requires Look(w.(run := Some(now)), now) == next
    ensures Step(w.(run := Some(now)), Script) == w.(run := Some(next))
  {
  }

  lemma Acting(w: World, r: Run)
    requires w.run == Some(r) && Acts(r.pc) && (NeedsRecord(r.pc) ==> r.record.Some?)
    ensures Step(w, Script) == Act(w, r)
  {
  }

  // ---------------------------------------------------------------- the stations of an apply run

  function ReadingRun(s: Story): Run { NewRun(ArgsOf(s, Apply)).(text := s.text, pc := StampBefore) }

  /** The source is read and not yet stamped. */
  function AtRead(s: Story): World { Start(s).(run := Some(ReadingRun(s))) }

  lemma ToRead(s: Story)
    ensures Exec(Start(s), [Launch(ArgsOf(s, Apply)), Script]) == AtRead(s)
  {
    TwoSteps(Start(s), Launch(ArgsOf(s, Apply)), Script);
  }

  function StampedRun(s: Story, f: File): Run {
    ReadingRun(s).(before := f.stamp, credential := Found(s.name, s.key, s.owner), pc := GetStatus)
  }

  /** The source is stamped; `f` is the file that stands there then. */
  function AtStamped(s: Story, f: File, raced: set<Window>): World {
    Start(s).(files := map[ENV := f], nextStamp := f.stamp + 1, run := Some(StampedRun(s, f)), raced := raced)
  }

  lemma ToStamped(s: Story)
    requires Tellable(s)
    ensures Exec(AtRead(s), [Script]) == AtStamped(s, File(s.text, 0), {})
  {
    OneStep(AtRead(s), Script);
  }

  lemma ToStampedRaced(s: Story, edit: string)
    requires Tellable(s)
    ensures Exec(AtRead(s), [Edit(ENV, Some(edit)), Script]) == AtStamped(s, File(edit, 1), {ReadThenStamp})
  {
    EditAtRead(s, edit);
    TwoSteps(AtRead(s), Edit(ENV, Some(edit)), Script);
  }

  lemma EditAtRead(s: Story, edit: string)
    ensures Step(AtRead(s), Edit(ENV, Some(edit)))
            == AtRead(s).(files := map[ENV := File(edit, 1)], nextStamp := 2, raced := {ReadThenStamp})
  {
    assert map[ENV := File(s.text, 0)][ENV := File(edit, 1)] == map[ENV := File(edit, 1)];
    assert {} + {ReadThenStamp} == {ReadThenStamp};
  }

  function Journalled(s: Story, f: File): Record {
    Record(ID, ENV, s.url, s.name, s.owner, Ours(0), Sending, f.stamp, None)
  }

  function SendRun(s: Story, f: File): Run {
    StampedRun(s, f).(status := NO_ENTRY, vaultId := Some(ID), record := Some(Journalled(s, f)), pc := SendPost)
  }

  /** The journal is saved and the key is about to be sent. */
  function AtSend(s: Story, f: File, raced: set<Window>): World {
    AtStamped(s, f, raced).(journal := Some(Journalled(s, f)), nextOperation := 1, run := Some(SendRun(s, f)))
  }

  function AskedRun(s: Story, f: File): Run {
    StampedRun(s, f).(status := NO_ENTRY, vaultId := Some(ID), pc := JournalExists)
  }

  lemma ToAsked(s: Story, f: File, raced: set<Window>)
    ensures Exec(AtStamped(s, f, raced), [Script, Script]) == AtStamped(s, f, raced).(run := Some(AskedRun(s, f)))
  {
    var w := AtStamped(s, f, raced);
    Looks(w, StampedRun(s, f), AskedRun(s, f).(pc := GetIdentity));
    Looks(w, AskedRun(s, f).(pc := GetIdentity), AskedRun(s, f));
    TwoSteps(w, Script, Script);
  }

  lemma ToDrawn(s: Story, f: File, raced: set<Window>)
    requires Tellable(s)
    ensures Step(AtStamped(s, f, raced).(run := Some(AskedRun(s, f))), Script)
            == AtStamped(s, f, raced).(nextOperation := 1, run := Some(SendRun(s, f).(pc := SaveSending)))
  {
    var w := AtStamped(s, f, raced).(run := Some(AskedRun(s, f)));
    assert MaySend(AskedRun(s, f)) && NewRecord(w, AskedRun(s, f)) == Journalled(s, f);
    assert ScriptStep(w) == DoJournalExists(w, AskedRun(s, f));
  }

  lemma ToSend(s: Story, f: File, raced: set<Window>)
    requires Tellable(s)
    ensures Exec(AtStamped(s, f, raced), [Script, Script] + [Script, Script]) == AtSend(s, f, raced)
  {
    var w := AtStamped(s, f, raced).(run := Some(AskedRun(s, f)));
    ToAsked(s, f, raced);
    ToDrawn(s, f, raced);
    TwoSteps(w, Script, Script);
    ExecJoins(AtStamped(s, f, raced), [Script, Script], [Script, Script]);
  }

  function Stored(s: Story): Entry { Entry(true, 1, Some(Ours(0)), s.key) }

  function Bound(s: Story, f: File): Record { Journalled(s, f).(generation := Some(1)) }

  function RouteRun(s: Story, f: File): Run {
    SendRun(s, f).(record := Some(Bound(s, f)), entry := Some(Stored(s)), pc := StampRoute)
  }

  /** The vault holds the key under the journal's operation; the source is still to be routed. */
  function AtStampRoute(s: Story, f: File, raced: set<Window>): World {
    AtSend(s, f, raced).(vault := Vault(Some(ID), Stored(s)), nextGeneration := 2, reply := Some(true),
                         posts := [Post(s.key, 0, ID, Ours(0))], commits := map[1 := Commit(Ours(0), s.key)],
                         run := Some(RouteRun(s, f)))
  }

  function AwaitRun(s: Story, f: File): Run { SendRun(s, f).(pc := AwaitPost) }

  lemma ToCommitted(s: Story, f: File, raced: set<Window>)
    ensures Exec(AtSend(s, f, raced), [Script, Deliver]) == AtStampRoute(s, f, raced).(run := Some(AwaitRun(s, f)))
  {
    var w, post := AtSend(s, f, raced), Post(s.key, 0, ID, Ours(0));
    var w1 := w.(inflight := Some(post), posts := [post], run := Some(AwaitRun(s, f)));
    assert DoSendPost(w, SendRun(s, f)) == w1;
    assert DeliverPost(w1) == AtStampRoute(s, f, raced).(run := Some(AwaitRun(s, f)));
    TwoSteps(w, Script, Deliver);
  }

  lemma ToStampRoute(s: Story, f: File, raced: set<Window>)
    ensures Exec(AtSend(s, f, raced), [Script, Deliver] + [Script, Script]) == AtStampRoute(s, f, raced)
  {
    var w := AtStampRoute(s, f, raced);
    ToCommitted(s, f, raced);
    Looks(w, AwaitRun(s, f), AwaitRun(s, f).(pc := GetEntry));
    Looks(w, AwaitRun(s, f).(pc := GetEntry), RouteRun(s, f));
    TwoSteps(w.(run := Some(AwaitRun(s, f))), Script, Script);
    ExecJoins(AtSend(s, f, raced), [Script, Deliver], [Script, Script]);
  }

  /** The stamp has been checked and the source is about to be rewritten. */
  function AtWriteRoute(s: Story, f: File, raced: set<Window>): World {
    AtStampRoute(s, f, raced).(run := Some(RouteRun(s, f).(pc := WriteRoute)))
  }

  lemma ToWriteRoute(s: Story, f: File, raced: set<Window>)
    ensures Exec(AtStampRoute(s, f, raced), [Script]) == AtWriteRoute(s, f, raced)
  {
    OneStep(AtStampRoute(s, f, raced), Script);
  }

  /** The source is rewritten and not yet stamped; `g` is the file that stands there. */
  function AtStampWritten(s: Story, f: File, g: File, raced: set<Window>): World {
    AtWriteRoute(s, f, raced).(files := map[ENV := g], nextStamp := g.stamp + 1,
                               run := Some(RouteRun(s, f).(pc := StampWritten)))
  }

  lemma WriteRouteHas(s: Story, f: File, raced: set<Window>)
    ensures AtWriteRoute(s, f, raced).files == map[ENV := f] && AtWriteRoute(s, f, raced).nextStamp == f.stamp + 1
  {
  }

  /** The route write over whatever file `f` stands there. */
  lemma Writes(w: World, r: Run, f: File, g: File)
    requires w.run == Some(r) && r.pc == WriteRoute && w.files == map[r.args.envFile := f]
    requires g == File(WithRoute(r.text, r.args.vaultUrl), w.nextStamp)
    ensures Step(w, Script)
            == w.(files := map[r.args.envFile := g], nextStamp := g.stamp + 1, run := Some(r.(pc := StampWritten)))
  {
    Acting(w, r);
    assert map[r.args.envFile := f][r.args.envFile := g] == map[r.args.envFile := g];
  }

  lemma ToStampWritten(s: Story, f: File, raced: set<Window>)
    ensures Exec(AtWriteRoute(s, f, raced), [Script])
            == AtStampWritten(s, f, File(WithRoute(s.text, s.url), f.stamp + 1), raced)
  {
    var w, r := AtWriteRoute(s, f, raced), RouteRun(s, f).(pc := WriteRoute);
    WriteRouteHas(s, f, raced);
    Writes(w, r, f, File(WithRoute(s.text, s.url), f.stamp + 1));
    OneStep(w, Script);
  }

  function RoutedRecord(s: Story, g: File): Record {
    Journalled(s, g).(generation := Some(1), phase := AwaitingNodeRoute)
  }

  /** The apply run is over: the journal awaits the node, under the stamp of `g`. */
  function AtRouted(s: Story, f: File, g: File, raced: set<Window>): World {
    AtStampWritten(s, f, g, raced).(journal := Some(RoutedRecord(s, g)),
                                    run := Some(RouteRun(s, f).(record := Some(RoutedRecord(s, g)), pc := Ended(true))))
  }

  lemma ToRouted(s: Story, f: File, g: File, raced: set<Window>)
    ensures Exec(AtStampWritten(s, f, g, raced), [Script, Script]) == AtRouted(s, f, g, raced)
  {
    var w := AtStampWritten(s, f, g, raced);
    assert Step(w, Script) == w.(run := Some(RouteRun(s, f).(record := Some(RoutedRecord(s, g)), pc := SaveRouted)));
    TwoSteps(w, Script, Script);
  }

  // ---------------------------------------------------------------- the stations of a reconcile run

  function NodeRoute(s: Story): Route { Route("vault", s.url, ID, 1) }

  /** The world a reconcile run finds after such an apply run, whatever else is in it. */
  ghost predicate Awaits(v: World, s: Story, g: File) {
    && v.journal == Some(RoutedRecord(s, g)) && v.vault == Vault(Some(ID), Stored(s))
    && v.node == Some(NodeRoute(s)) && ENV in v.files && v.files[ENV] == g
  }

  function LaunchedRun(s: Story): Run { NewRun(ArgsOf(s, Reconcile)) }

  function StatusRun(s: Story, g: File): Run {
    LaunchedRun(s).(text := g.text, before := g.stamp, credential := Effective(g.text, s.environ), pc := GetStatus)
  }

  function JournalRun(s: Story, g: File): Run {
    StatusRun(s, g).(status := Stored(s), vaultId := Some(ID), pc := ReadJournal)
  }

  function NodeRun(s: Story, g: File): Run {
    JournalRun(s, g).(record := Some(RoutedRecord(s, g)), entry := Some(Stored(s)), pc := GetNode)
  }

  function RereadRun(s: Story, g: File): Run { NodeRun(s, g).(node := Some(NodeRoute(s)), pc := Reread) }

  /** Both checks are past and the aliases are about to be retired. */
  function RetireRun(s: Story, g: File): Run { RereadRun(s, g).(reread := g.text, pc := WriteRetired) }

  lemma ToStatus(v: World, s: Story, g: File)
    requires Awaits(v, s, g)
    ensures Exec(v.(run := Some(LaunchedRun(s))), [Script, Script]) == v.(run := Some(StatusRun(s, g)))
  {
    var r := LaunchedRun(s).(text := g.text, pc := StampBefore);
    Looks(v, LaunchedRun(s), r);
    Looks(v, r, StatusRun(s, g));
    TwoSteps(v.(run := Some(LaunchedRun(s))), Script, Script);
  }

  lemma ToJournal(v: World, s: Story, g: File)
    requires Awaits(v, s, g)
    ensures Exec(v.(run := Some(StatusRun(s, g))), [Script, Script]) == v.(run := Some(JournalRun(s, g)))
  {
    Looks(v, StatusRun(s, g), JournalRun(s, g).(pc := GetIdentity));
    Looks(v, JournalRun(s, g).(pc := GetIdentity), JournalRun(s, g));
    TwoSteps(v.(run := Some(StatusRun(s, g))), Script, Script);
  }

  function EntryRun(s: Story, g: File): Run { JournalRun(s, g).(record := Some(RoutedRecord(s, g)), pc := GetEntry) }

  lemma LookJournal(v: World, s: Story, g: File)
    requires Awaits(v, s, g)
    ensures Step(v.(run := Some(JournalRun(s, g))), Script) == v.(run := Some(EntryRun(s, g)))
  {
    Looks(v, JournalRun(s, g), EntryRun(s, g));
  }

  lemma LookEntry(v: World, s: Story, g: File)
    requires Awaits(v, s, g)
    ensures Step(v.(run := Some(EntryRun(s, g))), Script) == v.(run := Some(NodeRun(s, g)))
  {
    Looks(v, EntryRun(s, g), NodeRun(s, g));
  }

  lemma ToNode(v: World, s: Story, g: File)
    requires Awaits(v, s, g)
    ensures Exec(v.(run := Some(JournalRun(s, g))), [Script, Script]) == v.(run := Some(NodeRun(s, g)))
  {
    LookJournal(v, s, g);
    LookEntry(v, s, g);
    TwoSteps(v.(run := Some(JournalRun(s, g))), Script, Script);
  }

  lemma LookNode(v: World, s: Story, g: File)
    requires Awaits(v, s, g)
    ensures Step(v.(run := Some(NodeRun(s, g))), Script) == v.(run := Some(RereadRun(s, g).(pc := StampRetire)))
  {
    Looks(v, NodeRun(s, g), RereadRun(s, g).(pc := StampRetire));
  }

  lemma LookStamp(v: World, s: Story, g: File)
    requires Awaits(v, s, g)
    ensures Step(v.(run := Some(RereadRun(s, g).(pc := StampRetire))), Script) == v.(run := Some(RereadRun(s, g)))
  {
    Looks(v, RereadRun(s, g).(pc := StampRetire), RereadRun(s, g));
  }

  lemma ToReread(v: World, s: Story, g: File)
    requires Awaits(v, s, g)
    ensures Exec(v.(run := Some(NodeRun(s, g))), [Script, Script]) == v.(run := Some(RereadRun(s, g)))
  {
    LookNode(v, s, g);
    LookStamp(v, s, g);
    TwoSteps(v.(run := Some(NodeRun(s, g))), Script, Script);
  }

  lemma LookSource(v: World, s: Story, g: File)
    requires Awaits(v, s, g)
    ensures Step(v.(run := Some(RereadRun(s, g))), Script) == v.(run := Some(RetireRun(s, g).(pc := StampAgain)))
  {
    Looks(v, RereadRun(s, g), RetireRun(s, g).(pc := StampAgain));
  }

  lemma LookAgain(v: World, s: Story, g: File)
    requires Awaits(v, s, g)
    ensures Step(v.(run := Some(RetireRun(s, g).(pc := StampAgain))), Script) == v.(run := Some(RetireRun(s, g)))
  {
    Looks(v, RetireRun(s, g).(pc := StampAgain), RetireRun(s, g));
  }

  lemma ToRetire(v: World, s: Story, g: File)
    requires Awaits(v, s, g)
    ensures Exec(v.(run := Some(RereadRun(s, g))), [Script, Script]) == v.(run := Some(RetireRun(s, g)))
  {
    LookSource(v, s, g);
    LookAgain(v, s, g);
    TwoSteps(v.(run := Some(RereadRun(s, g))), Script, Script);
  }

  const PAIR: seq<Action> := [Script, Script]
  const TEN: seq<Action> := PAIR + PAIR + PAIR + PAIR + PAIR

  lemma ReconcileReaches(v: World, s: Story, g: File)
    requires Awaits(v, s, g)
    ensures Exec(v.(run := Some(LaunchedRun(s))), TEN) == v.(run := Some(RetireRun(s, g)))
  {
    var w := v.(run := Some(LaunchedRun(s)));
    ToStatus(v, s, g);
    ToJournal(v, s, g);
    ToNode(v, s, g);
    ToReread(v, s, g);
    ToRetire(v, s, g);
    ExecJoins(w, PAIR, PAIR);
    ExecJoins(w, PAIR + PAIR, PAIR);
    ExecJoins(w, PAIR + PAIR + PAIR, PAIR);
    ExecJoins(w, PAIR + PAIR + PAIR + PAIR, PAIR);
  }

  // ---------------------------------------------------------------- the races

  /** A line that someone else adds and that is not the route's. */
  ghost predicate Added(s: Story, edit: string, l: string) {
    l in SplitLines(edit) && l !in SplitLines(s.text) && KeyPart(l) != ROUTE && l != ""
  }

  lemma RouteLineNamed(url: string)
    ensures KeyPart(ROUTE + "=" + url) == ROUTE
  {
    RoutePlain();
    BeforeEq(ROUTE, url);
  }

  /** A line that was not there is not there after the route write either. */
  lemma RouteAddsNothing(text: string, url: string, l: string)
    requires OneLine(url) && l !in SplitLines(text) && KeyPart(l) != ROUTE
    ensures l !in SplitLines(WithRoute(text, url))
  {
    var kept, last := KeptLines(text, {ROUTE}), ROUTE + "=" + url;
    WithoutMember(SplitLines(text), {ROUTE}, l);
    RouteLineNamed(url);
    RouteFileLines(text, url);
  }

  lemma RouteFileLines(text: string, url: string)
    requires OneLine(url)
    ensures SplitLines(WithRoute(text, url)) == KeptLines(text, {ROUTE}) + [ROUTE + "=" + url]
  {
    var kept, last := KeptLines(text, {ROUTE}), ROUTE + "=" + url;
    RoutePlain();
    SplitFileText(kept + [last]);
  }

  const SENDING: seq<Action> := PAIR + PAIR
  const COMMITTING: seq<Action> := [Script, Deliver] + PAIR

  lemma ReachStamped(s: Story)
    requires Tellable(s)
    ensures Exec(Start(s), [Launch(ArgsOf(s, Apply)), Script] + [Script]) == AtStamped(s, File(s.text, 0), {})
  {
    ToRead(s);
    ToStamped(s);
    ExecJoins(Start(s), [Launch(ArgsOf(s, Apply)), Script], [Script]);
  }

  lemma ReachStampedRaced(s: Story, edit: string)
    requires Tellable(s)
    ensures Exec(Start(s), [Launch(ArgsOf(s, Apply)), Script] + [Edit(ENV, Some(edit)), Script])
            == AtStamped(s, File(edit, 1), {ReadThenStamp})
  {
    ToRead(s);
    ToStampedRaced(s, edit);
    ExecJoins(Start(s), [Launch(ArgsOf(s, Apply)), Script], [Edit(ENV, Some(edit)), Script]);
  }

  /** From the stamp to the route write. */
  lemma ReachWriteRoute(s: Story, f: File, raced: set<Window>)
    requires Tellable(s)
    ensures Exec(AtStamped(s, f, raced), SENDING + COMMITTING + [Script]) == AtWriteRoute(s, f, raced)
  {
    var w := AtStamped(s, f, raced);
    ToSend(s, f, raced);
    ToStampRoute(s, f, raced);
    ToWriteRoute(s, f, raced);
    ExecJoins(w, SENDING, COMMITTING);
    ExecJoins(w, SENDING + COMMITTING, [Script]);
  }

  /** The history up to the route write, with or without an edit in the read window. */
  function ToTheWrite(s: Story, edits: seq<Action>): seq<Action> {
    [Launch(ArgsOf(s, Apply)), Script] + (edits + [Script]) + (SENDING + COMMITTING + [Script])
  }

  lemma UnracedToTheWrite(s: Story)
    requires Tellable(s)
    ensures Exec(Start(s), ToTheWrite(s, [])) == AtWriteRoute(s, File(s.text, 0), {})
  {
    ReachStamped(s);
    ReachWriteRoute(s, File(s.text, 0), {});
    assert [] + [Script] == [Script];
    ExecJoins(Start(s), [Launch(ArgsOf(s, Apply)), Script] + [Script], SENDING + COMMITTING + [Script]);
  }

  lemma RacedToTheWrite(s: Story, edit: string)
    requires Tellable(s)
    ensures Exec(Start(s), ToTheWrite(s, [Edit(ENV, Some(edit))])) == AtWriteRoute(s, File(edit, 1), {ReadThenStamp})
  {
    ReachStampedRaced(s, edit);
    ReachWriteRoute(s, File(edit, 1), {ReadThenStamp});
    assert [Edit(ENV, Some(edit))] + [Script] == [Edit(ENV, Some(edit)), Script];
    ExecJoins(Start(s), [Launch(ArgsOf(s, Apply)), Script] + [Edit(ENV, Some(edit)), Script],
              SENDING + COMMITTING + [Script]);
  }

  function EditTo(edit: string): Action { Edit(ENV, Some(edit)) }

  lemma RoutedHas(s: Story, f: File, g: File, raced: set<Window>)
    ensures var w := AtRouted(s, f, g, raced);
      && w.files == map[ENV := g] && w.run.Some? && w.run.value.pc == Ended(true)
      && w.journal == Some(RoutedRecord(s, g)) && w.commits == map[1 := Commit(Ours(0), s.key)]
  {
  }

  /** From the written source to the end of the apply run. */
  lemma FinishApply(w0: World, actions: seq<Action>, s: Story, f: File, g: File, raced: set<Window>)
    requires Exec(w0, actions) == AtStampWritten(s, f, g, raced)
    ensures Exec(w0, actions + PAIR) == AtRouted(s, f, g, raced)
  {
    ToRouted(s, f, g, raced);
    ExecJoins(w0, actions, PAIR);
  }

  lemma ApplyRaced(s: Story, edit: string)
    requires Tellable(s)
    ensures Exec(Start(s), ToTheWrite(s, [EditTo(edit)]) + [Script] + PAIR)
            == AtRouted(s, File(edit, 1), File(WithRoute(s.text, s.url), 2), {ReadThenStamp})
  {
    var first := ToTheWrite(s, [EditTo(edit)]);
    RacedToTheWrite(s, edit);
    ToStampWritten(s, File(edit, 1), {ReadThenStamp});
    ExecJoins(Start(s), first, [Script]);
    FinishApply(Start(s), first + [Script], s, File(edit, 1), File(WithRoute(s.text, s.url), 2), {ReadThenStamp});
  }

  /** The world at the end of a history whose edit is gone: the run ended well, and a line the edit had
      is not in the file. */
  ghost predicate EndsWithout(w: World, l: string) {
    w.run.Some? && w.run.value.pc == Ended(true) && ENV in w.files && l !in SplitLines(w.files[ENV].text)
  }

  lemma Regrouped(a: seq<Action>, edit: Action, c: seq<Action>)
    ensures a + [edit] + ([Script] + c + [Script] + PAIR) == a + ([edit] + [Script]) + c + [Script] + PAIR
  {
  }

  /** The first race: an edit between the read and the stamp is stamped, passes the later check, and is
      overwritten by a run that ends well. */
  lemma ReadWindowLosesEdit(s: Story, edit: string, l: string) returns (before: seq<Action>, after: seq<Action>)
    requires Tellable(s) && OneLine(s.url) && Added(s, edit, l)
    ensures Init(Start(s)) && Exec(Start(s), before).run.Some? && Exec(Start(s), before).run.value.pc == StampBefore
    ensures EndsWithout(Exec(Start(s), before + [EditTo(edit)] + after), l)
  {
    before, after := [Launch(ArgsOf(s, Apply)), Script], [Script] + (SENDING + COMMITTING + [Script]) + [Script] + PAIR;
    Regrouped(before, EditTo(edit), SENDING + COMMITTING + [Script]);
    ToRead(s);
    ApplyRaced(s, edit);
    RoutedHas(s, File(edit, 1), File(WithRoute(s.text, s.url), 2), {ReadThenStamp});
    RouteAddsNothing(s.text, s.url, l);
  }

  lemma EditedAtWriteRoute(s: Story, edit: string)
    ensures var w := AtWriteRoute(s, File(s.text, 0), {});
      Step(w, EditTo(edit)) == w.(files := map[ENV := File(edit, 1)], nextStamp := 2, raced := {CheckThenWrite})
  {
    var w := AtWriteRoute(s, File(s.text, 0), {});
    assert w.files == map[ENV := File(s.text, 0)];
    assert w.files[ENV := File(edit, 1)] == map[ENV := File(edit, 1)];
  }

  lemma EditAtWriteRoute(s: Story, edit: string)
    ensures var f := File(s.text, 0);
      Exec(AtWriteRoute(s, f, {}), [EditTo(edit), Script])
      == AtStampWritten(s, f, File(WithRoute(s.text, s.url), 2), {CheckThenWrite})
  {
    var w, r := AtWriteRoute(s, File(s.text, 0), {}), RouteRun(s, File(s.text, 0)).(pc := WriteRoute);
    var w1 := w.(files := map[ENV := File(edit, 1)], nextStamp := 2, raced := {CheckThenWrite});
    EditedAtWriteRoute(s, edit);
    Writes(w1, r, File(edit, 1), File(WithRoute(s.text, s.url), 2));
    TwoSteps(w, EditTo(edit), Script);
  }

  lemma ApplyOvertaken(s: Story, edit: string)
    requires Tellable(s)
    ensures Exec(Start(s), ToTheWrite(s, []) + [EditTo(edit), Script] + PAIR)
            == AtRouted(s, File(s.text, 0), File(WithRoute(s.text, s.url), 2), {CheckThenWrite})
  {
    var first := ToTheWrite(s, []);
    UnracedToTheWrite(s);
    EditAtWriteRoute(s, edit);
    ExecJoins(Start(s), first, [EditTo(edit), Script]);
    FinishApply(Start(s), first + [EditTo(edit), Script], s, File(s.text, 0), File(WithRoute(s.text, s.url), 2),
                {CheckThenWrite});
  }

  lemma EditThenScript(before: seq<Action>, edit: Action, after: seq<Action>)
    ensures before + [edit] + ([Script] + after) == before + [edit, Script] + after
  {
  }

  /** The second race: an edit between the stamp check and the route write is overwritten. */
  lemma CheckWindowLosesEdit(s: Story, edit: string, l: string) returns (before: seq<Action>, after: seq<Action>)
    requires Tellable(s) && OneLine(s.url) && Added(s, edit, l)
    ensures Init(Start(s)) && Exec(Start(s), before).run.Some? && Exec(Start(s), before).run.value.pc == WriteRoute
    ensures EndsWithout(Exec(Start(s), before + [EditTo(edit)] + after), l)
  {
    var f, g := File(s.text, 0), File(WithRoute(s.text, s.url), 2);
    before, after := ToTheWrite(s, []), [Script] + PAIR;
    EditThenScript(before, EditTo(edit), PAIR);
    UnracedToTheWrite(s);
    ApplyOvertaken(s, edit);
    RoutedHas(s, f, g, {CheckThenWrite});
    RouteAddsNothing(s.text, s.url, l);
  }

  lemma EditAtStampWritten(s: Story, edit: string)
    ensures var f := File(s.text, 0);
      Step(AtStampWritten(s, f, File(WithRoute(s.text, s.url), 1), {}), EditTo(edit))
      == AtStampWritten(s, f, File(edit, 2), {WriteThenStamp})
  {
    var w := AtStampWritten(s, File(s.text, 0), File(WithRoute(s.text, s.url), 1), {});
    assert w.files[ENV := File(edit, 2)] == map[ENV := File(edit, 2)];
  }

  lemma UnracedPastTheWrite(s: Story)
    requires Tellable(s)
    ensures Exec(Start(s), ToTheWrite(s, []) + [Script])
            == AtStampWritten(s, File(s.text, 0), File(WithRoute(s.text, s.url), 1), {})
  {
    UnracedToTheWrite(s);
    ToStampWritten(s, File(s.text, 0), {});
    ExecJoins(Start(s), ToTheWrite(s, []), [Script]);
  }

  /** The third race: an edit between the route write and its stamp is journalled as the route write. The
      run ends well, the journal waits for the node, and the stamp that later checks compare is the
      edit's. */
  lemma StampWindowTakesEdit(s: Story, edit: string) returns (before: seq<Action>, after: seq<Action>)
    requires Tellable(s)
    ensures Init(Start(s)) && Exec(Start(s), before).run.Some? && Exec(Start(s), before).run.value.pc == StampWritten
    ensures var w := Exec(Start(s), before + [EditTo(edit)] + after);
      && w.run.Some? && w.run.value.pc == Ended(true) && w.journal.Some? && w.journal.value.phase == AwaitingNodeRoute
      && ENV in w.files && w.files[ENV].text == edit && w.files[ENV].stamp == w.journal.value.stamp
  {
    var f, g := File(s.text, 0), File(WithRoute(s.text, s.url), 1);
    before, after := ToTheWrite(s, []) + [Script], PAIR;
    UnracedPastTheWrite(s);
    EditAtStampWritten(s, edit);
    OneStep(AtStampWritten(s, f, g, {}), EditTo(edit));
    ExecJoins(Start(s), before, [EditTo(edit)]);
    FinishApply(Start(s), before + [EditTo(edit)], s, f, File(edit, 2), {WriteThenStamp});
    RoutedHas(s, f, File(edit, 2), {WriteThenStamp});
  }

  // ---------------------------------------------------------------- retirement

  function Routed(s: Story): File { File(WithRoute(s.text, s.url), 1) }

  /** After the apply run, with the node routed. */
  function Ready(s: Story): World {
    AtRouted(s, File(s.text, 0), Routed(s), {}).(node := Some(NodeRoute(s)), reply := None)
  }

  function ToRetirement(s: Story): seq<Action> {
    ToTheWrite(s, []) + [Script] + PAIR + [NodeReports(Some(NodeRoute(s))), Launch(ArgsOf(s, Reconcile))] + TEN
  }

  lemma ReadyHas(s: Story)
    ensures var v := Ready(s);
      && Awaits(v, s, Routed(s)) && v.files == map[ENV := Routed(s)] && v.nextStamp == 2
      && v.commits == map[1 := Commit(Ours(0), s.key)] && v.raced == {}
  {
  }

  lemma ToReady(s: Story)
    ensures Exec(AtRouted(s, File(s.text, 0), Routed(s), {}),
                 [NodeReports(Some(NodeRoute(s))), Launch(ArgsOf(s, Reconcile))])
            == Ready(s).(run := Some(LaunchedRun(s)))
  {
    var w := AtRouted(s, File(s.text, 0), Routed(s), {});
    var report, launch := NodeReports(Some(NodeRoute(s))), Launch(ArgsOf(s, Reconcile));
    RoutedHas(s, File(s.text, 0), Routed(s), {});
    assert Step(w, report) == w.(node := Some(NodeRoute(s)));
    TwoSteps(w, report, launch);
  }

  /** Left alone, the migration reaches its retirement. */
  lemma ReachesRetirement(s: Story)
    requires Tellable(s)
    ensures Exec(Start(s), ToRetirement(s)) == Ready(s).(run := Some(RetireRun(s, Routed(s))))
  {
    var f, first := File(s.text, 0), ToTheWrite(s, []) + [Script];
    var launch := [NodeReports(Some(NodeRoute(s))), Launch(ArgsOf(s, Reconcile))];
    UnracedPastTheWrite(s);
    FinishApply(Start(s), first, s, f, Routed(s), {});
    ToReady(s);
    ExecJoins(Start(s), first + PAIR, launch);
    ReadyHas(s);
    ReconcileReaches(Ready(s), s, Routed(s));
    ExecJoins(Start(s), first + PAIR + launch, TEN);
  }

  /** What the last two steps leave: the reread text without the aliases, and a run that ended well. */
  lemma Retires(w: World, r: Run)
    requires w.run == Some(r) && r.pc == WriteRetired && r.record.Some?
    ensures var e := Exec(w, PAIR);
      && e.run.Some? && e.run.value.pc == Ended(true) && e.commits == w.commits
      && r.args.envFile in e.files && e.files[r.args.envFile].text == Retire(r.reread, RetiredNames(r.text))
  {
    TwoSteps(w, Script, Script);
    Acting(w, r);
    Acting(Act(w, r), r.(pc := SaveRetired));
  }

  lemma RetirementAddsNothing(text: string, url: string, l: string)
    requires OneLine(url) && l !in SplitLines(text) && KeyPart(l) != ROUTE && l != ""
    ensures var routed := WithRoute(text, url); l !in SplitLines(Retire(routed, RetiredNames(routed)))
  {
    var routed := WithRoute(text, url);
    RouteAddsNothing(text, url, l);
    RetireLines(routed, RetiredNames(routed), l);
  }

  lemma OvertakenRetirement(w: World, r: Run, edit: string)
    requires w.run == Some(r) && r.pc == WriteRetired && r.record.Some? && r.args.envFile == ENV
    ensures var e := Exec(Exec(w, [EditTo(edit)]), PAIR);
      && e.run.Some? && e.run.value.pc == Ended(true)
      && ENV in e.files && e.files[ENV].text == Retire(r.reread, RetiredNames(r.text))
  {
    OneStep(w, EditTo(edit));
    Retires(Step(w, EditTo(edit)), r);
  }

  /** The fourth race: an edit between the second stamp check and the retiring write is overwritten. */
  lemma RecheckWindowLosesEdit(s: Story, edit: string, l: string) returns (before: seq<Action>, after: seq<Action>)
    requires Tellable(s) && OneLine(s.url) && Added(s, edit, l)
    ensures Init(Start(s)) && Exec(Start(s), before).run.Some? && Exec(Start(s), before).run.value.pc == WriteRetired
    ensures EndsWithout(Exec(Start(s), before + [EditTo(edit)] + after), l)
  {
    before, after := ToRetirement(s), PAIR;
    ReachesRetirement(s);
    OvertakenRetirement(Ready(s).(run := Some(RetireRun(s, Routed(s)))), RetireRun(s, Routed(s)), edit);
    ExecJoins(Start(s), before, [EditTo(edit)]);
    ExecJoins(Start(s), before + [EditTo(edit)], PAIR);
    RetirementAddsNothing(s.text, s.url, l);
  }

  // ---------------------------------------------------------------- a shadowed alias

  /** An env file with both dedicated aliases. */
  function TwoKeys(a: string, b: string): string { FileText([GO_ALIASES[0] + "=" + a, GO_ALIASES[1] + "=" + b]) }

  lemma TwoKeysHas(a: string, b: string)
    requires CleanValue(a) && CleanValue(b)
    ensures var m := Parse(TwoKeys(a, b));
      && GO_ALIASES[0] in m && m[GO_ALIASES[0]] == a && GO_ALIASES[1] in m && m[GO_ALIASES[1]] == b
      && "WASM_AGENT_LLM_BASE_URL" !in m && "WASM_AGENT_OPENAI_BASE_URL" !in m
  {
    TwoNames();
    NamesDiffer();
    LookupTwo(GO_ALIASES[0], a, GO_ALIASES[1], b, GO_ALIASES[0]);
    LookupTwo(GO_ALIASES[0], a, GO_ALIASES[1], b, GO_ALIASES[1]);
    LookupTwo(GO_ALIASES[0], a, GO_ALIASES[1], b, "WASM_AGENT_LLM_BASE_URL");
    LookupTwo(GO_ALIASES[0], a, GO_ALIASES[1], b, "WASM_AGENT_OPENAI_BASE_URL");
  }

  /** The first alias is the effective one. */
  lemma TwoKeysTell(a: string, b: string, url: string)
    requires CleanValue(a) && CleanValue(b) && a != ""
    ensures Tellable(Story(TwoKeys(a, b), url, map[], GO_ALIASES[0], a, EnvFile))
  {
    TwoKeysHas(a, b);
    assert ALIASES[0] == GO_ALIASES[0];
    EffectiveIsFirst(ALIASES, Parse(TwoKeys(a, b)), map[], 0);
    UpstreamDefault(TwoKeys(a, b), map[]);
  }

  /** A value of it in the process environment is the effective one, whatever the file has. */
  lemma ProcessKeyTells(p: string, a: string, b: string, url: string)
    requires CleanValue(a) && CleanValue(b) && p != ""
    ensures Tellable(Story(TwoKeys(a, b), url, map[GO_ALIASES[0] := p], GO_ALIASES[0], p, ProcessEnvironment))
  {
    TwoKeysHas(a, b);
    NamesDiffer();
    assert ALIASES[0] == GO_ALIASES[0];
    EffectiveIsFirst(ALIASES, Parse(TwoKeys(a, b)), map[GO_ALIASES[0] := p], 0);
    UpstreamDefault(TwoKeys(a, b), map[GO_ALIASES[0] := p]);
  }

  lemma SecondRetires(text: string, url: string, n: string)
    requires n in GO_ALIASES && n in Parse(text)
    ensures var routed := WithRoute(text, url); n !in Parse(Retire(routed, RetiredNames(routed)))
  {
    var routed := WithRoute(text, url);
    RouteNames(text, url);
    RetiredName(text, n);
    RetireFrame(routed, RetiredNames(routed));
  }

  lemma ShadowedRetires(s: Story, n: string)
    requires Tellable(s) && n in GO_ALIASES && n in Parse(s.text)
    ensures var w := Exec(Start(s), ToRetirement(s) + PAIR);
      && w.run.Some? && w.run.value.pc == Ended(true) && ENV in w.files && n !in Parse(w.files[ENV].text)
      && w.commits == map[1 := Commit(Ours(0), s.key)]
  {
    ReachesRetirement(s);
    ReadyHas(s);
    ExecJoins(Start(s), ToRetirement(s), PAIR);
    Retires(Ready(s).(run := Some(RetireRun(s, Routed(s)))), RetireRun(s, Routed(s)));
    SecondRetires(s.text, s.url, n);
  }

  /** A key that is lost: with two dedicated aliases of different values, the undisturbed migration ends
      well, the second one is gone from the file, and no commit holds its value. */
  lemma ShadowedKeyLost(a: string, b: string, url: string) returns (s: Story, actions: seq<Action>)
    requires CleanValue(a) && CleanValue(b) && a != "" && a != b
    ensures Init(Start(s)) && s.url == url
    ensures GO_ALIASES[1] in Parse(s.text) && Parse(s.text)[GO_ALIASES[1]] == b
    ensures var w := Exec(Start(s), actions);
      && w.run.Some? && w.run.value.pc == Ended(true) && ENV in w.files
      && GO_ALIASES[1] !in Parse(w.files[ENV].text)
      && forall g :: g in w.commits ==> w.commits[g].key != b
  {
    s := Story(TwoKeys(a, b), url, map[], GO_ALIASES[0], a, EnvFile);
    actions := ToRetirement(s) + PAIR;
    TwoKeysHas(a, b);
    TwoKeysTell(a, b, url);
    ShadowedRetires(s, GO_ALIASES[1]);
  }

  /** Another: with a key in the process environment and another one in the file under the same name, the
      undisturbed migration posts the process's, ends well, and takes the file's, which no commit holds, out of
      the file. */
  lemma FileKeyLost(p: string, a: string, b: string, url: string) returns (s: Story, actions: seq<Action>)
    requires CleanValue(a) && CleanValue(b) && p != "" && p != a
    ensures Init(Start(s)) && s.url == url && s.environ == map[GO_ALIASES[0] := p]
    ensures GO_ALIASES[0] in Parse(s.text) && Parse(s.text)[GO_ALIASES[0]] == a
    ensures var w := Exec(Start(s), actions);
      && w.run.Some? && w.run.value.pc == Ended(true) && ENV in w.files
      && GO_ALIASES[0] !in Parse(w.files[ENV].text)
      && forall g :: g in w.commits ==> w.commits[g].key == p
  {
    s := Story(TwoKeys(a, b), url, map[GO_ALIASES[0] := p], GO_ALIASES[0], p, ProcessEnvironment);
    actions := ToRetirement(s) + PAIR;
    TwoKeysHas(a, b);
    ProcessKeyTells(p, a, b, url);
    ShadowedRetires(s, GO_ALIASES[0]);
  }
}
