/** The Go credential migration helper as the program it is: one call, no one else acting meanwhile.
    What may happen between its steps is the subject of the module Migration. */
module MigrationHelper {
  import opened Options
  import opened EnvText
  import opened Migration

  class Helper {
    var files: map<Path, File>
    var nextStamp: nat
    var journal: Option<Record>
    var vault: Vault
    var nextGeneration: nat
    var nextOperation: nat
    var node: Option<Route>
    var sends: nat

    /** An apply run has everything it needs. */
    ghost predicate ReadyToApply(args: Args)
      reads this
    {
      && args.hasJournal && args.hasAdmin && args.confirmed && journal.None?
      && args.envFile in files && vault.id.Some? && vault.id.value != "" && !vault.entry.configured
      && var text := files[args.envFile].text;
         var c := Effective(text, args.environ);
         && c.Found? && c.key != "" && TrimSlashes(Upstream(text, args.environ)) == GO_UPSTREAM
    }

    /** The journal a reconcile run may act on, and the vault entry that resolves it. */
    ghost predicate Resolved(args: Args)
      reads this
    {
      && args.hasJournal && args.hasAdmin && args.confirmed && args.envFile in files
      && vault.id.Some? && vault.id.value != "" && journal.Some?
      && var j := journal.value;
         && Some(j.vaultId) == vault.id && j.sourcePath == args.envFile && j.route == args.vaultUrl
         && vault.entry.configured && vault.entry.operation == Some(j.operation)
         && (j.generation.None? || j.generation == Some(vault.entry.generation))
    }

    ghost predicate SourceUnmoved(path: Path)
      reads this
    {
      journal.Some? && path in files && files[path].stamp == journal.value.stamp
    }

    ghost predicate NodeRoutes(args: Args)
      reads this
    {
      vault.id.Some? && node == Some(Route("vault", args.vaultUrl, vault.id.value, vault.entry.generation))
    }

    /** The atomic replacement of a text file: the new content under a stamp never used before. */
    method Atomic(path: Path, text: string)
      modifies this`files, this`nextStamp
      ensures files == old(files)[path := File(text, old(nextStamp))]
      ensures nextStamp == old(nextStamp) + 1
    {
      files := files[path := File(text, nextStamp)];
      nextStamp := nextStamp + 1;
    }

    /** The vault's answer to the credential POST. */
    method PostKey(p: Post) returns (ok: bool)
      modifies this`vault, this`nextGeneration, this`sends
      ensures sends == old(sends) + 1
      ensures ok <==> p.expectedGeneration == old(vault).entry.generation && Some(p.expectedVaultId) == old(vault).id
      ensures ok ==> vault == Vault(old(vault).id, Entry(true, old(nextGeneration), Some(p.operation), p.key))
      ensures !ok ==> vault == old(vault)
    {
      sends := sends + 1;
      ok := p.expectedGeneration == vault.entry.generation && Some(p.expectedVaultId) == vault.id;
      if ok {
        vault := vault.(entry := Entry(true, nextGeneration, Some(p.operation), p.key));
        nextGeneration := nextGeneration + 1;
      }
    }

    /** The apply run's own part: refuse, or journal a new operation and send the key under it. */
    method Send(args: Args, text: string, before: nat, vaultId: string) returns (record: Option<Record>)
      requires vault.id == Some(vaultId)
      modifies this`journal, this`nextOperation, this`vault, this`nextGeneration, this`sends
      ensures var c := Effective(text, args.environ);
        record.Some? <==> old(journal).None? && c.Found? && c.key != "" && !old(vault).entry.configured
                          && TrimSlashes(Upstream(text, args.environ)) == GO_UPSTREAM
      ensures record.None? ==> journal == old(journal) && vault == old(vault) && sends == old(sends)
      ensures record.Some? ==>
        var c := Effective(text, args.environ);
        && record == journal && sends == old(sends) + 1
        && record.value
           == Record(vaultId, args.envFile, args.vaultUrl, c.name, c.owner, Ours(old(nextOperation)), Sending, before,
                     None)
        && vault == Vault(Some(vaultId), Entry(true, old(nextGeneration), Some(Ours(old(nextOperation))), c.key))
    {
      var c := Effective(text, args.environ);
      if journal.Some? { return None; }
      if c.Absent? || c.key == "" { return None; }
      if TrimSlashes(Upstream(text, args.environ)) != GO_UPSTREAM { return None; }
      if vault.entry.configured { return None; }
      var operation := Ours(nextOperation);
      nextOperation := nextOperation + 1;
      record := Some(Record(vaultId, args.envFile, args.vaultUrl, c.name, c.owner, operation, Sending, before, None));
      journal := record;
      var sent := PostKey(Post(c.key, vault.entry.generation, vaultId, operation));
    }

    /** Binds the journal's operation to the vault's current generation, and routes the source to the
        vault when that is still to be done. */
    method ConfigureRoute(args: Args, text: string, record: Record) returns (bound: Option<Record>)
      modifies this`files, this`nextStamp, this`journal
      ensures var e := vault.entry;
        bound.Some? <==>
          && e.operation == Some(record.operation) && e.configured
          && (record.generation.None? || record.generation == Some(e.generation))
          && (record.phase == Sending ==> args.envFile in old(files) && old(files)[args.envFile].stamp == record.stamp)
      ensures bound.None? || record.phase != Sending ==>
        files == old(files) && nextStamp == old(nextStamp) && journal == old(journal)
      ensures bound.Some? && record.phase != Sending ==>
        bound.value == record.(generation := Some(vault.entry.generation))
      ensures bound.Some? && record.phase == Sending ==>
        && files == old(files)[args.envFile := File(WithRoute(text, args.vaultUrl), old(nextStamp))]
        && bound.value
           == record.(generation := Some(vault.entry.generation), phase := AwaitingNodeRoute, stamp := old(nextStamp))
        && journal == bound
    {
      var entry := vault.entry;
      if entry.operation != Some(record.operation) || !entry.configured { return None; }
      if record.generation.Some? && record.generation != Some(entry.generation) { return None; }
      var r := record.(generation := Some(entry.generation));
      if r.phase == Sending {
        if args.envFile !in files || files[args.envFile].stamp != r.stamp { return None; }
        Atomic(args.envFile, WithRoute(text, args.vaultUrl));
        r := r.(phase := AwaitingNodeRoute, stamp := files[args.envFile].stamp);
        journal := Some(r);
      }
      bound := Some(r);
    }

    /** Retires the dedicated aliases once the node is seen to use exactly this generation. */
    method RetireAliases(args: Args, text: string, record: Record) returns (ok: bool)
      modifies this`files, this`nextStamp, this`journal
      ensures ok <==>
        && args.hasNode && node.Some? && record.generation.Some?
        && node.value == Route("vault", args.vaultUrl, record.vaultId, record.generation.value)
        && (record.phase == Retired || (args.envFile in old(files) && old(files)[args.envFile].stamp == record.stamp))
      ensures !ok || record.phase == Retired ==> files == old(files) && journal == old(journal)
      ensures ok && record.phase != Retired ==>
        && files == old(files)[args.envFile :=
             File(Retire(old(files)[args.envFile].text, RetiredNames(text)), old(nextStamp))]
        && journal == Some(record.(phase := Retired))
    {
      if !args.hasNode { return false; }
      if node.None? || node.value.source != "vault" || node.value.vaultUrl != args.vaultUrl { return false; }
      if node.value.vaultId != record.vaultId || Some(node.value.generation) != record.generation { return false; }
      if record.phase == Retired { return true; }
      if args.envFile !in files || files[args.envFile].stamp != record.stamp { return false; }
      var reread := files[args.envFile].text;
      if files[args.envFile].stamp != record.stamp { return false; }
      Atomic(args.envFile, Retire(reread, RetiredNames(text)));
      journal := Some(record.(phase := Retired));
      ok := true;
    }

    /** One call of the helper.

        Apply, alone, is all or nothing: it succeeds exactly when it is ready, and otherwise changes
        nothing. When it succeeds the vault holds the file's or the process's effective key under a new
        generation, the journal says so, the file is routed, and one POST was sent.
        Reconcile never sends. */
    method Execute(args: Args) returns (ok: bool)
      modifies this
      ensures node == old(node) && vault.id == old(vault).id
      ensures args.mode != Apply ==> sends == old(sends) && vault == old(vault)
      ensures args.mode == Check || (args.mode == Apply && !ok) ==>
        files == old(files) && journal == old(journal) && vault == old(vault) && sends == old(sends)
      ensures args.mode == Apply ==> (ok <==> old(ReadyToApply(args)))
      ensures args.mode == Apply && ok ==>
        var text, c := old(files)[args.envFile].text, Effective(old(files)[args.envFile].text, args.environ);
        && files == old(files)[args.envFile := File(WithRoute(text, args.vaultUrl), old(nextStamp))]
        && vault.entry == Entry(true, old(nextGeneration), Some(Ours(old(nextOperation))), c.key)
        && journal
           == Some(Record(vault.id.value, args.envFile, args.vaultUrl, c.name, c.owner, Ours(old(nextOperation)),
                          AwaitingNodeRoute, old(nextStamp), Some(old(nextGeneration))))
        && sends == old(sends) + 1
      ensures args.mode == Reconcile ==>
        (ok <==> old(Resolved(args)) && args.hasNode && old(NodeRoutes(args))
                 && (old(journal).value.phase == Retired || old(SourceUnmoved(args.envFile))))
      ensures args.mode == Reconcile && ok && old(journal).value.phase == Retired ==>
        files == old(files) && journal == old(journal)
      ensures args.mode == Reconcile && !ok ==>
        if old(Resolved(args)) && old(journal).value.phase == Sending && old(SourceUnmoved(args.envFile)) then
          var was := old(files)[args.envFile].text;
          && files == old(files)[args.envFile := File(WithRoute(was, args.vaultUrl), old(nextStamp))]
          && journal == Some(old(journal).value.(generation := Some(old(vault).entry.generation),
                                                 phase := AwaitingNodeRoute, stamp := old(nextStamp)))
        else files == old(files) && journal == old(journal)
      ensures args.mode == Reconcile && ok && old(journal).value.phase != Retired ==>
        && journal.Some? && journal.value.phase == Retired
        && args.envFile in files
        && var was := old(files)[args.envFile].text;
           var routed := if old(journal).value.phase == Sending then WithRoute(was, args.vaultUrl) else was;
           files.Keys == old(files).Keys && files[args.envFile].text == Retire(routed, RetiredNames(was))
    {
      if args.envFile !in files { return false; }
      var text := files[args.envFile].text;
      var before := files[args.envFile].stamp;
      var vaultId := vault.id;
      if args.mode == Check { return true; }
      if !args.hasJournal || !args.hasAdmin || !args.confirmed { return false; }
      if vaultId.None? || vaultId.value == "" || vault.id != vaultId { return false; }
      var record: Record;
      if args.mode == Apply {
        var sent := Send(args, text, before, vaultId.value);
        if sent.None? { return false; }
        record := sent.value;
      } else {
        if journal.None? { return false; }
        record := journal.value;
        if Some(record.vaultId) != vaultId || record.sourcePath != args.envFile || record.route != args.vaultUrl {
          return false;
        }
      }
      var bound := ConfigureRoute(args, text, record);
      if bound.None? { return false; }
      if args.mode == Apply { return true; }
      ok := RetireAliases(args, text, bound.value);
    }
  }

  /** What the two rewrites together make of the file: what it meant, routed to the vault and without
      its dedicated Go aliases. */
  lemma MigratedMeaning(text: string, url: string)
    requires CleanValue(url)
    ensures var routed := WithRoute(text, url);
      Parse(Retire(routed, RetiredNames(routed))) == Parse(text)[ROUTE := url] - RetiredNames(text)
  {
    var routed := WithRoute(text, url);
    RouteFrame(text, url);
    RetireFrame(routed, RetiredNames(routed));
    RouteNames(text, url);
  }

  /** Left alone, the migration completes: apply, then a node that routes to the new generation, then
      reconcile. One POST, the effective key in the vault, and the file retired from its routed form. */
  method Migrate(h: Helper, apply: Args)
    requires apply.mode == Apply && h.ReadyToApply(apply)
    modifies h
    ensures h.journal.Some? && h.journal.value.phase == Retired && h.sends == old(h.sends) + 1
    ensures var was := old(h.files)[apply.envFile].text;
      && h.vault.entry.configured && h.vault.entry.key == Effective(was, apply.environ).key
      && apply.envFile in h.files
      && var routed := WithRoute(was, apply.vaultUrl);
         h.files[apply.envFile].text == Retire(routed, RetiredNames(routed))
  {
    var applied := h.Execute(apply);
    h.node := Some(Route("vault", apply.vaultUrl, h.vault.id.value, h.vault.entry.generation));
    var reconcile := apply.(mode := Reconcile, hasNode := true);
    assert h.Resolved(reconcile) && h.NodeRoutes(reconcile) && h.SourceUnmoved(apply.envFile);
    var done := h.Execute(reconcile);
  }
}
