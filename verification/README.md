# Verified model of the repository's operator scripts

This project models five parts of the repository's operator tooling and proves what they promise. `dafny verify
dfyconfig.toml` checks everything.

**Go credential migration** (`EnvText`, `Migration`, `MigrationSafety`, `MigrationTheorems`, `MigrationHistories`,
`MigrationHelper`). The helper takes an API key out of an env file and hands it to a vault, under a journal. `Migration`
is a state machine: the process takes one input or output at a time, and between any two steps it may die, an answer may
be lost, other operators may change the vault, the node or the files. The vault is the automaton its own test shows (a
stale generation or another vault's identity is refused; a commit draws a new generation and records the operation).
`MigrationSafety` proves the invariant of every history, `MigrationTheorems` what follows from it. `MigrationHistories`
tells whole histories from a start state: each race ends with an edit lost or taken for the helper's own, and two
undisturbed histories lose a key. `MigrationHelper` is the same program as a class with mutable state, run undisturbed.
`EnvText` is the text layer: Python's line splitting and trimming, the first-occurrence parser, the two rewrites.

**Structural fingerprint and comparison** (`Fnv`, `Texts`, `Fingerprint`, `FingerprintTheorems`, `FingerprintCompare`).
The recursive builder with its shared counter, the depth and size cuts, the attribute digest with its signed-shift hash,
and the comparison that reports the first divergence as a printed path.

**Source-bound build and hash-bound install** (`Manifest`, `Disks`, `Install`, `InstallTheorems`, `Build`,
`BuildInstall`, `BuildFromEmpty`, `BuildOvertaken`). Both programs act on a shared disk: before every action everyone else
may edit anything outside the program's own area, and the process may die between any two actions, in the middle of a
write too.
A disk carries, for its specification, what it would be had the program not written; every check and every copy is
specified against that timeline, at its own moment, so a run accepts exactly when each of them finds what it must.
`InstallTheorems` is about any number of runs and about how far the expected hash binds what is installed;
`BuildInstall` joins the two programs and carries the hash from one to the other; `BuildFromEmpty` plays them on an empty
disk with only Git and the compiler at work, and `BuildOvertaken` with one more edit. SHA-256 is a constructor, so equal
digests mean equal bytes.

**Streaming recognizer worker** (`SttWorker`, `SttTheorems`). The line protocol over lazily loaded models, the hub's
reader of it, and the test double as a second implementation.

**Owned-process containment** (`OwnedJob`). The script and the operating system as one state machine; processes run,
spawn, try to leave the job and end as they like.

## What the code does that its promises do not say

- A route URL is accepted with a line break, blank or quote at places where the written line does not survive parsing:
  `valid_url` returns the text it was given (`scripts/migrate-go-vault.py:53-60`), whatever `urlsplit` made of it.
  `EnvText.RouteFrame` states exactly when the rewritten file means what it should, and `EnvText.BlankedRouteIsLost` is a
  family of URLs for which it does not.
- An edit by someone else is lost or misread in four places (lines 77-78, 126-130, 130-131 and 146-147). They are kept as
  explicit windows, `MigrationHistories` tells a whole history for each, and the theorems say which of them they need
  closed. An edit made outside the first window and the three places where a rewrite is under way is never lost
  (`MigrationTheorems.EditHolds` once there is a journal, `MigrationTheorems.EarlyEditHolds` before).
- Retirement never looks at whose the posted key was. Every dedicated alias of the file is retired, so one that the
  effective alias shadows is lost, and so is one whose name the process environment shadows. Whatever was raced and
  whoever owned the key, every retired value is a committed one if and only if all the retired values are the posted one
  (`MigrationTheorems.RetiredValuesKept`); `MigrationHistories.ShadowedKeyLost` and `MigrationHistories.FileKeyLost` are
  histories in which one is lost.
- The installer reads the manifest three times: to hash it (`scripts/whatsapp-install.py:52`), to parse it (`:54`) and to
  copy it (`:113`). The manifest parsed is the one hashed if and only if the edit just before the second read leaves the
  file's parse alone (`InstallTheorems.HashedIsParsed`); otherwise any bundle that is good in itself is installed under
  any approved hash (`InstallTheorems.SwapIsInstalled`). The third read is not checked at all: what stands there is what
  the release gets as its manifest (`InstallTheorems.OtherManifestInstalled`).
- The build reads the manifest file again for the hash it returns (`scripts/whatsapp-build.py:107`): the hash is that of
  what stands there at that look, and the built manifest's if and only if the edits just before it leave its bytes
  (`Build.Run`). One edit there is enough for another commit than the one built to be approved and installed
  (`BuildOvertaken.OtherCommitInstalled`). Over both programs the manifest installed is the built one if and only if the
  later of two edits leaves its parse (`BuildInstall.BuildThenInstall`).
- The build does not check what the installer later demands of the commit, the tree, `go.mod` and `go.sum`. What an
  undisturbed build wrote is installed if and only if they are as the installer wants
  (`BuildFromEmpty.BuildAndInstallAlone`).
- The test double answers a line that is not JSON before it sends its ready line, which the worker never does
  (`SttTheorems.DoubleReadyFirst`), and a line that is JSON but no object ends it after the ready line.

## Assumptions

- Every write of a file yields a stamp no earlier write had; other operators never use an operation id this helper draws;
  runs on one journal path follow one another, and only the helper writes the journal.
- The proxy door and the operator door show one vault; no vault entry was committed under one of our operations before.
- Nobody but the installer writes inside its `releases` directory, and no ancestor of a release is redirected after the
  installer has looked: paths are names, and a link stands for bytes, never for a directory. That look, at
  `scripts/whatsapp-install.py:91-93`, is modelled as a check, not as what keeps writes where they belong.
- Everywhere else anyone may write at any time, except where a contract says that a path must be `Idle` or everything
  `Still` between two actions, or `Calm` from one on. Git and the compiler are among the others: what they write is an
  edit of the disk.
- A process that asks to leave a job without a breakaway limit stays in it; a child is in its parent's job.

## Model

| member | source | states |
|---|---|---|
| EnvText.TrimIsMiddle | scripts/migrate-go-vault.py:22 | Stripping takes the middle of the string: everything before and after it is an edge character, and nothing at its own edges is. |
| EnvText.LinesSpellText | scripts/migrate-go-vault.py:21 | The lines `splitlines` yields, with the line boundaries between them, are the whole text in order; no line contains a boundary. |
| EnvText.SplitJoined | scripts/migrate-go-vault.py:128-130 | Splitting the written text gives the joined lines back, whatever the last one contains. |
| EnvText.SplitFileText | scripts/migrate-go-vault.py:145-147 | The written file reads back as exactly the lines that were joined; an empty list reads back as one blank line. |
| EnvText.ParseEnv | scripts/migrate-go-vault.py:19-28 | The dictionary loop with `setdefault` computes the first-occurrence value of every key, and no other key. |
| EnvText.EntryKey | scripts/migrate-go-vault.py:22-28 | The parser and the line filters of the rewrites agree on the name of every line the parser takes. |
| EnvText.RetireFrame | scripts/migrate-go-vault.py:144-147 | Parsing the retired text drops exactly the retired names, duplicates included, and keeps every other value. |
| EnvText.RetireLines | scripts/migrate-go-vault.py:145-147 | Line by line: every line of another name survives retirement, none of the named ones does, and only a blank one can be new. |
| EnvText.EntryLookup | scripts/migrate-go-vault.py:128-130 | After the route rewrite every key has its old first value, unless it is the route's or only the last line defines it. |
| EnvText.RouteFrame | scripts/migrate-go-vault.py:127-130 | The route-rewritten file means the old one with the route set and every other key unchanged, if and only if the URL has no line break and no blank or quote at its edges. |
| EnvText.BlankedRouteIsLost | scripts/migrate-go-vault.py:53-60 | A URL with a blank in front, which the URL check returns as it is, never reads back as it is: the file then has the route without the blank. |
| EnvText.RouteKeepsLines | scripts/migrate-go-vault.py:128-130 | Route configuration keeps every line that is not a route line, aliases included, for every URL. |
| EnvText.RouteNames | scripts/migrate-go-vault.py:128-144 | For every URL, configuring the route adds to the dedicated aliases of the file exactly those a further line of the URL spells, and none when the URL is one line. |
| EnvText.EffectiveIsFirst | scripts/migrate-go-vault.py:30-37 | The effective credential is the first alias defined in the process or the file, and the process value wins. |
| EnvText.EffectiveFromFile | scripts/migrate-go-vault.py:30-37 | A credential owned by the file is the file's own value of a listed alias. |
| MigrationSafety.InitSafe | scripts/migrate-go-vault.py:74-79 | The start of every history satisfies the invariant. |
| MigrationSafety.SafeScript | scripts/migrate-go-vault.py:74-150 | Every step of the helper keeps the whole invariant. |
| MigrationSafety.SafeStep | scripts/migrate-go-vault.py:74-150 | So does every action at all: a step of the helper, an outside edit, a crash, a lost or late answer, a commit, and any change of vault or node under the compare-and-set. |
| MigrationSafety.SafeExec | scripts/migrate-go-vault.py:74-150 | The invariant holds after every interleaving of helper and world. |
| MigrationTheorems.SendOnce | scripts/migrate-go-vault.py:98-112 | Over all runs, crashes and lost answers at most one credential POST is ever sent, under a journal already on disk and with its operation, and the vault commits it at most once. |
| MigrationTheorems.JournalForbidsSend | scripts/migrate-go-vault.py:98-107 | Once a journal exists and the process that saved it is past its send or gone, no later run ever sends. |
| MigrationTheorems.JournalMonotone | scripts/migrate-go-vault.py:106-148 | Between any two moments of any history the journal's phase only advances, its operation, vault id, source path and route never change, and its generation is written once. |
| MigrationTheorems.JournalGrows | scripts/migrate-go-vault.py:115-148 | The same from any safe state. |
| MigrationTheorems.LineLeaves | scripts/migrate-go-vault.py:125-147 | A helper step that makes a non-route line disappear is a rewrite after a named race, or the retirement of a dedicated alias with the evidence in hand. |
| MigrationTheorems.AliasLeaves | scripts/migrate-go-vault.py:118-148 | In every history an alias line leaves an env file only by someone else's edit, a named race, or a reconcile run that read the configured entry of the journal's operation and generation and the node's matching route. |
| MigrationHistories.ReadWindowLosesEdit | scripts/migrate-go-vault.py:77-78 | From the start, with an edit between the read and its stamp, the apply run ends well and a line of that edit is gone. |
| MigrationHistories.CheckWindowLosesEdit | scripts/migrate-go-vault.py:126-130 | The same for an edit between the stamp check and the route write. |
| MigrationHistories.StampWindowTakesEdit | scripts/migrate-go-vault.py:130-131 | From the start, with any edit between the route write and its stamp, the apply run ends well and the journal bears the stamp of that edit as its own. |
| MigrationHistories.RecheckWindowLosesEdit | scripts/migrate-go-vault.py:146-147 | From the start, with an edit between the second check and the retiring write, both runs end well and a line of that edit is gone. |
| MigrationTheorems.KeyNeverLost | scripts/migrate-go-vault.py:76-147 | When the key came from the file, then at every retirement outside two windows of the run that took it the retired value is the one posted, and the vault committed it at the generation the node uses. |
| MigrationTheorems.RetirementIsValidated | scripts/migrate-go-vault.py:142-147 | For every URL, unless an edit follows the second check, the retired file is the file of that moment minus the aliases the run read; these are all it defines if and only if the run had read each of them, and it had when the URL is one line and the route stamp was unraced. |
| MigrationTheorems.RetiredValuesKept | scripts/migrate-go-vault.py:144-147 | At every retirement of any history, whoever owned the key and whatever was raced, every retired value is one the vault committed for us if and only if every retired alias has the posted value. |
| MigrationHistories.ShadowedKeyLost | scripts/migrate-go-vault.py:144-147 | With two dedicated aliases of different values the undisturbed migration ends well, the second is gone from the file, and no commit holds its value. |
| MigrationHistories.FileKeyLost | scripts/migrate-go-vault.py:30-37 | With one value of an alias in the process environment and another in the file, the undisturbed migration posts the first, ends well, and takes the second, which no commit holds, out of the file. |
| MigrationTheorems.MovedForever | scripts/migrate-go-vault.py:125-146 | Once the source does not bear the journal's stamp, no run ever writes an env file or moves the journal again. |
| MigrationTheorems.EditHolds | scripts/migrate-go-vault.py:126-148 | Once there is a journal, an outside edit of the source made at any moment but between a stamp check and its rewrite or between the route write and its stamp is never lost: no run writes an env file again, and the journal stays or becomes the one about to be saved. |
| MigrationTheorems.EarlyEditHolds | scripts/migrate-go-vault.py:78-107 | So is one made between the stamp of an apply run and the journal it saves: no run writes an env file again, unless that run is over before it has journalled, and the next one reads the edit. |
| MigrationTheorems.HeldForever | scripts/migrate-go-vault.py:126-148 | The same from any safe state in which the source bears neither the stamp of the journal nor that of a record about to be saved. |
| MigrationTheorems.CrashAfterRewriteHolds | scripts/migrate-go-vault.py:130-148 | A crash between a source rewrite and its journal save leads only to refusals without a further write. |
| MigrationTheorems.RetiredForever | scripts/migrate-go-vault.py:141 | A retired journal is final: no later run writes anything. |
| MigrationHelper.Helper.Atomic | scripts/migrate-go-vault.py:43-51 | The file gets the new text under a fresh stamp; every other file stays. |
| MigrationHelper.Helper.PostKey | scripts/test-vault.py:212-230 | Compare-and-set: accepted exactly for the current generation and vault id; then the entry is the posted key and operation under a new generation, else nothing changes. |
| MigrationHelper.Helper.Send | scripts/migrate-go-vault.py:98-112 | An apply run sends exactly when there is no journal, a non-empty key, the Go upstream and an unconfigured vault; the journal then names the operation the vault records. |
| MigrationHelper.Helper.ConfigureRoute | scripts/migrate-go-vault.py:118-132 | The record is bound exactly when the entry is configured under its operation and generation and an unrouted source is unmoved; only then is the source routed and the journal advanced. |
| MigrationHelper.Helper.RetireAliases | scripts/migrate-go-vault.py:135-148 | Retirement happens exactly when the node shows this vault, id and generation and the stamp holds; otherwise files and journal stay. |
| MigrationHelper.Helper.Execute | scripts/migrate-go-vault.py:74-150 | Undisturbed, apply is all or nothing with its whole new state, reconcile never sends, each succeeds exactly under its stated condition, and a failed reconcile leaves file and journal as they were, or routed and waiting exactly when it got that far. |
| MigrationHelper.MigratedMeaning | scripts/migrate-go-vault.py:127-147 | The two rewrites together make the file mean what it did, plus the route, minus its dedicated aliases. |
| MigrationHelper.Migrate | scripts/migrate-go-vault.py:133-150 | Apply, then a node on the new generation, then reconcile: the migration completes with one POST and the effective key in the vault. |
| Fnv.ShiftsMultiply | scripts/wa-probe-support.js:72 | Every partial sum of the five signed shifts stays in exact integer range, and the total is multiplication by 16777619 modulo 2^32. |
| Fnv.MixedIsStep | scripts/wa-probe-support.js:71-72 | One turn of the loop is one 32-bit FNV-1a step (section 2 of draft-eastlake-fnv). |
| Fnv.Fnv1a | scripts/wa-probe-support.js:68-75 | The loop with JavaScript's operators prints the FNV-1a hash of the code units. |
| Fnv.StepInjective | scripts/wa-probe-support.js:71-72 | A step loses nothing of the state and nothing of the code unit. |
| Fnv.Hex8Reads | scripts/wa-probe-support.js:74 | The printed hash always has eight digits and reads back as the hash. |
| Fnv.OneUnitDiffers | scripts/wa-probe-support.js:66-75 | Two texts of one length that differ in exactly one code unit never print the same hash. |
| Fingerprint.CollapseSeparates | scripts/wa-probe-support.js:90-106 | Two payloads of one length that differ in one code unit never collapse to the same text. |
| Fingerprint.DataUrlReads | scripts/wa-probe-support.js:90-114 | A data URL, its scheme in any case and with or without a comma, is digested as its media type (text/plain when empty) and its body, decoded exactly when the header says base64 and it decodes. |
| Fingerprint.EveryDataUrl | scripts/wa-probe-support.js:90-114 | Every text the program takes for a data URL has that form. |
| Fingerprint.DataUrlsSeparated | scripts/wa-probe-support.js:90-114 | Two data URLs of one media type whose payloads differ in one unit have different values. |
| Fingerprint.PlainValues | scripts/wa-probe-support.js:108-114 | Two plain values look the same exactly when they are equal, or both too long, of one length, with equal first 120 units. |
| Fingerprint.TokensOfWords | scripts/wa-probe-support.js:116-120 | Splitting a class attribute gives back exactly the words written with blanks between them. |
| Fingerprint.AttrsAt | scripts/wa-probe-support.js:122-136 | A fingerprint keeps exactly the attributes that are neither `class` nor ignored, with the collapsed value of the named item. |
| Fingerprint.CollectAttrs | scripts/wa-probe-support.js:122-136 | The loop over the sorted names computes that map. |
| Texts.Sorted | scripts/wa-probe-support.js:119 | Sorting keeps the elements, each as often, in ascending code-unit order. |
| Texts.DecimalReads | scripts/wa-probe-support.js:113 | Printed lengths and indices read back as the number. |
| Fingerprint.Build | scripts/wa-probe-support.js:138-163 | The recursion with the shared mutable counter returns the specified tree and leaves the counter at the specified count. |
| Fingerprint.TakeFingerprint | scripts/wa-probe-support.js:165-169 | A fingerprint is the build from depth and count zero. |
| FingerprintTheorems.GrowTakes | scripts/wa-probe-support.js:138-163 | A call with n nodes already counted takes the next nodes in pre-order until the limit and counts exactly what it took. |
| FingerprintTheorems.FingerprintIsPrefix | scripts/wa-probe-support.js:138-169 | The nodes of a fingerprint are the first max(1, maxNodes) nodes in pre-order of the tree cut at maxDepth, each in its place with its own fields. |
| FingerprintTheorems.CutsAreMarked | scripts/wa-probe-support.js:143-161 | A node is marked truncated exactly when its text was cut or it kept fewer children than it has. |
| FingerprintTheorems.GrowFits | scripts/wa-probe-support.js:155-161 | Within the limits the build returns the whole tree and counts every node. |
| FingerprintTheorems.WholeExactlyWithinLimits | scripts/wa-probe-support.js:138-163 | With text off nothing is truncated if and only if the height is at most maxDepth and the size at most max(1, maxNodes); the fingerprint is then the whole tree's. |
| FingerprintCompare.Record | scripts/wa-probe-support.js:202-207 | Records path and both values and answers false. |
| FingerprintCompare.Same | scripts/wa-probe-support.js:171-175 | The element loop decides equality of the lists. |
| FingerprintCompare.CompareOwn | scripts/wa-probe-support.js:179-194 | The own fields of a node, compared in the code's order, report the first that differs. |
| FingerprintCompare.CompareAttrs | scripts/wa-probe-support.js:185-187 | The attribute loop reports the first name, in order, whose values differ. |
| FingerprintCompare.CompareNode | scripts/wa-probe-support.js:177-200 | The recursion leaves behind the printed path and both values of the first difference, or nothing. |
| FingerprintCompare.DiffResolves | scripts/wa-probe-support.js:177-207 | The recorded path resolves in both fingerprints to the two recorded values, and they differ. |
| FingerprintCompare.DiffIsFirst | scripts/wa-probe-support.js:177-200 | No path earlier in the comparison order reads differently. |
| FingerprintCompare.CompareExact | scripts/wa-probe-support.js:177-207 | The comparison finds nothing if and only if the fingerprints are equal; otherwise it reports the least path at which they read differently. |
| FingerprintCompare.RenderInjective | scripts/wa-probe-support.js:178-198 | No two paths print alike below a node, whatever attribute names contain. |
| FingerprintCompare.PathsPrintApart | scripts/wa-probe-support.js:178-198 | A printed path names one field of one node. |
| FingerprintCompare.SameAs | scripts/wa-probe-support.js:209-226 | The result object says whether the arguments agree, and if not which arguments or which first path and values tell them apart. |
| FingerprintCompare.AttrsSimilar | scripts/wa-probe-support.js:122-136 | Two elements have equal attribute maps exactly when every kept attribute has the same collapsed value. |
| FingerprintCompare.AgreeIsSimilar | scripts/wa-probe-support.js:116-136 | Within the limits and with text off, two elements compare equal if and only if shape, tags, class multisets and kept attribute values agree at every node. |
| FingerprintCompare.CutNeverAgrees | scripts/wa-probe-support.js:152-161 | With text off, a tree within the limits never compares equal to one beyond them. |
| FingerprintCompare.AttributeOrderIrrelevant | scripts/wa-probe-support.js:116-136 | Listing the same attributes in another order changes neither classes nor attributes. |
| Manifest.BinaryTargetExact | scripts/whatsapp-install.py:18-31 | A file that starts with an encoded ELF-64 header (System V gABI, chapter 4, ELF Header) is accepted exactly for the listed OS ABIs, types, version, header size and machines, and the answer names the machine. |
| Install.ReadManifest | scripts/whatsapp-install.py:51-76 | Succeeds if and only if the bytes of the first read have the expected hash and those of the second parse and pass every check, and answers the second. |
| Install.ReadMembers | scripts/whatsapp-install.py:77-80 | Succeeds if and only if each required member is a plain file with its manifest hash at the moment it is read. |
| Install.CheckPlace | scripts/whatsapp-install.py:82-103 | Succeeds if and only if the paths are safe and separate, no link is on the way to release or state, and there is no release yet. |
| Install.Admit | scripts/whatsapp-install.py:46-103 | A manifest is admitted if and only if every check passes at its moment; nothing is written. |
| Install.CopyMember | scripts/whatsapp-install.py:109-111 | A copy that is accepted holds its manifest hash; only that path is written. |
| Install.Fill | scripts/whatsapp-install.py:107-135 | The release is filled if and only if it is new and every copy starts from bytes with the hash in the manifest; its manifest file is what stood in the bundle at the third read; wherever the run ends, a release with a service file holds all six members with their hashes; an existing release gets nothing. |
| Install.ReleaseApartFromState | scripts/whatsapp-install.py:87-89 | Nothing in the release is inside, equal to or above the state directory. |
| Install.Run | scripts/whatsapp-install.py:46-136 | Over every interference and every point of death: the run accepts if and only if every check and every copy finds what it must at its moment; nothing inside an existing release changes, not even by an addition; a new release with a service file is complete; only the admitted release is written, and a dry run writes nothing. |
| InstallTheorems.RunAll | scripts/whatsapp-install.py:46-136 | After any number of runs on one prefix, each stopped anywhere or not, every release with a service file is complete under a manifest that passed the checks, and every release that ever existed is as it was. |
| InstallTheorems.HashedIsParsed | scripts/whatsapp-install.py:52-54 | The manifest admitted is the one whose hash was checked if and only if the edit just before the second read leaves the parse of the file alone. |
| InstallTheorems.HashChain | scripts/whatsapp-install.py:52-113 | Given the hash of a built manifest, the admitted manifest is that one under the same exact condition, and a complete release then holds the bytes of its members, the five sources being those of the snapshot. |
| InstallTheorems.SwapIsInstalled | scripts/whatsapp-install.py:52-54 | For every bundle that would be installed on its own merits and all approved bytes: a run in which the manifest is swapped between the two reads installs that bundle under the approved hash. |
| InstallTheorems.OtherManifestInstalled | scripts/whatsapp-install.py:113 | A run in which any bytes are put in the place of the manifest before the third read installs those bytes as the manifest of the release. |
| Build.DigestFiles | scripts/whatsapp-build.py:42-43 | The listing maps exactly the files that stand there to their digests. |
| Build.CheckCompiled | scripts/whatsapp-build.py:80-89 | Success means two looks at the frozen source found the digests of the snapshot, and the bytes read from the binary, which stand there still when nobody else writes it, have the header of the architecture; left alone it succeeds exactly then. |
| Build.CopySources | scripts/whatsapp-build.py:90-96 | After the loop each sourced member that nobody else writes meanwhile stands in the output with its snapshot digest; left alone it succeeds exactly when each source still has it. |
| Build.DigestMembers | scripts/whatsapp-build.py:103 | Each listed digest is that of what stood there at its look, and the loop succeeds exactly when every member can be read at its look. |
| Build.WriteManifest | scripts/whatsapp-build.py:104-107 | The manifest goes into a file that must be new; the returned hash is that of what stands there at the last look, and the written manifest has it if and only if the edits between leave its bytes; left alone until then it succeeds exactly when the file is new and those edits leave a file. |
| Build.SteadyWhen | scripts/whatsapp-build.py:80-97 | Equal digests at a later look mean an equal frozen source. |
| Build.Run | scripts/whatsapp-build.py:46-107 | A bundle is honest whatever others did: a fresh output, the snapshot of line 76 unchanged at each of three later looks, six members, the target read in the very bytes listed as the binary and the snapshot digest for every sourced member, unless someone else writes them before they are digested. The returned hash is the built manifest's if and only if the edits before the last look leave its bytes. Undisturbed from the compiler to that look, a bundle results if and only if the build may begin, its sources and binary are as they must be, and a manifest is there at that look; it then stands on the disk. |
| BuildInstall.BuildThenInstall | scripts/whatsapp-build.py:76-107 | Build and install run one after the other, others at work on everything but the releases area. The hash handed over is that of what the last look found, the built manifest's if and only if the edits before it leave its bytes; the manifest installed is the built one if and only if the later of the edits before that look and before the second read leaves its parse; the release then holds the snapshot bytes of the five sources and the digested bytes of every member; its manifest file is what the third read found, and the built manifest if nobody else writes it in between. |
| BuildInstall.AdmittedIsBuilt | scripts/whatsapp-install.py:52-54 | Given the hash of what the build found at its last look, the manifest admitted is the built one if and only if the later of two edits leaves its parse. |
| BuildInstall.CalmAdmits | scripts/whatsapp-install.py:46-136 | Left alone, a ready bundle and destination are accepted exactly when the manifest passes the checks. |
| BuildInstall.BuiltVerdicts | scripts/whatsapp-install.py:34-76 | What the installer says of what an undisturbed build wrote: the binary is always fine, the manifest if and only if commit and tree are 40-digit names and the extracted source has go.mod and go.sum. |
| BuildInstall.BuildAndInstallUndisturbed | scripts/whatsapp-build.py:46-107 | From any disk on which the build can begin and the compiler succeed, undisturbed build and installation on a matching host with a ready destination end in success if and only if that condition holds, and the release is complete with the built manifest. |
| BuildFromEmpty.BuildAndInstallAlone | scripts/whatsapp-build.py:46-107 | The same said outright: for every source with the named files, every binary of the architecture, every good request and every order of members, on an empty disk with only Git and the compiler at work, a bundle always results, and it is installed if and only if commit and tree are 40-digit names and the source has go.mod and go.sum. |
| BuildOvertaken.BuildOvertaken | scripts/whatsapp-build.py:104-107 | For every good build and all bytes: a run on an empty disk in which those bytes replace the manifest just before the last look returns their hash, while the manifest built was that of the source and the binary. |
| BuildOvertaken.OtherCommitInstalled | scripts/whatsapp-build.py:104-107 | For every good build and request and every two commits: by that one edit the build returns the hash of a manifest that names the other commit, and the installer, left alone and given that hash, installs the release under it. |
| BuildOvertaken.GapsInTheBuilt | scripts/whatsapp-install.py:52-113 | Both gaps of the installer occur under its own checks in what every good build wrote: one edit installs it under any approved hash, one gives its release any manifest file. |
| SttWorker.Worker.Choose | scripts/whatsapp-stt-local.py:148-159 | Models are loaded on first need and kept; the answer and the new holdings are the specified ones. |
| SttWorker.Worker.Decode | scripts/whatsapp-stt-local.py:103-114 | The segment loop keeps and reports exactly the texts before the running count passes 12000. |
| SttWorker.Worker.Recognize | scripts/whatsapp-stt-local.py:84-119 | Checks in order, progress lines, then a transcript or the exception raised. |
| SttWorker.Worker.Turn | scripts/whatsapp-stt-local.py:173-182 | One input line adds its progress lines and exactly one final line. |
| SttWorker.Worker.RunAll | scripts/whatsapp-stt-local.py:170-183 | The whole run writes the specified output. |
| SttTheorems.OutputReads | scripts/whatsapp-stt-local.py:170-183 | For every input and recognizer, the hub's reader gets one job per request, the k-th final answering the k-th line with the texts streamed for it, and nothing is left over. |
| SttTheorems.ReadBlock | rust/wa-kernel-runtime/src/service_stt.rs:305-330 | Reading one job passes over progress, collects its texts and stops at the first final line. |
| SttTheorems.SplitIsUnique | scripts/whatsapp-stt-local.py:122-130 | An output splits into blocks of progress and one final line in at most one way. |
| SttTheorems.TranscriptIsStream | scripts/whatsapp-stt-local.py:103-119 | An accepted transcript is non-empty, trimmed and at most 23999 characters; streamed texts joined by spaces are the transcript when segments were asked for, and otherwise no line carries text. |
| SttTheorems.BoundIsReached | scripts/whatsapp-stt-local.py:107-115 | The bound of 23999 is attained. |
| SttTheorems.ErrorsArePublished | scripts/whatsapp-stt-local.py:179-182 | Whatever an exception says, an error line carries a published reason. |
| SttTheorems.ModelsStay | scripts/whatsapp-stt-local.py:133-159 | A model once held is never dropped, neither model is ever tried again once it is held, and the fallback is held only after a request of the last tier while one is named. |
| SttTheorems.LoadedOnce | scripts/whatsapp-stt-local.py:133-159 | In every run a model is held exactly when a try of its kind succeeded, and that was the last try of that kind. |
| SttTheorems.ServeDouble | scripts/test-stt-fake-worker.py:66-93 | What the double writes for a line that is JSON. |
| SttTheorems.RunDouble | scripts/test-stt-fake-worker.py:54-93 | The double's loop writes the specified output. |
| SttTheorems.DoubleReads | scripts/test-stt-fake-worker.py:54-93 | The same reader accepts the double: one job per answered line, in order, nothing left but the ready line of a double that dies of its first JSON line. |
| SttTheorems.DoubleReadyFirst | scripts/test-stt-fake-worker.py:61-68 | The double's ready line comes first if and only if it sends none or the first non-blank line is JSON. |
| OwnedJob.ExecKeeps | scripts/test-sentinel-owned-job.py:39-124 | Every step of the script and of the operating system keeps the invariant, over any history. |
| OwnedJob.Containment | scripts/test-sentinel-owned-job.py:47-87 | In every reachable state every descendant of the root is in the exact job, the root too once confirmed; sampled members are owned members, and no escape is seen. |
| OwnedJob.NothingRunsUnconfirmed | scripts/test-sentinel-owned-job.py:44-57 | The root executes nothing before its membership is confirmed. |
| OwnedJob.ReceiptMeansDead | scripts/test-sentinel-owned-job.py:114-123 | Whenever the receipt exists no owned process is alive, on every path that leads there. |
| OwnedJob.MutantBreaksTheReceipt | scripts/test-sentinel-containment-mutant.py:4-5 | Without the assignment and its check, a history ends with a receipt while a descendant lives. |

## Left out

- Transport and prompts: HTTP, redirects, `getpass`, `urlsplit`, JSON text encoding, argument parsing. A response is the value it carries; the URL arguments are those `valid_url` let through.
- The proxy's and the operator's doors are one vault; an admin URL that leads to another vault appears only as a change of the vault's identity between the two reads.
- The interleaved migration is a state machine on values, because other actors run between its steps; its update in place is in `MigrationHelper`, undisturbed. `atomic`'s temporary file and its file modes are not modelled: a replacement happens or does not.
- Universal-newline translation of `read_text`: a file's text is taken as it reads.
- MigrationTheorems.KeyNeverLost: holds outside the read-to-stamp and route-to-stamp windows only, because inside them the code has no way to notice the edit.
- MigrationTheorems.RetirementIsValidated: needs the last window unhit, for the same reason.
- MigrationTheorems.EditHolds: leaves out the three moments inside a rewrite, and `EarlyEditHolds` the one between read and stamp, where `MigrationHistories` shows edits lost or taken for the helper's own.
- InstallTheorems.HashChain: binds the release to the built manifest only when no edit between the first two reads of it changes its parse, because the code reads the file again.
- Install.Run: nobody else writes inside the releases directory; paths are compared component by component, without `..`, and an ancestor of the release that becomes a link after the check leads nowhere else.
- Build.Run: Git, tar and the compiler are outside edits of the disk; what they answer is an input. Edits between extraction and the snapshot are not seen, and nothing is claimed of the binary beyond its digest and header. When a build succeeds is stated for builds undisturbed from the compiler to the last look.
- One look at a directory or at one file's type and bytes is one action; the code takes several system calls. A file below a directory is one entry under its relative name.
- The manifest's build logs, the service file's text (a symbolic value), `chmod`, `umask` and the parents a `mkdir` makes.
- Fingerprint: tag names arrive in lower case, attribute names are never empty or inherited property names such as `__proto__`, and `children`, `attributes` and `textContent` always exist.
- FingerprintCompare.SameAs: leaves out the branch for a comparison that threw, and the text of labels for arguments that are no element (a parameter).
- FingerprintTheorems.WholeExactlyWithinLimits: with text on, a cut text marks a node too; `CutsAreMarked` covers that case.
- SttWorker: times and durations in progress lines, the language echo, decoder options, environment knobs, one-shot modes, and exceptions from reading the input or writing a line. Lines are values, not JSON text.
- SttTheorems.RunDouble: progress texts and the canary transcript are fixed words; the log file and the delays are left out.
- OwnedJob: structure layouts, process-id reuse (processes have creation numbers), what happens when the job handle closes, the killing of an escaped child (no escape is reachable), and the exit codes asserted along the way. A state machine, because the operating system acts between the script's steps.
- The other scripts, UI probes and servers of the repository.
