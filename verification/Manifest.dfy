/** The release manifest shared by the build and the installer, the ELF header check, and the
    installer's refusals that depend on nothing but what it has read. */
module Manifest {
  import opened Options

  type Byte = n: int | 0 <= n < 256
  type Path = seq<string>

  /** File contents: plain bytes, some spelling of a JSON manifest, or a service unit. */
  datatype Bytes = Raw(data: seq<Byte>) | Json(manifest: Manifest, spelling: nat) | Unit(text: string)

  /** A digest string: the SHA-256 of known contents, or any other text. Digests do not collide. */
  datatype Hash = Sha(of: Bytes) | Other(text: string)

  datatype Target = Target(goos: string, goarch: string, machine: nat)

  /** A parsed manifest; a field that is absent or of the wrong kind is `None`. */
  datatype Manifest = Manifest(
    schema: Option<int>, platform: Option<string>, goVersion: Option<string>, goSha: Option<Hash>,
    source: Option<string>, tree: Option<string>, target: Option<Target>,
    sourceBinding: Option<string>, sourceFiles: map<string, Hash>, files: Option<map<string, Hash>>)

  /** Accepted, or refused for a named reason. */
  datatype Verdict = Fine | Refused(reason: string)

  const BINARY := "wa-whatsapp"
  const SERVICE := "wa-whatsapp.service"
  const MANIFEST := "manifest.json"

  /** The five members copied from the frozen source, each with where it comes from. */
  const SOURCED: seq<(string, string)> := [
    ("scripts/whatsapp-stt-local.py", "whatsapp-stt-local.py"),
    ("scripts/whatsapp-ocr-local.py", "whatsapp-ocr-local.py"),
    ("scripts/whatsapp-install.py", "whatsapp-install.py"),
    ("connectors/whatsapp/THIRD-PARTY-NOTICES.txt", "THIRD-PARTY-NOTICES.txt"),
    ("LICENSE", "LICENSE")]

  const REQUIRED: set<string> := {
    BINARY, "whatsapp-stt-local.py", "whatsapp-ocr-local.py", "whatsapp-install.py", "THIRD-PARTY-NOTICES.txt",
    "LICENSE"}

  const REQUIRED_INPUTS: set<string> := {
    "connectors/whatsapp/go.mod", "connectors/whatsapp/go.sum", "scripts/whatsapp-stt-local.py",
    "scripts/whatsapp-ocr-local.py", "scripts/whatsapp-install.py", "connectors/whatsapp/THIRD-PARTY-NOTICES.txt",
    "scripts/whatsapp-build.py", "scripts/build-whatsapp.sh", "LICENSE"}

  // ---------------------------------------------------------------- the ELF header

  function FromLittle(bytes: seq<Byte>): nat {
    if bytes == [] then 0 else bytes[0] + 256 * FromLittle(bytes[1..])
  }

  function Header(b: Bytes): seq<Byte> { if b.Raw? then (if |b.data| <= 64 then b.data else b.data[..64]) else [] }

  function ArchOf(machine: nat): Option<string> {
    if machine == 62 then Some("amd64") else if machine == 183 then Some("arm64") else None
  }

  /** What the installer reads of a candidate binary without running it. */
  function BinaryTarget(b: Bytes): (Verdict, Target) {
    var h := Header(b);
    var none := Target("", "", 0);
    if |h| != 64 || h[..7] != [0x7f, 0x45, 0x4c, 0x46, 2, 1, 1] || h[7] !in {0, 3}
       || FromLittle(h[16..18]) !in {2, 3} || FromLittle(h[20..24]) != 1 || FromLittle(h[52..54]) != 64
    then (Refused("supported_elf64_binary_required"), none)
    else
      var machine := FromLittle(h[18..20]);
      if ArchOf(machine).None? then (Refused("unsupported_binary_architecture"), none)
      else (Fine, Target("linux", ArchOf(machine).value, machine))
  }

  /** The ELF-64 little-endian file header by its fields (System V gABI, chapter 4, ELF Header). */
  datatype Elf = Elf(osabi: Byte, pad: seq<Byte>, kind: nat, machine: nat, version: nat, middle: seq<Byte>,
                     ehsize: nat, tail: seq<Byte>)
  {
    ghost predicate Valid() {
      |pad| == 8 && kind < 0x1_0000 && machine < 0x1_0000 && version < 0x1_0000_0000 && |middle| == 28
        && ehsize < 0x1_0000 && |tail| == 10
    }
  }

  function Little(n: nat, width: nat): (bytes: seq<Byte>)
    ensures |bytes| == width
  {
    if width == 0 then [] else [n % 256] + Little(n / 256, width - 1)
  }

  function Encode(e: Elf): seq<Byte> {
    [0x7f, 0x45, 0x4c, 0x46, 2, 1, 1, e.osabi] + e.pad + Little(e.kind, 2) + Little(e.machine, 2) + Little(e.version, 4)
    + e.middle + Little(e.ehsize, 2) + e.tail
  }

  function Pow256(k: nat): nat { if k == 0 then 1 else 256 * Pow256(k - 1) }

  lemma {:induction false} LittleReads(n: nat, width: nat)
    requires n < Pow256(width)
    ensures FromLittle(Little(n, width)) == n
  {
    if width == 0 {
    } else {
      LittleReads(n / 256, width - 1);
      assert Little(n, width)[1..] == Little(n / 256, width - 1);
    }
  }

  lemma EncodeFields(e: Elf)
    requires e.Valid()
    ensures var h := Encode(e);
      && |h| == 64 && h[..7] == [0x7f, 0x45, 0x4c, 0x46, 2, 1, 1] && h[7] == e.osabi
      && h[16..18] == Little(e.kind, 2) && h[18..20] == Little(e.machine, 2) && h[20..24] == Little(e.version, 4)
      && h[52..54] == Little(e.ehsize, 2)
  {
  }

  /** The header check reads the gABI fields where they stand: a file that starts with this header is
      accepted exactly when it is an executable or shared object of version 1 with a 64-byte header for
      System V or GNU, for one of the two machines, and the answer names that machine. */
  lemma BinaryTargetExact(e: Elf, rest: seq<Byte>)
    requires e.Valid()
    ensures var (v, t) := BinaryTarget(Raw(Encode(e) + rest));
      && (v == Fine <==>
            e.osabi in {0, 3} && e.kind in {2, 3} && e.version == 1 && e.ehsize == 64 && e.machine in {62, 183})
      && (v == Fine ==> t == Target("linux", if e.machine == 62 then "amd64" else "arm64", e.machine))
  {
    EncodeFields(e);
    assert (Encode(e) + rest)[..64] == Encode(e);
    assert Header(Raw(Encode(e) + rest)) == Encode(e);
    assert Pow256(2) == 0x1_0000 && Pow256(4) == 0x1_0000_0000;
    LittleReads(e.kind, 2);
    LittleReads(e.machine, 2);
    LittleReads(e.version, 4);
    LittleReads(e.ehsize, 2);
  }

  // ---------------------------------------------------------------- what the manifest must say

  predicate HexDigits(s: string) { forall i :: 0 <= i < |s| ==> '0' <= s[i] <= '9' || 'a' <= s[i] <= 'f' }

  predicate Hex40(s: Option<string>) { s.Some? && |s.value| == 40 && HexDigits(s.value) }

  function HashLength(h: Hash): nat { if h.Sha? then 64 else |h.text| }

  predicate WellFormedHash(h: Hash) { h.Sha? || (|h.text| == 64 && HexDigits(h.text)) }

  /** Every sourced member is listed with the digest of the source file it was copied from. */
  predicate Sourced(m: Manifest) {
    m.files.Some? && forall p :: p in SOURCED ==>
      p.0 in m.sourceFiles && p.1 in m.files.value && m.files.value[p.1] == m.sourceFiles[p.0]
  }

  /** The installer's checks of the parsed manifest, in its order. */
  function CheckManifest(m: Manifest): Verdict {
    if m.schema !in {Some(2), Some(3)} || m.platform !in {Some("linux-amd64"), Some("linux-arm64")}
       || (m.schema == Some(2) && m.platform != Some("linux-amd64")) then Refused("source_binding_v2_or_v3_required")
    else if m.goVersion != Some("go1.27.2") || m.goSha.None? || HashLength(m.goSha.value) != 64
    then Refused("pinned_sdk_binding_required")
    else if !Hex40(m.source) then Refused("invalid_source_commit")
    else if m.sourceBinding != Some("frozen-git-archive+pre-post-hashes") || !(REQUIRED_INPUTS <= m.sourceFiles.Keys)
    then Refused("incomplete_source_binding")
    else if exists k :: k in m.sourceFiles && !WellFormedHash(m.sourceFiles[k]) then Refused("invalid_source_hash")
    else if !Sourced(m) then Refused("source_member_binding_mismatch")
    else if !Hex40(m.tree) then Refused("invalid_source_tree")
    else if m.files.value.Keys != REQUIRED then Refused("unexpected_bundle_members")
    else Fine
  }

  datatype Host = Host(system: string, machine: string)

  function HostArch(machine: string): Option<string> {
    if machine in {"x86_64", "amd64"} then Some("amd64")
    else if machine in {"aarch64", "arm64"} then Some("arm64")
    else None
  }

  /** The installer's check of the binary against the manifest and the host. */
  function AdmitTarget(m: Manifest, binary: Bytes, host: Host): Verdict {
    var (v, actual) := BinaryTarget(binary);
    if v != Fine then v
    else if m.platform != Some("linux-" + actual.goarch) then Refused("manifest_binary_architecture_mismatch")
    else if m.schema == Some(3) && m.target != Some(actual) then Refused("manifest_target_mismatch")
    else if host.system != "linux" || HostArch(host.machine) != Some(actual.goarch) then Refused("host_target_mismatch")
    else Fine
  }

  // ---------------------------------------------------------------- what the build writes

  /** The manifest of a successful build. */
  function Built(commit: string, tree: string, arch: string, target: Target, inputs: map<string, Hash>, goSha: Hash,
                 files: map<string, Hash>): Manifest {
    Manifest(Some(3), Some("linux-" + arch), Some("go1.27.2"), Some(goSha), Some(commit), Some(tree), Some(target),
             Some("frozen-git-archive+pre-post-hashes"), inputs, Some(files))
  }

  /** The sources an archive always holds: the ones named to it one by one, and the copied ones. */
  const NAMED_INPUTS: set<string> := REQUIRED_INPUTS - {"connectors/whatsapp/go.mod", "connectors/whatsapp/go.sum"}

  /** What is known of the parts of the manifest of an undisturbed build. */
  ghost predicate WellMade(arch: string, target: Target, inputs: map<string, Hash>, goSha: Hash,
                              files: map<string, Hash>, binary: Bytes) {
    && arch in {"amd64", "arm64"} && BinaryTarget(binary) == (Fine, target) && target.goarch == arch
    && HashLength(goSha) == 64 && NAMED_INPUTS <= inputs.Keys && (forall k :: k in inputs ==> inputs[k].Sha?)
    && files.Keys == REQUIRED && forall p :: p in SOURCED ==> files[p.1] == inputs[p.0]
  }

  lemma SourcedIsNamed(p: (string, string))
    requires p in SOURCED
    ensures p.0 in NAMED_INPUTS && p.1 in REQUIRED
  {
  }

  /** The platform, the inputs and the sourced members of a built manifest are as the installer wants. */
  lemma BuiltParts(commit: string, tree: string, arch: string, target: Target, inputs: map<string, Hash>, goSha: Hash,
                   files: map<string, Hash>, binary: Bytes)
    requires WellMade(arch, target, inputs, goSha, files, binary)
    ensures var m := Built(commit, tree, arch, target, inputs, goSha, files);
      && m.platform in {Some("linux-amd64"), Some("linux-arm64")} && Sourced(m)
      && (REQUIRED_INPUTS <= inputs.Keys <==>
            "connectors/whatsapp/go.mod" in inputs && "connectors/whatsapp/go.sum" in inputs)
  {
    var m := Built(commit, tree, arch, target, inputs, goSha, files);
    forall p | p in SOURCED ensures p.0 in m.sourceFiles && p.1 in m.files.value { SourcedIsNamed(p); }
    assert "linux-" + "amd64" == "linux-amd64" && "linux-" + "arm64" == "linux-arm64";
  }

  /** Build output is admissible to the installer exactly when the commit and the tree are 40-digit
      SHA-1 names and the module has both go.mod and go.sum. */
  lemma BuiltIsAdmitted(commit: string, tree: string, arch: string, target: Target, inputs: map<string, Hash>,
                        goSha: Hash,
                        files: map<string, Hash>, binary: Bytes)
    requires WellMade(arch, target, inputs, goSha, files, binary)
    ensures CheckManifest(Built(commit, tree, arch, target, inputs, goSha, files)) == Fine <==>
      && Hex40(Some(commit)) && Hex40(Some(tree))
      && "connectors/whatsapp/go.mod" in inputs && "connectors/whatsapp/go.sum" in inputs
  {
    BuiltParts(commit, tree, arch, target, inputs, goSha, files, binary);
    assert Built(commit, tree, arch, target, inputs, goSha, files).schema == Some(3);
  }

  /** The binary of a build is admitted exactly on a Linux host of its architecture. */
  lemma BuiltBinaryAdmitted(commit: string, tree: string, arch: string, target: Target, inputs: map<string, Hash>,
                            goSha: Hash,
                            files: map<string, Hash>, binary: Bytes, host: Host)
    requires WellMade(arch, target, inputs, goSha, files, binary)
    ensures AdmitTarget(Built(commit, tree, arch, target, inputs, goSha, files), binary, host) == Fine <==>
            host.system == "linux" && HostArch(host.machine) == Some(arch)
  {
  }
}
