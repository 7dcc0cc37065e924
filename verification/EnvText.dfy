/** The env-file text handled by the Go credential migration: Python line splitting and
    trimming, the first-occurrence parser, alias precedence, and the two rewrites (adding the
    vault route, retiring aliases). */
module EnvText {
  import opened Options

  const GO_ALIASES: seq<string> := ["WASM_AGENT_LLM_API_KEY", "OPENCODE_GO_API_KEY"]
  const GENERIC_ALIAS: string := "OPENAI_API_KEY"
  const ALIASES: seq<string> := GO_ALIASES + [GENERIC_ALIAS]
  const ROUTE: string := "WASM_AGENT_OPENCODE_GO_VAULT_URL"
  const GO_UPSTREAM: string := "https://opencode.ai/zen/go/v1"

  // ---------------------------------------------------------------- characters

  /** The line boundaries of Python's `str.splitlines`. */
  predicate IsBreak(c: char) {
    var n := c as int;
    0x0a <= n <= 0x0d || 0x1c <= n <= 0x1e || n == 0x85 || n == 0x2028 || n == 0x2029
  }

  /** The characters Python's `str.strip` removes. */
  predicate IsSpace(c: char) {
    var n := c as int;
    || 0x09 <= n <= 0x0d || 0x1c <= n <= 0x20 || n == 0x85 || n == 0xa0 || n == 0x1680
    || 0x2000 <= n <= 0x200a || n == 0x2028 || n == 0x2029 || n == 0x202f || n == 0x205f || n == 0x3000
  }

  predicate IsQuote(c: char) { c == '\"' || c == '\'' }

  /** What a trim removes at the edges. */
  datatype Edge = Spaces | Quotes {
    predicate Cuts(c: char) { if Spaces? then IsSpace(c) else IsQuote(c) }
  }

  function Trim(s: string, e: Edge): (r: string)
    ensures |r| <= |s|
    ensures r == s || |r| < |s|
    ensures r != "" ==> !e.Cuts(r[0]) && !e.Cuts(r[|r| - 1])
  {
    if s == "" then s
    else if e.Cuts(s[0]) then Trim(s[1..], e)
    else if e.Cuts(s[|s| - 1]) then Trim(s[..|s| - 1], e)
    else s
  }

  /** Trimming never drops a character that is not cut, and adds none. */
  lemma {:induction false} TrimKeeps(s: string, e: Edge, c: char)
    requires !e.Cuts(c)
    ensures c in Trim(s, e) <==> c in s
    decreases |s|
  {
    if s == "" {
    } else if e.Cuts(s[0]) {
      TrimKeeps(s[1..], e, c);
      assert s == [s[0]] + s[1..];
    } else if e.Cuts(s[|s| - 1]) {
      TrimKeeps(s[..|s| - 1], e, c);
      assert s == s[..|s| - 1] + [s[|s| - 1]];
    }
  }

  /** All that is outside `i..j` is cut, and nothing at the edges of it is. */
  ghost predicate Middle(s: string, e: Edge, i: nat, j: nat) {
    && i <= j <= |s|
    && (forall k :: 0 <= k < i ==> e.Cuts(s[k])) && (forall k :: j <= k < |s| ==> e.Cuts(s[k]))
    && (i < j ==> !e.Cuts(s[i]) && !e.Cuts(s[j - 1]))
  }

  lemma MiddleAfter(s: string, e: Edge, i: nat, j: nat)
    requires s != "" && e.Cuts(s[0]) && Middle(s[1..], e, i, j)
    ensures Middle(s, e, i + 1, j + 1) && s[1..][i..j] == s[i + 1..j + 1]
  {
    assert forall k :: 1 <= k < |s| ==> s[k] == s[1..][k - 1];
  }

  lemma MiddleBefore(s: string, e: Edge, i: nat, j: nat)
    requires s != "" && e.Cuts(s[|s| - 1]) && Middle(s[..|s| - 1], e, i, j)
    ensures Middle(s, e, i, j) && s[..|s| - 1][i..j] == s[i..j]
  {
  }

  /** A trim is the middle of the text: what it drops at either end is only what it cuts, and what is
      left starts and ends with something it does not. */
  lemma {:induction false} TrimIsMiddle(s: string, e: Edge) returns (i: nat, j: nat)
    ensures Middle(s, e, i, j) && Trim(s, e) == s[i..j]
    decreases |s|
  {
    if s == "" {
      i, j := 0, 0;
    } else if e.Cuts(s[0]) {
      i, j := TrimIsMiddle(s[1..], e);
      MiddleAfter(s, e, i, j);
      i, j := i + 1, j + 1;
    } else if e.Cuts(s[|s| - 1]) {
      i, j := TrimIsMiddle(s[..|s| - 1], e);
      MiddleBefore(s, e, i, j);
    } else {
      i, j := 0, |s|;
      assert s[0..|s|] == s;
    }
  }

  // ---------------------------------------------------------------- lines

  predicate OneLine(s: string) { forall i :: 0 <= i < |s| ==> !IsBreak(s[i]) }

  function LineEnd(t: string): (n: nat)
    ensures n <= |t|
    ensures OneLine(t[..n])
    ensures n < |t| ==> IsBreak(t[n])
  {
    if t == "" || IsBreak(t[0]) then 0
    else
      var n := 1 + LineEnd(t[1..]);
      assert t[..n] == [t[0]] + t[1..][..n - 1];
      n
  }

  /** `text.splitlines()`: a CR LF pair is one boundary, and a final boundary opens no line. */
  function SplitLines(t: string): (lines: seq<string>)
    ensures forall i :: 0 <= i < |lines| ==> OneLine(lines[i])
    decreases |t|
  {
    if t == "" then []
    else
      var n := LineEnd(t);
      if n == |t| then assert t[..n] == t; [t]
      else
        var width := if t[n] == '\r' && n + 1 < |t| && t[n + 1] == '\n' then 2 else 1;
        [t[..n]] + SplitLines(t[n + width..])
  }

  /** A line boundary: one break character, or a CR LF pair. */
  predicate IsEnding(e: string) { e == "\r\n" || (|e| == 1 && IsBreak(e[0])) }

  /** The lines, each followed by its own boundary. */
  function Glue(lines: seq<string>, ends: seq<string>): string
    requires |lines| == |ends|
  {
    if lines == [] then "" else lines[0] + ends[0] + Glue(lines[1..], ends[1..])
  }

  /** Every line ends at a boundary, except perhaps a last one that is not empty. */
  ghost predicate Ends(lines: seq<string>, ends: seq<string>) {
    && |lines| == |ends|
    && forall i :: 0 <= i < |ends| ==> (IsEnding(ends[i]) || (i == |ends| - 1 && ends[i] == "" && lines[i] != ""))
  }

  lemma EndsCons(line: string, end: string, lines: seq<string>, ends: seq<string>)
    requires IsEnding(end) && Ends(lines, ends)
    ensures Ends([line] + lines, [end] + ends)
    ensures Glue([line] + lines, [end] + ends) == line + end + Glue(lines, ends)
  {
    assert ([line] + lines)[1..] == lines && ([end] + ends)[1..] == ends;
  }

  lemma SplitStep(t: string) returns (end: string, rest: string)
    requires LineEnd(t) < |t|
    ensures IsEnding(end) && |rest| < |t| && t == t[..LineEnd(t)] + end + rest
    ensures SplitLines(t) == [t[..LineEnd(t)]] + SplitLines(rest)
  {
    var n := LineEnd(t);
    var width := if t[n] == '\r' && n + 1 < |t| && t[n + 1] == '\n' then 2 else 1;
    end, rest := t[n..n + width], t[n + width..];
  }

  /** The lines make up the whole text: with their boundaries they spell it. */
  lemma {:induction false} LinesSpellText(t: string) returns (ends: seq<string>)
    ensures Ends(SplitLines(t), ends) && Glue(SplitLines(t), ends) == t
    ensures forall l :: l in SplitLines(t) ==> OneLine(l)
    decreases |t|
  {
    var n := LineEnd(t);
    if t == "" {
      ends := [];
    } else if n == |t| {
      ends := [""];
      assert t[..n] == t;
      assert Glue([t], [""]) == t + "" + Glue([], []);
    } else {
      var end, rest := SplitStep(t);
      var more := LinesSpellText(rest);
      EndsCons(t[..n], end, SplitLines(rest), more);
      ends := [end] + more;
    }
  }

  /** `'\n'.join(lines)`. */
  function Join(lines: seq<string>): string {
    if lines == [] then "" else if |lines| == 1 then lines[0] else lines[0] + "\n" + Join(lines[1..])
  }

  /** The text both rewrites produce: the lines joined, with a final newline. */
  function FileText(lines: seq<string>): string { Join(lines) + "\n" }

  lemma {:induction false} LineEndAt(head: string, tail: string)
    requires OneLine(head)
    requires tail != "" && IsBreak(tail[0])
    ensures LineEnd(head + tail) == |head|
  {
    if head == "" {
      assert head + tail == tail;
    } else {
      assert (head + tail)[1..] == head[1..] + tail;
      LineEndAt(head[1..], tail);
    }
  }

  lemma SplitHead(line: string, rest: string)
    requires OneLine(line)
    ensures SplitLines(line + "\n" + rest) == [line] + SplitLines(rest)
  {
    var t := line + "\n" + rest;
    assert t == line + ("\n" + rest);
    LineEndAt(line, "\n" + rest);
    assert t[..|line|] == line && t[|line| + 1..] == rest && t[|line|] == '\n';
  }

  lemma FileTextCons(line: string, lines: seq<string>)
    requires lines != []
    ensures FileText([line] + lines) == line + "\n" + FileText(lines)
  {
    assert ([line] + lines)[1..] == lines;
    assert Join([line] + lines) == line + "\n" + Join(lines);
    assert (line + "\n" + Join(lines)) + "\n" == line + "\n" + (Join(lines) + "\n");
  }

  lemma SplitFileTextCons(line: string, rest: seq<string>)
    requires OneLine(line) && rest != []
    ensures SplitLines(FileText([line] + rest)) == [line] + SplitLines(FileText(rest))
  {
    FileTextCons(line, rest);
    SplitHead(line, FileText(rest));
  }

  /** Splitting the written text gives back the lines that were joined: break-free leading
      lines are kept one for one, and whatever the last one contains is split in its place. */
  lemma {:induction false} SplitJoined(lines: seq<string>, last: string)
    requires forall i :: 0 <= i < |lines| ==> OneLine(lines[i])
    ensures SplitLines(FileText(lines + [last])) == lines + SplitLines(last + "\n")
  {
    if lines == [] {
      assert lines + [last] == [last];
      assert lines + SplitLines(last + "\n") == SplitLines(last + "\n");
    } else {
      calc {
        SplitLines(FileText(lines + [last]));
        { assert lines + [last] == [lines[0]] + (lines[1..] + [last]); }
        SplitLines(FileText([lines[0]] + (lines[1..] + [last])));
        { SplitFileTextCons(lines[0], lines[1..] + [last]); }
        [lines[0]] + SplitLines(FileText(lines[1..] + [last]));
        { SplitJoined(lines[1..], last); }
        [lines[0]] + (lines[1..] + SplitLines(last + "\n"));
        lines + SplitLines(last + "\n");
      }
    }
  }

  /** Round trip of the written file: a non-empty list of lines reads back unchanged; the empty
      list reads back as one blank line. */
  lemma SplitFileText(lines: seq<string>)
    requires forall i :: 0 <= i < |lines| ==> OneLine(lines[i])
    ensures SplitLines(FileText(lines)) == if lines == [] then [""] else lines
  {
    if lines == [] {
      SplitHead("", "");
      assert "" + "\n" + "" == FileText(lines);
    } else {
      var n := |lines| - 1;
      assert lines == lines[..n] + [lines[n]];
      SplitJoined(lines[..n], lines[n]);
      SplitHead(lines[n], "");
      assert lines[n] + "\n" + "" == lines[n] + "\n";
    }
  }

  // ---------------------------------------------------------------- entries

  /** `line.split('=', 1)[0]`: the whole line when there is no `=`. */
  function Before(line: string): (r: string)
    ensures '=' !in r
    ensures '=' in line ==> |r| < |line| && r == line[..|r|] && line[|r|] == '='
    ensures '=' !in line ==> r == line
  {
    if line == "" || line[0] == '=' then ""
    else
      assert line == [line[0]] + line[1..];
      [line[0]] + Before(line[1..])
  }

  /** The name a rewrite filters on: `line.split('=', 1)[0].strip()`. */
  function KeyPart(line: string): string { Trim(Before(line), Spaces) }

  /** The key and value the parser takes from one line, if it takes any. */
  function Entry(raw: string): Option<(string, string)> {
    var line := Trim(raw, Spaces);
    if line == "" || line[0] == '#' || '=' !in line then None
    else
      var key := Before(line);
      Some((Trim(key, Spaces), Trim(Trim(line[|key| + 1..], Spaces), Quotes)))
  }

  /** The value of `k` is that of the first line that defines it. */
  function Lookup(lines: seq<string>, k: string): Option<string> {
    if lines == [] then None
    else
      var e := Entry(lines[0]);
      if e.Some? && e.value.0 == k then Some(e.value.1) else Lookup(lines[1..], k)
  }

  function Keys(lines: seq<string>): (ks: set<string>)
    ensures forall k :: k in ks <==> Lookup(lines, k).Some?
  {
    if lines == [] then {}
    else
      var e := Entry(lines[0]);
      (if e.Some? then {e.value.0} else {}) + Keys(lines[1..])
  }

  function ParseLines(lines: seq<string>): map<string, string> {
    map k | k in Keys(lines) :: Lookup(lines, k).value
  }

  function Parse(text: string): map<string, string> { ParseLines(SplitLines(text)) }

  lemma {:induction false} LookupAppend(a: seq<string>, b: seq<string>, k: string)
    ensures Lookup(a + b, k) == if Lookup(a, k).Some? then Lookup(a, k) else Lookup(b, k)
  {
    if a == [] {
      assert a + b == b;
    } else {
      assert (a + b)[0] == a[0] && (a + b)[1..] == a[1..] + b;
      LookupAppend(a[1..], b, k);
    }
  }

  /** A map with the first-occurrence values of the lines is what they parse to. */
  lemma ParseIs(lines: seq<string>, m: map<string, string>)
    requires forall k :: Lookup(lines, k) == if k in m then Some(m[k]) else None
    ensures ParseLines(lines) == m
  {
    assert ParseLines(lines).Keys == m.Keys;
  }

  lemma ParseNext(lines: seq<string>, line: string)
    ensures ParseLines(lines + [line]) ==
      var e, m := Entry(line), ParseLines(lines);
      if e.Some? && e.value.0 !in m then m[e.value.0 := e.value.1] else m
  {
    var e, m := Entry(line), ParseLines(lines);
    assert [line][1..] == [];
    forall k
      ensures Lookup(lines + [line], k) ==
        if k in m then Some(m[k]) else if e.Some? && e.value.0 == k then Some(e.value.1) else None
    {
      LookupAppend(lines, [line], k);
    }
    ParseIs(lines + [line], if e.Some? && e.value.0 !in m then m[e.value.0 := e.value.1] else m);
  }

  lemma ParsePrefix(lines: seq<string>, i: nat)
    requires i < |lines|
    ensures ParseLines(lines[..i + 1]) ==
      var e, m := Entry(lines[i]), ParseLines(lines[..i]);
      if e.Some? && e.value.0 !in m then m[e.value.0 := e.value.1] else m
  {
    ParseNext(lines[..i], lines[i]);
    assert lines[..i + 1] == lines[..i] + [lines[i]];
  }

  /** The parser's loop: each line is taken with `setdefault`, so the first one wins. */
  method ParseEnv(text: string) returns (result: map<string, string>)
    ensures result == Parse(text)
  {
    result := map[];
    var lines := SplitLines(text);
    var i := 0;
    while i < |lines|
      invariant 0 <= i <= |lines|
      invariant result == ParseLines(lines[..i])
    {
      ParsePrefix(lines, i);
      match Entry(lines[i]) {
        case None =>
        case Some((key, value)) =>
          if key !in result {
            result := result[key := value];
          }
      }
      i := i + 1;
    }
    assert lines[..i] == lines;
  }

  lemma {:induction false} BeforeAppend(a: string, b: string)
    requires '=' in a
    ensures Before(a + b) == Before(a)
  {
    if a[0] != '=' {
      assert (a + b)[1..] == a[1..] + b;
      BeforeAppend(a[1..], b);
    } else {
      assert (a + b)[0] == '=';
    }
  }

  lemma {:induction false} KeyBeforeTrim(raw: string)
    requires '=' in raw
    ensures Trim(Before(Trim(raw, Spaces)), Spaces) == KeyPart(raw)
    decreases |raw|
  {
    var n := |raw|;
    if IsSpace(raw[0]) {
      assert raw == [raw[0]] + raw[1..];
      KeyBeforeTrim(raw[1..]);
      assert Before(raw)[1..] == Before(raw[1..]);
    } else if IsSpace(raw[n - 1]) {
      assert raw == raw[..n - 1] + raw[n - 1..];
      KeyBeforeTrim(raw[..n - 1]);
      BeforeAppend(raw[..n - 1], raw[n - 1..]);
    }
  }

  /** The parser and the rewrites agree on the name of every line the parser takes. */
  lemma EntryKey(raw: string)
    ensures Entry(raw).Some? ==> Entry(raw).value.0 == KeyPart(raw)
  {
    if Entry(raw).Some? {
      TrimKeeps(raw, Spaces, '=');
      KeyBeforeTrim(raw);
    }
  }

  // ---------------------------------------------------------------- rewrites

  /** The lines whose name is not in `names`, in order. */
  function Without(lines: seq<string>, names: set<string>): seq<string> {
    if lines == [] then []
    else (if KeyPart(lines[0]) in names then [] else [lines[0]]) + Without(lines[1..], names)
  }

  lemma {:induction false} WithoutMember(lines: seq<string>, names: set<string>, l: string)
    ensures l in Without(lines, names) <==> l in lines && KeyPart(l) !in names
  {
    if lines == [] {
    } else {
      WithoutMember(lines[1..], names, l);
      assert lines == [lines[0]] + lines[1..];
    }
  }

  function KeptLines(text: string, names: set<string>): (kept: seq<string>)
    ensures forall i :: 0 <= i < |kept| ==> OneLine(kept[i])
  {
    var kept := Without(SplitLines(text), names);
    assert forall i :: 0 <= i < |kept| ==> OneLine(kept[i]) by {
      forall i | 0 <= i < |kept| ensures OneLine(kept[i]) {
        WithoutMember(SplitLines(text), names, kept[i]);
      }
    }
    kept
  }

  /** The env file with `name` set to `value`: old lines of that name dropped, one appended. */
  function WithEntry(text: string, name: string, value: string): string {
    FileText(KeptLines(text, {name}) + [name + "=" + value])
  }

  /** The env file with the Go route set to `vault`. */
  function WithRoute(text: string, vault: string): string { WithEntry(text, ROUTE, vault) }

  /** The env file with every line named in `names` dropped. */
  function Retire(text: string, names: set<string>): string { FileText(KeptLines(text, names)) }

  /** The dedicated Go aliases the file defines; the generic alias is never among them. */
  function RetiredNames(text: string): set<string> { set n | n in GO_ALIASES && n in Parse(text) }

  lemma {:induction false} LookupWithout(lines: seq<string>, names: set<string>, k: string)
    ensures Lookup(Without(lines, names), k) == if k in names then None else Lookup(lines, k)
  {
    if lines == [] {
    } else {
      var rest := Without(lines[1..], names);
      LookupWithout(lines[1..], names, k);
      EntryKey(lines[0]);
      if KeyPart(lines[0]) in names {
        assert [] + rest == rest;
      } else {
        assert ([lines[0]] + rest)[1..] == rest;
      }
    }
  }

  lemma BlankLine(k: string)
    ensures Lookup([""], k) == None
  {
    assert Entry("") == None;
    assert [""][1..] == [];
  }

  /** Retirement drops exactly the named keys, with all their duplicates, and changes nothing else. */
  lemma RetireFrame(text: string, names: set<string>)
    ensures Parse(Retire(text, names)) == Parse(text) - names
  {
    var after := SplitLines(Retire(text, names));
    SplitFileText(KeptLines(text, names));
    forall k
      ensures Lookup(after, k) == if k in names then None else Lookup(SplitLines(text), k)
    {
      LookupWithout(SplitLines(text), names, k);
      BlankLine(k);
    }
    ParseIs(after, Parse(text) - names);
  }

  /** Line by line: retirement keeps every line with another name and leaves none of the named ones. */
  lemma RetireLines(text: string, names: set<string>, l: string)
    ensures l in SplitLines(Retire(text, names)) ==> l == "" || (l in SplitLines(text) && KeyPart(l) !in names)
    ensures l in SplitLines(text) && KeyPart(l) !in names ==> l in SplitLines(Retire(text, names))
  {
    SplitFileText(KeptLines(text, names));
    WithoutMember(SplitLines(text), names, l);
  }

  /** A value that survives being written on one line and read back. */
  predicate CleanValue(v: string) {
    && OneLine(v)
    && (v != "" ==> !IsSpace(v[0]) && !IsQuote(v[0]) && !IsSpace(v[|v| - 1]) && !IsQuote(v[|v| - 1]))
  }

  /** A name that parses as itself. */
  predicate PlainName(name: string) {
    name != "" && '=' !in name && name[0] != '#' && OneLine(name) && !IsSpace(name[0]) && !IsSpace(name[|name| - 1])
  }

  lemma {:induction false} BeforeEq(name: string, v: string)
    requires '=' !in name
    ensures Before(name + "=" + v) == name
  {
    if name != "" {
      assert (name + "=" + v)[1..] == name[1..] + "=" + v;
      assert name == [name[0]] + name[1..];
      BeforeEq(name[1..], v);
    } else {
      assert (name + "=" + v)[0] == '=';
    }
  }

  lemma {:induction false} TrimTail(v: string)
    requires v != "" && IsSpace(v[|v| - 1])
    ensures Trim(v, Spaces) == Trim(v[..|v| - 1], Spaces)
    decreases |v|
  {
    if |v| > 1 && IsSpace(v[0]) {
      TrimTail(v[1..]);
      assert v[1..][..|v| - 2] == v[..|v| - 1][1..];
    } else if |v| == 1 {
      assert v[1..] == "" && v[..0] == "";
    }
  }

  lemma EntryTail(line: string)
    requires line != "" && IsSpace(line[|line| - 1])
    ensures Entry(line) == Entry(line[..|line| - 1])
  {
    TrimTail(line);
  }

  lemma EntryOfTight(name: string, v: string)
    requires PlainName(name)
    requires v != "" ==> !IsSpace(v[|v| - 1])
    ensures Entry(name + "=" + v) == Some((name, Trim(Trim(v, Spaces), Quotes)))
  {
    var line := name + "=" + v;
    assert line[0] == name[0] && line[|name|] == '=';
    assert line[|line| - 1] == if v == "" then '=' else v[|v| - 1];
    assert Trim(line, Spaces) == line;
    BeforeEq(name, v);
    assert line[|name| + 1..] == v;
    assert Trim(name, Spaces) == name;
  }

  /** The line `name=v` defines `name` as `v` trimmed of blanks, then of quotes. */
  lemma {:induction false} EntryOf(name: string, v: string)
    requires PlainName(name)
    ensures Entry(name + "=" + v) == Some((name, Trim(Trim(v, Spaces), Quotes)))
    decreases |v|
  {
    if v != "" && IsSpace(v[|v| - 1]) {
      var line, w := name + "=" + v, v[..|v| - 1];
      assert line[..|line| - 1] == name + "=" + w;
      EntryTail(line);
      EntryOf(name, w);
      TrimTail(v);
    } else {
      EntryOfTight(name, v);
    }
  }

  /** Trimming leaves a value alone exactly when its edges are clean. */
  lemma CleanEdges(v: string)
    ensures OneLine(v) ==> (Trim(Trim(v, Spaces), Quotes) == v <==> CleanValue(v))
  {}

  /** What a rewritten file defines: every other key as before, then what its last line parses to. */
  lemma EntryLookup(text: string, name: string, v: string, k: string)
    ensures Lookup(SplitLines(WithEntry(text, name, v)), k) ==
      var last := Lookup(SplitLines(name + "=" + v + "\n"), k);
      if k == name || Lookup(SplitLines(text), k).None? then last else Lookup(SplitLines(text), k)
  {
    SplitJoined(KeptLines(text, {name}), name + "=" + v);
    LookupAppend(KeptLines(text, {name}), SplitLines(name + "=" + v + "\n"), k);
    LookupWithout(SplitLines(text), {name}, k);
  }

  lemma LastLineWhole(name: string, v: string, k: string)
    requires PlainName(name) && OneLine(v)
    ensures Lookup(SplitLines(name + "=" + v + "\n"), k) ==
            if k == name then Some(Trim(Trim(v, Spaces), Quotes)) else None
  {
    var line := name + "=" + v;
    SplitHead(line, "");
    assert line + "\n" + "" == line + "\n";
    EntryOf(name, v);
    assert [line][1..] == [];
  }

  /** With a line break inside the value, the value read back is shorter than the one written. */
  lemma LastLineBroken(name: string, v: string)
    requires PlainName(name) && !OneLine(v)
    ensures var r := Lookup(SplitLines(name + "=" + v + "\n"), name); r.Some? && |r.value| < |v|
  {
    assert v[..|v|] == v;
    var n := LineEnd(v);
    var head, tail := name + "=" + v[..n], v[n..] + "\n";
    assert name + "=" + v + "\n" == head + tail;
    LineEndAt(head, tail);
    assert (head + tail)[..|head|] == head;
    EntryOf(name, v[..n]);
    assert SplitLines(head + tail)[0] == head;
  }

  lemma EntryFrame(text: string, name: string, v: string)
    requires PlainName(name)
    ensures Parse(WithEntry(text, name, v)) == Parse(text)[name := v] <==> CleanValue(v)
  {
    var after := SplitLines(WithEntry(text, name, v));
    EntryLookup(text, name, v, name);
    if OneLine(v) {
      var got := Trim(Trim(v, Spaces), Quotes);
      CleanEdges(v);
      forall k
        ensures Lookup(after, k) == if k == name then Some(got) else Lookup(SplitLines(text), k)
      {
        EntryLookup(text, name, v, k);
        LastLineWhole(name, v, k);
      }
      ParseIs(after, Parse(text)[name := got]);
      assert Parse(text)[name := got][name] == got && Parse(text)[name := v][name] == v;
    } else {
      LastLineBroken(name, v);
      assert Parse(WithEntry(text, name, v))[name] != v == Parse(text)[name := v][name];
    }
  }

  /** The frame law of route configuration, with its exact condition: the rewritten file means the
      old one with the route set, every other key unchanged, exactly when the route value has no
      line break and no blank or quote at its edges. */
  lemma RouteFrame(text: string, v: string)
    ensures Parse(WithRoute(text, v)) == Parse(text)[ROUTE := v] <==> CleanValue(v)
  {
    EntryFrame(text, ROUTE, v);
  }

  /** Route configuration keeps every line that is not a route line, aliases included. */
  lemma RouteKeepsLines(text: string, v: string, l: string)
    requires l in SplitLines(text) && KeyPart(l) != ROUTE
    ensures l in SplitLines(WithRoute(text, v))
  {
    var kept := KeptLines(text, {ROUTE});
    WithoutMember(SplitLines(text), {ROUTE}, l);
    SplitJoined(kept, ROUTE + "=" + v);
  }

  lemma AliasNotRoute(name: string)
    requires name in ALIASES
    ensures name != ROUTE
  {
    assert ALIASES[0][0] == 'W' && ALIASES[0][12] != ROUTE[12];
  }

  lemma EntryNames(text: string, name: string, v: string, n: string)
    requires PlainName(name) && n != name
    ensures n in Parse(WithEntry(text, name, v)) <==> n in Parse(text) || n in Parse(name + "=" + v + "\n")
    ensures OneLine(v) ==> n !in Parse(name + "=" + v + "\n")
  {
    EntryLookup(text, name, v, n);
    if OneLine(v) { LastLineWhole(name, v, n); }
  }

  lemma RoutePlain()
    ensures PlainName(ROUTE)
  {
  }

  lemma RouteName(text: string, url: string, n: string)
    requires n in ALIASES
    ensures n in Parse(WithRoute(text, url)) <==> n in Parse(text) || n in Parse(ROUTE + "=" + url + "\n")
    ensures OneLine(url) ==> n !in Parse(ROUTE + "=" + url + "\n")
  {
    AliasNotRoute(n);
    RoutePlain();
    EntryNames(text, ROUTE, url, n);
  }

  lemma RetiredName(text: string, n: string)
    ensures n in RetiredNames(text) <==> n in GO_ALIASES && n in Parse(text)
  {
  }

  /** Configuring the route adds to the dedicated aliases the file defines those that the route line
      itself defines, which a URL in one line never does. */
  lemma RouteNames(text: string, url: string)
    ensures RetiredNames(WithRoute(text, url)) == RetiredNames(text) + RetiredNames(ROUTE + "=" + url + "\n")
    ensures OneLine(url) ==> RetiredNames(ROUTE + "=" + url + "\n") == {}
  {
    var a, b, c := RetiredNames(WithRoute(text, url)), RetiredNames(text), RetiredNames(ROUTE + "=" + url + "\n");
    forall n
      ensures n in a <==> n in b || n in c
      ensures OneLine(url) ==> n !in c
    {
      RetiredName(WithRoute(text, url), n);
      RetiredName(text, n);
      RetiredName(ROUTE + "=" + url + "\n", n);
      if n in GO_ALIASES { RouteName(text, url, n); }
    }
  }

  lemma EntryBlanked(text: string, name: string, v: string)
    requires PlainName(name) && CleanValue(v) && v != ""
    ensures var now := Parse(WithEntry(text, name, " " + v));
      !CleanValue(" " + v) && name in now && now[name] == v && now != Parse(text)[name := " " + v]
  {
    var w := " " + v;
    assert w[0] == ' ' && w[1..] == v;
    EntryFrame(text, name, w);
    EntryLookup(text, name, w, name);
    LastLineWhole(name, w, name);
    assert Trim(w, Spaces) == Trim(v, Spaces) == v && Trim(v, Quotes) == v;
  }

  /** A route that does not survive: a clean one with a blank put in front, which the URL check lets
      through. Whatever the file, it reads back without the blank. */
  lemma BlankedRouteIsLost(text: string, v: string)
    requires CleanValue(v) && v != ""
    ensures var now := Parse(WithRoute(text, " " + v));
      !CleanValue(" " + v) && ROUTE in now && now[ROUTE] == v && now != Parse(text)[ROUTE := " " + v]
  {
    RoutePlain();
    EntryBlanked(text, ROUTE, v);
  }

  // ---------------------------------------------------------------- effective key

  datatype Owner = ProcessEnvironment | EnvFile

  datatype Credential = Absent | Found(name: string, key: string, owner: Owner)

  function EffectiveAmong(names: seq<string>, values: map<string, string>, environ: map<string, string>): Credential {
    if names == [] then Absent
    else if names[0] in environ then Found(names[0], environ[names[0]], ProcessEnvironment)
    else if names[0] in values then Found(names[0], values[names[0]], EnvFile)
    else EffectiveAmong(names[1..], values, environ)
  }

  /** The credential the node would use: aliases in order, and for each the process before the file. */
  function Effective(text: string, environ: map<string, string>): Credential {
    EffectiveAmong(ALIASES, Parse(text), environ)
  }

  predicate Defined(n: string, values: map<string, string>,
                    environ: map<string, string>) { n in environ || n in values }

  /** The effective credential is the first alias defined anywhere, and its process value wins. */
  lemma {:induction false} EffectiveIsFirst(names: seq<string>, values: map<string, string>,
                                            environ: map<string, string>, i: nat)
    requires i < |names| && Defined(names[i], values, environ)
    requires forall j :: 0 <= j < i ==> !Defined(names[j], values, environ)
    ensures EffectiveAmong(names, values, environ) ==
      if names[i] in environ then Found(names[i], environ[names[i]], ProcessEnvironment)
      else Found(names[i], values[names[i]], EnvFile)
  {
    if i == 0 {
    } else {
      assert !Defined(names[0], values, environ);
      assert forall j :: 0 <= j < i - 1 ==> names[1..][j] == names[j + 1];
      EffectiveIsFirst(names[1..], values, environ, i - 1);
    }
  }

  /** An effective credential taken from the file is the file's own value of a defined alias. */
  lemma {:induction false} EffectiveFromFile(names: seq<string>, values: map<string, string>,
                                             environ: map<string, string>)
    ensures var c := EffectiveAmong(names, values, environ);
      c.Found? ==> c.name in names && (c.owner == EnvFile ==> c.name in values && values[c.name] == c.key)
  {
    if names != [] && !Defined(names[0], values, environ) {
      EffectiveFromFile(names[1..], values, environ);
    }
  }

  function TrimSlashes(url: string): string {
    if url != "" && url[|url| - 1] == '/' then TrimSlashes(url[..|url| - 1]) else url
  }

  /** The upstream base URL in force: two names in order, the process before the file for each. */
  function Upstream(text: string, environ: map<string, string>): string {
    var values := Parse(text);
    var first, second := "WASM_AGENT_LLM_BASE_URL", "WASM_AGENT_OPENAI_BASE_URL";
    if first in environ then environ[first]
    else if first in values then values[first]
    else if second in environ then environ[second]
    else if second in values then values[second]
    else GO_UPSTREAM
  }

  // ---------------------------------------------------------------- a file of two entries

  lemma NamesDiffer()
    ensures var first, second := GO_ALIASES[0], GO_ALIASES[1];
      && first != second && first != "WASM_AGENT_LLM_BASE_URL" && first != "WASM_AGENT_OPENAI_BASE_URL"
      && second != "WASM_AGENT_LLM_BASE_URL" && second != "WASM_AGENT_OPENAI_BASE_URL"
  {
    var first, second := GO_ALIASES[0], GO_ALIASES[1];
    assert first[15] == 'A' && "WASM_AGENT_LLM_BASE_URL"[15] == 'B';
    assert first[11] == 'L' && "WASM_AGENT_OPENAI_BASE_URL"[11] == 'O';
    assert first[0] == 'W' && second[0] == 'O';
  }

  lemma TwoNames()
    ensures PlainName(GO_ALIASES[0]) && PlainName(GO_ALIASES[1])
  {
  }

  lemma CleanLine(name: string, v: string)
    requires PlainName(name) && CleanValue(v)
    ensures OneLine(name + "=" + v) && Entry(name + "=" + v) == Some((name, v))
  {
    EntryOf(name, v);
    CleanEdges(v);
  }

  lemma LookupTwo(n: string, a: string, m: string, b: string, k: string)
    requires PlainName(n) && PlainName(m) && CleanValue(a) && CleanValue(b)
    ensures Lookup(SplitLines(FileText([n + "=" + a, m + "=" + b])), k)
            == if k == n then Some(a) else if k == m then Some(b) else None
  {
    var x, y := n + "=" + a, m + "=" + b;
    CleanLine(n, a);
    CleanLine(m, b);
    SplitFileText([x, y]);
    assert SplitLines(FileText([x, y])) == [x, y];
    assert [x, y][1..] == [y] && [y][1..] == [];
    assert Lookup([y], k) == if k == m then Some(b) else None;
  }

  lemma NoSlash(url: string)
    requires url != "" && url[|url| - 1] != '/'
    ensures TrimSlashes(url) == url
  {
  }

  lemma UpstreamDefault(text: string, environ: map<string, string>)
    requires "WASM_AGENT_LLM_BASE_URL" !in Parse(text) && "WASM_AGENT_OPENAI_BASE_URL" !in Parse(text)
    requires "WASM_AGENT_LLM_BASE_URL" !in environ && "WASM_AGENT_OPENAI_BASE_URL" !in environ
    ensures TrimSlashes(Upstream(text, environ)) == GO_UPSTREAM
  {
    NoSlash(GO_UPSTREAM);
    assert Upstream(text, environ) == GO_UPSTREAM;
  }
}
