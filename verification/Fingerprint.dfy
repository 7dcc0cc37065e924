/** The structural fingerprint of a DOM element: attribute values collapsed, classes sorted, the tree
    cut by depth and by node count. */
module Fingerprint {
  import opened Options
  import opened Fnv
  import opened Texts

  const VALUE_LIMIT := 120

  datatype Attr = Attr(name: Text, value: Text)

  /** An element. `tag` is its tag name in lower case; `children` are its element children. */
  datatype Dom = Dom(tag: Text, attributes: seq<Attr>, textContent: Text, children: seq<Dom>)

  /** `text` is `None` when the fingerprint has no text field. */
  datatype Print = Print(
    tag: Text, classes: seq<Text>, attrs: map<Text, Text>, text: Option<Text>, truncated: bool, children: seq<Print>)

  /** `atob` is the page's base64 decoder: `None` when it refuses. */
  datatype Settings = Settings(ignore: set<Text>, maxDepth: nat, maxNodes: nat, text: bool, atob: Text -> Option<Text>)

  // ---------------------------------------------------------------- attribute values

  predicate IsBlank(c: Unit) {
    || 0x09 <= c <= 0x0d || c == 0x20 || c == 0xa0 || c == 0x1680 || 0x2000 <= c <= 0x200a
    || c == 0x2028 || c == 0x2029 || c == 0x202f || c == 0x205f || c == 0x3000 || c == 0xfeff
  }

  function Lower(c: Unit): Unit { if 0x41 <= c <= 0x5a then c + 0x20 else c }

  /** The text starts with an ASCII prefix, whatever its case. */
  predicate Starts(text: Text, prefix: Text) {
    |prefix| <= |text| && forall i :: 0 <= i < |prefix| ==> Lower(text[i]) == prefix[i]
  }

  /** The text up to the first `c`, or all of it. */
  function UpTo(text: Text, c: Unit): (r: Text)
    ensures |r| <= |text| && r == text[..|r|]
    ensures |r| < |text| ==> text[|r|] == c
    ensures c !in r
    decreases |text|
  {
    if text == [] || text[0] == c then []
    else
      assert text == [text[0]] + text[1..];
      [text[0]] + UpTo(text[1..], c)
  }

  function TrimBlanks(text: Text): Text
    decreases |text|
  {
    if text == [] then text
    else if IsBlank(text[0]) then TrimBlanks(text[1..])
    else if IsBlank(text[|text| - 1]) then TrimBlanks(text[..|text| - 1])
    else text
  }

  function WithoutBlanks(text: Text): Text
    decreases |text|
  {
    if text == [] then []
    else (if IsBlank(text[0]) then [] else [text[0]]) + WithoutBlanks(text[1..])
  }

  function SkipBlanks(text: Text): (r: Text)
    ensures |r| <= |text|
    decreases |text|
  {
    if text != [] && IsBlank(text[0]) then SkipBlanks(text[1..]) else text
  }

  /** A semicolon, blanks and the word base64, anywhere in the header. */
  predicate SaysBase64(head: Text)
    decreases |head|
  {
    head != [] && ((head[0] == 0x3b && Starts(SkipBlanks(head[1..]), Ascii("base64"))) || SaysBase64(head[1..]))
  }

  function Head(url: Text): Text { UpTo(url, 0x2c) }

  /** A header is what stands between the scheme and the comma; its media type ends at a semicolon. */
  function MimeOf(header: Text): Text {
    var mime := TrimBlanks(UpTo(header, 0x3b));
    if mime == [] then Ascii("text/plain") else mime
  }

  function Mime(url: Text): Text { MimeOf(if |Head(url)| < 5 then [] else Head(url)[5..]) }

  /** What is hashed of a data URL: the decoded bytes when it says base64 and they decode, else the
      body as written. */
  function Payload(url: Text, atob: Text -> Option<Text>): Text {
    var head := Head(url);
    var body := if |head| == |url| then [] else url[|head| + 1..];
    if SaysBase64(if |head| < 5 then [] else head[5..]) then
      var bytes := atob(WithoutBlanks(body));
      if bytes.Some? then bytes.value else body
    else body
  }

  function Collapsed(kind: Text, payload: Text): Text {
    kind + Ascii(",len=") + Decimal(|payload|) + Ascii(",h=") + Ascii(Hex8(Fnv1a32(payload)))
  }

  function Digest(text: Text, atob: Text -> Option<Text>): Option<Text> {
    if Starts(text, Ascii("data:")) then Some(Collapsed(Ascii("data:") + Mime(text), Payload(text, atob)))
    else if Starts(text, Ascii("blob:")) then Some(Collapsed(Ascii("blob:"), text))
    else None
  }

  function Shorten(text: Text): Text {
    if |text| <= VALUE_LIMIT then text
    else text[..VALUE_LIMIT] + Ascii("...+") + Decimal(|text| - VALUE_LIMIT)
  }

  function Value(text: Text, atob: Text -> Option<Text>): Text {
    var digest := Digest(text, atob);
    if digest.Some? then digest.value else Shorten(text)
  }

  lemma {:induction false} UpToFirst(a: Text, c: Unit, b: Text)
    requires c !in a
    ensures UpTo(a + [c] + b, c) == a
  {
    if a == [] {
      assert (a + [c] + b)[0] == c;
    } else {
      assert (a + [c] + b)[0] == a[0] && (a + [c] + b)[1..] == a[1..] + [c] + b;
      UpToFirst(a[1..], c, b);
    }
  }

  /** A data URL: a scheme in any case, a header, and the body after the comma, if there is a comma. */
  function DataUrl(scheme: Text, header: Text, body: Option<Text>): Text {
    scheme + header + if body.Some? then [0x2c] + body.value else []
  }

  predicate IsDataScheme(scheme: Text) { |scheme| == 5 && Starts(scheme, Ascii("data:")) }

  lemma SchemeHasNoComma(scheme: Text)
    requires IsDataScheme(scheme)
    ensures 0x2c !in scheme
  {
    forall i | 0 <= i < |scheme| ensures scheme[i] != 0x2c { assert Lower(scheme[i]) == Ascii("data:")[i] != 0x2c; }
  }

  lemma {:induction false} UpToAll(a: Text, c: Unit)
    requires c !in a
    ensures UpTo(a, c) == a
  {
    if a == [] {
    } else {
      UpToAll(a[1..], c);
      assert a == [a[0]] + a[1..];
    }
  }

  lemma DataUrlParts(scheme: Text, header: Text, body: Option<Text>)
    requires IsDataScheme(scheme) && 0x2c !in header
    ensures var url := DataUrl(scheme, header, body);
      && Head(url) == scheme + header && Head(url)[5..] == header && (|Head(url)| < |url| <==> body.Some?)
      && (body.Some? ==> url[|Head(url)| + 1..] == body.value)
  {
    SchemeHasNoComma(scheme);
    var url, head := DataUrl(scheme, header, body), scheme + header;
    if body.Some? {
      UpToFirst(head, 0x2c, body.value);
      assert url == head + [0x2c] + body.value;
    } else {
      UpToAll(head, 0x2c);
      assert url == head;
    }
  }

  lemma DataUrlStarts(scheme: Text, header: Text, body: Option<Text>)
    requires IsDataScheme(scheme)
    ensures Starts(DataUrl(scheme, header, body), Ascii("data:"))
  {
    forall i | 0 <= i < 5 ensures DataUrl(scheme, header, body)[i] == scheme[i] { }
  }

  /** Every text the program takes for a data URL is one. */
  lemma EveryDataUrl(url: Text) returns (scheme: Text, header: Text, body: Option<Text>)
    requires Starts(url, Ascii("data:"))
    ensures IsDataScheme(scheme) && 0x2c !in header && url == DataUrl(scheme, header, body)
  {
    scheme := url[..5];
    SchemeHasNoComma(scheme);
    header := UpTo(url[5..], 0x2c);
    body := if |header| == |url[5..]| then None else Some(url[5..][|header| + 1..]);
    assert url == scheme + url[5..];
    assert body.Some? ==> url[5..] == header + [0x2c] + body.value;
  }

  /** How a data URL reads: the header up to the first comma gives the media type and says whether the
      rest is base64; what is digested is the decoded rest when it decodes, else the rest as written. */
  lemma DataUrlReads(scheme: Text, header: Text, body: Option<Text>, atob: Text -> Option<Text>)
    requires IsDataScheme(scheme) && 0x2c !in header
    ensures var rest := if body.Some? then body.value else [];
      var bytes := atob(WithoutBlanks(rest));
      Value(DataUrl(scheme, header, body), atob)
      == Collapsed(Ascii("data:") + MimeOf(header), if SaysBase64(header) && bytes.Some? then bytes.value else rest)
  {
    DataUrlStarts(scheme, header, body);
    DataUrlParts(scheme, header, body);
  }

  lemma AsciiDiffers(a: string, b: string)
    requires |a| == |b| && a != b
    requires forall i :: 0 <= i < |a| ==> (a[i] as int) < 0x80 && (b[i] as int) < 0x80
    ensures Ascii(a) != Ascii(b)
  {
    var i :| 0 <= i < |a| && a[i] != b[i];
    assert Ascii(a)[i] == a[i] as int && Ascii(b)[i] == b[i] as int;
  }

  lemma {:induction false} HexIsAscii(n: nat)
    ensures forall i :: 0 <= i < |Hex(n)| ==> (Hex(n)[i] as int) < 0x80
  {
    if n < 16 {
    } else {
      HexIsAscii(n / 16);
    }
  }

  lemma Hex8IsAscii(n: Word)
    ensures forall i :: 0 <= i < |Hex8(n)| ==> (Hex8(n)[i] as int) < 0x80
  {
    HexIsAscii(n);
  }

  lemma LastEight(prefix: Text, a: Text, b: Text)
    requires |a| == |b| && a != b
    ensures prefix + a != prefix + b
  {
    assert (prefix + a)[|prefix|..] == a && (prefix + b)[|prefix|..] == b;
  }

  /** Two payloads of one length that differ in exactly one unit never collapse to the same text, which a
      length alone could not tell. */
  lemma CollapseSeparates(kind: Text, before: Text, c: Unit, d: Unit, after: Text)
    requires c != d
    ensures Collapsed(kind, before + [c] + after) != Collapsed(kind, before + [d] + after)
  {
    var x, y := before + [c] + after, before + [d] + after;
    OneUnitDiffers(before, c, d, after);
    Hex8Reads(Fnv1a32(x));
    Hex8Reads(Fnv1a32(y));
    Hex8IsAscii(Fnv1a32(x));
    Hex8IsAscii(Fnv1a32(y));
    AsciiDiffers(Hex8(Fnv1a32(x)), Hex8(Fnv1a32(y)));
    LastEight(kind + Ascii(",len=") + Decimal(|x|) + Ascii(",h="), Ascii(Hex8(Fnv1a32(x))), Ascii(Hex8(Fnv1a32(y))));
  }

  /** Two data URLs of one media type whose payloads differ in exactly one unit have different values. */
  lemma DataUrlsSeparated(u: Text, v: Text, atob: Text -> Option<Text>, before: Text, c: Unit, d: Unit, after: Text)
    requires Starts(u, Ascii("data:")) && Starts(v, Ascii("data:")) && Mime(u) == Mime(v) && c != d
    requires Payload(u, atob) == before + [c] + after && Payload(v, atob) == before + [d] + after
    ensures Value(u, atob) != Value(v, atob)
  {
    CollapseSeparates(Ascii("data:") + Mime(u), before, c, d, after);
  }

  lemma LongShortens(u: Text, v: Text)
    requires |u| > VALUE_LIMIT && |v| > VALUE_LIMIT
    ensures Shorten(u) == Shorten(v) <==> |u| == |v| && u[..VALUE_LIMIT] == v[..VALUE_LIMIT]
  {
    var p, q := Decimal(|u| - VALUE_LIMIT), Decimal(|v| - VALUE_LIMIT);
    if Shorten(u) == Shorten(v) {
      assert Shorten(u)[..VALUE_LIMIT] == u[..VALUE_LIMIT] && Shorten(v)[..VALUE_LIMIT] == v[..VALUE_LIMIT];
      assert Shorten(u)[VALUE_LIMIT + 4..] == p && Shorten(v)[VALUE_LIMIT + 4..] == q;
      DecimalInjective(|u| - VALUE_LIMIT, |v| - VALUE_LIMIT);
    }
  }

  lemma ShortenedLength(u: Text)
    ensures if |u| <= VALUE_LIMIT then Shorten(u) == u else |Shorten(u)| > VALUE_LIMIT
  {
  }

  /** Two plain values look the same in a fingerprint exactly when they are the same, or both are too
      long, of one length, and agree on what is shown. */
  lemma PlainValues(u: Text, v: Text, atob: Text -> Option<Text>)
    requires Digest(u, atob).None? && Digest(v, atob).None?
    ensures Value(u, atob) == Value(v, atob) <==>
      u == v || (|u| == |v| > VALUE_LIMIT && u[..VALUE_LIMIT] == v[..VALUE_LIMIT])
  {
    assert Value(u, atob) == Shorten(u) && Value(v, atob) == Shorten(v);
    ShortenedLength(u);
    ShortenedLength(v);
    if |u| > VALUE_LIMIT && |v| > VALUE_LIMIT { LongShortens(u, v); }
  }

  // ---------------------------------------------------------------- one node

  function Named(attributes: seq<Attr>, name: Text): Option<Text> {
    if attributes == [] then None
    else if attributes[0].name == name then Some(attributes[0].value)
    else Named(attributes[1..], name)
  }

  /** `raw.split(/\s+/).filter(Boolean)`. */
  function Tokens(raw: Text, word: Text := []): seq<Text>
    decreases |raw|
  {
    if raw == [] then (if word == [] then [] else [word])
    else if IsBlank(raw[0]) then (if word == [] then [] else [word]) + Tokens(raw[1..], [])
    else Tokens(raw[1..], word + [raw[0]])
  }

  predicate Unbroken(word: Text) { forall i :: 0 <= i < |word| ==> !IsBlank(word[i]) }

  lemma {:induction false} TokensTakeWord(word: Text, rest: Text, sofar: Text)
    requires Unbroken(word)
    ensures Tokens(word + rest, sofar) == Tokens(rest, sofar + word)
    decreases |word|
  {
    if word == [] {
      assert word + rest == rest && sofar + word == sofar;
    } else {
      assert (word + rest)[0] == word[0] && (word + rest)[1..] == word[1..] + rest;
      TokensTakeWord(word[1..], rest, sofar + [word[0]]);
      assert sofar + [word[0]] + word[1..] == sofar + word;
    }
  }

  /** Words, each followed by a blank. */
  function Spread(words: seq<Text>,
                  blank: Unit): Text { if words == [] then [] else words[0] + [blank] + Spread(words[1..], blank) }

  /** Splitting gives back the words that were written with blanks between them, and a blank in front
      or a doubled one makes no further word. */
  lemma {:induction false} TokensOfWords(words: seq<Text>, blank: Unit)
    requires IsBlank(blank) && forall i :: 0 <= i < |words| ==> words[i] != [] && Unbroken(words[i])
    ensures Tokens(Spread(words, blank)) == words
    ensures Tokens([blank] + Spread(words, blank)) == words
  {
    assert ([blank] + Spread(words, blank))[1..] == Spread(words, blank);
    if words == [] {
    } else {
      var rest := [blank] + Spread(words[1..], blank);
      assert Spread(words, blank) == words[0] + rest && rest[1..] == Spread(words[1..], blank);
      TokensTakeWord(words[0], rest, []);
      assert [] + words[0] == words[0];
      TokensOfWords(words[1..], blank);
      assert words == [words[0]] + words[1..];
    }
  }

  function ClassList(node: Dom): seq<Text> {
    var raw := Named(node.attributes, Ascii("class"));
    if raw.None? then [] else Tokens(raw.value)
  }

  function Classes(node: Dom): seq<Text> { Sorted(multiset(ClassList(node))) }

  function Names(attributes: seq<Attr>): (names: seq<Text>)
    ensures |names| == |attributes| && forall i :: 0 <= i < |names| ==> names[i] == attributes[i].name
  {
    seq(|attributes|, i requires 0 <= i < |attributes| => attributes[i].name)
  }

  lemma {:induction false} NamedExists(attributes: seq<Attr>, name: Text)
    ensures Named(attributes, name).Some? <==> name in Names(attributes)
  {
    if attributes == [] {
    } else {
      NamedExists(attributes[1..], name);
      assert Names(attributes) == [attributes[0].name] + Names(attributes[1..]);
    }
  }

  predicate Keeps(settings: Settings, name: Text) { name != Ascii("class") && name !in settings.ignore }

  lemma SortedNames(node: Dom, settings: Settings, k: Text)
    ensures k in Sorted(multiset(Names(node.attributes))) <==> Named(node.attributes, k).Some?
  {
    var sorted := Sorted(multiset(Names(node.attributes)));
    assert k in sorted <==> k in multiset(sorted);
    NamedExists(node.attributes, k);
  }

  /** An attribute as a fingerprint shows it, if it does. */
  function Seen(node: Dom, k: Text, settings: Settings): Option<Text> {
    var v := Named(node.attributes, k);
    if Keeps(settings, k) && v.Some? then Some(Value(v.value, settings.atob)) else None
  }

  /** The attributes of these names, entered one by one. */
  function Entered(names: seq<Text>, seen: Text -> Option<Text>): map<Text, Text> {
    if names == [] then map[]
    else
      var name, before := names[|names| - 1], Entered(names[..|names| - 1], seen);
      if seen(name).Some? then before[name := seen(name).value] else before
  }

  lemma {:induction false} EnteredAt(names: seq<Text>, seen: Text -> Option<Text>, k: Text)
    ensures var m := Entered(names, seen);
      && (k in m <==> k in names && seen(k).Some?)
      && (k in m ==> m[k] == seen(k).value)
  {
    if names == [] {
    } else {
      var front, last := names[..|names| - 1], names[|names| - 1];
      EnteredAt(front, seen, k);
      assert k in names <==> k in front || k == last by { assert names == front + [last]; }
    }
  }

  lemma EnteredNext(names: seq<Text>, n: nat, seen: Text -> Option<Text>)
    requires n < |names|
    ensures Entered(names[..n + 1], seen) ==
      var before := Entered(names[..n], seen);
      if seen(names[n]).Some? then before[names[n] := seen(names[n]).value] else before
  {
    assert names[..n + 1][..n] == names[..n];
  }

  function Attrs(node: Dom, settings: Settings): map<Text, Text> {
    Entered(Sorted(multiset(Names(node.attributes))), name => Seen(node, name, settings))
  }

  /** The attributes a fingerprint keeps: every one that is neither `class` nor ignored, with the
      collapsed value of its first occurrence; the order they were listed in plays no part. */
  lemma AttrsAt(node: Dom, settings: Settings, k: Text)
    ensures k in Attrs(node, settings) <==> Keeps(settings, k) && Named(node.attributes, k).Some?
    ensures k in Attrs(node, settings) ==>
      Attrs(node, settings)[k] == Value(Named(node.attributes, k).value, settings.atob)
  {
    EnteredAt(Sorted(multiset(Names(node.attributes))), name => Seen(node, name, settings), k);
    SortedNames(node, settings, k);
  }

  /** The probe's attribute loop over the sorted names. */
  method CollectAttrs(node: Dom, settings: Settings) returns (out: map<Text, Text>)
    ensures out == Attrs(node, settings)
  {
    var names := Sorted(multiset(Names(node.attributes)));
    ghost var seen := name => Seen(node, name, settings);
    out := map[];
    var n := 0;
    while n < |names|
      invariant 0 <= n <= |names|
      invariant out == Entered(names[..n], seen)
    {
      EnteredNext(names, n, seen);
      var value := Named(node.attributes, names[n]);
      if Keeps(settings, names[n]) && value.Some? {
        out := out[names[n] := Value(value.value, settings.atob)];
      }
      n := n + 1;
    }
    assert names[..n] == names;
  }

  /** Runs of blanks become one space, the edges are trimmed. */
  function Squeeze(text: Text): Text
    decreases |text|
  {
    if text == [] then []
    else if IsBlank(text[0]) then [0x20] + Squeeze(SkipBlanks(text[1..]))
    else [text[0]] + Squeeze(text[1..])
  }

  function Shown(node: Dom): Text { TrimBlanks(Squeeze(node.textContent)) }

  /** The node's own text was cut. */
  predicate TextCut(node: Dom, settings: Settings) { settings.text && |Shown(node)| > VALUE_LIMIT }

  /** The fingerprint of the node itself, before its children. */
  function Own(node: Dom, settings: Settings): Print {
    Print(node.tag, Classes(node), Attrs(node, settings),
          if settings.text then Some(Shorten(Shown(node))) else None, TextCut(node, settings), [])
  }

  // ---------------------------------------------------------------- the tree

  /** What a node shows of itself; the recursion over the tree does not depend on what that is. */
  type View = Dom -> Print

  function ViewOf(settings: Settings): View { node => Own(node, settings) }

  function Bare(node: Dom, view: View): Print { view(node).(children := []) }

  /** The counter threaded through the recursion: the fingerprint and the count after it. */
  function Grow(node: Dom, depth: nat, n: nat, settings: Settings, view: View): (Print, nat)
    decreases node, 0
  {
    var own, n := Bare(node, view), n + 1;
    if node.children == [] then (own, n)
    else if depth >= settings.maxDepth || n >= settings.maxNodes then (own.(truncated := true), n)
    else
      var (kids, m) := GrowAll(node.children, depth + 1, n, settings, view);
      (own.(children := kids, truncated := own.truncated || |kids| < |node.children|), m)
  }

  function GrowAll(nodes: seq<Dom>, depth: nat, n: nat, settings: Settings, view: View): (seq<Print>, nat)
    decreases nodes, 1
  {
    if nodes == [] || n >= settings.maxNodes then ([], n)
    else
      var (first, m) := Grow(nodes[0], depth, n, settings, view);
      var (rest, k) := GrowAll(nodes[1..], depth, m, settings, view);
      ([first] + rest, k)
  }

  function FingerprintOf(node: Dom, settings: Settings): Print { Grow(node, 0, 0, settings, ViewOf(settings)).0 }

  class Counter {
    var nodes: nat
    constructor ()
      ensures nodes == 0
    {
      nodes := 0;
    }
  }

  /** What the children still to come add to the ones already taken. */
  ghost predicate Remaining(kids: seq<Dom>, i: nat, depth: nat, start: nat, taken: seq<Print>, n: nat,
                            settings: Settings, view: View)
    requires i <= |kids|
  {
    var (rest, m) := GrowAll(kids[i..], depth, n, settings, view);
    GrowAll(kids, depth, start, settings, view) == (taken + rest, m)
  }

  lemma TakeFirst(kids: seq<Dom>, depth: nat, n: nat, settings: Settings, view: View)
    ensures Remaining(kids, 0, depth, n, [], n, settings, view)
  {
    assert kids[0..] == kids;
    assert [] + GrowAll(kids, depth, n, settings, view).0 == GrowAll(kids, depth, n, settings, view).0;
  }

  lemma TakeNext(kids: seq<Dom>, i: nat, depth: nat, start: nat, taken: seq<Print>, n: nat, settings: Settings,
                 view: View)
    requires i < |kids| && n < settings.maxNodes && Remaining(kids, i, depth, start, taken, n, settings, view)
    ensures var (kid, m) := Grow(kids[i], depth, n, settings, view);
      Remaining(kids, i + 1, depth, start, taken + [kid], m, settings, view)
  {
    var (kid, m) := Grow(kids[i], depth, n, settings, view);
    assert kids[i..][0] == kids[i] && kids[i..][1..] == kids[i + 1..];
    var (rest, k) := GrowAll(kids[i + 1..], depth, m, settings, view);
    assert taken + ([kid] + rest) == (taken + [kid]) + rest;
  }

  lemma TakeLast(kids: seq<Dom>, i: nat, depth: nat, start: nat, taken: seq<Print>, n: nat, settings: Settings,
                 view: View)
    requires i <= |kids| && Remaining(kids, i, depth, start, taken, n, settings, view)
    requires i == |kids| || n >= settings.maxNodes
    ensures GrowAll(kids, depth, start, settings, view) == (taken, n)
  {
    assert taken + [] == taken;
  }

  /** The probe's recursion, with its shared counter. */
  method Build(node: Dom, depth: nat, state: Counter, settings: Settings) returns (out: Print)
    modifies state
    ensures (out, state.nodes) == Grow(node, depth, old(state.nodes), settings, ViewOf(settings))
    decreases node
  {
    state.nodes := state.nodes + 1;
    var attrs := CollectAttrs(node, settings);
    out := Print(node.tag, Classes(node), attrs, None, false, []);
    if settings.text {
      var text := Shown(node);
      out := out.(text := Some(Shorten(text)), truncated := |text| > VALUE_LIMIT);
    }
    var kids := node.children;
    if |kids| == 0 { return; }
    if depth >= settings.maxDepth || state.nodes >= settings.maxNodes {
      out := out.(truncated := true);
      return;
    }
    ghost var start, view := state.nodes, ViewOf(settings);
    var i := 0;
    TakeFirst(kids, depth + 1, start, settings, view);
    while i < |kids|
      invariant 0 <= i <= |kids| && |out.children| == i
      invariant Remaining(kids, i, depth + 1, start, out.children, state.nodes, settings, view)
      invariant out == Bare(node, view).(children := out.children)
    {
      if state.nodes >= settings.maxNodes {
        TakeLast(kids, i, depth + 1, start, out.children, state.nodes, settings, view);
        out := out.(truncated := true);
        return;
      }
      TakeNext(kids, i, depth + 1, start, out.children, state.nodes, settings, view);
      var kid := Build(kids[i], depth + 1, state, settings);
      out := out.(children := out.children + [kid]);
      i := i + 1;
    }
    TakeLast(kids, i, depth + 1, start, out.children, state.nodes, settings, view);
  }

  method TakeFingerprint(node: Dom, settings: Settings) returns (out: Print)
    ensures out == FingerprintOf(node, settings)
  {
    var state := new Counter();
    out := Build(node, 0, state, settings);
  }
}
