/** What the cut fingerprint is: a pre-order prefix of the depth-limited tree, with every cut marked. */
module FingerprintTheorems {
  import opened Options
  import opened Fnv
  import opened Fingerprint

  /** A node where it stands: the child indices leading to it, and what it shows of itself. */
  datatype Item = Item(path: seq<nat>, tag: Text, classes: seq<Text>, attrs: map<Text, Text>, text: Option<Text>)

  function ItemOf(path: seq<nat>, p: Print): Item { Item(path, p.tag, p.classes, p.attrs, p.text) }

  /** The nodes of a fingerprint in pre-order. */
  function Listed(p: Print, path: seq<nat>): seq<Item>
    decreases p, 0
  {
    [ItemOf(path, p)] + ListedAll(p.children, path, 0)
  }

  function ListedAll(ps: seq<Print>, path: seq<nat>, i: nat): seq<Item>
    decreases ps, 1
  {
    if ps == [] then [] else Listed(ps[0], path + [i]) + ListedAll(ps[1..], path, i + 1)
  }

  /** The nodes of the tree in pre-order, down to the depth limit. */
  function Nodes(node: Dom, path: seq<nat>, depth: nat, settings: Settings, view: View): seq<Item>
    decreases node, 0
  {
    [ItemOf(path, Bare(node, view))] +
    if depth >= settings.maxDepth then [] else NodesAll(node.children, path, 0, depth + 1, settings, view)
  }

  function NodesAll(nodes: seq<Dom>, path: seq<nat>, i: nat, depth: nat, settings: Settings, view: View): seq<Item>
    decreases nodes, 1
  {
    if nodes == [] then []
    else Nodes(nodes[0], path + [i], depth, settings, view) + NodesAll(nodes[1..], path, i + 1, depth, settings, view)
  }

  function Limit(settings: Settings): nat { if settings.maxNodes == 0 then 1 else settings.maxNodes }

  function First<T>(s: seq<T>, k: nat): seq<T> { if k >= |s| then s else s[..k] }

  lemma FirstSplit<T>(a: seq<T>, b: seq<T>, k: nat)
    ensures First(a + b, k) == First(a, k) + (if k <= |a| then [] else First(b, k - |a|))
  {
    if k <= |a| {
      assert (a + b)[..k] == a[..k];
    } else if k < |a + b| {
      assert (a + b)[..k] == a + b[..k - |a|];
    }
  }

  /** One call with `n` nodes already counted takes the next nodes in pre-order until the limit, and
      counts exactly what it took. */
  lemma {:induction false} GrowTakes(node: Dom, path: seq<nat>, depth: nat, n: nat, settings: Settings, view: View)
    requires n < Limit(settings)
    ensures var (out, m) := Grow(node, depth, n, settings, view);
      var all := Nodes(node, path, depth, settings, view);
      Listed(out, path) == First(all, Limit(settings) - n) && m == n + |First(all, Limit(settings) - n)|
    decreases node, 0
  {
    var own := ItemOf(path, Bare(node, view));
    var below := if depth >= settings.maxDepth then [] else NodesAll(node.children, path, 0, depth + 1, settings, view);
    FirstSplit([own], below, Limit(settings) - n);
    if node.children != [] && depth < settings.maxDepth && n + 1 < settings.maxNodes {
      GrowAllTakes(node.children, path, 0, depth + 1, n + 1, settings, view);
    }
  }

  lemma {:induction false} GrowAllTakes(nodes: seq<Dom>, path: seq<nat>, i: nat, depth: nat, n: nat,
                                        settings: Settings, view: View)
    requires 0 < n <= Limit(settings)
    ensures var (out, m) := GrowAll(nodes, depth, n, settings, view);
      var all := NodesAll(nodes, path, i, depth, settings, view);
      ListedAll(out, path, i) == First(all, Limit(settings) - n) && m == n + |First(all, Limit(settings) - n)|
    decreases nodes, 1
  {
    if nodes != [] && n < settings.maxNodes {
      var head := Nodes(nodes[0], path + [i], depth, settings, view);
      var tail := NodesAll(nodes[1..], path, i + 1, depth, settings, view);
      var (first, m) := Grow(nodes[0], depth, n, settings, view);
      GrowTakes(nodes[0], path + [i], depth, n, settings, view);
      GrowAllTakes(nodes[1..], path, i + 1, depth, m, settings, view);
      FirstSplit(head, tail, Limit(settings) - n);
      var (rest, k) := GrowAll(nodes[1..], depth, m, settings, view);
      assert ([first] + rest)[1..] == rest;
    }
  }

  /** The fingerprint's nodes are the first max(1, maxNodes) nodes, in pre-order, of the tree cut at
      maxDepth: each where it stood, with its own tag, classes, attributes and text. */
  lemma FingerprintIsPrefix(node: Dom, settings: Settings)
    ensures Listed(FingerprintOf(node, settings), [])
      == First(Nodes(node, [], 0, settings, ViewOf(settings)), Limit(settings))
  {
    GrowTakes(node, [], 0, 0, settings, ViewOf(settings));
  }

  // ---------------------------------------------------------------- marks

  /** The children are looked at at all. */
  predicate Descends(node: Dom, depth: nat, n: nat, settings: Settings) {
    node.children != [] && depth < settings.maxDepth && n + 1 < settings.maxNodes
  }

  function Taken(node: Dom, depth: nat, n: nat, settings: Settings, view: View): (seq<Print>, nat) {
    if Descends(node, depth, n, settings) then GrowAll(node.children, depth + 1, n + 1, settings, view) else ([], n + 1)
  }

  lemma GrowShape(node: Dom, depth: nat, n: nat, settings: Settings, view: View, own: Print)
    requires own == Bare(node, view)
    ensures var (out, m) := Grow(node, depth, n, settings, view);
      var (kids, k) := Taken(node, depth, n, settings, view);
      && m == k && out.children == kids && out.tag == own.tag && out.classes == own.classes
      && out.attrs == own.attrs && out.text == own.text
      && out.truncated
         == (own.truncated
             || (node.children != [] && (!Descends(node, depth, n, settings) || |kids| < |node.children|)))
  {
  }

  /** Every node of the fingerprint is marked exactly when its text was cut, which is what its own view
      says, or it kept fewer children than it has. */
  ghost predicate Marked(node: Dom, out: Print, view: View)
    decreases node
  {
    && |out.children| <= |node.children|
    && (out.truncated <==> view(node).truncated || |out.children| < |node.children|)
    && forall i :: 0 <= i < |out.children| ==> Marked(node.children[i], out.children[i], view)
  }

  lemma MarkedWhen(node: Dom, out: Print, view: View)
    requires |out.children| <= |node.children|
    requires out.truncated <==> view(node).truncated || |out.children| < |node.children|
    requires forall i :: 0 <= i < |out.children| ==> Marked(node.children[i], out.children[i], view)
    ensures Marked(node, out, view)
  {
  }

  lemma {:induction false} GrowMarks(node: Dom, depth: nat, n: nat, settings: Settings, view: View)
    ensures Marked(node, Grow(node, depth, n, settings, view).0, view)
    decreases node, 0
  {
    GrowShape(node, depth, n, settings, view, Bare(node, view));
    if Descends(node, depth, n, settings) {
      GrowAllMarks(node.children, depth + 1, n + 1, settings, view);
    }
    MarkedWhen(node, Grow(node, depth, n, settings, view).0, view);
  }

  lemma {:induction false} GrowAllMarks(nodes: seq<Dom>, depth: nat, n: nat, settings: Settings, view: View)
    ensures var out := GrowAll(nodes, depth, n, settings, view).0;
      |out| <= |nodes| && forall i :: 0 <= i < |out| ==> Marked(nodes[i], out[i], view)
    decreases nodes, 1
  {
    if nodes != [] && n < settings.maxNodes {
      var (first, m) := Grow(nodes[0], depth, n, settings, view);
      GrowMarks(nodes[0], depth, n, settings, view);
      GrowAllMarks(nodes[1..], depth, m, settings, view);
      var out, rest := GrowAll(nodes, depth, n, settings, view).0, GrowAll(nodes[1..], depth, m, settings, view).0;
      forall i | 0 <= i < |out| ensures Marked(nodes[i], out[i], view) {
        if i > 0 { assert out[i] == rest[i - 1] && nodes[i] == nodes[1..][i - 1]; }
      }
    }
  }

  /** No cut goes unmarked and nothing else is marked. */
  lemma CutsAreMarked(node: Dom, settings: Settings)
    ensures Marked(node, FingerprintOf(node, settings), ViewOf(settings))
    ensures forall d :: ViewOf(settings)(d).truncated <==> TextCut(d, settings)
  {
    GrowMarks(node, 0, 0, settings, ViewOf(settings));
  }

  // ---------------------------------------------------------------- nothing truncated

  function Size(node: Dom): nat
    decreases node, 0
  {
    1 + SizeAll(node.children)
  }

  function SizeAll(nodes: seq<Dom>): nat
    decreases nodes, 1
  {
    if nodes == [] then 0 else Size(nodes[0]) + SizeAll(nodes[1..])
  }

  /** The number of edges on the longest way down. */
  function Height(node: Dom): nat
    decreases node, 0
  {
    if node.children == [] then 0 else 1 + HeightAll(node.children)
  }

  function HeightAll(nodes: seq<Dom>): nat
    decreases nodes, 1
  {
    if nodes == [] then 0
    else var h, t := Height(nodes[0]), HeightAll(nodes[1..]); if h > t then h else t
  }

  /** The fingerprint with no limit. */
  function Full(node: Dom, view: View): Print
    decreases node, 0
  {
    Bare(node, view).(children := FullAll(node.children, view))
  }

  function FullAll(nodes: seq<Dom>, view: View): (ps: seq<Print>)
    ensures |ps| == |nodes|
    decreases nodes, 1
  {
    if nodes == [] then [] else [Full(nodes[0], view)] + FullAll(nodes[1..], view)
  }

  predicate Truncated(p: Print)
    decreases p, 0
  {
    p.truncated || TruncatedAny(p.children)
  }

  predicate TruncatedAny(ps: seq<Print>)
    decreases ps, 1
  {
    ps != [] && (Truncated(ps[0]) || TruncatedAny(ps[1..]))
  }

  lemma {:induction false} SizePositive(nodes: seq<Dom>)
    ensures nodes != [] ==> SizeAll(nodes) > 0
  {
  }

  lemma GrowUncut(node: Dom, depth: nat, n: nat, settings: Settings, view: View, kids: seq<Print>, m: nat)
    requires (kids, m) == Taken(node, depth, n, settings, view) && |kids| == |node.children|
    requires node.children != [] ==> Descends(node, depth, n, settings)
    ensures Grow(node, depth, n, settings, view) == (Bare(node, view).(children := kids), m)
  {
    GrowShape(node, depth, n, settings, view, Bare(node, view));
  }

  /** Within the limits, the fingerprint is the full one and counts every node. */
  lemma {:induction false} GrowFits(node: Dom, depth: nat, n: nat, settings: Settings, view: View)
    requires depth + Height(node) <= settings.maxDepth && n + Size(node) <= Limit(settings)
    ensures Grow(node, depth, n, settings, view) == (Full(node, view), n + Size(node))
    decreases node, 0
  {
    if node.children == [] {
      GrowUncut(node, depth, n, settings, view, [], n + 1);
    } else {
      SizePositive(node.children);
      GrowAllFits(node.children, depth + 1, n + 1, settings, view);
      GrowUncut(node, depth, n, settings, view, FullAll(node.children, view), n + 1 + SizeAll(node.children));
    }
  }

  lemma GrowAllCons(nodes: seq<Dom>, depth: nat, n: nat, settings: Settings, view: View, first: Print, m: nat,
                    rest: seq<Print>)
    requires nodes != [] && n < settings.maxNodes
    requires Grow(nodes[0], depth, n, settings, view) == (first, m)
    requires GrowAll(nodes[1..], depth, m, settings, view).0 == rest
    ensures GrowAll(nodes, depth, n, settings, view)
      == ([first] + rest, GrowAll(nodes[1..], depth, m, settings, view).1)
  {
  }

  lemma {:induction false} GrowAllFits(nodes: seq<Dom>, depth: nat, n: nat, settings: Settings, view: View)
    requires depth + HeightAll(nodes) <= settings.maxDepth && 0 < n && n + SizeAll(nodes) <= Limit(settings)
    ensures GrowAll(nodes, depth, n, settings, view) == (FullAll(nodes, view), n + SizeAll(nodes))
    decreases nodes, 1
  {
    if nodes == [] {
    } else {
      GrowFits(nodes[0], depth, n, settings, view);
      GrowAllFits(nodes[1..], depth, n + Size(nodes[0]), settings, view);
      GrowAllCons(nodes, depth, n, settings, view, Full(nodes[0], view), n + Size(nodes[0]), FullAll(nodes[1..], view));
    }
  }

  /** A fingerprint without a truncation mark stayed within the limits. */
  lemma {:induction false} GrowWhole(node: Dom, depth: nat, n: nat, settings: Settings, view: View)
    requires depth <= settings.maxDepth && !Truncated(Grow(node, depth, n, settings, view).0)
    ensures depth + Height(node) <= settings.maxDepth && Grow(node, depth, n, settings, view).1 == n + Size(node)
    decreases node, 0
  {
    GrowShape(node, depth, n, settings, view, Bare(node, view));
    GrowMarks(node, depth, n, settings, view);
    var (out, m) := Grow(node, depth, n, settings, view);
    if node.children == [] {
    } else {
      var (kids, k) := GrowAll(node.children, depth + 1, n + 1, settings, view);
      assert out.children == kids && !TruncatedAny(out.children);
      GrowAllWhole(node.children, depth + 1, n + 1, settings, view);
    }
  }

  lemma {:induction false} GrowAllWhole(nodes: seq<Dom>, depth: nat, n: nat, settings: Settings, view: View)
    requires depth <= settings.maxDepth
    requires var out := GrowAll(nodes, depth, n, settings, view).0; |out| == |nodes| && !TruncatedAny(out)
    ensures depth + HeightAll(nodes) <= settings.maxDepth
    ensures GrowAll(nodes, depth, n, settings, view).1 == n + SizeAll(nodes)
    decreases nodes, 1
  {
    if nodes == [] {
    } else {
      var (first, m) := Grow(nodes[0], depth, n, settings, view);
      var (rest, k) := GrowAll(nodes[1..], depth, m, settings, view);
      assert ([first] + rest)[1..] == rest;
      GrowWhole(nodes[0], depth, n, settings, view);
      GrowAllWhole(nodes[1..], depth, m, settings, view);
    }
  }

  lemma {:induction false} FullUnmarked(node: Dom, view: View)
    requires forall d :: !view(d).truncated
    ensures !Truncated(Full(node, view))
    decreases node, 0
  {
    FullAllUnmarked(node.children, view);
  }

  lemma {:induction false} FullAllUnmarked(nodes: seq<Dom>, view: View)
    requires forall d :: !view(d).truncated
    ensures !TruncatedAny(FullAll(nodes, view))
    decreases nodes, 1
  {
    if nodes == [] {
    } else {
      FullUnmarked(nodes[0], view);
      FullAllUnmarked(nodes[1..], view);
      assert FullAll(nodes, view)[1..] == FullAll(nodes[1..], view);
    }
  }

  lemma WithinLimitsIsFull(node: Dom, settings: Settings)
    requires !settings.text && Height(node) <= settings.maxDepth && Size(node) <= Limit(settings)
    ensures FingerprintOf(node, settings) == Full(node, ViewOf(settings)) && !Truncated(FingerprintOf(node, settings))
  {
    GrowFits(node, 0, 0, settings, ViewOf(settings));
    FullUnmarked(node, ViewOf(settings));
  }

  lemma UncutIsWithinLimits(node: Dom, settings: Settings)
    requires !Truncated(FingerprintOf(node, settings))
    ensures Height(node) <= settings.maxDepth && Size(node) <= Limit(settings)
  {
    GrowWhole(node, 0, 0, settings, ViewOf(settings));
    GrowTakes(node, [], 0, 0, settings, ViewOf(settings));
  }

  /** With text off, nothing is truncated exactly when the tree is no higher than maxDepth and has at
      most max(1, maxNodes) nodes; and then the fingerprint is the whole tree's. */
  lemma WholeExactlyWithinLimits(node: Dom, settings: Settings)
    requires !settings.text
    ensures !Truncated(FingerprintOf(node, settings)) <==>
      Height(node) <= settings.maxDepth && Size(node) <= Limit(settings)
    ensures !Truncated(FingerprintOf(node, settings)) ==> FingerprintOf(node, settings) == Full(node, ViewOf(settings))
  {
    if Height(node) <= settings.maxDepth && Size(node) <= Limit(settings) { WithinLimitsIsFull(node, settings); }
    if !Truncated(FingerprintOf(node, settings)) { UncutIsWithinLimits(node, settings); }
  }
}
