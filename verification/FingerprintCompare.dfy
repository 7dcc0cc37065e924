/** Comparing two fingerprints: the first field in comparison order at which they differ, its printed
    path, and what equality of fingerprints means for the elements. */
module FingerprintCompare {
  import opened Options
  import opened Fnv
  import opened Texts
  import opened Fingerprint
  import opened FingerprintTheorems

  /** The fields of one fingerprint node. */
  datatype Field = Tag | ClassesField | Attribute(name: Text) | TruncatedField | TextField | ChildCount

  datatype Path = Here(field: Field) | Child(i: nat, rest: Path)

  /** What a field holds; an absent one is undefined. */
  datatype Val = Undefined | Null | Word(text: Text) | List(items: seq<Text>) | Flag(flag: bool) | Number(n: nat)

  datatype Diff = Diff(path: Path, control: Val, subject: Val)

  // ---------------------------------------------------------------- printing paths

  function FieldText(f: Field): (t: Text)
    ensures t != []
  {
    match f
    case Tag => Ascii("tag")
    case ClassesField => Ascii("classes")
    case Attribute(name) => Ascii("attrs.") + name
    case TruncatedField => Ascii("truncated")
    case TextField => Ascii("text")
    case ChildCount => Ascii("children.length")
  }

  function ChildText(i: nat): Text { Ascii("children[") + Decimal(i) + Ascii("]") }

  function At(prefix: Text, field: Text): Text { if prefix == [] then field else prefix + Ascii(".") + field }

  /** The path as the comparison extends it, going down from a prefix. */
  function RenderFrom(prefix: Text, path: Path): Text
    decreases path
  {
    match path
    case Here(f) => At(prefix, FieldText(f))
    case Child(i, rest) => RenderFrom(At(prefix, ChildText(i)), rest)
  }

  function Render(path: Path): Text { RenderFrom([], path) }

  // ---------------------------------------------------------------- the first difference

  function Read(p: Print, f: Field): Val {
    match f
    case Tag => Word(p.tag)
    case ClassesField => List(p.classes)
    case Attribute(name) => if name in p.attrs then Word(p.attrs[name]) else Undefined
    case TruncatedField => Flag(p.truncated)
    case TextField => if p.text.Some? then Word(p.text.value) else Undefined
    case ChildCount => Number(|p.children|)
  }

  /** The value at a path, undefined when there is nothing there. */
  function Resolve(p: Print, path: Path): Val
    decreases path
  {
    match path
    case Here(f) => Read(p, f)
    case Child(i, rest) => if i < |p.children| then Resolve(p.children[i], rest) else Undefined
  }

  function DiffAt(a: Print, b: Print, f: Field): Option<Diff> {
    if Read(a, f) == Read(b, f) then None else Some(Diff(Here(f), Read(a, f), Read(b, f)))
  }

  function AttrNames(a: Print, b: Print): seq<Text> { Sorted(multiset(a.attrs.Keys + b.attrs.Keys)) }

  /** The own fields in comparison order, given the attribute names of the two sides. */
  function Fields(names: seq<Text>): seq<Field> {
    [Tag, ClassesField] + seq(|names|, i requires 0 <= i < |names| => Attribute(names[i]))
      + [TruncatedField, TextField, ChildCount]
  }

  function FirstField(a: Print, b: Print, fields: seq<Field>): Option<Diff> {
    if fields == [] then None
    else if DiffAt(a, b, fields[0]).Some? then DiffAt(a, b, fields[0])
    else FirstField(a, b, fields[1..])
  }

  function FirstOwn(a: Print, b: Print): Option<Diff> { FirstField(a, b, Fields(AttrNames(a, b))) }

  /** The first difference of two fingerprints: own fields, then the children in order. */
  function FirstDiff(a: Print, b: Print): Option<Diff>
    decreases a, 0
  {
    if FirstOwn(a, b).Some? then FirstOwn(a, b) else FirstSome(ChildDiffs(a.children, b.children), 0)
  }

  /** The first difference of each pair of children. */
  function ChildDiffs(kids: seq<Print>, others: seq<Print>): (ds: seq<Option<Diff>>)
    ensures |ds| == if |kids| <= |others| then |kids| else |others|
    decreases kids, 1
  {
    seq(if |kids| <= |others| then |kids| else |others|,
        i requires 0 <= i < |kids| && i < |others| => FirstDiff(kids[i], others[i]))
  }

  /** The first of the children's differences from the `i`-th on, under that child's index. */
  function FirstSome(ds: seq<Option<Diff>>, i: nat): Option<Diff>
    decreases |ds| - i
  {
    if i >= |ds| then None
    else if ds[i].Some? then Some(ds[i].value.(path := Child(i, ds[i].value.path)))
    else FirstSome(ds, i + 1)
  }

  /** The result object of a comparison. */
  class Outcome {
    var equal: bool
    var path: Text
    var control: Val
    var subject: Val
    constructor ()
      ensures equal && path == [] && control == Null && subject == Null
    {
      equal, path, control, subject := true, [], Null, Null;
    }
  }

  method Record(out: Outcome, path: Text, control: Val, subject: Val) returns (same: bool)
    modifies out
    ensures !same && out.equal == old(out.equal) && out.path == path && out.control == control && out.subject == subject
  {
    out.path := path;
    out.control := control;
    out.subject := subject;
    same := false;
  }

  /** Element-wise equality of two class lists. */
  method Same(a: seq<Text>, b: seq<Text>) returns (same: bool)
    ensures same <==> a == b
  {
    if |a| != |b| { return false; }
    var i := 0;
    while i < |a|
      invariant 0 <= i <= |a|
      invariant a[..i] == b[..i]
    {
      if a[i] != b[i] { return false; }
      i := i + 1;
    }
    assert a[..i] == a && b[..i] == b;
    same := true;
  }

  /** What a comparison leaves behind: nothing when there is no difference, else its printed path and
      the two values. */
  twostate predicate Reports(out: Outcome, prefix: Text, new d: Option<Diff>, same: bool)
    reads out
  {
    && out.equal == old(out.equal)
    && (d.None? ==>
          same && out.path == old(out.path) && out.control == old(out.control) && out.subject == old(out.subject))
    && (d.Some? ==> !same && out.path == RenderFrom(prefix, d.value.path)
                    && out.control == d.value.control && out.subject == d.value.subject)
  }

  /** Which field is compared in which place. */
  lemma FieldAt(names: seq<Text>, i: nat)
    requires i < |Fields(names)|
    ensures |Fields(names)| == |names| + 5
    ensures Fields(names)[i] ==
      if i == 0 then Tag else if i == 1 then ClassesField else if i < |names| + 2 then Attribute(names[i - 2])
      else if i == |names| + 2 then TruncatedField else if i == |names| + 3 then TextField else ChildCount
  {
  }

  /** Fields agree up to `k`. */
  ghost predicate AgreeTo(a: Print, b: Print, fields: seq<Field>, k: nat) {
    k <= |fields| && forall j :: 0 <= j < k ==> Read(a, fields[j]) == Read(b, fields[j])
  }

  lemma {:induction false} FirstFieldAt(a: Print, b: Print, fields: seq<Field>, k: nat)
    requires AgreeTo(a, b, fields, k)
    requires k < |fields| ==> Read(a, fields[k]) != Read(b, fields[k])
    ensures FirstField(a, b, fields) == if k == |fields| then None else DiffAt(a, b, fields[k])
  {
    if k == 0 {
    } else {
      assert Read(a, fields[0]) == Read(b, fields[0]);
      assert forall j :: 0 <= j < k - 1 ==> fields[1..][j] == fields[j + 1];
      FirstFieldAt(a, b, fields[1..], k - 1);
    }
  }

  /** One more field looked at: it agrees, or it is the first difference. */
  lemma FieldStep(a: Print, b: Print, names: seq<Text>, i: nat, f: Field)
    requires i < |Fields(names)| && Fields(names)[i] == f && AgreeTo(a, b, Fields(names), i)
    ensures if Read(a, f) == Read(b, f) then AgreeTo(a, b, Fields(names), i + 1)
            else FirstField(a, b, Fields(names)) == DiffAt(a, b, f)
  {
    if Read(a, f) != Read(b, f) {
      FirstFieldAt(a, b, Fields(names), i);
    }
  }

  /** Records a field that differs. */
  method RecordField(a: Print, b: Print, prefix: Text, f: Field, out: Outcome) returns (same: bool)
    requires Read(a, f) != Read(b, f)
    modifies out
    ensures Reports(out, prefix, DiffAt(a, b, f), same)
  {
    same := Record(out, At(prefix, FieldText(f)), Read(a, f), Read(b, f));
  }

  /** The node's own fields, compared in order: tag, classes, then the attributes and the rest. */
  method CompareOwn(a: Print, b: Print, prefix: Text, out: Outcome) returns (same: bool)
    modifies out
    ensures Reports(out, prefix, FirstOwn(a, b), same)
  {
    ghost var names := AttrNames(a, b);
    FieldAt(names, 0);
    FieldStep(a, b, names, 0, Tag);
    if a.tag != b.tag { same := RecordField(a, b, prefix, Tag, out); return; }
    var classes := Same(a.classes, b.classes);
    FieldAt(names, 1);
    FieldStep(a, b, names, 1, ClassesField);
    if !classes { same := RecordField(a, b, prefix, ClassesField, out); return; }
    same := CompareAttrs(a, b, AttrNames(a, b), prefix, out);
  }

  /** The attribute loop over the sorted names of both sides. */
  method CompareAttrs(a: Print, b: Print, names: seq<Text>, prefix: Text, out: Outcome) returns (same: bool)
    requires AgreeTo(a, b, Fields(names), 2)
    modifies out
    ensures Reports(out, prefix, FirstField(a, b, Fields(names)), same)
  {
    var n := 0;
    while n < |names|
      invariant 0 <= n <= |names|
      invariant AgreeTo(a, b, Fields(names), n + 2)
      invariant out.equal == old(out.equal) && out.path == old(out.path)
      invariant out.control == old(out.control) && out.subject == old(out.subject)
    {
      var f := Attribute(names[n]);
      FieldAt(names, n + 2);
      FieldStep(a, b, names, n + 2, f);
      if Read(a, f) != Read(b, f) { same := RecordField(a, b, prefix, f, out); return; }
      n := n + 1;
    }
    same := CompareRest(a, b, names, prefix, out);
  }

  /** The fields after the attributes. */
  method CompareRest(a: Print, b: Print, ghost names: seq<Text>, prefix: Text, out: Outcome) returns (same: bool)
    requires AgreeTo(a, b, Fields(names), |names| + 2)
    modifies out
    ensures Reports(out, prefix, FirstField(a, b, Fields(names)), same)
  {
    ghost var k := |names| + 2;
    FieldAt(names, k);
    FieldStep(a, b, names, k, TruncatedField);
    if a.truncated != b.truncated { same := RecordField(a, b, prefix, TruncatedField, out); return; }
    FieldAt(names, k + 1);
    FieldStep(a, b, names, k + 1, TextField);
    if a.text.Some? || b.text.Some? {
      if a.text != b.text { same := RecordField(a, b, prefix, TextField, out); return; }
    }
    FieldAt(names, k + 2);
    FieldStep(a, b, names, k + 2, ChildCount);
    if |a.children| != |b.children| { same := RecordField(a, b, prefix, ChildCount, out); return; }
    FirstFieldAt(a, b, Fields(names), k + 3);
    same := true;
  }

  /** The probe's recursive comparison. */
  method CompareNode(a: Print, b: Print, prefix: Text, out: Outcome) returns (same: bool)
    modifies out
    ensures Reports(out, prefix, FirstDiff(a, b), same)
    decreases a
  {
    same := CompareOwn(a, b, prefix, out);
    if !same { return; }
    OwnEqual(a, b);
    ghost var ds := ChildDiffs(a.children, b.children);
    assert FirstDiff(a, b) == FirstSome(ds, 0);
    var c := 0;
    while c < |a.children|
      invariant 0 <= c <= |a.children| == |b.children|
      invariant FirstSome(ds, 0) == FirstSome(ds, c)
      invariant out.equal == old(out.equal) && out.path == old(out.path)
      invariant out.control == old(out.control) && out.subject == old(out.subject)
    {
      same := CompareNode(a.children[c], b.children[c], At(prefix, ChildText(c)), out);
      if !same { return; }
      c := c + 1;
    }
    same := true;
  }

  // ---------------------------------------------------------------- it is the first, and exact

  function FieldRank(f: Field): nat {
    match f
    case Tag => 0
    case ClassesField => 1
    case Attribute(_) => 2
    case TruncatedField => 3
    case TextField => 4
    case ChildCount => 5
  }

  predicate EarlierField(f: Field, g: Field) {
    FieldRank(f) < FieldRank(g) || (f.Attribute? && g.Attribute? && Less(f.name, g.name))
  }

  /** The comparison order: a node's own fields, attributes by name, then child after child. */
  predicate Earlier(p: Path, q: Path)
    decreases p
  {
    if p.Here? then q.Child? || EarlierField(p.field, q.field)
    else q.Child? && (p.i < q.i || (p.i == q.i && Earlier(p.rest, q.rest)))
  }

  /** Where the first differing field stands; past the end when none differs. */
  lemma {:induction false} FirstFieldWhere(a: Print, b: Print, fields: seq<Field>) returns (k: nat)
    ensures AgreeTo(a, b, fields, k)
    ensures k < |fields| ==>
      Read(a, fields[k]) != Read(b, fields[k]) && FirstField(a, b, fields) == DiffAt(a, b, fields[k])
    ensures k == |fields| ==> FirstField(a, b, fields) == None
  {
    if fields == [] || DiffAt(a, b, fields[0]).Some? {
      k := 0;
    } else {
      k := FirstFieldWhere(a, b, fields[1..]);
      assert forall j :: 1 <= j < |fields| ==> fields[j] == fields[1..][j - 1];
      k := k + 1;
    }
  }

  lemma AttrNamesCover(a: Print, b: Print, n: Text) returns (i: nat)
    requires n in a.attrs || n in b.attrs
    ensures i < |AttrNames(a, b)| && AttrNames(a, b)[i] == n
  {
    var names := AttrNames(a, b);
    assert n in multiset(names);
    assert n in names;
    i :| 0 <= i < |names| && names[i] == n;
  }

  /** Where a field that is present on either side stands among the compared ones. */
  lemma FieldIndex(a: Print, b: Print, f: Field) returns (i: nat)
    requires f.Attribute? ==> f.name in a.attrs || f.name in b.attrs
    ensures i < |Fields(AttrNames(a, b))| && Fields(AttrNames(a, b))[i] == f
  {
    if f.Attribute? {
      i := AttrNamesCover(a, b, f.name);
      i := i + 2;
      FieldAt(AttrNames(a, b), i);
    } else {
      i := PlainIndex(AttrNames(a, b), f);
    }
  }

  lemma PlainIndex(names: seq<Text>, f: Field) returns (i: nat)
    requires !f.Attribute?
    ensures i < |Fields(names)| && Fields(names)[i] == f
  {
    i := if f.Tag? then 0 else if f.ClassesField? then 1 else |names| + FieldRank(f) - 1;
    FieldAt(names, i);
  }

  /** The compared fields stand in the comparison order. */
  lemma FieldsOrdered(names: seq<Text>, i: nat, j: nat)
    requires Ascending(names) && i <= j < |Fields(names)|
    ensures !EarlierField(Fields(names)[j], Fields(names)[i])
  {
    FieldAt(names, i);
    FieldAt(names, j);
    if 2 <= i && j < |names| + 2 {
      LessTotal(names[i - 2], names[j - 2]);
    }
  }

  lemma OwnEqualAt(a: Print, b: Print, f: Field)
    requires FirstOwn(a, b).None?
    ensures Read(a, f) == Read(b, f)
  {
    if f.Attribute? ==> f.name in a.attrs || f.name in b.attrs {
      var i := FieldIndex(a, b, f);
      var k := FirstFieldWhere(a, b, Fields(AttrNames(a, b)));
    }
  }

  /** With no own difference, every own field reads the same. */
  lemma OwnEqual(a: Print, b: Print)
    requires FirstOwn(a, b).None?
    ensures forall f :: Read(a, f) == Read(b, f)
    ensures |a.children| == |b.children|
  {
    forall f ensures Read(a, f) == Read(b, f) { OwnEqualAt(a, b, f); }
    assert Read(a, ChildCount) == Read(b, ChildCount);
  }

  lemma OwnFirst(a: Print, b: Print, g: Field)
    requires FirstOwn(a, b).Some?
    ensures var d := FirstOwn(a, b).value;
      && d.path.Here? && d.control == Read(a, d.path.field) && d.subject == Read(b, d.path.field)
      && d.control != d.subject
      && (EarlierField(g, d.path.field) ==> Read(a, g) == Read(b, g))
  {
    var k := FirstFieldWhere(a, b, Fields(AttrNames(a, b)));
    if g.Attribute? ==> g.name in a.attrs || g.name in b.attrs {
      var i := FieldIndex(a, b, g);
      if k <= i { FieldsOrdered(AttrNames(a, b), k, i); }
    }
  }

  /** Where the first differing child stands; past the end when none differs. */
  lemma {:induction false} FirstSomeWhere(ds: seq<Option<Diff>>, i: nat) returns (k: nat)
    requires i <= |ds|
    ensures i <= k <= |ds| && (forall j :: i <= j < k ==> ds[j].None?)
    ensures k < |ds| ==> ds[k].Some? && FirstSome(ds, i) == Some(ds[k].value.(path := Child(k, ds[k].value.path)))
    ensures k == |ds| ==> FirstSome(ds, i).None?
    decreases |ds| - i
  {
    if i == |ds| || ds[i].Some? { k := i; } else { k := FirstSomeWhere(ds, i + 1); }
  }

  /** The recorded path resolves in both fingerprints to the two recorded values, and they differ. */
  lemma {:induction false} DiffResolves(a: Print, b: Print)
    requires FirstDiff(a, b).Some?
    ensures var d := FirstDiff(a, b).value;
      Resolve(a, d.path) == d.control && Resolve(b, d.path) == d.subject && d.control != d.subject
    decreases a
  {
    if FirstOwn(a, b).Some? {
      OwnFirst(a, b, Tag);
    } else {
      var k := FirstSomeWhere(ChildDiffs(a.children, b.children), 0);
      DiffResolves(a.children[k], b.children[k]);
    }
  }

  lemma OwnIsFirst(a: Print, b: Print, p: Path)
    requires FirstOwn(a, b).Some? && Earlier(p, FirstOwn(a, b).value.path)
    ensures Resolve(a, p) == Resolve(b, p)
  {
    OwnFirst(a, b, if p.Here? then p.field else Tag);
  }

  /** With no own difference, the first difference stands under the first child that has one; the
      children before it are equal. */
  lemma DiffBelow(a: Print, b: Print) returns (k: nat)
    requires FirstOwn(a, b).None? && FirstDiff(a, b).Some?
    ensures k < |a.children| == |b.children| && FirstDiff(a.children[k], b.children[k]).Some?
    ensures FirstDiff(a, b).value.path == Child(k, FirstDiff(a.children[k], b.children[k]).value.path)
    ensures forall j :: 0 <= j < k ==> a.children[j] == b.children[j]
  {
    OwnEqual(a, b);
    var ds := ChildDiffs(a.children, b.children);
    k := FirstSomeWhere(ds, 0);
    forall j | 0 <= j < k ensures a.children[j] == b.children[j] {
      assert ds[j].None?;
      NoDiffEqual(a.children[j], b.children[j]);
    }
  }

  /** No field that comes earlier in the comparison order differs. */
  lemma {:induction false} DiffIsFirst(a: Print, b: Print, p: Path)
    requires FirstDiff(a, b).Some? && Earlier(p, FirstDiff(a, b).value.path)
    ensures Resolve(a, p) == Resolve(b, p)
    decreases a
  {
    if FirstOwn(a, b).Some? {
      OwnIsFirst(a, b, p);
    } else if p.Here? {
      OwnEqualAt(a, b, p.field);
    } else {
      var k := DiffBelow(a, b);
      if p.i == k { DiffIsFirst(a.children[k], b.children[k], p.rest); }
    }
  }

  lemma SameFields(a: Print, b: Print)
    requires forall f :: Read(a, f) == Read(b, f)
    ensures a.(children := []) == b.(children := [])
  {
    assert Read(a, Tag) == Read(b, Tag) && Read(a, ClassesField) == Read(b, ClassesField);
    assert Read(a, TruncatedField) == Read(b, TruncatedField) && Read(a, TextField) == Read(b, TextField);
    assert forall n :: n in a.attrs ==> Read(b, Attribute(n)) == Word(a.attrs[n]) by {
      forall n | n in a.attrs ensures Read(b, Attribute(n)) == Word(a.attrs[n]) {
        assert Read(a, Attribute(n)) == Read(b, Attribute(n));
      }
    }
    assert forall n :: n in b.attrs ==> Read(a, Attribute(n)) == Word(b.attrs[n]) by {
      forall n | n in b.attrs ensures Read(a, Attribute(n)) == Word(b.attrs[n]) {
        assert Read(a, Attribute(n)) == Read(b, Attribute(n));
      }
    }
    assert a.attrs == b.attrs;
  }

  lemma {:induction false} NoDiffEqual(a: Print, b: Print)
    requires FirstDiff(a, b).None?
    ensures a == b
    decreases a
  {
    OwnEqual(a, b);
    SameFields(a, b);
    var k := FirstSomeWhere(ChildDiffs(a.children, b.children), 0);
    forall j | 0 <= j < |a.children| ensures a.children[j] == b.children[j] {
      assert ChildDiffs(a.children, b.children)[j].None?;
      NoDiffEqual(a.children[j], b.children[j]);
    }
    assert a.children == b.children;
  }

  /** The comparison is exact: it finds nothing exactly when the fingerprints are equal, and otherwise
      the least path, in comparison order, at which they read differently. */
  lemma CompareExact(a: Print, b: Print)
    ensures FirstDiff(a, b).None? <==> a == b
    ensures FirstDiff(a, b).Some? ==>
      var d := FirstDiff(a, b).value;
      && Resolve(a, d.path) == d.control && Resolve(b, d.path) == d.subject && d.control != d.subject
      && forall p :: Earlier(p, d.path) ==> Resolve(a, p) == Resolve(b, p)
  {
    if FirstDiff(a, b).Some? {
      DiffResolves(a, b);
      forall p | Earlier(p, FirstDiff(a, b).value.path) ensures Resolve(a, p) == Resolve(b, p) {
        DiffIsFirst(a, b, p);
      }
    } else {
      NoDiffEqual(a, b);
    }
  }

  // ---------------------------------------------------------------- printed paths identify fields

  lemma Under(prefix: Text, field: Text, rest: Text)
    requires field != []
    ensures At(At(prefix, field), rest) == At(prefix, field + Ascii(".") + rest)
  {
    if prefix != [] {
      assert prefix + Ascii(".") + field + Ascii(".") + rest == prefix + Ascii(".") + (field + Ascii(".") + rest);
    }
  }

  function RenderUnder(path: Path): (t: Text)
    ensures t != []
  {
    match path
    case Here(f) => FieldText(f)
    case Child(i, rest) => ChildText(i) + Ascii(".") + RenderUnder(rest)
  }

  lemma {:induction false} RenderFromIs(prefix: Text, path: Path)
    ensures RenderFrom(prefix, path) == At(prefix, RenderUnder(path))
    decreases path
  {
    if path.Here? {
    } else {
      RenderFromIs(At(prefix, ChildText(path.i)), path.rest);
      Under(prefix, ChildText(path.i), RenderUnder(path.rest));
    }
  }

  /** A numeral followed by something else can be told from what follows. */
  lemma DigitsEnd(a: Text, x: Text, b: Text, y: Text)
    requires (forall k :: 0 <= k < |a| ==> IsDigit(a[k])) && (forall k :: 0 <= k < |b| ==> IsDigit(b[k]))
    requires x != [] && y != [] && !IsDigit(x[0]) && !IsDigit(y[0]) && a + x == b + y
    ensures a == b && x == y
  {
    var t := a + x;
    assert t[|a|] == x[0] && t[|b|] == y[0];
    assert forall k :: 0 <= k < |a| ==> IsDigit(t[k]);
    assert forall k :: 0 <= k < |b| ==> IsDigit(t[k]) by {
      forall k | 0 <= k < |b| ensures IsDigit(t[k]) { assert t[k] == (b + y)[k] == b[k]; }
    }
    assert |a| == |b|;
    assert t[..|a|] == a && t[..|b|] == b && t[|a|..] == x && t[|b|..] == y;
  }

  /** The first two characters of a printed step, and the ninth for the two that share them. */
  lemma Opening(path: Path)
    ensures var t := RenderUnder(path);
      |t| >= 2 &&
      match path
      case Here(Tag) => t[0] == 0x74 && t[1] == 0x61
      case Here(ClassesField) => t[0] == 0x63 && t[1] == 0x6c
      case Here(Attribute(_)) => t[0] == 0x61 && t[1] == 0x74
      case Here(TruncatedField) => t[0] == 0x74 && t[1] == 0x72
      case Here(TextField) => t[0] == 0x74 && t[1] == 0x65
      case Here(ChildCount) => t[0] == 0x63 && t[1] == 0x68 && |t| >= 9 && t[8] == 0x2e
      case Child(_, _) => t[0] == 0x63 && t[1] == 0x68 && |t| >= 9 && t[8] == 0x5b
  {
    if path.Child? {
      assert ChildText(path.i)[..9] == Ascii("children[");
    } else if path.field.Attribute? {
      assert FieldText(path.field)[..6] == Ascii("attrs.");
    }
  }

  lemma ChildTextReads(i: nat, rest: Text, j: nat, other: Text)
    requires ChildText(i) + rest == ChildText(j) + other
    ensures i == j && rest == other
  {
    var open, close := Ascii("children["), Ascii("]");
    var t := ChildText(i) + rest;
    assert t[9..] == Decimal(i) + (close + rest);
    assert (ChildText(j) + other)[9..] == Decimal(j) + (close + other);
    DigitsEnd(Decimal(i), close + rest, Decimal(j), close + other);
    DecimalInjective(i, j);
    assert (close + rest)[1..] == rest && (close + other)[1..] == other;
  }

  lemma StepReads(i: nat, x: Text, j: nat, y: Text, dot: Text)
    requires ChildText(i) + dot + x == ChildText(j) + dot + y
    ensures i == j && x == y
  {
    assert ChildText(i) + (dot + x) == ChildText(i) + dot + x;
    assert ChildText(j) + (dot + y) == ChildText(j) + dot + y;
    ChildTextReads(i, dot + x, j, dot + y);
    assert (dot + x)[|dot|..] == x && (dot + y)[|dot|..] == y;
  }

  lemma ChildReads(p: Path, q: Path)
    requires p.Child? && q.Child? && RenderUnder(p) == RenderUnder(q)
    ensures p.i == q.i && RenderUnder(p.rest) == RenderUnder(q.rest)
  {
    StepReads(p.i, RenderUnder(p.rest), q.i, RenderUnder(q.rest), Ascii("."));
  }

  lemma AttributeReads(p: Path, q: Path)
    requires p.Here? && q.Here? && p.field.Attribute? && q.field.Attribute? && RenderUnder(p) == RenderUnder(q)
    ensures p == q
  {
    assert FieldText(p.field)[6..] == p.field.name && FieldText(q.field)[6..] == q.field.name;
  }

  /** A printed path names one field of one node: no two paths print alike, whatever the attribute
      names contain. */
  lemma {:induction false} RenderInjective(p: Path, q: Path)
    requires RenderUnder(p) == RenderUnder(q)
    ensures p == q
    decreases p
  {
    Opening(p);
    Opening(q);
    if p.Child? {
      ChildReads(p, q);
      RenderInjective(p.rest, q.rest);
    } else if p.field.Attribute? {
      AttributeReads(p, q);
    }
  }

  lemma PathsPrintApart(p: Path, q: Path)
    ensures Render(p) == Render(q) ==> p == q
  {
    RenderFromIs([], p);
    RenderFromIs([], q);
    if Render(p) == Render(q) { RenderInjective(p, q); }
  }

  // ---------------------------------------------------------------- comparing elements

  /** What a probe may hand over: an element, or anything else with the label it gets. */
  datatype Subject = NotElement(description: Text) | Element(node: Dom)

  function Described(s: Subject): Text { if s.NotElement? then s.description else s.node.tag }

  /** The two arguments compare as equal. */
  predicate Agree(control: Subject, subject: Subject, settings: Settings) {
    if control.NotElement? || subject.NotElement? then control.NotElement? && subject.NotElement?
    else FingerprintOf(control.node, settings) == FingerprintOf(subject.node, settings)
  }

  /** The probe's comparison of two arguments: whether they agree, and if not where they first differ. */
  method SameAs(control: Subject, subject: Subject, settings: Settings) returns (out: Outcome)
    ensures fresh(out)
    ensures out.equal <==> Agree(control, subject, settings)
    ensures out.equal ==> out.path == [] && out.control == Null && out.subject == Null
    ensures !out.equal && (control.NotElement? || subject.NotElement?) ==>
      out.path == Ascii("(root)") && out.control == Word(Described(control)) && out.subject == Word(Described(subject))
    ensures !out.equal && control.Element? && subject.Element? ==>
      var d := FirstDiff(FingerprintOf(control.node, settings), FingerprintOf(subject.node, settings));
      d.Some? && out.path == Render(d.value.path) && out.control == d.value.control && out.subject == d.value.subject
  {
    out := new Outcome();
    if control.NotElement? || subject.NotElement? {
      if control.NotElement? && subject.NotElement? { return; }
      out.equal := false;
      var ignored := Record(out, Ascii("(root)"), Word(Described(control)), Word(Described(subject)));
      return;
    }
    var left := TakeFingerprint(control.node, settings);
    var right := TakeFingerprint(subject.node, settings);
    CompareExact(left, right);
    var same := CompareNode(left, right, [], out);
    if !same { out.equal := false; }
  }

  // ---------------------------------------------------------------- what agreement means

  ghost predicate SameAttrs(x: Dom, y: Dom, settings: Settings) {
    forall k :: Seen(x, k, settings) == Seen(y, k, settings)
  }

  /** Same shape, tags, class multisets and kept attribute values, whatever the order of classes and
      attributes. */
  ghost predicate Similar(x: Dom, y: Dom, settings: Settings)
    decreases x
  {
    && x.tag == y.tag && multiset(ClassList(x)) == multiset(ClassList(y)) && SameAttrs(x, y, settings)
    && |x.children| == |y.children|
    && forall i :: 0 <= i < |x.children| ==> Similar(x.children[i], y.children[i], settings)
  }

  lemma AttrsSimilar(x: Dom, y: Dom, settings: Settings)
    ensures Attrs(x, settings) == Attrs(y, settings) <==> SameAttrs(x, y, settings)
  {
    var m, n := Attrs(x, settings), Attrs(y, settings);
    forall k
      ensures k in m <==> Seen(x, k, settings).Some?
      ensures k in n <==> Seen(y, k, settings).Some?
      ensures k in m ==> Some(m[k]) == Seen(x, k, settings)
      ensures k in n ==> Some(n[k]) == Seen(y, k, settings)
    {
      AttrsAt(x, settings, k);
      AttrsAt(y, settings, k);
    }
    MapsAgree(m, n, k => Seen(x, k, settings), k => Seen(y, k, settings));
  }

  lemma MapsAgree(m: map<Text, Text>, n: map<Text, Text>, f: Text -> Option<Text>, g: Text -> Option<Text>)
    requires forall k :: f(k) == if k in m then Some(m[k]) else None
    requires forall k :: g(k) == if k in n then Some(n[k]) else None
    ensures m == n <==> forall k :: f(k) == g(k)
  {
    if forall k :: f(k) == g(k) {
      forall k ensures k in m <==> k in n ensures k in m && k in n ==> m[k] == n[k] {
        assert f(k) == g(k);
      }
    }
  }

  lemma {:induction false} FullAllAt(nodes: seq<Dom>, view: View, i: nat)
    requires i < |nodes|
    ensures FullAll(nodes, view)[i] == Full(nodes[i], view)
  {
    if i == 0 {
    } else {
      FullAllAt(nodes[1..], view, i - 1);
    }
  }

  lemma FullAllEqual(xs: seq<Dom>, ys: seq<Dom>, view: View)
    requires |xs| == |ys|
    ensures FullAll(xs, view) == FullAll(ys, view) <==>
            forall i :: 0 <= i < |xs| ==> Full(xs[i], view) == Full(ys[i], view)
  {
    var fx, fy := FullAll(xs, view), FullAll(ys, view);
    forall i | 0 <= i < |xs| ensures fx[i] == Full(xs[i], view) && fy[i] == Full(ys[i], view) {
      FullAllAt(xs, view, i);
      FullAllAt(ys, view, i);
    }
  }

  /** What two elements show of themselves. */
  lemma OwnSimilar(x: Dom, y: Dom, settings: Settings)
    requires !settings.text
    ensures Bare(x, ViewOf(settings)) == Bare(y, ViewOf(settings)) <==>
            x.tag == y.tag && multiset(ClassList(x)) == multiset(ClassList(y)) && SameAttrs(x, y, settings)
  {
    AttrsSimilar(x, y, settings);
    SortedForgetsOrder(ClassList(x), ClassList(y));
  }

  lemma FullEqual(x: Dom, y: Dom, view: View)
    ensures Full(x, view) == Full(y, view) <==>
            Bare(x, view) == Bare(y, view) && FullAll(x.children, view) == FullAll(y.children, view)
  {
  }

  lemma {:induction false} FullSimilar(x: Dom, y: Dom, settings: Settings)
    requires !settings.text
    ensures Full(x, ViewOf(settings)) == Full(y, ViewOf(settings)) <==> Similar(x, y, settings)
    decreases x
  {
    var view := ViewOf(settings);
    OwnSimilar(x, y, settings);
    FullEqual(x, y, view);
    if |x.children| == |y.children| {
      FullAllEqual(x.children, y.children, view);
      forall i | 0 <= i < |x.children|
        ensures Full(x.children[i], view) == Full(y.children[i], view) <==>
          Similar(x.children[i], y.children[i], settings)
      {
        FullSimilar(x.children[i], y.children[i], settings);
      }
    }
  }

  predicate Within(node: Dom, settings: Settings) { Height(node) <= settings.maxDepth && Size(node) <= Limit(settings) }

  /** Within the limits and with text off, two elements agree exactly when they are similar. */
  lemma AgreeIsSimilar(x: Dom, y: Dom, settings: Settings)
    requires !settings.text && Within(x, settings) && Within(y, settings)
    ensures Agree(Element(x), Element(y), settings) <==> Similar(x, y, settings)
  {
    WholeExactlyWithinLimits(x, settings);
    WholeExactlyWithinLimits(y, settings);
    FullSimilar(x, y, settings);
  }

  /** A tree within the limits never agrees with one that is not. */
  lemma CutNeverAgrees(x: Dom, y: Dom, settings: Settings)
    requires !settings.text && Within(x, settings) && !Within(y, settings)
    ensures !Agree(Element(x), Element(y), settings)
  {
    WholeExactlyWithinLimits(x, settings);
    WholeExactlyWithinLimits(y, settings);
  }

  lemma {:induction false} NamedIs(attributes: seq<Attr>, a: Attr)
    requires a in attributes
    requires forall i, j :: 0 <= i < j < |attributes| ==> attributes[i].name != attributes[j].name
    ensures Named(attributes, a.name) == Some(a.value)
  {
    if attributes[0] != a {
      assert a in attributes[1..];
      var j :| 0 <= j < |attributes[1..]| && attributes[1..][j] == a;
      assert attributes[j + 1] == a;
      NamedIs(attributes[1..], a);
    }
  }

  ghost predicate Distinct(attributes: seq<Attr>) {
    forall i, j :: 0 <= i < j < |attributes| ==> attributes[i].name != attributes[j].name
  }

  lemma NamedReordered(a: seq<Attr>, b: seq<Attr>, k: Text)
    requires multiset(a) == multiset(b) && Distinct(a) && Distinct(b)
    ensures Named(a, k) == Named(b, k)
  {
    NamedExists(a, k);
    NamedExists(b, k);
    if Named(a, k).Some? {
      var i :| 0 <= i < |a| && Names(a)[i] == k;
      assert a[i] in multiset(a);
      NamedIs(a, a[i]);
      NamedIs(b, a[i]);
    } else if Named(b, k).Some? {
      var i :| 0 <= i < |b| && Names(b)[i] == k;
      assert b[i] in multiset(b);
      assert b[i] in a;
      NamedIs(a, b[i]);
    }
  }

  /** Listing the same attributes in another order changes neither the classes nor the attributes. */
  lemma AttributeOrderIrrelevant(x: Dom, y: Dom, settings: Settings)
    requires multiset(x.attributes) == multiset(y.attributes) && Distinct(x.attributes) && Distinct(y.attributes)
    ensures ClassList(x) == ClassList(y) && SameAttrs(x, y, settings)
  {
    NamedReordered(x.attributes, y.attributes, Ascii("class"));
    forall k ensures Seen(x, k, settings) == Seen(y, k, settings) { NamedReordered(x.attributes, y.attributes, k); }
  }
}
