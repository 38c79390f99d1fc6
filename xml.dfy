/** The part of groovy.util.Node the IML rewrite uses: an element with a name,
  * attributes and child elements, child selection, removal and appending. */
module Xml {
  import opened Common

  datatype Node = Node(name: string, attrs: map<string, string>, children: seq<Node>)

  /** `"v".equals(node.attribute(key))`. */
  predicate HasAttr(n: Node, key: string, value: string) {
    key in n.attrs && n.attrs[key] == value
  }

  /** Which children a removal takes away. */
  datatype Sel =
    | Named(name: string)              // `node.get(name)`
    | EntryOfType(entryType: string)   // `orderEntry` children whose `type` is `entryType`
    | Either(left: Sel, right: Sel)

  predicate Selects(sel: Sel, n: Node) {
    match sel
    case Named(name) => n.name == name
    case EntryOfType(t) => n.name == "orderEntry" && HasAttr(n, "type", t)
    case Either(a, b) => Selects(a, n) || Selects(b, n)
  }

  /** The children `sel` does not select, in their order. */
  function Drop(cs: seq<Node>, sel: Sel): (r: seq<Node>)
    ensures forall n :: n in r ==> n in cs && !Selects(sel, n)
  {
    if cs == [] then []
    else if Selects(sel, cs[0]) then Drop(cs[1..], sel)
    else [cs[0]] + Drop(cs[1..], sel)
  }

  /** The children `sel` selects, in their order. */
  function Keep(cs: seq<Node>, sel: Sel): (r: seq<Node>)
    ensures forall n :: n in r ==> n in cs && Selects(sel, n)
  {
    if cs == [] then []
    else if Selects(sel, cs[0]) then [cs[0]] + Keep(cs[1..], sel)
    else Keep(cs[1..], sel)
  }

  lemma {:induction false} DropAppend(a: seq<Node>, b: seq<Node>, sel: Sel)
    ensures Drop(a + b, sel) == Drop(a, sel) + Drop(b, sel)
  {
    if a == [] {
      assert a + b == b;
    } else {
      var c := a + b;
      assert c[0] == a[0] && c[1..] == a[1..] + b;
      DropAppend(a[1..], b, sel);
      if !Selects(sel, a[0]) {
        assert Drop(c, sel) == [a[0]] + Drop(c[1..], sel);
        assert Drop(a, sel) == [a[0]] + Drop(a[1..], sel);
      }
    }
  }

  lemma {:induction false} KeepAppend(a: seq<Node>, b: seq<Node>, sel: Sel)
    ensures Keep(a + b, sel) == Keep(a, sel) + Keep(b, sel)
  {
    if a == [] {
      assert a + b == b;
    } else {
      var c := a + b;
      assert c[0] == a[0] && c[1..] == a[1..] + b;
      KeepAppend(a[1..], b, sel);
      if Selects(sel, a[0]) {
        assert Keep(c, sel) == [a[0]] + Keep(c[1..], sel);
        assert Keep(a, sel) == [a[0]] + Keep(a[1..], sel);
      }
    }
  }

  /** Removing by one selector and then another removes what either selects. */
  lemma {:induction false} DropDrop(cs: seq<Node>, a: Sel, b: Sel)
    ensures Drop(Drop(cs, a), b) == Drop(cs, Either(a, b))
  {
    if cs != [] {
      DropDrop(cs[1..], a, b);
    }
  }

  /** Selection is unaffected by first removing nodes of a disjoint kind. */
  lemma {:induction false} KeepDrop(cs: seq<Node>, keep: Sel, drop: Sel)
    requires forall n :: Selects(keep, n) ==> !Selects(drop, n)
    ensures Keep(Drop(cs, drop), keep) == Keep(cs, keep)
  {
    if cs != [] {
      KeepDrop(cs[1..], keep, drop);
    }
  }

  lemma {:induction false} KeepNone(cs: seq<Node>, sel: Sel)
    requires forall n :: n in cs ==> !Selects(sel, n)
    ensures Keep(cs, sel) == [] && Drop(cs, sel) == cs
  {
    if cs != [] {
      assert cs[0] in cs && !Selects(sel, cs[0]);
      assert forall n :: n in cs[1..] ==> n in cs;
      KeepNone(cs[1..], sel);
      assert Drop(cs, sel) == [cs[0]] + Drop(cs[1..], sel);
    }
  }

  lemma {:induction false} KeepAll(cs: seq<Node>, sel: Sel)
    requires forall n :: n in cs ==> Selects(sel, n)
    ensures Keep(cs, sel) == cs && Drop(cs, sel) == []
  {
    if cs != [] {
      assert cs[0] in cs && Selects(sel, cs[0]);
      assert forall n :: n in cs[1..] ==> n in cs;
      KeepAll(cs[1..], sel);
      assert Keep(cs, sel) == [cs[0]] + Keep(cs[1..], sel);
    }
  }

  /** A finder of `xmlPath`: element name plus one attribute's expected value. */
  datatype Finder = Finder(name: string, attr: string, value: string)

  predicate Finds(f: Finder, n: Node) {
    n.name == f.name && HasAttr(n, f.attr, f.value)
  }

  /** `children().stream().filter(finder).findFirst()`, as an index; a missing
    * child is the IllegalArgumentException of `xmlPath`. */
  function FirstChild(parent: Node, f: Finder): (r: Result<nat>)
    ensures r.Ok? ==> r.value < |parent.children| && Finds(f, parent.children[r.value])
    ensures r.Ok? ==> forall j :: 0 <= j < r.value ==> !Finds(f, parent.children[j])
    ensures r.Err? <==> forall j :: 0 <= j < |parent.children| ==> !Finds(f, parent.children[j])
    ensures r.Err? ==> r.error.kind == IllegalArgument
  {
    FirstFrom(parent, f, 0)
  }

  function FirstFrom(parent: Node, f: Finder, from: nat): (r: Result<nat>)
    requires from <= |parent.children|
    requires forall j :: 0 <= j < from ==> !Finds(f, parent.children[j])
    ensures r.Ok? ==> from <= r.value < |parent.children| && Finds(f, parent.children[r.value])
    ensures r.Ok? ==> forall j :: 0 <= j < r.value ==> !Finds(f, parent.children[j])
    ensures r.Err? <==> forall j :: 0 <= j < |parent.children| ==> !Finds(f, parent.children[j])
    ensures r.Err? ==> r.error.kind == IllegalArgument
    decreases |parent.children| - from
  {
    if from == |parent.children| then
      Err(Throw(IllegalArgument, "Could not find requested node at " + parent.name))
    else if Finds(f, parent.children[from]) then Ok(from)
    else FirstFrom(parent, f, from + 1)
  }

  /** `n` is one of the nodes the map builds. */
  ghost predicate BuiltBy(items: map<string, Result<Node>>, n: Node) {
    exists k :: k in items && items[k] == Ok(n)
  }

  /** Every key of `items` builds a node. */
  predicate AllBuilt(items: map<string, Result<Node>>) {
    forall k :: k in items ==> items[k].Ok?
  }

  /** Some key of `items` fails to build a node, with exception `e`. */
  ghost predicate FailsWith(items: map<string, Result<Node>>, e: Exc) {
    exists k :: k in items && items[k] == Err(e)
  }

  /** Every selector disjoint from `sel` sees in `r` the children it sees in `cs`. */
  ghost predicate KeepsOthers(r: seq<Node>, cs: seq<Node>, sel: Sel) {
    forall other :: Disjoint(other, sel) ==> Keep(r, other) == Keep(cs, other)
  }

  /** Removing what `sel` or any other selector selects leaves the same children. */
  ghost predicate DropsAlike(r: seq<Node>, cs: seq<Node>, sel: Sel) {
    forall other :: Drop(r, Either(sel, other)) == Drop(cs, Either(sel, other))
  }

  /** Appends one node per key of `items`, in the unspecified iteration order of
    * a HashSet, as a `forEach(... -> parent.append(...))` does. A node that
    * cannot be built aborts the loop with its exception. */
  method AppendEach(cs: seq<Node>, items: map<string, Result<Node>>) returns (r: Result<seq<Node>>)
    ensures r.Ok? <==> AllBuilt(items)
    ensures r.Err? ==> FailsWith(items, r.error)
    ensures r.Ok? ==> |r.value| == |cs| + |items| && r.value[..|cs|] == cs
    ensures r.Ok? ==> forall n :: n in r.value[|cs|..] <==> BuiltBy(items, n)
  {
    var todo := items.Keys;
    var acc := cs;
    ghost var done: set<string> := {};
    ghost var tail: seq<Node> := [];
    while todo != {}
      invariant todo !! done && todo + done == items.Keys
      invariant acc == cs + tail && |tail| == |done|
      invariant forall k :: k in done ==> items[k].Ok?
      invariant forall n :: n in tail <==> BuiltBy(DoneItems(items, done), n)
      decreases |todo|
    {
      var k :| k in todo;
      if items[k].Err? {
        return Err(items[k].error);
      }
      BuiltByGrows(items, done, k);
      tail := tail + [items[k].value];
      acc := acc + [items[k].value];
      done := done + {k};
      todo := todo - {k};
    }
    assert DoneItems(items, done) == items;
    assert acc[..|cs|] == cs && acc[|cs|..] == tail;
    assert |items.Keys| == |items|;
    return Ok(acc);
  }

  /** The entries of `items` whose keys are in `done`. */
  ghost function DoneItems(items: map<string, Result<Node>>, done: set<string>): map<string, Result<Node>> {
    map k | k in items && k in done :: items[k]
  }

  lemma BuiltByGrows(items: map<string, Result<Node>>, done: set<string>, k: string)
    requires k in items && items[k].Ok?
    ensures forall n :: BuiltBy(DoneItems(items, done + {k}), n) <==> BuiltBy(DoneItems(items, done), n) || n == items[k].value
  {
    forall n ensures BuiltBy(DoneItems(items, done + {k}), n) ==> BuiltBy(DoneItems(items, done), n) || n == items[k].value {
      if BuiltBy(DoneItems(items, done + {k}), n) {
        var j :| j in DoneItems(items, done + {k}) && DoneItems(items, done + {k})[j] == Ok(n);
        if j != k {
          assert j in DoneItems(items, done);
        }
      }
    }
    forall n | BuiltBy(DoneItems(items, done), n) ensures BuiltBy(DoneItems(items, done + {k}), n) {
      var j :| j in DoneItems(items, done) && DoneItems(items, done)[j] == Ok(n);
      assert j in DoneItems(items, done + {k});
    }
    assert k in DoneItems(items, done + {k});
  }

  /** Selectors that select the same nodes remove the same children. */
  lemma {:induction false} DropSame(cs: seq<Node>, a: Sel, b: Sel)
    requires forall n :: Selects(a, n) <==> Selects(b, n)
    ensures Drop(cs, a) == Drop(cs, b)
  {
    if cs != [] {
      DropSame(cs[1..], a, b);
    }
  }

  /** The order of the alternatives does not matter to a removal. */
  lemma DropSwap(cs: seq<Node>, a: Sel, b: Sel)
    ensures Drop(cs, Either(a, b)) == Drop(cs, Either(b, a))
  {
    DropSame(cs, Either(a, b), Either(b, a));
  }

  lemma DropRotate(cs: seq<Node>, a: Sel, b: Sel, c: Sel)
    ensures Drop(cs, Either(a, Either(b, c))) == Drop(cs, Either(b, Either(a, c)))
  {
    DropSame(cs, Either(a, Either(b, c)), Either(b, Either(a, c)));
  }

  /** No node is selected by both. */
  ghost predicate Disjoint(a: Sel, b: Sel) {
    forall n :: Selects(a, n) ==> !Selects(b, n)
  }

  /** Children that start with those `sel` does not select and continue with
    * nodes it does select: the selected children are exactly the tail, the
    * others are those of `cs`, and a selector disjoint from `sel` sees the
    * children of `cs` it saw before. */
  lemma Replaced(cs: seq<Node>, sel: Sel, r: seq<Node>)
    requires |Drop(cs, sel)| <= |r| && r[..|Drop(cs, sel)|] == Drop(cs, sel)
    requires forall n :: n in r[|Drop(cs, sel)|..] ==> Selects(sel, n)
    ensures Keep(r, sel) == r[|Drop(cs, sel)|..]
    ensures Drop(r, sel) == Drop(cs, sel)
    ensures forall other :: Disjoint(other, sel) ==> Keep(r, other) == Keep(cs, other)
    ensures forall other :: Drop(r, Either(sel, other)) == Drop(cs, Either(sel, other))
  {
    var d := Drop(cs, sel);
    var extra := r[|d|..];
    assert r == d + extra;
    ReplacedSelected(d, extra, sel);
    forall other | Disjoint(other, sel)
      ensures Keep(r, other) == Keep(cs, other)
    {
      ReplacedOther(cs, d, extra, sel, other);
    }
    forall other ensures Drop(r, Either(sel, other)) == Drop(cs, Either(sel, other)) {
      ReplacedEither(cs, r, sel, other);
    }
  }

  lemma ReplacedSelected(d: seq<Node>, extra: seq<Node>, sel: Sel)
    requires forall n :: n in d ==> !Selects(sel, n)
    requires forall n :: n in extra ==> Selects(sel, n)
    ensures Keep(d + extra, sel) == extra && Drop(d + extra, sel) == d
  {
    KeepAppend(d, extra, sel);
    DropAppend(d, extra, sel);
    KeepNone(d, sel);
    KeepAll(extra, sel);
  }

  lemma ReplacedOther(cs: seq<Node>, d: seq<Node>, extra: seq<Node>, sel: Sel, other: Sel)
    requires d == Drop(cs, sel) && Disjoint(other, sel)
    requires forall n :: n in extra ==> Selects(sel, n)
    ensures Keep(d + extra, other) == Keep(cs, other)
  {
    KeepAppend(d, extra, other);
    KeepNone(extra, other);
    KeepDrop(cs, other, sel);
  }

  lemma ReplacedEither(cs: seq<Node>, r: seq<Node>, sel: Sel, other: Sel)
    requires Drop(r, sel) == Drop(cs, sel)
    ensures Drop(r, Either(sel, other)) == Drop(cs, Either(sel, other))
  {
    DropDrop(r, sel, other);
    DropDrop(cs, sel, other);
  }

  /** Every node the map can build is one `sel` selects. */
  ghost predicate BuildsOnly(items: map<string, Result<Node>>, sel: Sel) {
    forall k :: k in items && items[k].Ok? ==> Selects(sel, items[k].value)
  }

  /** Removes the children `sel` selects and appends the nodes built from the
    * keys of `first`, then those of `second`, as the IML rewrite does for each
    * kind of child it owns: afterwards the children `sel` selects are exactly
    * the new nodes, first-map nodes first, and what other selectors see of the
    * remaining children is unchanged. */
  method ReplaceChildren(cs: seq<Node>, sel: Sel, first: map<string, Result<Node>>, second: map<string, Result<Node>>)
    returns (r: Result<seq<Node>>)
    requires BuildsOnly(first, sel) && BuildsOnly(second, sel)
    ensures r.Ok? <==> AllBuilt(first) && AllBuilt(second)
    ensures r.Err? ==> FailsWith(first, r.error) || FailsWith(second, r.error)
    ensures r.Ok? ==> |Keep(r.value, sel)| == |first| + |second|
    ensures r.Ok? ==> forall n :: n in Keep(r.value, sel)[..|first|] <==> BuiltBy(first, n)
    ensures r.Ok? ==> forall n :: n in Keep(r.value, sel) <==> BuiltBy(first, n) || BuiltBy(second, n)
    ensures r.Ok? ==> Drop(r.value, sel) == Drop(cs, sel)
    ensures r.Ok? ==> var kept := Drop(cs, sel);
      && |kept| <= |r.value| && r.value[..|kept|] == kept
      && forall n :: n in r.value[|kept|..] ==> Selects(sel, n)
    ensures r.Ok? ==> KeepsOthers(r.value, cs, sel)
    ensures r.Ok? ==> DropsAlike(r.value, cs, sel)
  {
    var kept := Drop(cs, sel);
    var a := AppendEach(kept, first);
    if a.Err? {
      return Err(a.error);
    }
    var b := AppendEach(a.value, second);
    if b.Err? {
      return Err(b.error);
    }
    TwoAppends(kept, a.value, b.value, sel, first, second);
    Replaced(cs, sel, b.value);
    return b;
  }

  /** The facts the two `AppendEach` calls of `ReplaceChildren` leave behind,
    * stated about the nodes after the kept ones. */
  lemma TwoAppends(kept: seq<Node>, a: seq<Node>, b: seq<Node>, sel: Sel,
                   first: map<string, Result<Node>>, second: map<string, Result<Node>>)
    requires BuildsOnly(first, sel) && BuildsOnly(second, sel)
    requires |a| == |kept| + |first| && a[..|kept|] == kept
    requires forall n :: n in a[|kept|..] <==> BuiltBy(first, n)
    requires |b| == |a| + |second| && b[..|a|] == a
    requires forall n :: n in b[|a|..] <==> BuiltBy(second, n)
    ensures |kept| <= |b| && b[..|kept|] == kept && |b[|kept|..]| == |first| + |second|
    ensures forall n :: n in b[|kept|..][..|first|] <==> BuiltBy(first, n)
    ensures forall n :: n in b[|kept|..] <==> BuiltBy(first, n) || BuiltBy(second, n)
    ensures forall n :: n in b[|kept|..] ==> Selects(sel, n)
  {
    assert b[..|kept|] == a[..|kept|];
    var tail := b[|kept|..];
    assert tail == a[|kept|..] + b[|a|..];
    assert tail[..|first|] == a[|kept|..];
    forall n | n in tail ensures Selects(sel, n) {
      assert n in a[|kept|..] || n in b[|a|..];
      if BuiltBy(first, n) {
        var k :| k in first && first[k] == Ok(n);
      } else {
        var k :| k in second && second[k] == Ok(n);
      }
    }
  }
}
