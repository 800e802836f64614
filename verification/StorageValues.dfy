/** Which values may be stored: the walk over an object graph, and undoing what the decoder makes of them. */
module StorageValues {
  import opened Basics
  import opened SortedIndex

  // ---- object graphs -----------------------------------------------------------------------

  type Ref(==, !new, 0)

  // A number is safe when it is finite, within the safe range and not negative zero.
  datatype Value = Null | Text | Flag | Bytes | Number(safe: bool) | Undefined | Foreign | Object(ref: Ref)
  // An own property: enumerable data, something else under a string key or at an index, or anything under a symbol.
  datatype Property = Data(value: Value) | NonData | Symbolic
  datatype Shape = Array(slots: seq<Property>, custom: bool) | Plain(properties: seq<Property>) | Exotic
  type Heap = map<Ref, Shape>

  datatype Problem =
    | UnsafeNumber | UnsupportedType | CyclicObject | NonDataEntry | CustomProperties | NonPlainObject | SymbolKey
    | NonDataProperty

  function Contents(s: Shape): seq<Property> {
    match s
    case Array(slots, _) => slots
    case Plain(properties) => properties
    case Exotic => []
  }

  predicate InHeap(heap: Heap, v: Value) {
    v.Object? ==> v.ref in heap
  }

  ghost predicate Closed(heap: Heap) {
    forall r, p :: r in heap && p in Contents(heap[r]) && p.Data? ==> InHeap(heap, p.value)
  }

  predicate Storable(v: Value) {
    v.Null? || v.Text? || v.Flag? || v.Bytes? || (v.Number? && v.safe)
  }

  // ---- finite unfoldings ---------------------------------------------------------------------

  datatype Tree = Leaf | Node(ref: Ref, children: seq<Tree>)

  predicate Regular(s: Shape) {
    match s
    case Array(slots, custom) => !custom && forall p :: p in slots ==> p.Data?
    case Plain(properties) => forall p :: p in properties ==> p.Data?
    case Exotic => false
  }

  // The value unfolds to this finite tree, with nothing unsupported anywhere in it.
  ghost predicate Unfolds(heap: Heap, v: Value, t: Tree)
    decreases t
  {
    match t
    case Leaf => Storable(v)
    case Node(r, children) =>
      && v == Object(r) && r in heap && Regular(heap[r]) && |children| == |Contents(heap[r])|
      && forall i ::
        0 <= i < |children| ==> Contents(heap[r])[i].Data? && Unfolds(heap, Contents(heap[r])[i].value, children[i])
  }

  // The object occurs in the tree.
  predicate Has(t: Tree, r: Ref) {
    t.Node? && (t.ref == r || exists c :: c in t.children && Has(c, r))
  }

  predicate Avoids(t: Tree, seen: set<Ref>) {
    forall r :: r in seen ==> !Has(t, r)
  }

  lemma {:induction false} OneUnfolding(heap: Heap, v: Value, t: Tree, u: Tree)
    requires Unfolds(heap, v, t) && Unfolds(heap, v, u)
    ensures t == u
    decreases t
  {
    if t.Node? {
      forall i | 0 <= i < |t.children| ensures t.children[i] == u.children[i] {
        OneUnfolding(heap, Contents(heap[t.ref])[i].value, t.children[i], u.children[i]);
      }
      assert t.children == u.children;
    }
  }

  // An object that occurs in an unfolding unfolds to a part of it.
  lemma {:induction false} PartUnfolds(heap: Heap, v: Value, t: Tree, r: Ref) returns (part: Tree)
    requires Unfolds(heap, v, t) && Has(t, r)
    ensures Unfolds(heap, Object(r), part) && (part == t || part < t)
    decreases t
  {
    if t.ref == r {
      part := t;
    } else {
      var c :| c in t.children && Has(c, r);
      var i :| 0 <= i < |t.children| && t.children[i] == c;
      part := PartUnfolds(heap, Contents(heap[t.ref])[i].value, c, r);
    }
  }

  // An object never occurs inside its own unfolding.
  lemma {:induction false} NeverInsideItself(heap: Heap, r: Ref, t: Tree, i: nat)
    requires Unfolds(heap, Object(r), t) && i < |t.children|
    ensures !Has(t.children[i], r)
  {
    if Has(t.children[i], r) {
      var part := PartUnfolds(heap, Contents(heap[r])[i].value, t.children[i], r);
      OneUnfolding(heap, Object(r), t, part);
      assert false;
    }
  }

  // ---- the walk ------------------------------------------------------------------------------------

  // Each property holds a value that unfolds to its tree and meets none of these objects.
  ghost predicate UnfoldEach(heap: Heap, properties: seq<Property>, children: seq<Tree>, seen: set<Ref>) {
    && |children| <= |properties|
    && forall i :: 0 <= i < |children| ==>
         properties[i].Data? && Unfolds(heap, properties[i].value, children[i]) && Avoids(children[i], seen)
  }

  // The value has an unfolding that meets none of the objects the walk is already inside.
  ghost predicate Acceptable(heap: Heap, v: Value, seen: set<Ref>) {
    exists t :: Unfolds(heap, v, t) && Avoids(t, seen)
  }

  // An acceptable object is regular, and each of its values is acceptable from inside it.
  lemma InsideAcceptable(heap: Heap, r: Ref, seen: set<Ref>, i: nat)
    requires Acceptable(heap, Object(r), seen) && r in heap && i < |Contents(heap[r])|
    ensures Regular(heap[r]) && r !in seen && Contents(heap[r])[i].Data?
    ensures Acceptable(heap, Contents(heap[r])[i].value, seen + {r})
  {
    var t :| Unfolds(heap, Object(r), t) && Avoids(t, seen);
    NeverInsideItself(heap, r, t, i);
    forall x | x in seen + {r} ensures !Has(t.children[i], x) {
      if x != r {
        assert !Has(t, x);
      }
    }
    assert Unfolds(heap, Contents(heap[r])[i].value, t.children[i]) && Avoids(t.children[i], seen + {r});
  }

  lemma AssembledIsAcceptable(heap: Heap, r: Ref, seen: set<Ref>, children: seq<Tree>)
    requires r in heap && r !in seen && Regular(heap[r]) && |children| == |Contents(heap[r])|
    requires UnfoldEach(heap, Contents(heap[r]), children, seen + {r})
    ensures Acceptable(heap, Object(r), seen)
  {
    var t := Node(r, children);
    forall x | x in seen ensures !Has(t, x) {
      forall c | c in children ensures !Has(c, x) {
        var i :| 0 <= i < |children| && children[i] == c;
        assert x in seen + {r};
      }
    }
    assert Unfolds(heap, Object(r), t);
  }

  class Walk {
    const heap: Heap
    // The objects between the root and the value being looked at.
    var seen: set<Ref>

    constructor (h: Heap)
      ensures heap == h && seen == {}
    {
      heap, seen := h, {};
    }

    // Accepts exactly the values with a finite unfolding that meets nothing it is already inside, on cyclic graphs too.
    method Validate(v: Value, rootMayBeUndefined: bool) returns (problem: Option<Problem>)
      requires Closed(heap) && InHeap(heap, v) && seen <= heap.Keys
      modifies this
      ensures seen <= heap.Keys && (problem.None? ==> seen == old(seen))
      ensures problem.None? <==> (rootMayBeUndefined && v.Undefined?) || Acceptable(heap, v, old(seen))
      ensures v == Number(false) ==> problem == Some(UnsafeNumber)
      ensures v.Foreign? || (v.Undefined? && !rootMayBeUndefined) ==> problem == Some(UnsupportedType)
      ensures v.Object? && v.ref in old(seen) ==> problem == Some(CyclicObject)
      ensures v.Object? && v.ref !in old(seen) && heap[v.ref].Exotic? ==> problem == Some(NonPlainObject)
      decreases heap.Keys - seen, 1
    {
      if rootMayBeUndefined && v.Undefined? {
        return None;
      }
      if Storable(v) {
        assert Unfolds(heap, v, Leaf) && Avoids(Leaf, seen);
        return None;
      }
      if v.Number? {
        return Some(UnsafeNumber);
      }
      if !v.Object? {
        return Some(UnsupportedType);
      }
      if v.ref in seen {
        return Some(CyclicObject);
      }
      problem := ValidateObject(v.ref);
    }

    method ValidateObject(r: Ref) returns (problem: Option<Problem>)
      requires Closed(heap) && r in heap && r !in seen && seen <= heap.Keys
      modifies this
      ensures seen <= heap.Keys && (problem.None? ==> seen == old(seen))
      ensures problem.None? <==> Acceptable(heap, Object(r), old(seen))
      ensures heap[r].Exotic? ==> problem == Some(NonPlainObject)
      decreases heap.Keys - seen, 0
    {
      ghost var before := seen;
      seen := seen + {r};
      match heap[r]
      case Exotic =>
        problem := Some(NonPlainObject);
      case Array(slots, custom) =>
        ghost var children;
        problem, children := ValidateEach(r, slots, before, NonDataEntry);
        if problem.None? && custom {
          problem := Some(CustomProperties);
        }
        if problem.None? {
          AssembledIsAcceptable(heap, r, before, children);
          seen := seen - {r};
        }
      case Plain(properties) =>
        ghost var children;
        problem, children := ValidateEach(r, properties, before, NonDataProperty);
        if problem.None? {
          AssembledIsAcceptable(heap, r, before, children);
          seen := seen - {r};
        }
    }

    // Every property in turn; the first problem ends the walk.
    method ValidateEach(r: Ref, properties: seq<Property>, ghost before: set<Ref>, fault: Problem)
      returns (problem: Option<Problem>, ghost children: seq<Tree>)
      requires Closed(heap) && r in heap && r !in before && properties == Contents(heap[r])
      requires seen == before + {r} <= heap.Keys
      modifies this
      ensures seen <= heap.Keys && (problem.None? ==> seen == before + {r})
      ensures problem.None? ==> |children| == |properties| && UnfoldEach(heap, properties, children, before + {r})
      ensures problem.Some? ==> !Acceptable(heap, Object(r), before)
      decreases heap.Keys - seen, 2
    {
      children := [];
      var i := 0;
      while i < |properties|
        invariant i <= |properties| && |children| == i && seen == before + {r}
        invariant UnfoldEach(heap, properties, children, before + {r})
      {
        var p := properties[i];
        if p.Symbolic? {
          NotAcceptableAt(heap, r, before, i);
          return Some(SymbolKey), children;
        }
        if p.NonData? {
          NotAcceptableAt(heap, r, before, i);
          return Some(fault), children;
        }
        assert p in Contents(heap[r]);
        problem := Validate(p.value, false);
        if problem.Some? {
          NotAcceptableAt(heap, r, before, i);
          return;
        }
        ghost var t :| Unfolds(heap, p.value, t) && Avoids(t, before + {r});
        children := children + [t];
        i := i + 1;
      }
      problem := None;
    }
  }

  lemma NotAcceptableAt(heap: Heap, r: Ref, seen: set<Ref>, i: nat)
    requires r in heap && i < |Contents(heap[r])|
    requires !Contents(heap[r])[i].Data? || !Acceptable(heap, Contents(heap[r])[i].value, seen + {r})
    ensures !Acceptable(heap, Object(r), seen)
  {
    if Acceptable(heap, Object(r), seen) {
      InsideAcceptable(heap, r, seen, i);
      assert false;
    }
  }

  // From the root, exactly the values that unfold to a finite tree of supported values are accepted.
  lemma RootAcceptable(heap: Heap, v: Value)
    ensures Acceptable(heap, v, {}) <==> exists t :: Unfolds(heap, v, t)
  {
    if t :| Unfolds(heap, v, t) {
      assert Unfolds(heap, v, t) && Avoids(t, {});
    }
  }

  // ---- sharing and cycles ------------------------------------------------------------------------------

  // Each object of the path is a value of the one before it.
  ghost predicate Path(heap: Heap, path: seq<Ref>) {
    && (forall i :: 0 <= i < |path| ==> path[i] in heap)
    && (forall i :: 0 <= i < |path| - 1 ==> Data(Object(path[i + 1])) in Contents(heap[path[i]]))
  }

  lemma {:induction false} PathIsInside(heap: Heap, path: seq<Ref>, t: Tree)
    requires Path(heap, path) && 1 < |path| && Unfolds(heap, Object(path[0]), t)
    ensures exists i :: 0 <= i < |t.children| && Has(t.children[i], path[|path| - 1])
    decreases |path|
  {
    var contents := Contents(heap[path[0]]);
    var i :| 0 <= i < |contents| && contents[i] == Data(Object(path[1]));
    if |path| == 2 {
      assert Has(t.children[i], path[1]);
    } else {
      PathIsInside(heap, path[1..], t.children[i]);
      var j :| 0 <= j < |t.children[i].children| && Has(t.children[i].children[j], path[|path| - 1]);
      assert Has(t.children[i], path[|path| - 1]);
    }
  }

  // No path back leads from a value that has an unfolding.
  lemma NoWayBack(heap: Heap, path: seq<Ref>, t: Tree)
    requires Path(heap, path) && 1 < |path| && Unfolds(heap, Object(path[0]), t)
    ensures path[|path| - 1] != path[0]
  {
    PathIsInside(heap, path, t);
    var i :| 0 <= i < |t.children| && Has(t.children[i], path[|path| - 1]);
    NeverInsideItself(heap, path[0], t, i);
  }

  // A path from a value that has an unfolding repeats nothing, and ends at an object that has one.
  lemma {:induction false} PathUnfolds(heap: Heap, path: seq<Ref>, t: Tree)
    requires Path(heap, path) && path != [] && Unfolds(heap, Object(path[0]), t)
    ensures Distinct(path) && Acceptable(heap, Object(path[|path| - 1]), {})
    decreases |path|
  {
    if |path| == 1 {
      assert Avoids(t, {});
    } else {
      var contents := Contents(heap[path[0]]);
      var i :| 0 <= i < |contents| && contents[i] == Data(Object(path[1]));
      PathUnfolds(heap, path[1..], t.children[i]);
      forall j | 0 < j < |path| ensures path[j] != path[0] {
        NoWayBack(heap, path[..j + 1], t);
      }
      forall j, k | 0 <= j < k < |path| ensures path[j] != path[k] {
        assert 0 < j ==> path[1..][j - 1] == path[j] && path[1..][k - 1] == path[k];
      }
    }
  }

  // A value from which a path leads into a cycle is never accepted.
  lemma CycleIsRejected(heap: Heap, path: seq<Ref>, seen: set<Ref>)
    requires Path(heap, path) && path != [] && !Distinct(path)
    ensures !Acceptable(heap, Object(path[0]), seen)
  {
    if t :| Unfolds(heap, Object(path[0]), t) && Avoids(t, seen) {
      PathUnfolds(heap, path, t);
      assert false;
    }
  }

  // Nothing but null, text, flags, bytes, safe numbers and further objects.
  predicate HoldsOnlySupported(properties: seq<Property>) {
    forall p :: p in properties ==>
      p.Data? && (p.value in {Null, Text, Flag, Bytes, Number(true)} || p.value.Object?)
  }

  // An array without properties of its own, or a plain object, with nothing unsupported in it.
  predicate Supported(s: Shape) {
    match s
    case Array(slots, custom) => !custom && HoldsOnlySupported(slots)
    case Plain(properties) => HoldsOnlySupported(properties)
    case Exotic => false
  }

  // A value that is no object is accepted exactly if it is null, text, a flag, bytes or a safe number.
  lemma LeafExactly(heap: Heap, v: Value, seen: set<Ref>)
    requires !v.Object?
    ensures Acceptable(heap, v, seen) <==> v in {Null, Text, Flag, Bytes, Number(true)}
  {
    if v in {Null, Text, Flag, Bytes, Number(true)} {
      assert Unfolds(heap, v, Leaf) && Avoids(Leaf, seen);
    }
  }

  // No path from the object meets an object twice or one that is not supported.
  ghost predicate Sane(heap: Heap, r: Ref) {
    forall path :: Path(heap, path) && path != [] && path[0] == r ==>
      Distinct(path) && Supported(heap[path[|path| - 1]])
  }

  lemma UnfoldedIsSupported(heap: Heap, r: Ref, t: Tree)
    requires Unfolds(heap, Object(r), t)
    ensures r in heap && Supported(heap[r])
  {
    forall p | p in Contents(heap[r]) ensures p.Data? && (Storable(p.value) || p.value.Object?) {
      var i :| 0 <= i < |Contents(heap[r])| && Contents(heap[r])[i] == p;
      assert Unfolds(heap, p.value, t.children[i]);
    }
  }

  lemma SupportedIsRegular(s: Shape)
    requires Supported(s)
    ensures Regular(s) && forall p :: p in Contents(s) ==> p.Data? && (Storable(p.value) || p.value.Object?)
  {
  }

  // Where every path stays sane, the object at the end of one unfolds: paths repeat nothing, so they cannot go on for
  // ever.
  lemma {:induction false} SaneUnfolds(heap: Heap, path: seq<Ref>)
    requires Closed(heap) && Path(heap, path) && path != [] && Sane(heap, path[0])
    ensures Acceptable(heap, Object(path[|path| - 1]), {})
    decreases |heap.Keys| - |path|, 1
  {
    hide Supported, Contents, Storable, Distinct, Closed;
    var r := path[|path| - 1];
    var contents := Contents(heap[r]);
    SupportedIsRegular(heap[r]) by { assert Supported(heap[r]); }
    var children := [];
    var i := 0;
    while i < |contents|
      invariant i <= |contents| && |children| == i
      invariant forall j :: 0 <= j < i ==> contents[j].Data? && Unfolds(heap, contents[j].value, children[j])
    {
      var t := SaneChildUnfolds(heap, path, i);
      children, i := children + [t], i + 1;
    }
    assert Unfolds(heap, Object(r), Node(r, children)) && Avoids(Node(r, children), {});
  }

  lemma {:induction false} SaneChildUnfolds(heap: Heap, path: seq<Ref>, i: nat) returns (t: Tree)
    requires Closed(heap) && Path(heap, path) && path != [] && Sane(heap, path[0])
    requires i < |Contents(heap[path[|path| - 1]])|
    ensures var p := Contents(heap[path[|path| - 1]])[i]; p.Data? && Unfolds(heap, p.value, t)
    decreases |heap.Keys| - |path|, 0
  {
    hide Supported, Regular, Contents;
    var r := path[|path| - 1];
    assert Supported(heap[r]) && Distinct(path);
    SupportedIsRegular(heap[r]);
    var p := Contents(heap[r])[i];
    assert p in Contents(heap[r]);
    if p.value.Object? {
      var longer := path + [p.value.ref];
      assert Path(heap, longer) && longer[0] == path[0];
      DistinctCount(longer, heap.Keys);
      SaneUnfolds(heap, longer);
      t :| Unfolds(heap, p.value, t);
    } else {
      t := Leaf;
    }
  }

  // Exactly the objects are accepted from which no path repeats an object or meets anything unsupported.
  lemma AcceptedExactly(heap: Heap, r: Ref)
    requires Closed(heap) && r in heap
    ensures Acceptable(heap, Object(r), {}) <==> Sane(heap, r)
  {
    if t :| Unfolds(heap, Object(r), t) && Avoids(t, {}) {
      forall path | Path(heap, path) && path != [] && path[0] == r
        ensures Distinct(path) && Supported(heap[path[|path| - 1]])
      {
        PathUnfolds(heap, path, t);
        var u :| Unfolds(heap, Object(path[|path| - 1]), u);
        UnfoldedIsSupported(heap, path[|path| - 1], u);
      }
    }
    if Sane(heap, r) {
      assert Path(heap, [r]);
      SaneUnfolds(heap, [r]);
    }
  }

  // The property holds something storable, or an object of a lower layer.
  predicate Descends(rank: map<Ref, nat>, r: Ref, p: Property)
    requires r in rank
  {
    p.Data? && (Storable(p.value) || (p.value.Object? && p.value.ref in rank && rank[p.value.ref] < rank[r]))
  }

  // A graph that can be layered has no cycle; with nothing unsupported in it, every value is accepted, however much is
  // shared.
  lemma {:induction false} LayeredIsAccepted(heap: Heap, rank: map<Ref, nat>, v: Value, bound: nat)
    requires Closed(heap) && InHeap(heap, v) && (Storable(v) || v.Object?)
    requires forall r :: r in heap ==> r in rank && Regular(heap[r])
    requires forall r, p :: r in heap && p in Contents(heap[r]) ==> Descends(rank, r, p)
    requires v.Object? ==> rank[v.ref] <= bound
    ensures Acceptable(heap, v, {})
    decreases bound, v.Object?
  {
    if v.Object? {
      var contents := Contents(heap[v.ref]);
      var children := [];
      var i := 0;
      while i < |contents|
        invariant i <= |contents| && |children| == i
        invariant forall j :: 0 <= j < i ==> contents[j].Data? && Unfolds(heap, contents[j].value, children[j])
      {
        assert contents[i] in contents && contents[i].Data?;
        var child := contents[i].value;
        if child.Object? {
          LayeredIsAccepted(heap, rank, child, rank[v.ref] - 1);
        } else {
          assert Unfolds(heap, child, Leaf) && Avoids(Leaf, {});
        }
        var t :| Unfolds(heap, child, t);
        children, i := children + [t], i + 1;
      }
      assert Unfolds(heap, v, Node(v.ref, children)) && Avoids(Node(v.ref, children), {});
    } else {
      assert Unfolds(heap, v, Leaf) && Avoids(Leaf, {});
    }
  }
}
