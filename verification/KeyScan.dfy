/** The string-key scan over event data (events.py): dictionaries and lists that may be shared and cyclic. */
module KeyScan {
  import opened Prelude

  type Ref = nat

  datatype Key = Text(s: string) | Other

  /** An element is a leaf, or refers to a container by identity. */
  datatype Item = Leaf | At(ref: Ref)

  datatype Node =
    | Mapping(keys: seq<Key>, values: seq<Item>)
    | Listing(items: seq<Item>)

  type Heap = map<Ref, Node>

  function Elements(n: Node): seq<Item> {
    match n
    case Mapping(_, values) => values
    case Listing(items) => items
  }

  /** Every reference leads to a container. */
  ghost predicate Closed(h: Heap) {
    forall r, i {:trigger Elements(h[r])[i]} | r in h && 0 <= i < |Elements(h[r])| && Elements(h[r])[i].At? ::
      Elements(h[r])[i].ref in h
  }

  predicate Child(h: Heap, r: Ref, c: Ref) { r in h && At(c) in Elements(h[r]) }

  predicate StringKeyed(n: Node) { n.Mapping? ==> forall k | k in n.keys :: k.Text? }

  // ---- what the scan decides ----

  ghost predicate Path(h: Heap, p: seq<Ref>) {
    p != [] && forall i | 0 <= i < |p| - 1 :: Child(h, p[i], p[i + 1])
  }

  ghost predicate Reachable(h: Heap, root: Ref, r: Ref) {
    exists p: seq<Ref> :: Path(h, p) && p[0] == root && Last(p) == r
  }

  lemma Extend(h: Heap, root: Ref, r: Ref, c: Ref)
    requires Reachable(h, root, r) && Child(h, r, c)
    ensures Reachable(h, root, c)
  {
    var p: seq<Ref> :| Path(h, p) && p[0] == root && Last(p) == r;
    assert Path(h, p + [c]) && (p + [c])[0] == root && Last(p + [c]) == c;
  }

  lemma {:induction false} Enclosed(h: Heap, seen: seq<Ref>, p: seq<Ref>)
    requires Path(h, p) && p[0] in seen
    requires forall r, c {:trigger Child(h, r, c)} | r in seen && Child(h, r, c) :: c in seen
    ensures Last(p) in seen
  {
    if |p| > 1 {
      assert Child(h, p[0], p[1]);
      var rest := p[1..];
      forall i | 0 <= i < |rest| - 1 ensures Child(h, rest[i], rest[i + 1]) { assert Child(h, p[i + 1], p[i + 2]); }
      Enclosed(h, seen, rest);
    }
  }

  ghost predicate Pending(h: Heap, root: Ref, pending: seq<Item>) {
    forall i {:trigger pending[i]}
      | 0 <= i < |pending| && pending[i].At? :: pending[i].ref in h && Reachable(h, root, pending[i].ref)
  }

  lemma PushKeepsPending(h: Heap, root: Ref, pending: seq<Item>, r: Ref)
    requires Closed(h) && r in h && Reachable(h, root, r) && Pending(h, root, pending)
    ensures Pending(h, root, pending + Elements(h[r]))
  {
    var more := pending + Elements(h[r]);
    forall i {:trigger more[i]} | 0 <= i < |more| && more[i].At?
      ensures more[i].ref in h && Reachable(h, root, more[i].ref)
    {
      if i >= |pending| {
        assert Elements(h[r])[i - |pending|] == more[i];
        Extend(h, root, r, more[i].ref);
      }
    }
  }

  /** The containers expanded so far: each once, each reachable, each with string keys. */
  ghost predicate Scanned(h: Heap, root: Ref, expanded: seq<Ref>) {
    && (forall i, j | 0 <= i < j < |expanded| :: expanded[i] != expanded[j])
    && (forall r {:trigger r in expanded} | r in expanded :: r in h && Reachable(h, root, r) && StringKeyed(h[r]))
  }

  /** The root and every child of an expanded container is expanded or still pending. */
  ghost predicate Covered(h: Heap, root: Ref, expanded: seq<Ref>, pending: seq<Item>) {
    && (root in expanded || At(root) in pending)
    && forall r, c {:trigger Child(h, r, c)} | r in expanded && Child(h, r, c) :: c in expanded || At(c) in pending
  }

  lemma DropCovered(h: Heap, root: Ref, expanded: seq<Ref>, pending: seq<Item>)
    requires pending != [] && Covered(h, root, expanded, pending)
    requires Last(pending).At? ==> Last(pending).ref in expanded
    ensures Covered(h, root, expanded, Front(pending))
  {
    assert pending == Front(pending) + [Last(pending)];
  }

  lemma ExpandCovered(h: Heap, root: Ref, expanded: seq<Ref>, pending: seq<Item>, r: Ref)
    requires pending != [] && Last(pending) == At(r) && r in h && Covered(h, root, expanded, pending)
    ensures Covered(h, root, expanded + [r], Front(pending) + Elements(h[r]))
  {
    assert pending == Front(pending) + [At(r)];
  }

  lemma ExpandScanned(h: Heap, root: Ref, expanded: seq<Ref>, r: Ref)
    requires Scanned(h, root, expanded) && r !in expanded && r in h && Reachable(h, root, r) && StringKeyed(h[r])
    ensures Scanned(h, root, expanded + [r])
  {
  }

  lemma PopKeepsPending(h: Heap, root: Ref, pending: seq<Item>)
    requires pending != [] && Pending(h, root, pending)
    ensures Pending(h, root, Front(pending))
    ensures Last(pending).At? ==> Last(pending).ref in h && Reachable(h, root, Last(pending).ref)
  {
  }

  lemma AllCovered(h: Heap, root: Ref, expanded: seq<Ref>, r: Ref)
    requires Covered(h, root, expanded, []) && Reachable(h, root, r)
    ensures r in expanded
  {
    var p: seq<Ref> :| Path(h, p) && p[0] == root && Last(p) == r;
    Enclosed(h, expanded, p);
  }

  lemma StartPending(h: Heap, root: Ref)
    requires root in h
    ensures Pending(h, root, [At(root)]) && Covered(h, root, [], [At(root)])
  {
    assert Path(h, [root]) && Last([root]) == root;
  }

  lemma LessLeft(h: Heap, seen: set<Ref>, r: Ref)
    requires r in h && r !in seen
    ensures |h.Keys - (seen + {r})| < |h.Keys - seen|
  {
    SmallerRest(h.Keys - seen, r);
    assert h.Keys - seen - {r} == h.Keys - (seen + {r});
  }

  lemma SmallerRest(s: set<Ref>, r: Ref)
    requires r in s
    ensures |s - {r}| < |s|
  {
  }

  /**
   `_require_string_keys`. The worklist always empties, however the containers refer to each other;
   the data is accepted exactly when every reachable mapping has only string keys; no container is
   expanded twice, and on acceptance every reachable one was expanded.
   */
  method RequireStringKeys(h: Heap, root: Ref) returns (accepted: bool, expanded: seq<Ref>)
    requires Closed(h) && root in h
    ensures accepted <==> forall r | Reachable(h, root, r) :: r in h && StringKeyed(h[r])
    ensures forall i, j | 0 <= i < j < |expanded| :: expanded[i] != expanded[j]
    ensures forall r | r in expanded :: Reachable(h, root, r)
    ensures accepted ==> forall r | Reachable(h, root, r) :: r in expanded
  {
    var pending := [At(root)];
    var seen: set<Ref> := {};
    expanded := [];
    StartPending(h, root);
    while pending != []
      invariant forall r :: r in seen <==> r in expanded
      invariant Pending(h, root, pending)
      invariant Scanned(h, root, expanded)
      invariant Covered(h, root, expanded, pending)
      decreases |h.Keys - seen|, |pending|
    {
      var item := Last(pending);
      PopKeepsPending(h, root, pending);
      if item.Leaf? || item.ref in seen {
        DropCovered(h, root, expanded, pending);
        pending := Front(pending);
      } else {
        var r := item.ref;
        LessLeft(h, seen, r);
        if h[r].Mapping? && exists k :: k in h[r].keys && !k.Text? {
          accepted := false;
          return;
        }
        PushKeepsPending(h, root, Front(pending), r);
        ExpandCovered(h, root, expanded, pending, r);
        ExpandScanned(h, root, expanded, r);
        seen := seen + {r};
        expanded := expanded + [r];
        pending := Front(pending) + Elements(h[r]);
      }
    }
    accepted := true;
    forall r | Reachable(h, root, r) ensures r in expanded { AllCovered(h, root, expanded, r); }
  }
}
