/** Flattening a directory of parent pointers: the recursion follows paths down from
    the roots, so cycles and orphans are never entered, and the list it leaves is
    each root's tree in preorder, siblings by their order index. */
module Forest {
  import opened Options
  import Counting
  import opened StableSort

  type Id = nat
  datatype Node = Node(id: Id, parent: Option<Id>, orderIndex: int)

  predicate UniqueIds(nodes: seq<Node>) {
    forall i, j | 0 <= i < j < |nodes| :: nodes[i].id != nodes[j].id
  }

  // ---------------------------------------------------------------------------
  // Paths from a root

  function ParentOf(path: seq<Id>): Option<Id> {
    if path == [] then None else Some(path[|path| - 1])
  }

  predicate Link(nodes: seq<Node>, path: seq<Id>, k: nat)
    requires k < |path|
  {
    exists n | n in nodes :: n.id == path[k] && n.parent == ParentOf(path[..k])
  }

  // Each id is a node whose parent is the id before it; the first is a root.
  ghost predicate Path(nodes: seq<Node>, path: seq<Id>) {
    forall k | 0 <= k < |path| :: Link(nodes, path, k)
  }

  lemma PathPrefix(nodes: seq<Node>, path: seq<Id>, k: nat)
    requires Path(nodes, path) && k <= |path|
    ensures Path(nodes, path[..k])
  {
    forall j | 0 <= j < k ensures Link(nodes, path[..k], j) {
      assert path[..k][..j] == path[..j] && Link(nodes, path, j);
    }
  }

  lemma SameId(nodes: seq<Node>, m: Node, n: Node)
    requires UniqueIds(nodes) && m in nodes && n in nodes && m.id == n.id
    ensures m == n
  {}

  // A node has one path at most: its parent pointers spell it out.
  lemma {:induction false} PathsAgree(nodes: seq<Node>, p: seq<Id>, q: seq<Id>)
    requires UniqueIds(nodes) && Path(nodes, p) && Path(nodes, q) && p != [] && q != []
    requires p[|p| - 1] == q[|q| - 1]
    ensures p == q
  {
    var i, j := |p| - 1, |q| - 1;
    assert Link(nodes, p, i) && Link(nodes, q, j);
    var m :| m in nodes && m.id == p[i] && m.parent == ParentOf(p[..i]);
    var n :| n in nodes && n.id == q[j] && n.parent == ParentOf(q[..j]);
    SameId(nodes, m, n);
    PathPrefix(nodes, p, i);
    PathPrefix(nodes, q, j);
    if i > 0 && j > 0 { PathsAgree(nodes, p[..i], q[..j]); }
    assert p == p[..i] + [p[i]] && q == q[..j] + [q[j]];
  }

  // So a path never meets itself, cycles or not, and is no longer than the list.
  lemma PathIsSimple(nodes: seq<Node>, path: seq<Id>, i: nat, j: nat)
    requires UniqueIds(nodes) && Path(nodes, path) && i < j < |path|
    ensures path[i] != path[j]
  {
    if path[i] == path[j] {
      PathPrefix(nodes, path, i + 1);
      PathPrefix(nodes, path, j + 1);
      PathsAgree(nodes, path[..i + 1], path[..j + 1]);
    }
  }

  function Ids(nodes: seq<Node>): set<Id> {
    set n | n in nodes :: n.id
  }

  lemma {:induction false} IdsAreFew(nodes: seq<Node>)
    ensures |Ids(nodes)| <= |nodes|
  {
    if nodes == [] {
      assert Ids(nodes) == {};
    } else {
      IdsAreFew(nodes[1..]);
      assert Ids(nodes) == Ids(nodes[1..]) + {nodes[0].id};
    }
  }

  lemma PathIsShort(nodes: seq<Node>, path: seq<Id>)
    requires UniqueIds(nodes) && Path(nodes, path)
    ensures |path| <= |nodes|
  {
    forall i, j | 0 <= i < j < |path| ensures path[i] != path[j] { PathIsSimple(nodes, path, i, j); }
    forall i | 0 <= i < |path| ensures path[i] in Ids(nodes) { assert Link(nodes, path, i); }
    Counting.DistinctFit(path, Ids(nodes));
    IdsAreFew(nodes);
  }

  // ---------------------------------------------------------------------------
  // Children

  function Filter(nodes: seq<Node>, parent: Option<Id>): seq<Node> {
    if nodes == [] then []
    else (if nodes[0].parent == parent then [nodes[0]] else []) + Filter(nodes[1..], parent)
  }

  lemma {:induction false} FilterFinds(nodes: seq<Node>, parent: Option<Id>)
    ensures forall n :: n in Filter(nodes, parent) <==> n in nodes && n.parent == parent
    ensures UniqueIds(nodes) ==> UniqueIds(Filter(nodes, parent))
  {
    if nodes != [] {
      FilterFinds(nodes[1..], parent);
      assert nodes == [nodes[0]] + nodes[1..];
      var rest := Filter(nodes[1..], parent);
      if UniqueIds(nodes) && nodes[0].parent == parent {
        forall k | 0 <= k < |rest| ensures rest[k].id != nodes[0].id {
          assert rest[k] in nodes[1..];
          var j :| 0 <= j < |nodes[1..]| && nodes[1..][j] == rest[k];
        }
      }
    }
  }

  function OrderOf(n: Node): int { n.orderIndex }

  function AtMost(a: int, b: int): bool { a <= b }

  function Kids(nodes: seq<Node>, parent: Option<Id>): seq<Node> {
    Sort(AtMost, OrderOf, Filter(nodes, parent))
  }

  lemma {:induction false} DistinctBag(xs: seq<Node>)
    requires UniqueIds(xs)
    ensures forall n :: multiset(xs)[n] <= 1
  {
    if xs != [] {
      var last := |xs| - 1;
      DistinctBag(xs[..last]);
      assert xs == xs[..last] + [xs[last]];
      assert forall k | 0 <= k < last :: xs[..last][k].id != xs[last].id;
      assert xs[last] !in xs[..last];
    }
  }

  lemma KidsAreChildren(nodes: seq<Node>, parent: Option<Id>)
    requires UniqueIds(nodes)
    ensures forall n :: n in Kids(nodes, parent) <==> n in nodes && n.parent == parent
    ensures UniqueIds(Kids(nodes, parent))
  {
    KidsAreThese(nodes, parent);
    KidsAreUnique(nodes, parent);
  }

  // By order index, and where that is the same as listed.
  ghost predicate Precedes(nodes: seq<Node>, a: Node, b: Node) {
    a.orderIndex < b.orderIndex || (a.orderIndex == b.orderIndex && Comes(nodes, a, b))
  }

  lemma KidsPrecede(nodes: seq<Node>, parent: Option<Id>, i: nat, j: nat)
    requires i < j < |Kids(nodes, parent)|
    ensures Precedes(nodes, Kids(nodes, parent)[i], Kids(nodes, parent)[j])
  {
    var kids := Kids(nodes, parent);
    SortSorts(AtMost, OrderOf, Filter(nodes, parent));
    assert AtMost(OrderOf(kids[i]), OrderOf(kids[j]));
    if kids[i].orderIndex == kids[j].orderIndex {
      TiedKeepOrder(AtMost, OrderOf, Filter(nodes, parent), i, j);
      FilterKeepsOrder(nodes, parent, kids[i], kids[j]);
    }
  }

  lemma {:induction false} FilterKeepsOrder(nodes: seq<Node>, parent: Option<Id>, a: Node, b: Node)
    requires Comes(Filter(nodes, parent), a, b)
    ensures Comes(nodes, a, b)
  {
    var found, rest := Filter(nodes, parent), Filter(nodes[1..], parent);
    var i, j :| 0 <= i < j < |found| && found[i] == a && found[j] == b;
    var first := nodes[0].parent == parent;
    FilterFinds(nodes[1..], parent);
    if first && i == 0 {
      assert rest[j - 1] == b && b in rest;
      var q :| 0 <= q < |nodes[1..]| && nodes[1..][q] == b;
      assert nodes[0] == a && nodes[q + 1] == b;
    } else {
      assert first ==> rest[i - 1] == a && rest[j - 1] == b;
      FilterKeepsOrder(nodes[1..], parent, a, b);
      ComesLater(nodes, a, b);
    }
  }

  lemma KidsAreThese(nodes: seq<Node>, parent: Option<Id>)
    ensures forall n :: n in Kids(nodes, parent) <==> n in nodes && n.parent == parent
  {
    var found, kids := Filter(nodes, parent), Kids(nodes, parent);
    FilterFinds(nodes, parent);
    SortPermutes(AtMost, OrderOf, found);
    forall n ensures n in kids <==> n in found { assert n in multiset(kids) <==> n in multiset(found); }
  }

  lemma KidsAreUnique(nodes: seq<Node>, parent: Option<Id>)
    requires UniqueIds(nodes)
    ensures UniqueIds(Kids(nodes, parent))
  {
    var found, kids := Filter(nodes, parent), Kids(nodes, parent);
    FilterFinds(nodes, parent);
    SortPermutes(AtMost, OrderOf, found);
    DistinctBag(found);
    KidsAreThese(nodes, parent);
    forall i, j | 0 <= i < j < |kids| ensures kids[i].id != kids[j].id {
      if kids[i].id == kids[j].id {
        assert kids[i] in kids && kids[j] in kids;
        SameId(nodes, kids[i], kids[j]);
        TwiceInBag(kids, i, j);
      }
    }
  }

  lemma TwiceInBag(xs: seq<Node>, i: nat, j: nat)
    requires i < j < |xs| && xs[i] == xs[j]
    ensures multiset(xs)[xs[i]] >= 2
  {
    assert xs == xs[..j] + ([xs[j]] + xs[j + 1..]);
    assert xs[..j] == xs[..i] + ([xs[i]] + xs[i + 1..j]);
  }

  lemma KidExtendsPath(nodes: seq<Node>, path: seq<Id>, n: Node)
    requires Path(nodes, path) && n in nodes && n.parent == ParentOf(path)
    ensures Path(nodes, path + [n.id])
  {
    var longer := path + [n.id];
    forall k | 0 <= k < |longer| ensures Link(nodes, longer, k) {
      if k < |path| {
        assert Link(nodes, path, k);
        assert longer[..k] == path[..k];
      } else {
        assert longer[..k] == path;
      }
    }
  }

  // ---------------------------------------------------------------------------
  // The walk, as the paths of the nodes it emits

  // Everything below path, in the order appendSubtree emits it.
  ghost function Walk(nodes: seq<Node>, path: seq<Id>): seq<seq<Id>>
    requires UniqueIds(nodes) && Path(nodes, path)
    decreases |nodes| + 1 - |path|, 1, 0
  {
    PathIsShort(nodes, path);
    WalkKids(nodes, path, 0)
  }

  ghost function WalkKids(nodes: seq<Node>, path: seq<Id>, k: nat): seq<seq<Id>>
    requires UniqueIds(nodes) && Path(nodes, path)
    decreases |nodes| + 1 - |path|, 0, |Kids(nodes, ParentOf(path))| - k
  {
    var kids := Kids(nodes, ParentOf(path));
    if k >= |kids| then []
    else
      var down := path + [kids[k].id];
      KidsAreChildren(nodes, ParentOf(path));
      KidExtendsPath(nodes, path, kids[k]);
      PathIsShort(nodes, down);
      [down] + Walk(nodes, down) + WalkKids(nodes, path, k + 1)
  }

  // The k-th kid, everything below it, and the later kids with theirs.
  lemma KidParts(nodes: seq<Node>, path: seq<Id>, k: nat) returns (down: seq<Id>, inner: seq<seq<Id>>, rest: seq<seq<Id>>)
    requires UniqueIds(nodes) && Path(nodes, path) && k < |Kids(nodes, ParentOf(path))|
    ensures down == path + [Kids(nodes, ParentOf(path))[k].id] && Path(nodes, down) && |path| < |down| <= |nodes|
    ensures inner == Walk(nodes, down) && rest == WalkKids(nodes, path, k + 1)
    ensures WalkKids(nodes, path, k) == [down] + inner + rest
  {
    var kids := Kids(nodes, ParentOf(path));
    down := path + [kids[k].id];
    KidsAreChildren(nodes, ParentOf(path));
    KidExtendsPath(nodes, path, kids[k]);
    PathIsShort(nodes, down);
    inner, rest := Walk(nodes, down), WalkKids(nodes, path, k + 1);
  }

  // e goes below path through the m-th kid, the k-th or a later one.
  ghost predicate Through(nodes: seq<Node>, path: seq<Id>, e: seq<Id>, k: nat, m: nat) {
    var kids := Kids(nodes, ParentOf(path));
    k <= m < |kids| && path < e && e[|path|] == kids[m].id
  }

  lemma {:induction false} WalkStaysBelow(nodes: seq<Node>, path: seq<Id>, i: nat)
    requires UniqueIds(nodes) && Path(nodes, path) && i < |Walk(nodes, path)|
    ensures Path(nodes, Walk(nodes, path)[i]) && path < Walk(nodes, path)[i]
    decreases |nodes| + 1 - |path|, 1, 0
  {
    PathIsShort(nodes, path);
    var m := WalkKidsGoThrough(nodes, path, 0, i);
  }

  lemma {:induction false} WalkKidsGoThrough(nodes: seq<Node>, path: seq<Id>, k: nat, i: nat) returns (m: nat)
    requires UniqueIds(nodes) && Path(nodes, path) && i < |WalkKids(nodes, path, k)|
    ensures Path(nodes, WalkKids(nodes, path, k)[i]) && Through(nodes, path, WalkKids(nodes, path, k)[i], k, m)
    decreases |nodes| + 1 - |path|, 0, |Kids(nodes, ParentOf(path))| - k
  {
    var down, inner, rest := KidParts(nodes, path, k);
    var w := [down] + inner + rest;
    if i == 0 {
      m := k;
    } else if i <= |inner| {
      WalkStaysBelow(nodes, down, i - 1);
      assert w[i] == inner[i - 1];
      m := k;
    } else {
      m := WalkKidsGoThrough(nodes, path, k + 1, i - 1 - |inner|);
      assert w[i] == rest[i - 1 - |inner|];
    }
  }

  // Every path below is walked.
  lemma {:induction false} WalkIsComplete(nodes: seq<Node>, path: seq<Id>, e: seq<Id>)
    requires UniqueIds(nodes) && Path(nodes, path) && Path(nodes, e) && path < e
    ensures e in Walk(nodes, path)
    decreases |nodes| + 1 - |path|, 1, 0
  {
    PathIsShort(nodes, path);
    assert Link(nodes, e, |path|) && e[..|path|] == path;
    var n :| n in nodes && n.id == e[|path|] && n.parent == ParentOf(path);
    KidsAreChildren(nodes, ParentOf(path));
    assert n in Kids(nodes, ParentOf(path));
    var m :| 0 <= m < |Kids(nodes, ParentOf(path))| && Kids(nodes, ParentOf(path))[m] == n;
    WalkKidsAreComplete(nodes, path, 0, e, m);
  }

  lemma {:induction false} WalkKidsAreComplete(nodes: seq<Node>, path: seq<Id>, k: nat, e: seq<Id>, m: nat)
    requires UniqueIds(nodes) && Path(nodes, path) && Path(nodes, e) && Through(nodes, path, e, k, m)
    ensures e in WalkKids(nodes, path, k)
    decreases |nodes| + 1 - |path|, 0, |Kids(nodes, ParentOf(path))| - k
  {
    var kids := Kids(nodes, ParentOf(path));
    var down := path + [kids[k].id];
    KidsAreChildren(nodes, ParentOf(path));
    KidExtendsPath(nodes, path, kids[k]);
    PathIsShort(nodes, down);
    if m > k {
      WalkKidsAreComplete(nodes, path, k + 1, e, m);
    } else if |e| == |down| {
      assert e == down;
    } else {
      assert e[..|down|] == down;
      WalkIsComplete(nodes, down, e);
    }
  }

  // The walk of the whole subtree follows each node at once.
  ghost predicate FollowedBySubtree(nodes: seq<Node>, w: seq<seq<Id>>, i: nat)
    requires UniqueIds(nodes)
  {
    i < |w| && Path(nodes, w[i])
    && var sub := Walk(nodes, w[i]); i + 1 + |sub| <= |w| && w[i + 1..i + 1 + |sub|] == sub
  }

  lemma FollowsWithin(nodes: seq<Node>, w: seq<seq<Id>>, n: nat, b: seq<seq<Id>>, i: nat)
    requires UniqueIds(nodes) && FollowedBySubtree(nodes, b, i)
    requires n + |b| <= |w| && forall j | 0 <= j < |b| :: w[n + j] == b[j]
    ensures FollowedBySubtree(nodes, w, n + i)
  {
    var sub := Walk(nodes, b[i]);
    assert w[n + i] == b[i];
    forall j | 0 <= j < |sub| ensures w[n + i + 1 + j] == sub[j] {
      assert w[n + (i + 1 + j)] == b[i + 1 + j] == b[i + 1..i + 1 + |sub|][j];
    }
  }

  lemma PartsAt<T>(w: seq<T>, first: T, inner: seq<T>, rest: seq<T>)
    requires w == [first] + inner + rest
    ensures w[0] == first && w[1..1 + |inner|] == inner
    ensures forall j | 0 <= j < |inner| :: w[1 + j] == inner[j]
    ensures forall j | 0 <= j < |rest| :: w[1 + |inner| + j] == rest[j]
  {}

  lemma FirstIsFollowed(nodes: seq<Node>, w: seq<seq<Id>>, inner: seq<seq<Id>>)
    requires UniqueIds(nodes) && w != [] && Path(nodes, w[0]) && inner == Walk(nodes, w[0])
    requires 1 + |inner| <= |w| && w[1..1 + |inner|] == inner
    ensures FollowedBySubtree(nodes, w, 0)
  {}

  lemma PartsFollow(nodes: seq<Node>, w: seq<seq<Id>>, down: seq<Id>, inner: seq<seq<Id>>, rest: seq<seq<Id>>, i: nat)
    requires UniqueIds(nodes) && Path(nodes, down) && inner == Walk(nodes, down)
    requires w == [down] + inner + rest && i < |w|
    requires 0 < i <= |inner| ==> FollowedBySubtree(nodes, inner, i - 1)
    requires i > |inner| ==> FollowedBySubtree(nodes, rest, i - 1 - |inner|)
    ensures FollowedBySubtree(nodes, w, i)
  {
    PartsAt(w, down, inner, rest);
    if i == 0 {
      FirstIsFollowed(nodes, w, inner);
    } else if i <= |inner| {
      FollowsWithin(nodes, w, 1, inner, i - 1);
    } else {
      FollowsWithin(nodes, w, 1 + |inner|, rest, i - 1 - |inner|);
    }
  }

  lemma {:induction false} SubtreesAreContiguous(nodes: seq<Node>, path: seq<Id>, i: nat)
    requires UniqueIds(nodes) && Path(nodes, path) && i < |Walk(nodes, path)|
    ensures FollowedBySubtree(nodes, Walk(nodes, path), i)
    decreases |nodes| + 1 - |path|, 1, 0
  {
    PathIsShort(nodes, path);
    KidSubtreesAreContiguous(nodes, path, 0, i);
  }

  lemma {:induction false} KidSubtreesAreContiguous(nodes: seq<Node>, path: seq<Id>, k: nat, i: nat)
    requires UniqueIds(nodes) && Path(nodes, path) && i < |WalkKids(nodes, path, k)|
    ensures FollowedBySubtree(nodes, WalkKids(nodes, path, k), i)
    decreases |nodes| + 1 - |path|, 0, |Kids(nodes, ParentOf(path))| - k
  {
    var down, inner, rest := KidParts(nodes, path, k);
    if 0 < i <= |inner| { SubtreesAreContiguous(nodes, down, i - 1); }
    if i > |inner| { KidSubtreesAreContiguous(nodes, path, k + 1, i - 1 - |inner|); }
    PartsFollow(nodes, WalkKids(nodes, path, k), down, inner, rest, i);
  }

  // No path is walked twice.
  lemma {:induction false} WalkIsDistinct(nodes: seq<Node>, path: seq<Id>, i: nat, j: nat)
    requires UniqueIds(nodes) && Path(nodes, path) && i < j < |Walk(nodes, path)|
    ensures Walk(nodes, path)[i] != Walk(nodes, path)[j]
    decreases |nodes| + 1 - |path|, 1, 0
  {
    PathIsShort(nodes, path);
    WalkKidsAreDistinct(nodes, path, 0, i, j);
  }

  lemma {:induction false} WalkKidsAreDistinct(nodes: seq<Node>, path: seq<Id>, k: nat, i: nat, j: nat)
    requires UniqueIds(nodes) && Path(nodes, path) && i < j < |WalkKids(nodes, path, k)|
    ensures WalkKids(nodes, path, k)[i] != WalkKids(nodes, path, k)[j]
    decreases |nodes| + 1 - |path|, 0, |Kids(nodes, ParentOf(path))| - k
  {
    var down, inner, rest := KidParts(nodes, path, k);
    var w := [down] + inner + rest;
    assert j > |inner| ==> w[j] == rest[j - 1 - |inner|];
    assert i > |inner| ==> w[i] == rest[i - 1 - |inner|];
    if j > |inner| {
      var n := WalkKidsGoThrough(nodes, path, k + 1, j - 1 - |inner|);
      if i > |inner| {
        WalkKidsAreDistinct(nodes, path, k + 1, i - 1 - |inner|, j - 1 - |inner|);
      } else {
        KidsAreUnique(nodes, ParentOf(path));
        ThroughFirstKid(nodes, path, k, i);
      }
    } else if i > 0 {
      WalkIsDistinct(nodes, down, i - 1, j - 1);
    } else {
      WalkStaysBelow(nodes, down, j - 1);
    }
  }

  // The first kid's node and subtree come first, and go through that kid.
  lemma ThroughFirstKid(nodes: seq<Node>, path: seq<Id>, k: nat, i: nat)
    requires UniqueIds(nodes) && Path(nodes, path) && k < |Kids(nodes, ParentOf(path))|
    requires Path(nodes, path + [Kids(nodes, ParentOf(path))[k].id])
    requires i <= |Walk(nodes, path + [Kids(nodes, ParentOf(path))[k].id])|
    ensures i < |WalkKids(nodes, path, k)|
    ensures path + [Kids(nodes, ParentOf(path))[k].id] <= WalkKids(nodes, path, k)[i]
    ensures i > 0 ==> |WalkKids(nodes, path, k)[i]| > |path| + 1
  {
    var down := path + [Kids(nodes, ParentOf(path))[k].id];
    if i > 0 {
      WalkStaysBelow(nodes, down, i - 1);
      assert WalkKids(nodes, path, k)[i] == Walk(nodes, down)[i - 1];
    }
  }

  predicate Siblings(a: seq<Id>, b: seq<Id>) {
    a != [] && b != [] && a[..|a| - 1] == b[..|b| - 1]
  }

  // Siblings come by order index, then as listed.
  lemma {:induction false} SiblingsAreOrdered(nodes: seq<Node>, path: seq<Id>, i: nat, j: nat, a: Node, b: Node)
    requires UniqueIds(nodes) && Path(nodes, path) && i < j < |Walk(nodes, path)| && a in nodes && b in nodes
    requires var w := Walk(nodes, path); Siblings(w[i], w[j]) && ParentOf(w[i]) == Some(a.id) && ParentOf(w[j]) == Some(b.id)
    ensures Precedes(nodes, a, b)
    decreases |nodes| + 1 - |path|, 1, 0
  {
    PathIsShort(nodes, path);
    KidsAreOrdered(nodes, path, 0, i, j, a, b);
  }

  lemma {:induction false} KidsAreOrdered(nodes: seq<Node>, path: seq<Id>, k: nat, i: nat, j: nat, a: Node, b: Node)
    requires UniqueIds(nodes) && Path(nodes, path) && i < j < |WalkKids(nodes, path, k)| && a in nodes && b in nodes
    requires var w := WalkKids(nodes, path, k);
      Siblings(w[i], w[j]) && ParentOf(w[i]) == Some(a.id) && ParentOf(w[j]) == Some(b.id)
    ensures Precedes(nodes, a, b)
    decreases |nodes| + 1 - |path|, 0, |Kids(nodes, ParentOf(path))| - k
  {
    var down, inner, rest := KidParts(nodes, path, k);
    if i > |inner| {
      KidsAreOrdered(nodes, path, k + 1, i - 1 - |inner|, j - 1 - |inner|, a, b);
    } else if j <= |inner| && i > 0 {
      SiblingsAreOrdered(nodes, down, i - 1, j - 1, a, b);
    } else {
      FirstKidIsLeast(nodes, path, k, i, j, a, b);
    }
  }

  lemma FirstKidIsLeast(nodes: seq<Node>, path: seq<Id>, k: nat, i: nat, j: nat, a: Node, b: Node)
    requires UniqueIds(nodes) && Path(nodes, path) && k < |Kids(nodes, ParentOf(path))| && a in nodes && b in nodes
    requires Path(nodes, path + [Kids(nodes, ParentOf(path))[k].id])
    requires i < j < |WalkKids(nodes, path, k)|
    requires var size := |Walk(nodes, path + [Kids(nodes, ParentOf(path))[k].id])|; i <= size && (i == 0 || j > size)
    requires var w := WalkKids(nodes, path, k);
      Siblings(w[i], w[j]) && ParentOf(w[i]) == Some(a.id) && ParentOf(w[j]) == Some(b.id)
    ensures Precedes(nodes, a, b)
  {
    var w, size := WalkKids(nodes, path, k), |Walk(nodes, path + [Kids(nodes, ParentOf(path))[k].id])|;
    ThroughFirstKid(nodes, path, k, i);
    SiblingsAreLevel(w[i], w[j]);
    if j <= size {
      ThroughFirstKid(nodes, path, k, j);
    } else {
      var m := LaterKid(nodes, path, k, j);
      AcrossKids(nodes, path, k, m, w[i], w[j], a, b);
    }
  }

  // What comes after the first kid's subtree goes through a later kid.
  lemma LaterKid(nodes: seq<Node>, path: seq<Id>, k: nat, j: nat) returns (m: nat)
    requires UniqueIds(nodes) && Path(nodes, path) && k < |Kids(nodes, ParentOf(path))|
    requires Path(nodes, path + [Kids(nodes, ParentOf(path))[k].id])
    requires |Walk(nodes, path + [Kids(nodes, ParentOf(path))[k].id])| < j < |WalkKids(nodes, path, k)|
    ensures Through(nodes, path, WalkKids(nodes, path, k)[j], k + 1, m)
  {
    var size := |Walk(nodes, path + [Kids(nodes, ParentOf(path))[k].id])|;
    m := WalkKidsGoThrough(nodes, path, k + 1, j - 1 - size);
    assert WalkKids(nodes, path, k)[j] == WalkKids(nodes, path, k + 1)[j - 1 - size];
  }

  lemma SiblingsAreLevel(e: seq<Id>, f: seq<Id>)
    requires Siblings(e, f)
    ensures |e| == |f| && forall k | 0 <= k < |e| - 1 :: e[k] == f[k]
  {
    assert |e[..|e| - 1]| == |f[..|f| - 1]|;
    forall k | 0 <= k < |e| - 1 ensures e[k] == f[k] { assert e[..|e| - 1][k] == f[..|f| - 1][k]; }
  }

  // Siblings that go through different kids are those kids.
  lemma AcrossKids(nodes: seq<Node>, path: seq<Id>, k: nat, m: nat, e: seq<Id>, f: seq<Id>, a: Node, b: Node)
    requires UniqueIds(nodes) && k < m < |Kids(nodes, ParentOf(path))| && a in nodes && b in nodes
    requires path + [Kids(nodes, ParentOf(path))[k].id] <= e && path < f && f[|path|] == Kids(nodes, ParentOf(path))[m].id
    requires Siblings(e, f) && ParentOf(e) == Some(a.id) && ParentOf(f) == Some(b.id)
    ensures Precedes(nodes, a, b)
  {
    var kids := Kids(nodes, ParentOf(path));
    KidsAreChildren(nodes, ParentOf(path));
    SiblingsAreLevel(e, f);
    assert e[|path|] == kids[k].id;
    assert kids[k] in kids && kids[m] in kids && kids[k].id != kids[m].id;
    assert |e| == |path| + 1;
    SameId(nodes, a, kids[k]);
    SameId(nodes, b, kids[m]);
    KidsPrecede(nodes, ParentOf(path), k, m);
  }

  // ---------------------------------------------------------------------------
  // The closures

  function NodeFor(nodes: seq<Node>, id: Id): (n: Node)
    requires id in Ids(nodes)
    ensures n in nodes && n.id == id
  {
    if nodes[0].id == id then nodes[0]
    else
      assert id in Ids(nodes[1..]);
      NodeFor(nodes[1..], id)
  }

  ghost function NodeOf(nodes: seq<Node>, path: seq<Id>): (n: Node)
    requires Path(nodes, path) && path != []
    ensures n in nodes && n.id == path[|path| - 1]
  {
    assert Link(nodes, path, |path| - 1);
    NodeFor(nodes, path[|path| - 1])
  }

  ghost predicate AllPaths(nodes: seq<Node>, w: seq<seq<Id>>) {
    forall i | 0 <= i < |w| :: Path(nodes, w[i]) && w[i] != []
  }

  ghost function NodesOf(nodes: seq<Node>, w: seq<seq<Id>>): seq<Node>
    requires AllPaths(nodes, w)
  {
    seq(|w|, i requires 0 <= i < |w| => NodeOf(nodes, w[i]))
  }

  lemma WalksArePaths(nodes: seq<Node>, path: seq<Id>, k: nat)
    requires UniqueIds(nodes) && Path(nodes, path)
    ensures AllPaths(nodes, Walk(nodes, path)) && AllPaths(nodes, WalkKids(nodes, path, k))
  {
    forall i | 0 <= i < |Walk(nodes, path)| ensures Path(nodes, Walk(nodes, path)[i]) && Walk(nodes, path)[i] != [] {
      WalkStaysBelow(nodes, path, i);
    }
    var w := WalkKids(nodes, path, k);
    forall i | 0 <= i < |w| ensures Path(nodes, w[i]) && w[i] != [] {
      var m := WalkKidsGoThrough(nodes, path, k, i);
    }
  }

  // Every recorded depth is the length of the node's path.
  ghost predicate RightDepths(nodes: seq<Node>, depths: map<Id, nat>) {
    forall id | id in depths :: exists e :: PathTo(nodes, e, id) && depths[id] == |e|
  }

  ghost predicate PathTo(nodes: seq<Node>, e: seq<Id>, id: Id) {
    Path(nodes, e) && ParentOf(e) == Some(id)
  }

  ghost predicate DepthsBelow(nodes: seq<Node>, path: seq<Id>, depths: map<Id, nat>) {
    forall e | Path(nodes, e) && path < e :: e[|e| - 1] in depths
  }

  ghost predicate ChildDone(nodes: seq<Node>, path: seq<Id>, child: Node, depths: map<Id, nat>) {
    child.id in depths && DepthsBelow(nodes, path + [child.id], depths)
  }

  ghost predicate ChildrenDone(nodes: seq<Node>, path: seq<Id>, children: seq<Node>, n: nat, depths: map<Id, nat>)
    requires n <= |children|
  {
    forall j | 0 <= j < n :: ChildDone(nodes, path, children[j], depths)
  }

  lemma ChildrenStayDone(nodes: seq<Node>, path: seq<Id>, children: seq<Node>, n: nat, before: map<Id, nat>, after: map<Id, nat>)
    requires n < |children| && before.Keys <= after.Keys
    requires ChildrenDone(nodes, path, children, n, before) && ChildDone(nodes, path, children[n], after)
    ensures ChildrenDone(nodes, path, children, n + 1, after)
  {
    forall j | 0 <= j < n + 1 ensures ChildDone(nodes, path, children[j], after) {
      if j < n { StaysDone(nodes, path, children[j], before, after); }
    }
  }

  lemma StaysDone(nodes: seq<Node>, path: seq<Id>, child: Node, before: map<Id, nat>, depths: map<Id, nat>)
    requires ChildDone(nodes, path, child, before) && before.Keys <= depths.Keys
    ensures ChildDone(nodes, path, child, depths)
  {}

  class Flattening {
    const directoryNodes: seq<Node>
    var orderedNodes: seq<Node>
    var depthMap: map<Id, nat>

    constructor (nodes: seq<Node>)
      ensures directoryNodes == nodes && orderedNodes == [] && depthMap == map[]
    {
      directoryNodes, orderedNodes, depthMap := nodes, [], map[];
    }

    method Children(parentId: Option<Id>) returns (children: seq<Node>)
      ensures children == Filter(directoryNodes, parentId)
    {
      children := [];
      for k := 0 to |directoryNodes|
        invariant children + Filter(directoryNodes[k..], parentId) == Filter(directoryNodes, parentId)
      {
        assert directoryNodes[k..][1..] == directoryNodes[k + 1..];
        if directoryNodes[k].parent == parentId { children := children + [directoryNodes[k]]; }
      }
    }

    // It ends on any list with unique ids: no path is longer than the list.
    method AppendSubtree(parentId: Option<Id>, ghost path: seq<Id>)
      requires UniqueIds(directoryNodes) && Path(directoryNodes, path) && parentId == ParentOf(path)
      modifies this`orderedNodes
      ensures AllPaths(directoryNodes, Walk(directoryNodes, path))
      ensures orderedNodes == old(orderedNodes) + NodesOf(directoryNodes, Walk(directoryNodes, path))
      decreases |directoryNodes| + 1 - |path|
    {
      var found := Children(parentId);
      var children := Sort(AtMost, OrderOf, found);
      KidsAreChildren(directoryNodes, parentId);
      WalksArePaths(directoryNodes, path, 0);
      ghost var before := orderedNodes;
      for k := 0 to |children|
        invariant AllPaths(directoryNodes, WalkKids(directoryNodes, path, k))
        invariant orderedNodes + NodesOf(directoryNodes, WalkKids(directoryNodes, path, k))
               == before + NodesOf(directoryNodes, Walk(directoryNodes, path))
      {
        var child := children[k];
        ghost var down := path + [child.id];
        KidExtendsPath(directoryNodes, path, child);
        PathIsShort(directoryNodes, down);
        WalksArePaths(directoryNodes, path, k + 1);
        WalksArePaths(directoryNodes, down, 0);
        KidBlock(directoryNodes, path, k, child);
        Reassociate(orderedNodes, child, NodesOf(directoryNodes, Walk(directoryNodes, down)),
                    NodesOf(directoryNodes, WalkKids(directoryNodes, path, k + 1)));
        orderedNodes := orderedNodes + [child];
        AppendSubtree(Some(child.id), down);
      }
    }

    method ComputeDepth(nodeId: Option<Id>, depth: nat, ghost path: seq<Id>)
      requires UniqueIds(directoryNodes) && Path(directoryNodes, path) && nodeId == ParentOf(path)
      requires depth == |path| + 1 && RightDepths(directoryNodes, depthMap)
      modifies this`depthMap
      ensures RightDepths(directoryNodes, depthMap) && DepthsBelow(directoryNodes, path, depthMap)
      ensures old(depthMap).Keys <= depthMap.Keys
      decreases |directoryNodes| + 1 - |path|
    {
      var children := Children(nodeId);
      FilterFinds(directoryNodes, nodeId);
      for k := 0 to |children|
        invariant RightDepths(directoryNodes, depthMap) && old(depthMap).Keys <= depthMap.Keys
        invariant ChildrenDone(directoryNodes, path, children, k, depthMap)
      {
        var child := children[k];
        ghost var before := depthMap;
        ghost var down := path + [child.id];
        KidExtendsPath(directoryNodes, path, child);
        PathIsShort(directoryNodes, down);
        DepthStaysRight(directoryNodes, depthMap, down);
        depthMap := depthMap[child.id := depth];
        ComputeDepth(Some(child.id), depth + 1, down);
        ChildrenStayDone(directoryNodes, path, children, k, before, depthMap);
      }
      AllBelowRecorded(directoryNodes, path, children, depthMap);
    }
  }

  lemma Reassociate(before: seq<Node>, child: Node, inner: seq<Node>, rest: seq<Node>)
    ensures before + ([child] + inner + rest) == ((before + [child]) + inner) + rest
  {}

  lemma KidBlock(nodes: seq<Node>, path: seq<Id>, k: nat, child: Node)
    requires UniqueIds(nodes) && Path(nodes, path) && k < |Kids(nodes, ParentOf(path))|
    requires child == Kids(nodes, ParentOf(path))[k] && Path(nodes, path + [child.id])
    requires AllPaths(nodes, WalkKids(nodes, path, k)) && AllPaths(nodes, WalkKids(nodes, path, k + 1))
    requires AllPaths(nodes, Walk(nodes, path + [child.id]))
    ensures NodesOf(nodes, WalkKids(nodes, path, k)) ==
      [child] + NodesOf(nodes, Walk(nodes, path + [child.id])) + NodesOf(nodes, WalkKids(nodes, path, k + 1))
  {
    var down, inner, rest := KidParts(nodes, path, k);
    KidsAreThese(nodes, ParentOf(path));
    assert child in Kids(nodes, ParentOf(path));
    SameId(nodes, NodeOf(nodes, down), child);
    NodesOfParts(nodes, WalkKids(nodes, path, k), down, inner, rest);
  }

  lemma NodesOfParts(nodes: seq<Node>, w: seq<seq<Id>>, down: seq<Id>, inner: seq<seq<Id>>, rest: seq<seq<Id>>)
    requires AllPaths(nodes, w) && AllPaths(nodes, inner) && AllPaths(nodes, rest) && Path(nodes, down) && down != []
    requires w == [down] + inner + rest
    ensures NodesOf(nodes, w) == [NodeOf(nodes, down)] + NodesOf(nodes, inner) + NodesOf(nodes, rest)
  {
    assert w[0] == down;
    assert forall i | 0 <= i < |inner| :: w[1 + i] == inner[i];
    assert forall i | 0 <= i < |rest| :: w[1 + |inner| + i] == rest[i];
  }

  lemma DepthStaysRight(nodes: seq<Node>, depths: map<Id, nat>, down: seq<Id>)
    requires RightDepths(nodes, depths) && Path(nodes, down) && down != []
    ensures RightDepths(nodes, depths[down[|down| - 1] := |down|])
  {
    var id := down[|down| - 1];
    assert PathTo(nodes, down, id);
  }

  lemma AllBelowRecorded(nodes: seq<Node>, path: seq<Id>, children: seq<Node>, depths: map<Id, nat>)
    requires UniqueIds(nodes) && Path(nodes, path) && children == Filter(nodes, ParentOf(path))
    requires ChildrenDone(nodes, path, children, |children|, depths)
    ensures DepthsBelow(nodes, path, depths)
  {
    forall e | Path(nodes, e) && path < e ensures e[|e| - 1] in depths {
      var j := ChildOnPath(nodes, path, children, e);
      assert ChildDone(nodes, path, children[j], depths);
    }
  }

  lemma ChildOnPath(nodes: seq<Node>, path: seq<Id>, children: seq<Node>, e: seq<Id>) returns (j: nat)
    requires UniqueIds(nodes) && Path(nodes, path) && children == Filter(nodes, ParentOf(path))
    requires Path(nodes, e) && path < e
    ensures j < |children| && path + [children[j].id] <= e
    ensures |e| == |path| + 1 ==> e[|e| - 1] == children[j].id
    ensures |e| > |path| + 1 ==> path + [children[j].id] < e
  {
    FilterFinds(nodes, ParentOf(path));
    assert Link(nodes, e, |path|) && e[..|path|] == path;
    var n :| n in nodes && n.id == e[|path|] && n.parent == ParentOf(path);
    assert n in children;
    j :| j < |children| && children[j] == n;
  }

  // ---------------------------------------------------------------------------
  // What the flattening is

  // e is strictly below d in the tree.
  predicate Descends(d: seq<Id>, e: seq<Id>) {
    d < e
  }

  ghost predicate Reachable(nodes: seq<Node>, id: Id) {
    exists e :: PathTo(nodes, e, id)
  }

  // Exactly the nodes whose parents lead to a root, once each.
  lemma EmitsTheReachable(nodes: seq<Node>)
    requires UniqueIds(nodes)
    ensures Path(nodes, []) && AllPaths(nodes, Walk(nodes, []))
    ensures var w := Walk(nodes, []); var out := NodesOf(nodes, w);
      && (forall n :: n in out <==> n in nodes && Reachable(nodes, n.id))
      && (forall i, j | 0 <= i < j < |out| :: out[i].id != out[j].id)
  {
    WalksArePaths(nodes, [], 0);
    var w := Walk(nodes, []);
    var out := NodesOf(nodes, w);
    forall n ensures n in out <==> n in nodes && Reachable(nodes, n.id) {
      if n in out {
        var i :| 0 <= i < |out| && out[i] == n;
        assert PathTo(nodes, w[i], n.id);
      }
      if n in nodes && Reachable(nodes, n.id) {
        var e :| PathTo(nodes, e, n.id);
        WalkIsComplete(nodes, [], e);
        var i :| 0 <= i < |w| && w[i] == e;
        SameId(nodes, out[i], n);
      }
    }
    forall i, j | 0 <= i < j < |out| ensures out[i].id != out[j].id {
      WalkIsDistinct(nodes, [], i, j);
      if out[i].id == out[j].id { PathsAgree(nodes, w[i], w[j]); }
    }
  }

  // Each node is followed at once by all its descendants and by nothing else
  // before them; siblings come by order index, then as listed.
  lemma EmitsInPreorder(nodes: seq<Node>, i: nat, j: nat)
    requires UniqueIds(nodes) && Path(nodes, []) && AllPaths(nodes, Walk(nodes, [])) && i < j < |Walk(nodes, [])|
    ensures var w := Walk(nodes, []);
      && !Descends(w[j], w[i])
      && (Descends(w[i], w[j]) <==> j <= i + |Walk(nodes, w[i])|)
      && (Siblings(w[i], w[j]) ==> Precedes(nodes, NodeOf(nodes, w[i]), NodeOf(nodes, w[j])))
  {
    var w := Walk(nodes, []);
    SubtreesAreContiguous(nodes, [], i);
    SubtreesAreContiguous(nodes, [], j);
    var sub := Walk(nodes, w[i]);
    if j <= i + |sub| {
      assert w[j] == w[i + 1..i + 1 + |sub|][j - i - 1];
      WalkStaysBelow(nodes, w[i], j - i - 1);
    }
    if Descends(w[i], w[j]) { DescendantIsNear(nodes, w, i, j); }
    if Descends(w[j], w[i]) { DescendantIsNear(nodes, w, j, i); }
    if Siblings(w[i], w[j]) { SiblingsAreOrdered(nodes, [], i, j, NodeOf(nodes, w[i]), NodeOf(nodes, w[j])); }
  }

  // A descendant stands in the block after its ancestor.
  lemma DescendantIsNear(nodes: seq<Node>, w: seq<seq<Id>>, i: nat, j: nat)
    requires UniqueIds(nodes) && w == Walk(nodes, []) && i < |w| && j < |w| && FollowedBySubtree(nodes, w, i)
    requires Path(nodes, w[j]) && Descends(w[i], w[j])
    ensures i < j <= i + |Walk(nodes, w[i])|
  {
    var sub := Walk(nodes, w[i]);
    WalkIsComplete(nodes, w[i], w[j]);
    var k :| 0 <= k < |sub| && sub[k] == w[j];
    assert w[i + 1 + k] == w[i + 1..i + 1 + |sub|][k] == w[j];
    if i + 1 + k < j { WalkIsDistinct(nodes, [], i + 1 + k, j); }
    if j < i + 1 + k { WalkIsDistinct(nodes, [], j, i + 1 + k); }
  }

  // The two walks of the export: every node emitted has its depth, one for a root
  // and one more than its parent's for any other.
  method FlattenDirectory(nodes: seq<Node>) returns (orderedNodes: seq<Node>, depthMap: map<Id, nat>)
    requires UniqueIds(nodes)
    ensures Path(nodes, []) && AllPaths(nodes, Walk(nodes, []))
    ensures orderedNodes == NodesOf(nodes, Walk(nodes, []))
    ensures forall id :: id in depthMap <==> Reachable(nodes, id)
    ensures forall n | n in orderedNodes :: n.id in depthMap && DepthFits(n, depthMap)
  {
    var f := new Flattening(nodes);
    f.AppendSubtree(None, []);
    f.ComputeDepth(None, 1, []);
    orderedNodes, depthMap := f.orderedNodes, f.depthMap;
    EmitsTheReachable(nodes);
    DepthsFit(nodes, depthMap);
  }

  predicate DepthFits(n: Node, depths: map<Id, nat>)
    requires n.id in depths
  {
    match n.parent
    case None => depths[n.id] == 1
    case Some(p) => p in depths && depths[n.id] == depths[p] + 1
  }

  lemma DepthsFit(nodes: seq<Node>, depths: map<Id, nat>)
    requires UniqueIds(nodes) && RightDepths(nodes, depths) && DepthsBelow(nodes, [], depths)
    ensures forall id :: id in depths <==> Reachable(nodes, id)
    ensures forall n | n in nodes && Reachable(nodes, n.id) :: n.id in depths && DepthFits(n, depths)
  {
    forall id ensures id in depths <==> Reachable(nodes, id) {
      if Reachable(nodes, id) {
        var e :| PathTo(nodes, e, id);
        assert [] < e;
      }
    }
    forall n | n in nodes && Reachable(nodes, n.id) ensures n.id in depths && DepthFits(n, depths) {
      OneDepthFits(nodes, depths, n);
    }
  }

  lemma DepthOf(nodes: seq<Node>, depths: map<Id, nat>, e: seq<Id>, id: Id)
    requires UniqueIds(nodes) && RightDepths(nodes, depths) && DepthsBelow(nodes, [], depths) && PathTo(nodes, e, id)
    ensures id in depths && depths[id] == |e|
  {
    assert [] < e;
    var f :| PathTo(nodes, f, id) && depths[id] == |f|;
    PathsAgree(nodes, e, f);
  }

  lemma OneDepthFits(nodes: seq<Node>, depths: map<Id, nat>, n: Node)
    requires UniqueIds(nodes) && RightDepths(nodes, depths) && DepthsBelow(nodes, [], depths)
    requires n in nodes && Reachable(nodes, n.id)
    ensures n.id in depths && DepthFits(n, depths)
  {
    var e :| PathTo(nodes, e, n.id);
    DepthOf(nodes, depths, e, n.id);
    var up := e[..|e| - 1];
    assert Link(nodes, e, |e| - 1);
    var m :| m in nodes && m.id == n.id && m.parent == ParentOf(up);
    SameId(nodes, m, n);
    PathPrefix(nodes, e, |e| - 1);
    if n.parent.Some? { DepthOf(nodes, depths, up, n.parent.value); }
  }
}
