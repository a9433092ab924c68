/** `findDuplicates`: clients linked by a shared phone or name, grouped with an in-place
    union-find (path halving, no ranks kept) driven by two "first seen" maps. */
module Duplicates {
  import opened Prelude
  import opened Calendar

  datatype Client = Client(id: Id, phone: string, name: string)

  /** The normalisers are parameters: everything below holds for any of them.  An empty
      key (no usable phone, blank name) links nobody. */
  datatype Keys = Keys(phone: string -> Option<string>, name: string -> string)

  function PhoneKey(k: Keys, c: Client): Option<string> {
    var p := k.phone(c.phone);
    if p == Some("") then None else p
  }

  function NameKey(k: Keys, c: Client): Option<string> {
    var n := k.name(c.name);
    if n == "" then None else Some(n)
  }

  function ByPhone(k: Keys): Client -> Option<string> {
    c => PhoneKey(k, c)
  }

  function ByName(k: Keys): Client -> Option<string> {
    c => NameKey(k, c)
  }

  predicate Distinct(clients: seq<Client>) {
    forall i, j :: 0 <= i < j < |clients| ==> clients[i].id != clients[j].id
  }

  // ---------- the specification: chains of shared keys ----------

  predicate SharesKey(a: Option<string>, b: Option<string>) {
    a.Some? && a == b
  }

  predicate Linked(k: Keys, a: Client, b: Client) {
    SharesKey(PhoneKey(k, a), PhoneKey(k, b)) || SharesKey(NameKey(k, a), NameKey(k, b))
  }

  /** A walk through the client list along shared keys. */
  predicate IsChain(k: Keys, cs: seq<Client>, path: seq<nat>) {
    && path != []
    && (forall n :: 0 <= n < |path| ==> path[n] < |cs|)
    && (forall n :: 0 <= n < |path| - 1 ==> Linked(k, cs[path[n]], cs[path[n + 1]]))
  }

  ghost predicate Connected(k: Keys, cs: seq<Client>, i: nat, j: nat) {
    exists path :: IsChain(k, cs, path) && path[0] == i && path[|path| - 1] == j
  }

  lemma ConnectedSelf(k: Keys, cs: seq<Client>, i: nat)
    requires i < |cs|
    ensures Connected(k, cs, i, i)
  {
    assert IsChain(k, cs, [i]);
  }

  lemma ConnectedLink(k: Keys, cs: seq<Client>, i: nat, j: nat)
    requires i < |cs| && j < |cs| && Linked(k, cs[i], cs[j])
    ensures Connected(k, cs, i, j)
  {
    assert IsChain(k, cs, [i, j]);
  }

  lemma ConnectedTrans(k: Keys, cs: seq<Client>, i: nat, j: nat, l: nat)
    requires Connected(k, cs, i, j) && Connected(k, cs, j, l)
    ensures Connected(k, cs, i, l)
  {
    var p :| IsChain(k, cs, p) && p[0] == i && p[|p| - 1] == j;
    var q :| IsChain(k, cs, q) && q[0] == j && q[|q| - 1] == l;
    var path := p + q[1..];
    forall n | 0 <= n < |path| - 1
      ensures Linked(k, cs[path[n]], cs[path[n + 1]])
    {
      if n >= |p| - 1 {
        assert path[n] == q[n - |p| + 1] && path[n + 1] == q[n - |p| + 2];
      }
    }
    assert IsChain(k, cs, path) && path[|path| - 1] == l;
  }

  function Reverse(path: seq<nat>): (r: seq<nat>)
    ensures |r| == |path| && forall n :: 0 <= n < |path| ==> r[n] == path[|path| - 1 - n]
  {
    seq(|path|, n requires 0 <= n < |path| => path[|path| - 1 - n])
  }

  lemma ConnectedSym(k: Keys, cs: seq<Client>, i: nat, j: nat)
    requires Connected(k, cs, i, j)
    ensures Connected(k, cs, j, i)
  {
    var p :| IsChain(k, cs, p) && p[0] == i && p[|p| - 1] == j;
    var r := Reverse(p);
    forall n | 0 <= n < |r| - 1
      ensures Linked(k, cs[r[n]], cs[r[n + 1]])
    {
      assert Linked(k, cs[p[|p| - 2 - n]], cs[p[|p| - 2 - n + 1]]);
    }
    assert IsChain(k, cs, r) && r[0] == j && r[|r| - 1] == i;
  }

  // ---------- the forest ----------

  /** `root` is the representative of every element; `rank` grows along parents, so
      walks end.  Neither is stored by the program. */
  datatype Shape = Shape(root: map<Id, Id>, rank: map<Id, nat>, bound: nat)

  ghost predicate Covers(s: Shape, x: Id) {
    x in s.root && x in s.rank
  }

  /** One node: its parent has the same root and a larger rank, or it is its own root. */
  ghost predicate NodeOk(parent: map<Id, Id>, s: Shape, x: Id)
    requires x in parent
  {
    var p := parent[x];
    && p in parent && Covers(s, x) && Covers(s, p)
    && s.root[x] in parent && parent[s.root[x]] == s.root[x]
    && s.root[p] == s.root[x]
    && (p == x <==> s.root[x] == x)
    && (p != x ==> s.rank[x] < s.rank[p])
    && s.rank[x] <= s.bound
  }

  ghost predicate Forest(parent: map<Id, Id>, s: Shape) {
    && s.root.Keys == parent.Keys
    && forall x {:trigger NodeOk(parent, s, x)} :: x in parent ==> NodeOk(parent, s, x)
  }

  /** The two sets of roots a and b become one, rooted at b. */
  ghost function Merged(s: Shape, a: Id, b: Id): Shape
    requires a in s.rank && b in s.rank
  {
    var rank := if s.rank[b] > s.rank[a] then s.rank[b] else s.rank[a] + 1;
    Shape(map x | x in s.root :: if s.root[x] == a then b else s.root[x],
          if a == b then s.rank else s.rank[b := rank],
          if s.bound > s.rank[a] then s.bound else s.rank[a] + 1)
  }

  lemma HalvingKeepsForest(parent: map<Id, Id>, s: Shape, x: Id)
    requires Forest(parent, s) && x in parent && parent[x] in parent
    ensures Forest(parent[x := parent[parent[x]]], s)
  {
    var parent' := parent[x := parent[parent[x]]];
    assert NodeOk(parent, s, x) && NodeOk(parent, s, parent[x]) && NodeOk(parent, s, parent[parent[x]]);
    forall y | y in parent'
      ensures NodeOk(parent', s, y)
    {
      assert NodeOk(parent, s, y);
      assert NodeOk(parent, s, s.root[y]);
    }
  }

  lemma AddingKeepsForest(parent: map<Id, Id>, s: Shape, x: Id)
    requires Forest(parent, s) && x !in parent
    ensures Forest(parent[x := x], Shape(s.root[x := x], s.rank[x := 0], s.bound))
  {
    var parent', s' := parent[x := x], Shape(s.root[x := x], s.rank[x := 0], s.bound);
    forall y | y in parent'
      ensures NodeOk(parent', s', y)
    {
      if y != x {
        assert NodeOk(parent, s, y);
      }
    }
  }

  lemma LinkingKeepsForest(parent: map<Id, Id>, s: Shape, a: Id, b: Id)
    requires Forest(parent, s) && a in parent && b in parent && parent[a] == a && parent[b] == b
    ensures a in s.rank && b in s.rank && Forest(parent[a := b], Merged(s, a, b))
  {
    assert NodeOk(parent, s, a) && NodeOk(parent, s, b);
    var parent', s' := parent[a := b], Merged(s, a, b);
    forall y | y in parent'
      ensures NodeOk(parent', s', y)
    {
      assert NodeOk(parent, s, y) && NodeOk(parent, s, parent[y]);
    }
  }

  /** Every element of a's set gets b's root. */
  ghost function Joined(root: map<Id, Id>, a: Id, b: Id): map<Id, Id>
    requires a in root && b in root
  {
    map x | x in root :: if root[x] == root[a] then root[b] else root[x]
  }

  class DisjointSets {
    var parent: map<Id, Id>
    ghost var shape: Shape

    constructor ()
      ensures parent == map[] && Valid()
    {
      parent := map[];
      shape := Shape(map[], map[], 0);
    }

    ghost predicate Valid()
      reads this
    {
      Forest(parent, shape)
    }

    method Add(x: Id)
      requires Valid() && x !in parent
      modifies this
      ensures Valid() && parent == old(parent)[x := x]
      ensures shape.root == old(shape).root[x := x]
    {
      AddingKeepsForest(parent, shape, x);
      parent := parent[x := x];
      shape := Shape(shape.root[x := x], shape.rank[x := 0], shape.bound);
    }

    /** The walk to the root, halving the path behind it. */
    method Find(start: Id) returns (x: Id)
      requires Valid() && start in parent
      modifies this`parent
      ensures Valid() && parent.Keys == old(parent).Keys
      ensures start in shape.root && x == shape.root[start] && x in parent && parent[x] == x
    {
      x := start;
      assert NodeOk(parent, shape, start);
      while parent[x] != x
        invariant Valid() && parent.Keys == old(parent).Keys
        invariant x in parent && NodeOk(parent, shape, x) && shape.root[x] == shape.root[start]
        decreases shape.bound - shape.rank[x]
      {
        assert NodeOk(parent, shape, x) && NodeOk(parent, shape, parent[x]);
        HalvingKeepsForest(parent, shape, x);
        parent := parent[x := parent[parent[x]]];
        x := parent[x];
        assert NodeOk(parent, shape, x);
      }
    }

    method Union(a: Id, b: Id)
      requires Valid() && a in parent && b in parent
      modifies this
      ensures Valid() && parent.Keys == old(parent).Keys
      ensures a in old(shape).root && b in old(shape).root
      ensures shape.root == Joined(old(shape).root, a, b)
    {
      var ra := Find(a);
      assert NodeOk(parent, shape, ra);
      var rb := Find(b);
      assert NodeOk(parent, shape, ra) && NodeOk(parent, shape, rb);
      LinkingKeepsForest(parent, shape, ra, rb);
      parent := parent[ra := rb];
      shape := Merged(shape, ra, rb);
    }
  }

  // ---------- the partition computed so far ----------

  ghost predicate HasRoots(cs: seq<Client>, root: map<Id, Id>) {
    forall i :: 0 <= i < |cs| ==> cs[i].id in root
  }

  ghost predicate SameRoot(cs: seq<Client>, root: map<Id, Id>, i: nat, j: nat)
    requires HasRoots(cs, root) && i < |cs| && j < |cs|
  {
    root[cs[i].id] == root[cs[j].id]
  }

  /** Clients are only put together when a chain links them. */
  ghost predicate Sound(k: Keys, cs: seq<Client>, root: map<Id, Id>)
    requires HasRoots(cs, root)
  {
    forall i: nat, j: nat :: i < |cs| && j < |cs| && SameRoot(cs, root, i, j) ==> Connected(k, cs, i, j)
  }

  /** A "first seen" map over the first n clients: it remembers a client with each key,
      and every client so far with that key has been united with it. */
  ghost predicate Seen(cs: seq<Client>, root: map<Id, Id>, key: Client -> Option<string>, seen: map<string, Id>, n: nat)
    requires HasRoots(cs, root) && n <= |cs|
  {
    && (forall p :: p in seen ==> exists f: nat :: f < n && cs[f].id == seen[p] && key(cs[f]) == Some(p))
    && (forall j: nat :: j < n && key(cs[j]).Some? ==>
          key(cs[j]).value in seen && seen[key(cs[j]).value] in root
          && root[seen[key(cs[j]).value]] == root[cs[j].id])
  }

  lemma JoinKeepsSound(k: Keys, cs: seq<Client>, root: map<Id, Id>, a: nat, b: nat)
    requires HasRoots(cs, root) && Sound(k, cs, root) && a < |cs| && b < |cs| && Linked(k, cs[a], cs[b])
    ensures HasRoots(cs, Joined(root, cs[a].id, cs[b].id)) && Sound(k, cs, Joined(root, cs[a].id, cs[b].id))
  {
    var root' := Joined(root, cs[a].id, cs[b].id);
    ConnectedLink(k, cs, a, b);
    ConnectedSym(k, cs, a, b);
    forall i: nat, j: nat | i < |cs| && j < |cs| && SameRoot(cs, root', i, j)
      ensures Connected(k, cs, i, j)
    {
      if SameRoot(cs, root, i, j) {
      } else if SameRoot(cs, root, i, a) {
        assert SameRoot(cs, root, b, j);
        ConnectedTrans(k, cs, i, a, b);
        ConnectedTrans(k, cs, i, b, j);
      } else {
        assert SameRoot(cs, root, a, j) && SameRoot(cs, root, i, b);
        ConnectedTrans(k, cs, i, b, a);
        ConnectedTrans(k, cs, i, a, j);
      }
    }
  }

  lemma JoinKeepsSeen(cs: seq<Client>, root: map<Id, Id>, a: Id, b: Id, key: Client -> Option<string>,
                      seen: map<string, Id>, n: nat)
    requires HasRoots(cs, root) && n <= |cs| && Seen(cs, root, key, seen, n) && a in root && b in root
    ensures HasRoots(cs, Joined(root, a, b)) && Seen(cs, Joined(root, a, b), key, seen, n)
  {
  }

  lemma {:induction false} ChainSharesRoot(k: Keys, cs: seq<Client>, root: map<Id, Id>, path: seq<nat>)
    requires HasRoots(cs, root) && IsChain(k, cs, path)
    requires forall i: nat, j: nat :: i < |cs| && j < |cs| && Linked(k, cs[i], cs[j]) ==> SameRoot(cs, root, i, j)
    ensures SameRoot(cs, root, path[0], path[|path| - 1])
  {
    if |path| > 1 {
      assert Linked(k, cs[path[0]], cs[path[1]]);
      ChainSharesRoot(k, cs, root, path[1..]);
    }
  }

  /** Once every client has been seen, roots are exactly the connected components. */
  lemma RootsAreComponents(k: Keys, cs: seq<Client>, root: map<Id, Id>, byPhone: map<string, Id>, byName: map<string, Id>)
    requires HasRoots(cs, root) && Sound(k, cs, root)
    requires Seen(cs, root, ByPhone(k), byPhone, |cs|) && Seen(cs, root, ByName(k), byName, |cs|)
    ensures forall i: nat, j: nat :: i < |cs| && j < |cs| ==> (SameRoot(cs, root, i, j) <==> Connected(k, cs, i, j))
  {
    forall i: nat, j: nat | i < |cs| && j < |cs| && Connected(k, cs, i, j)
      ensures SameRoot(cs, root, i, j)
    {
      var path :| IsChain(k, cs, path) && path[0] == i && path[|path| - 1] == j;
      ChainSharesRoot(k, cs, root, path);
    }
  }

  // ---------- the groups ----------

  /** The clients of one component, in list order. */
  function Members(cs: seq<Client>, root: map<Id, Id>, r: Id): (g: seq<Client>)
    ensures forall x :: x in g <==> x in cs && x.id in root && root[x.id] == r
  {
    if cs == [] then []
    else
      var last := cs[|cs| - 1];
      Members(cs[..|cs| - 1], root, r) + if last.id in root && root[last.id] == r then [last] else []
  }

  lemma {:induction false} MembersOnce(cs: seq<Client>, root: map<Id, Id>, r: Id, x: Client)
    requires Distinct(cs)
    ensures multiset(Members(cs, root, r))[x] <= 1
  {
    if cs != [] {
      var rest, last := cs[..|cs| - 1], cs[|cs| - 1];
      MembersOnce(rest, root, r, x);
      assert forall i :: 0 <= i < |rest| ==> rest[i].id != last.id;
      assert last !in Members(rest, root, r);
    }
  }

  /** What the owner is promised about the returned groups. */
  ghost predicate IsGrouping(k: Keys, cs: seq<Client>, groups: seq<seq<Client>>) {
    && (forall g, x :: 0 <= g < |groups| && x in groups[g] ==> x in cs && multiset(groups[g])[x] == 1)
    && (forall g :: 0 <= g < |groups| ==> |groups[g]| >= 2)
    && (forall g, h, x :: 0 <= g < h < |groups| && x in groups[g] ==> x !in groups[h])
    && (forall i: nat, j: nat :: i < |cs| && j < |cs| && i != j ==>
          (Connected(k, cs, i, j) <==> Together(groups, cs[i], cs[j])))
  }

  ghost predicate Together(groups: seq<seq<Client>>, a: Client, b: Client) {
    exists g :: 0 <= g < |groups| && a in groups[g] && b in groups[g]
  }

  lemma TwoMembers(g: seq<Client>, a: Client, b: Client)
    requires a in g && b in g && a != b
    ensures |g| >= 2
  {
  }

  /** The components with two clients or more, each listed once, are the promised groups. */
  lemma ComponentsAreGroups(k: Keys, cs: seq<Client>, root: map<Id, Id>, picks: seq<Id>, groups: seq<seq<Client>>)
    requires Distinct(cs) && HasRoots(cs, root)
    requires forall i: nat, j: nat :: i < |cs| && j < |cs| ==> (SameRoot(cs, root, i, j) <==> Connected(k, cs, i, j))
    requires forall g, h :: 0 <= g < h < |picks| ==> picks[g] != picks[h]
    requires |groups| == |picks| && forall g :: 0 <= g < |picks| ==> groups[g] == Members(cs, root, picks[g])
    requires forall g :: 0 <= g < |groups| ==> |groups[g]| >= 2
    requires forall i :: 0 <= i < |cs| && |Members(cs, root, root[cs[i].id])| >= 2 ==> root[cs[i].id] in picks
    ensures IsGrouping(k, cs, groups)
  {
    forall g, x | 0 <= g < |groups| && x in groups[g]
      ensures x in cs && multiset(groups[g])[x] == 1
    {
      MembersOnce(cs, root, picks[g], x);
    }
    forall i: nat, j: nat | i < |cs| && j < |cs| && i != j
      ensures Connected(k, cs, i, j) <==> Together(groups, cs[i], cs[j])
    {
      assert SameRoot(cs, root, i, j) <==> Connected(k, cs, i, j);
      if SameRoot(cs, root, i, j) {
        var r := root[cs[i].id];
        TwoMembers(Members(cs, root, r), cs[i], cs[j]);
        var g :| 0 <= g < |picks| && picks[g] == r;
        assert cs[i] in groups[g] && cs[j] in groups[g];
      }
    }
  }

  // ---------- the groups as the owner understands them ----------

  /** The same phone number after normalising, and not an empty one. */
  predicate SamePhone(k: Keys, a: Client, b: Client) {
    k.phone(a.phone) == k.phone(b.phone) && k.phone(a.phone).Some? && k.phone(a.phone).value != ""
  }

  /** The same name after normalising, and not an empty one. */
  predicate SameName(k: Keys, a: Client, b: Client) {
    k.name(a.name) == k.name(b.name) && k.name(a.name) != ""
  }

  /** The two keys link exactly such clients. */
  lemma LinksAreShared(k: Keys)
    ensures forall a, b :: Linked(k, a, b) <==> SamePhone(k, a, b) || SameName(k, a, b)
  {
  }

  /** Groups as the owner understands them: clients sharing a phone or a name are in one,
      and two clients in one are joined by a chain of clients each sharing one or the
      other with the next. */
  ghost predicate GroupsSharers(k: Keys, cs: seq<Client>, groups: seq<seq<Client>>) {
    && (forall i, j :: 0 <= i < j < |cs| && (SamePhone(k, cs[i], cs[j]) || SameName(k, cs[i], cs[j])) ==>
          Together(groups, cs[i], cs[j]))
    && (forall g, a, b :: 0 <= g < |groups| && a in groups[g] && b in groups[g] ==> ChainOfSharers(k, cs, a, b))
  }

  ghost predicate ChainOfSharers(k: Keys, cs: seq<Client>, a: Client, b: Client) {
    exists chain: seq<Client> :: IsSharingChain(k, cs, chain) && chain[0] == a && chain[|chain| - 1] == b
  }

  predicate IsSharingChain(k: Keys, cs: seq<Client>, chain: seq<Client>) {
    && chain != []
    && (forall n :: 0 <= n < |chain| ==> chain[n] in cs)
    && (forall n :: 0 <= n < |chain| - 1 ==> SamePhone(k, chain[n], chain[n + 1]) || SameName(k, chain[n], chain[n + 1]))
  }

  lemma ConnectedIsAChain(k: Keys, cs: seq<Client>, i: nat, j: nat)
    requires Connected(k, cs, i, j)
    ensures i < |cs| && j < |cs| && ChainOfSharers(k, cs, cs[i], cs[j])
  {
    var path :| IsChain(k, cs, path) && path[0] == i && path[|path| - 1] == j;
    var chain := seq(|path|, n requires 0 <= n < |path| => cs[path[n]]);
    assert IsSharingChain(k, cs, chain);
  }

  lemma GroupingGroupsSharers(k: Keys, cs: seq<Client>, groups: seq<seq<Client>>)
    requires Distinct(cs) && IsGrouping(k, cs, groups)
    ensures GroupsSharers(k, cs, groups)
  {
    LinksAreShared(k);
    forall i, j | 0 <= i < j < |cs| && (SamePhone(k, cs[i], cs[j]) || SameName(k, cs[i], cs[j]))
      ensures Together(groups, cs[i], cs[j])
    {
      ConnectedLink(k, cs, i, j);
    }
    forall g, a, b | 0 <= g < |groups| && a in groups[g] && b in groups[g]
      ensures ChainOfSharers(k, cs, a, b)
    {
      assert a in cs && b in cs;
      var i :| 0 <= i < |cs| && cs[i] == a;
      var j :| 0 <= j < |cs| && cs[j] == b;
      if i == j {
        ConnectedSelf(k, cs, i);
      } else {
        assert Together(groups, cs[i], cs[j]);
      }
      ConnectedIsAChain(k, cs, i, j);
    }
  }

  // ---------- the program ----------

  /** One client under one key: the first client seen with it is remembered, any later
      one is united with the first. */
  method NoteKey(k: Keys, cs: seq<Client>, n: nat, sets: DisjointSets, key: Client -> Option<string>, seen: map<string, Id>,
                 ghost other: Client -> Option<string>, ghost otherSeen: map<string, Id>, ghost otherCount: nat)
      returns (seen': map<string, Id>)
    requires n < |cs| && otherCount <= |cs|
    requires sets.Valid() && HasRoots(cs, sets.shape.root) && Sound(k, cs, sets.shape.root)
    requires forall a, b :: SharesKey(key(a), key(b)) ==> Linked(k, a, b)
    requires Seen(cs, sets.shape.root, key, seen, n) && Seen(cs, sets.shape.root, other, otherSeen, otherCount)
    modifies sets
    ensures sets.Valid() && HasRoots(cs, sets.shape.root) && Sound(k, cs, sets.shape.root)
    ensures Seen(cs, sets.shape.root, key, seen', n + 1) && Seen(cs, sets.shape.root, other, otherSeen, otherCount)
  {
    seen' := seen;
    match key(cs[n])
    case None =>
    case Some(p) =>
      if p in seen {
        ghost var first: nat :| first < n && cs[first].id == seen[p] && key(cs[first]) == Some(p);
        ghost var root := sets.shape.root;
        JoinKeepsSound(k, cs, root, first, n);
        JoinKeepsSeen(cs, root, seen[p], cs[n].id, key, seen, n);
        JoinKeepsSeen(cs, root, seen[p], cs[n].id, other, otherSeen, otherCount);
        sets.Union(seen[p], cs[n].id);
      } else {
        seen' := seen[p := cs[n].id];
        assert forall q :: q in seen' ==> q == p || q in seen;
      }
  }

  /** The first three loops: every client alone, then united along phones and names. */
  method UniteSharedKeys(k: Keys, cs: seq<Client>) returns (sets: DisjointSets)
    requires Distinct(cs)
    ensures fresh(sets) && sets.Valid() && HasRoots(cs, sets.shape.root)
    ensures forall i: nat, j: nat :: i < |cs| && j < |cs| ==> (SameRoot(cs, sets.shape.root, i, j) <==> Connected(k, cs, i, j))
  {
    sets := new DisjointSets();
    for i := 0 to |cs|
      invariant sets.Valid() && fresh(sets)
      invariant forall x :: x in sets.parent <==> exists j :: 0 <= j < i && cs[j].id == x
      invariant forall x :: x in sets.shape.root ==> sets.shape.root[x] == x
    {
      sets.Add(cs[i].id);
    }
    forall i: nat | i < |cs|
      ensures Connected(k, cs, i, i)
    {
      ConnectedSelf(k, cs, i);
    }
    var byPhone: map<string, Id>, byName: map<string, Id> := map[], map[];
    for n := 0 to |cs|
      invariant sets.Valid() && fresh(sets) && HasRoots(cs, sets.shape.root) && Sound(k, cs, sets.shape.root)
      invariant Seen(cs, sets.shape.root, ByPhone(k), byPhone, n) && Seen(cs, sets.shape.root, ByName(k), byName, n)
    {
      byPhone := NoteKey(k, cs, n, sets, ByPhone(k), byPhone, ByName(k), byName, n);
      byName := NoteKey(k, cs, n, sets, ByName(k), byName, ByPhone(k), byPhone, n + 1);
    }
    RootsAreComponents(k, cs, sets.shape.root, byPhone, byName);
  }

  /** The group map after some clients: each component's clients under its root. */
  ghost predicate Gathered(cs: seq<Client>, root: map<Id, Id>, groups: map<Id, seq<Client>>) {
    && (forall r :: r in groups ==> groups[r] == Members(cs, root, r))
    && (forall r :: r !in groups ==> Members(cs, root, r) == [])
  }

  lemma GatherOne(cs: seq<Client>, root: map<Id, Id>, groups: map<Id, seq<Client>>, n: nat)
    requires n < |cs| && cs[n].id in root && Gathered(cs[..n], root, groups)
    ensures var r := root[cs[n].id];
            var before := if r in groups then groups[r] else [];
            Gathered(cs[..n + 1], root, groups[r := before + [cs[n]]])
  {
    assert cs[..n + 1][..n] == cs[..n];
  }

  /** The fourth loop: clients collected under their root, roots in order of appearance. */
  method Gather(cs: seq<Client>, sets: DisjointSets) returns (groups: map<Id, seq<Client>>, order: seq<Id>)
    requires sets.Valid() && HasRoots(cs, sets.shape.root)
    modifies sets`parent
    ensures sets.Valid() && Gathered(cs, sets.shape.root, groups)
    ensures forall r :: r in order <==> r in groups
    ensures forall g, h :: 0 <= g < h < |order| ==> order[g] != order[h]
    ensures forall i :: 0 <= i < |cs| ==> sets.shape.root[cs[i].id] in groups
  {
    groups, order := map[], [];
    ghost var root := sets.shape.root;
    for n := 0 to |cs|
      invariant sets.Valid() && Gathered(cs[..n], root, groups)
      invariant forall r :: r in order <==> r in groups
      invariant forall g, h :: 0 <= g < h < |order| ==> order[g] != order[h]
      invariant forall i :: 0 <= i < n ==> root[cs[i].id] in groups
    {
      var r := sets.Find(cs[n].id);
      GatherOne(cs, root, groups, n);
      if r in groups {
        groups := groups[r := groups[r] + [cs[n]]];
      } else {
        assert [] + [cs[n]] == [cs[n]];
        order := order + [r];
        groups := groups[r := [cs[n]]];
      }
    }
    assert cs[..|cs|] == cs;
  }

  /** The last loop: groups of one are dropped. */
  method DropSingles(groups: map<Id, seq<Client>>, order: seq<Id>) returns (result: seq<seq<Client>>, ghost picks: seq<Id>)
    requires forall r :: r in order ==> r in groups
    requires forall g, h :: 0 <= g < h < |order| ==> order[g] != order[h]
    ensures |result| == |picks| && forall g :: 0 <= g < |picks| ==> picks[g] in groups && result[g] == groups[picks[g]]
    ensures forall g :: 0 <= g < |result| ==> |result[g]| >= 2
    ensures forall g, h :: 0 <= g < h < |picks| ==> picks[g] != picks[h]
    ensures forall r :: r in order && |groups[r]| >= 2 ==> r in picks
  {
    result, picks := [], [];
    for i := 0 to |order|
      invariant |result| == |picks| && forall g :: 0 <= g < |picks| ==> picks[g] in groups && result[g] == groups[picks[g]]
      invariant forall g :: 0 <= g < |result| ==> |result[g]| >= 2
      invariant forall g, h :: 0 <= g < h < |picks| ==> picks[g] != picks[h]
      invariant forall g :: 0 <= g < |picks| ==> picks[g] in order[..i]
      invariant forall h :: 0 <= h < i && |groups[order[h]]| >= 2 ==> order[h] in picks
    {
      if |groups[order[i]]| >= 2 {
        assert order[i] !in order[..i];
        result := result + [groups[order[i]]];
        picks := picks + [order[i]];
      }
    }
  }

  method FindDuplicates(k: Keys, cs: seq<Client>) returns (result: seq<seq<Client>>)
    requires Distinct(cs)
    ensures IsGrouping(k, cs, result) && GroupsSharers(k, cs, result)
  {
    var sets := UniteSharedKeys(k, cs);
    ghost var root := sets.shape.root;
    var groups, order := Gather(cs, sets);
    ghost var picks;
    result, picks := DropSingles(groups, order);
    assert forall i :: 0 <= i < |cs| ==> root[cs[i].id] in order;
    ComponentsAreGroups(k, cs, root, picks, result);
    GroupingGroupsSharers(k, cs, result);
  }
}
