/** The entry list of a directory: collected from the file tree, and carried in the state of the RpcDir object. */
module DirTree {
  import opened Wire
  import opened DirTransfer

  /** One item of a directory listing, as the file system gives it, in the order of the listing. */
  datatype Node =
    | FileNode(name: string, size: Size, times: Times)
    | DirNode(name: string, size: Size, times: Times, children: seq<Node>)

  predicate Plain(name: string) { '/' !in name }

  function Join(rel: string, name: string): string {
    if rel == "" then name else rel + "/" + name
  }

  function EntryOf(n: Node, rel: string): Entry {
    Entry(Join(rel, n.name), n.size, n.DirNode?, n.times)
  }

  /** The entries of one listing: each item, followed by what is below it; names with a slash are left out. */
  function Collect(nodes: seq<Node>, rel: string): seq<Entry>
    decreases nodes
  {
    if nodes == [] then []
    else CollectOne(nodes[0], rel) + Collect(nodes[1..], rel)
  }

  function CollectOne(n: Node, rel: string): seq<Entry>
    decreases n
  {
    if !Plain(n.name) then []
    else [EntryOf(n, rel)] + (if n.DirNode? then Collect(n.children, Join(rel, n.name)) else [])
  }

  /** What a file system promises: in every directory the names are not empty and all different. */
  ghost predicate Proper(nodes: seq<Node>)
    decreases nodes
  {
    && (forall i :: 0 <= i < |nodes| ==> nodes[i].name != "")
    && (forall i, j :: 0 <= i < j < |nodes| ==> nodes[i].name != nodes[j].name)
    && (forall i :: 0 <= i < |nodes| && nodes[i].DirNode? ==> Proper(nodes[i].children))
  }

  predicate Below(path: string, base: string) { path == base || base + "/" <= path }

  ghost predicate AllBelow(entries: seq<Entry>, base: string) {
    forall i :: 0 <= i < |entries| ==> Below(entries[i].path, base)
  }

  /** Every path has one of the names as its next part. */
  ghost predicate Next(entries: seq<Entry>, nodes: seq<Node>, rel: string) {
    forall i :: 0 <= i < |entries| ==> HasNext(entries[i], nodes, rel)
  }

  ghost predicate HasNext(e: Entry, nodes: seq<Node>, rel: string) {
    exists k :: 0 <= k < |nodes| && NextIs(e, nodes[k], rel)
  }

  predicate NextIs(e: Entry, n: Node, rel: string) { Plain(n.name) && Below(e.path, Join(rel, n.name)) }

  ghost predicate DistinctPaths(entries: seq<Entry>) {
    forall i, j :: 0 <= i < j < |entries| ==> entries[i].path != entries[j].path
  }

  /** Where a name is in a path below it: there is no slash in it, and a slash right after it. */
  lemma NameSpan(path: string, rel: string, name: string) returns (start: nat)
    requires Plain(name) && Below(path, Join(rel, name))
    ensures start == if rel == "" then 0 else |rel| + 1
    ensures start + |name| <= |path| && path[start..start + |name|] == name
    ensures forall i :: start <= i < start + |name| ==> path[i] != '/'
    ensures start + |name| < |path| ==> path[start + |name|] == '/'
  {
    start := if rel == "" then 0 else |rel| + 1;
    assert path[start..start + |name|] == name;
    assert forall i :: 0 <= i < |name| ==> name[i] in name && path[start + i] == name[i];
    assert forall i :: start <= i < start + |name| ==> path[i] == name[i - start];
  }

  /** Two different names without a slash never lead to the same path. */
  lemma NamesApart(path: string, rel: string, a: string, b: string)
    requires Plain(a) && Plain(b) && Below(path, Join(rel, a)) && Below(path, Join(rel, b))
    ensures a == b
  {
    var start := NameSpan(path, rel, a);
    var _ := NameSpan(path, rel, b);
    assert start + |a| < |path| ==> path[start + |a|] == '/';
    assert start + |b| < |path| ==> path[start + |b|] == '/';
    assert |a| == |b|;
  }

  lemma ProperTail(nodes: seq<Node>)
    requires nodes != [] && Proper(nodes)
    ensures Proper(nodes[1..])
  {
    var tail := nodes[1..];
    assert forall i :: 0 <= i < |tail| ==> tail[i] == nodes[i + 1];
  }

  lemma NextJoin(first: seq<Entry>, rest: seq<Entry>, nodes: seq<Node>, rel: string)
    requires nodes != [] && Next(rest, nodes[1..], rel)
    requires forall i :: 0 <= i < |first| ==> NextIs(first[i], nodes[0], rel)
    ensures Next(first + rest, nodes, rel)
  {
    var all, tail := first + rest, nodes[1..];
    forall i | 0 <= i < |all| ensures HasNext(all[i], nodes, rel) {
      if i < |first| {
        assert NextIs(all[i], nodes[0], rel);
      } else {
        assert HasNext(rest[i - |first|], tail, rel);
        var k :| 0 <= k < |tail| && NextIs(rest[i - |first|], tail[k], rel);
        assert NextIs(all[i], nodes[k + 1], rel);
      }
    }
  }

  lemma {:induction false} CollectNext(nodes: seq<Node>, rel: string)
    requires Proper(nodes)
    ensures Next(Collect(nodes, rel), nodes, rel)
    decreases nodes, 1
  {
    if nodes != [] {
      ProperTail(nodes);
      CollectOneBelow(nodes[0], rel);
      CollectNext(nodes[1..], rel);
      NextJoin(CollectOne(nodes[0], rel), Collect(nodes[1..], rel), nodes, rel);
    }
  }

  /** What is collected for one item lies at its path or below it, and only the item itself lies at its path. */
  lemma {:induction false} CollectOneBelow(n: Node, rel: string)
    requires n.name != "" && (n.DirNode? ==> Proper(n.children))
    ensures CollectOne(n, rel) != [] ==> Plain(n.name)
    ensures AllBelow(CollectOne(n, rel), Join(rel, n.name))
    ensures n.DirNode? ==> StrictlyBelow(Collect(n.children, Join(rel, n.name)), Join(rel, n.name))
    decreases n, 0
  {
    if n.DirNode? {
      var base := Join(rel, n.name);
      CollectNext(n.children, base);
      var below := Collect(n.children, base);
      forall i | 0 <= i < |below| ensures base + "/" <= below[i].path {
        assert HasNext(below[i], n.children, base);
        var k :| 0 <= k < |n.children| && NextIs(below[i], n.children[k], base);
      }
    }
  }

  ghost predicate StrictlyBelow(entries: seq<Entry>, base: string) {
    forall i :: 0 <= i < |entries| ==> base + "/" <= entries[i].path
  }

  /** No two entries have the same path, so no file of a transfer overwrites another. */
  lemma {:induction false} PathsDistinct(nodes: seq<Node>, rel: string)
    requires Proper(nodes)
    ensures DistinctPaths(Collect(nodes, rel))
    decreases nodes, 1
  {
    if nodes != [] {
      ProperTail(nodes);
      PathsDistinctOne(nodes[0], rel);
      PathsDistinct(nodes[1..], rel);
      CollectOneBelow(nodes[0], rel);
      CollectNext(nodes[1..], rel);
      var first, rest := CollectOne(nodes[0], rel), Collect(nodes[1..], rel);
      forall i, j | 0 <= i < |first| && 0 <= j < |rest| ensures first[i].path != rest[j].path {
        assert HasNext(rest[j], nodes[1..], rel);
        var k :| 0 <= k < |nodes[1..]| && NextIs(rest[j], nodes[1..][k], rel);
        if first[i].path == rest[j].path {
          NamesApart(rest[j].path, rel, nodes[0].name, nodes[k + 1].name);
        }
      }
    }
  }

  lemma {:induction false} PathsDistinctOne(n: Node, rel: string)
    requires n.name != "" && (n.DirNode? ==> Proper(n.children))
    ensures DistinctPaths(CollectOne(n, rel))
    decreases n, 0
  {
    if n.DirNode? {
      PathsDistinct(n.children, Join(rel, n.name));
      CollectOneBelow(n, rel);
    }
  }

  // ---- Directories come before what they hold ----

  predicate DirectoryAt(e: Entry, path: string) { e.isdir && e.path == path }

  /** The directory that holds this entry is the given one or was listed before it. */
  ghost predicate HasParent(entries: seq<Entry>, i: nat, rel: string)
    requires i < |entries|
  {
    exists dir, name :: Child(entries[i].path, dir, name) && (dir == rel || ListedBefore(entries, i, dir))
  }

  ghost predicate ListedBefore(entries: seq<Entry>, i: nat, dir: string)
    requires i <= |entries|
  {
    exists j :: 0 <= j < i && DirectoryAt(entries[j], dir)
  }

  predicate Child(path: string, dir: string, name: string) { Plain(name) && path == Join(dir, name) }

  ghost predicate ParentsFirst(entries: seq<Entry>, rel: string) {
    forall i :: 0 <= i < |entries| ==> HasParent(entries, i, rel)
  }

  lemma ParentsJoin(a: seq<Entry>, b: seq<Entry>, rel: string, base: string)
    requires ParentsFirst(a, rel) && ParentsFirst(b, base)
    requires base == rel || ListedBefore(a, |a|, base)
    ensures ParentsFirst(a + b, rel)
  {
    var all := a + b;
    forall i | 0 <= i < |all| ensures HasParent(all, i, rel) {
      if i < |a| {
        assert HasParent(a, i, rel);
        ParentInFront(a, all, i, rel);
      } else {
        assert HasParent(b, i - |a|, base);
        ParentBehind(a, b, all, i - |a|, rel, base);
      }
    }
  }

  lemma ParentInFront(a: seq<Entry>, all: seq<Entry>, i: nat, rel: string)
    requires a <= all && i < |a| && HasParent(a, i, rel)
    ensures HasParent(all, i, rel)
  {
    var dir, name :| Child(a[i].path, dir, name) && (dir == rel || ListedBefore(a, i, dir));
    if dir != rel { ListedInFront(a, all, i, i, dir); }
    assert all[i] == a[i];
    assert Child(all[i].path, dir, name);
  }

  lemma ParentBehind(a: seq<Entry>, b: seq<Entry>, all: seq<Entry>, i: nat, rel: string, base: string)
    requires all == a + b && i < |b| && HasParent(b, i, base)
    requires base == rel || ListedBefore(a, |a|, base)
    ensures HasParent(all, |a| + i, rel)
  {
    var dir, name :| Child(b[i].path, dir, name) && (dir == base || ListedBefore(b, i, dir));
    StillListed(a, b, all, i, rel, base, dir);
    assert all[|a| + i] == b[i];
    assert Child(all[|a| + i].path, dir, name);
  }

  lemma StillListed(a: seq<Entry>, b: seq<Entry>, all: seq<Entry>, i: nat, rel: string, base: string, dir: string)
    requires all == a + b && i < |b| && (dir == base || ListedBefore(b, i, dir)) && (base == rel || ListedBefore(a, |a|, base))
    ensures dir == rel || ListedBefore(all, |a| + i, dir)
  {
    if dir != base {
      ListedBehind(a, b, i, dir);
    } else if base != rel {
      ListedInFront(a, all, |a|, |a| + i, base);
    }
  }

  lemma ListedInFront(a: seq<Entry>, all: seq<Entry>, k: nat, i: nat, dir: string)
    requires a <= all && k <= |a| && k <= i <= |all| && ListedBefore(a, k, dir)
    ensures ListedBefore(all, i, dir)
  {
    var j :| 0 <= j < k && DirectoryAt(a[j], dir);
    assert all[j] == a[j];
    assert DirectoryAt(all[j], dir);
  }

  lemma ListedBehind(a: seq<Entry>, b: seq<Entry>, i: nat, dir: string)
    requires i <= |b| && ListedBefore(b, i, dir)
    ensures ListedBefore(a + b, |a| + i, dir)
  {
    var j :| 0 <= j < i && DirectoryAt(b[j], dir);
    assert (a + b)[|a| + j] == b[j];
    assert DirectoryAt((a + b)[|a| + j], dir);
  }

  /** The receiver makes every directory before it needs it: each entry lies in the root of the transfer or in a directory listed earlier. */
  lemma {:induction false} DirectoriesFirst(nodes: seq<Node>, rel: string)
    ensures ParentsFirst(Collect(nodes, rel), rel)
    decreases nodes, 1
  {
    if nodes != [] {
      DirectoriesFirstOne(nodes[0], rel);
      DirectoriesFirst(nodes[1..], rel);
      ParentsJoin(CollectOne(nodes[0], rel), Collect(nodes[1..], rel), rel, rel);
    }
  }

  lemma {:induction false} DirectoriesFirstOne(n: Node, rel: string)
    ensures ParentsFirst(CollectOne(n, rel), rel)
    decreases n, 0
  {
    if Plain(n.name) {
      var own := [EntryOf(n, rel)];
      assert Child(own[0].path, rel, n.name);
      assert ParentsFirst(own, rel);
      if n.DirNode? {
        var base := Join(rel, n.name);
        DirectoriesFirst(n.children, base);
        assert DirectoryAt(own[0], base);
        assert ListedBefore(own, 1, base);
        ParentsJoin(own, Collect(n.children, base), rel, base);
      } else {
        assert CollectOne(n, rel) == own;
      }
    }
  }

  // ---- Everything is listed ----

  /** e describes an item of the tree: one of these, or one below a directory of these, reached by names without a slash. */
  ghost predicate InTree(nodes: seq<Node>, rel: string, e: Entry)
    decreases nodes, 1
  {
    exists k :: 0 <= k < |nodes| && InNode(nodes[k], rel, e)
  }

  ghost predicate InNode(n: Node, rel: string, e: Entry)
    decreases n, 0
  {
    && Plain(n.name)
    && var path := if rel == "" then n.name else rel + "/" + n.name;
       || (e.path == path && e.size == n.size && e.isdir == n.DirNode? && e.times == n.times)
       || (n.DirNode? && InTree(n.children, path, e))
  }

  lemma InTreeSplit(nodes: seq<Node>, rel: string, e: Entry)
    requires nodes != []
    ensures InTree(nodes, rel, e) <==> InNode(nodes[0], rel, e) || InTree(nodes[1..], rel, e)
  {
    var tail := nodes[1..];
    if InTree(tail, rel, e) {
      var k :| 0 <= k < |tail| && InNode(tail[k], rel, e);
      assert InNode(nodes[k + 1], rel, e);
    }
    if InTree(nodes, rel, e) {
      var k :| 0 <= k < |nodes| && InNode(nodes[k], rel, e);
      if k > 0 { assert InNode(tail[k - 1], rel, e); }
    }
  }

  /** What is collected is exactly what is in the tree, with its path, size, kind and times. */
  lemma {:induction false} CollectsAll(nodes: seq<Node>, rel: string, e: Entry)
    ensures e in Collect(nodes, rel) <==> InTree(nodes, rel, e)
    decreases nodes, 1
  {
    if nodes != [] {
      CollectsOne(nodes[0], rel, e);
      CollectsAll(nodes[1..], rel, e);
      InTreeSplit(nodes, rel, e);
    }
  }

  lemma {:induction false} CollectsOne(n: Node, rel: string, e: Entry)
    ensures e in CollectOne(n, rel) <==> InNode(n, rel, e)
    decreases n, 0
  {
    if Plain(n.name) && n.DirNode? { CollectsAll(n.children, Join(rel, n.name), e); }
  }

  // ---- The collection itself, which fills one shared result ----

  function SizeSum(total: Size, entries: seq<Entry>): Size
    decreases |entries|
  {
    if entries == [] then total
    else SizeSum(if entries[0].isdir then total else Plus(total, entries[0].size), entries[1..])
  }

  lemma {:induction false} SizeSumJoin(total: Size, a: seq<Entry>, b: seq<Entry>)
    ensures SizeSum(total, a + b) == SizeSum(SizeSum(total, a), b)
    decreases |a|
  {
    if a == [] {
      assert a + b == b;
    } else {
      assert (a + b)[1..] == a[1..] + b;
      SizeSumJoin(if a[0].isdir then total else Plus(total, a[0].size), a[1..], b);
    }
  }

  /** The size a directory announces is the sum that both sides of the transfer count up to. */
  lemma {:induction false} SizeSumIsTotal(entries: seq<Entry>)
    ensures SizeSum(0, entries) == Total(entries)
    decreases |entries|
  {
    if entries != [] {
      var init, last := entries[..|entries| - 1], entries[|entries| - 1];
      SizeSumIsTotal(init);
      SizeSumJoin(0, init, [last]);
      assert init + [last] == entries && [last][1..] == [];
    }
  }

  class PopulateResult {
    var entries: seq<Entry>
    var totalSize: Size

    constructor ()
      ensures entries == [] && totalSize == 0
    {
      entries, totalSize := [], 0;
    }

    /** One entry more; only files count for the size. */
    method Append(e: Entry)
      modifies this
      ensures entries == old(entries) + [e] && totalSize == if e.isdir then old(totalSize) else Plus(old(totalSize), e.size)
    {
      entries := entries + [e];
      if !e.isdir { totalSize := Plus(totalSize, e.size); }
    }
  }

  lemma SizeSumOne(total: Size, e: Entry, below: seq<Entry>)
    ensures SizeSum(total, [e] + below) == SizeSum(if e.isdir then total else Plus(total, e.size), below)
  {
    assert ([e] + below)[1..] == below;
  }

  lemma CollectOneForm(n: Node, rel: string, total: Size)
    requires Plain(n.name)
    ensures CollectOne(n, rel) == [EntryOf(n, rel)] + BelowOf(n, rel)
    ensures SizeSum(total, CollectOne(n, rel)) == SizeSum(if n.DirNode? then total else Plus(total, n.size), BelowOf(n, rel))
  {
    SizeSumOne(total, EntryOf(n, rel), BelowOf(n, rel));
  }

  function BelowOf(n: Node, rel: string): seq<Entry> {
    if n.DirNode? then Collect(n.children, Join(rel, n.name)) else []
  }

  lemma CollectNextNode(nodes: seq<Node>, i: nat, rel: string, before: seq<Entry>, total: Size, done: seq<Entry>)
    requires i < |nodes|
    ensures var own := CollectOne(nodes[i], rel);
      && done + Collect(nodes[i..], rel) == done + own + Collect(nodes[i + 1..], rel)
      && SizeSum(SizeSum(total, done), own) == SizeSum(total, done + own)
      && before + done + own == before + (done + own)
  {
    var own, rest := CollectOne(nodes[i], rel), Collect(nodes[i + 1..], rel);
    assert nodes[i..][1..] == nodes[i + 1..];
    assert done + (own + rest) == done + own + rest;
    SizeSumJoin(total, done, own);
  }

  /** _populate */
  method Populate(nodes: seq<Node>, relativePath: string, result: PopulateResult)
    modifies result
    ensures result.entries == old(result.entries) + Collect(nodes, relativePath)
    ensures result.totalSize == SizeSum(old(result.totalSize), Collect(nodes, relativePath))
    decreases nodes, 1
  {
    ghost var done: seq<Entry> := [];
    for i := 0 to |nodes|
      invariant result.entries == old(result.entries) + done
      invariant result.totalSize == SizeSum(old(result.totalSize), done)
      invariant Collect(nodes, relativePath) == done + Collect(nodes[i..], relativePath)
    {
      ghost var own := CollectOne(nodes[i], relativePath);
      CollectNextNode(nodes, i, relativePath, old(result.entries), old(result.totalSize), done);
      PopulateOne(nodes[i], relativePath, result);
      done := done + own;
    }
    assert nodes[|nodes|..] == [] && done + [] == done;
  }

  /** The body of its loop. */
  method PopulateOne(n: Node, relativePath: string, result: PopulateResult)
    modifies result
    ensures result.entries == old(result.entries) + CollectOne(n, relativePath)
    ensures result.totalSize == SizeSum(old(result.totalSize), CollectOne(n, relativePath))
    decreases n, 0
  {
    if '/' in n.name {
      assert old(result.entries) + [] == old(result.entries);
      return;
    }
    ghost var before, below := result.entries, BelowOf(n, relativePath);
    CollectOneForm(n, relativePath, result.totalSize);
    var entry := EntryOf(n, relativePath);
    result.Append(entry);
    if n.DirNode? { Populate(n.children, entry.path, result); }
    assert before + [entry] + below == before + ([entry] + below);
  }
}
