/** The folder forest as the store keeps it: a flat sequence of folders
    linked only by `parentId`, and the descendant closure `deleteFolder`
    collects before it removes anything (src/store/index.ts:150-176). */
module FolderTree {
  import opened Types

  /** Every id a folder of `folders` carries. */
  function IdsOf(folders: seq<Folder>): (ids: set<string>)
    ensures forall f :: f in folders ==> f.id in ids
  {
    set f | f in folders :: f.id
  }

  /** Ids of the folders whose parent is in `s`: one level further down. */
  function ChildIds(folders: seq<Folder>, s: set<string>): set<string>
  {
    set f | f in folders && f.parentId.Some? && f.parentId.value in s :: f.id
  }

  /** No folder whose parent is in `s` is missing from `s`. */
  predicate Closed(folders: seq<Folder>, s: set<string>)
  {
    forall f :: f in folders && f.parentId.Some? && f.parentId.value in s ==> f.id in s
  }

  lemma SaturateStep(folders: seq<Folder>, s: set<string>)
    requires !(ChildIds(folders, s) <= s)
    ensures IdsOf(folders) - (s + ChildIds(folders, s)) < IdsOf(folders) - s
  {
    var x :| x in ChildIds(folders, s) && x !in s;
    var f :| f in folders && f.parentId.Some? && f.parentId.value in s && f.id == x;
    assert x in IdsOf(folders) - s;
  }

  /** Adds children level by level until nothing new appears. */
  function Saturate(folders: seq<Folder>, s: set<string>): (r: set<string>)
    ensures s <= r <= s + IdsOf(folders)
    ensures Closed(folders, r)
    decreases IdsOf(folders) - s
  {
    if ChildIds(folders, s) <= s then
      assert forall f :: f in folders && f.parentId.Some? && f.parentId.value in s ==> f.id in ChildIds(folders, s);
      s
    else
      SaturateStep(folders, s);
      Saturate(folders, s + ChildIds(folders, s))
  }

  /** `root` together with every folder id below it through `parentId` links. */
  function Descendants(folders: seq<Folder>, root: string): (r: set<string>)
    ensures root in r
    ensures r <= {root} + IdsOf(folders)
    ensures Closed(folders, r)
  {
    Saturate(folders, {root})
  }

  lemma {:induction false} SaturateLeast(folders: seq<Folder>, s: set<string>, t: set<string>)
    requires s <= t && Closed(folders, t)
    ensures Saturate(folders, s) <= t
    decreases IdsOf(folders) - s
  {
    if !(ChildIds(folders, s) <= s) {
      SaturateStep(folders, s);
      SaturateLeast(folders, s + ChildIds(folders, s), t);
    }
  }

  /** The closure is the LEAST closed set containing the root: any closed
      set holding `root` holds all of its descendants. With `Descendants`'
      own ensures this pins the closure down exactly. */
  lemma DescendantsLeast(folders: seq<Folder>, root: string, t: set<string>)
    requires root in t && Closed(folders, t)
    ensures Descendants(folders, root) <= t
  {
    SaturateLeast(folders, {root}, t);
  }

  /** A folder nobody names as parent has only itself as closure. */
  lemma DescendantsOfLeaf(folders: seq<Folder>, root: string)
    requires forall f :: f in folders ==> f.parentId != Some(root)
    ensures Descendants(folders, root) == {root}
  {
    DescendantsLeast(folders, root, {root});
  }

  /** `collectFolderIds(id)`: walks the children of every collected id and
      adds them to the set. The walk skips ids already collected, so it
      ends on every parent graph; the set it returns is the closure. */
  method CollectFolderIds(folders: seq<Folder>, root: string) returns (ids: set<string>)
    ensures ids == Descendants(folders, root)
  {
    ghost var universe := {root} + IdsOf(folders);
    ghost var closure := Descendants(folders, root);
    ids := {root};
    var pending := {root};
    while pending != {}
      invariant pending <= ids <= closure
      invariant root in ids
      invariant forall f :: f in folders && f.parentId.Some? && f.parentId.value in ids - pending ==> f.id in ids
      decreases universe - ids, pending
    {
      var x :| x in pending;
      ghost var ids0, pending0 := ids, pending;
      pending := pending - {x};
      var i := 0;
      while i < |folders|
        invariant 0 <= i <= |folders|
        invariant pending <= ids <= closure
        invariant root in ids && x in ids && x !in pending
        invariant ids0 <= ids
        invariant ids == ids0 ==> pending == pending0 - {x}
        invariant pending - (pending0 - {x}) <= ids - ids0
        invariant forall f :: f in folders && f.parentId.Some? && f.parentId.value in ids - pending - {x} ==> f.id in ids
        invariant forall j :: 0 <= j < i && folders[j].parentId == Some(x) ==> folders[j].id in ids
      {
        var f := folders[i];
        if f.parentId == Some(x) && f.id !in ids {
          ids := ids + {f.id};
          pending := pending + {f.id};
        }
        i := i + 1;
      }
      assert forall f :: f in folders && f.parentId == Some(x) ==> f.id in ids;
    }
    DescendantsLeast(folders, root, ids);
  }
}
