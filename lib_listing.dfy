/**
 * What the block lists for a user: the folders they can create in (merged
 * from two sources and cached in the session), those folders as choices,
 * the recordings of a folder, and the recordings a user can see grouped
 * into a tree by folder. Listings are served from the session cache unless
 * a refresh is asked for, and the first fetch may be left to a later AJAX
 * request.
 */
module LibListing {
  import opened Php
  import opened Assoc
  import opened BaseSoapClient
  import opened FoldersSoapClient
  import opened LibConfig

  /** A value used as an array key; the ids and names involved are strings, anything else reads as "". */
  function KeyOf(v: Value): string
  {
    if v.Str? then v.s else ""
  }

  /** The key a folder is filed under: its Id. */
  function FolderKey(f: Value): string
  {
    KeyOf(Prop(f, "Id"))
  }

  /** A user's private folder, which the merge leaves out of the assigned folders. */
  predicate IsMyFolder(f: Value)
  {
    Prop(f, "Name") == Str("My Folder")
  }

  /** Every folder is filed under its own Id. */
  predicate KeyedById(a: Assoc<Value>)
  {
    forall i :: 0 <= i < |a| ==> a[i].0 == FolderKey(a[i].1)
  }

  /**
   * The folders array after `$folders[$f->Id] = $f` for each folder in
   * turn, skipping "My Folder" when asked to.
   */
  function PutFolders(acc: Assoc<Value>, fs: seq<Value>, skipMine: bool): Assoc<Value>
    decreases |fs|
  {
    if |fs| == 0 then acc
    else
      var prev := PutFolders(acc, fs[..|fs| - 1], skipMine);
      var f := fs[|fs| - 1];
      if skipMine && IsMyFolder(f) then prev else Put(prev, FolderKey(f), f)
  }

  /** The last folder of a list filed under a key, leaving out "My Folder" when asked to. */
  function LastWithKey(fs: seq<Value>, skipMine: bool, k: string): (r: Option<Value>)
    ensures r.Some? ==> r.value in fs && FolderKey(r.value) == k && !(skipMine && IsMyFolder(r.value))
    ensures r.None? ==> forall f :: f in fs && FolderKey(f) == k ==> skipMine && IsMyFolder(f)
    decreases |fs|
  {
    if |fs| == 0 then None
    else
      var f := fs[|fs| - 1];
      assert fs == fs[..|fs| - 1] + [f];
      if !(skipMine && IsMyFolder(f)) && FolderKey(f) == k then Some(f)
      else LastWithKey(fs[..|fs| - 1], skipMine, k)
  }

  /** Filing folders keeps keys distinct and each folder under its Id. */
  lemma {:induction false} PutFoldersKeyed(acc: Assoc<Value>, fs: seq<Value>, skipMine: bool)
    requires DistinctKeys(acc) && KeyedById(acc)
    ensures DistinctKeys(PutFolders(acc, fs, skipMine)) && KeyedById(PutFolders(acc, fs, skipMine))
    decreases |fs|
  {
    if |fs| > 0 {
      var f := fs[|fs| - 1];
      var prev := PutFolders(acc, fs[..|fs| - 1], skipMine);
      PutFoldersKeyed(acc, fs[..|fs| - 1], skipMine);
      if !(skipMine && IsMyFolder(f)) {
        PutGet(prev, FolderKey(f), f, "");
      }
    }
  }

  /**
   * After filing folders, a key holds the last admitted folder with that
   * Id, or what it held before when there is none.
   */
  lemma {:induction false} PutFoldersGet(acc: Assoc<Value>, fs: seq<Value>, skipMine: bool, k: string)
    requires DistinctKeys(acc) && KeyedById(acc)
    ensures DistinctKeys(PutFolders(acc, fs, skipMine)) && KeyedById(PutFolders(acc, fs, skipMine))
    ensures Get(PutFolders(acc, fs, skipMine), k) ==
              if LastWithKey(fs, skipMine, k).Some? then LastWithKey(fs, skipMine, k) else Get(acc, k)
    decreases |fs|
  {
    PutFoldersKeyed(acc, fs, skipMine);
    if |fs| > 0 {
      var pre := fs[..|fs| - 1];
      var f := fs[|fs| - 1];
      var prev := PutFolders(acc, pre, skipMine);
      PutFoldersGet(acc, pre, skipMine, k);
      if !(skipMine && IsMyFolder(f)) {
        PutGet(prev, FolderKey(f), f, k);
      }
    }
  }

  /**
   * The folders `get_folder_objects_for_user` assembles: the role-map
   * folders, then the assigned folders except "My Folder", each filed
   * under its Id so that a later folder replaces an earlier one.
   */
  function MergedFolders(rolemapfolders: Value, assignedfolders: Value): Assoc<Value>
  {
    var base := if IsNullish(rolemapfolders) then [] else PutFolders([], Items(rolemapfolders), false);
    if IsNullish(assignedfolders) then base else PutFolders(base, Items(assignedfolders), true)
  }

  /**
   * The merge has no duplicate Ids; an Id holds the last assigned folder
   * with it that is not "My Folder", and otherwise the last role-map folder
   * with it.
   */
  lemma MergedFoldersGet(rolemapfolders: Value, assignedfolders: Value, k: string)
    ensures DistinctKeys(MergedFolders(rolemapfolders, assignedfolders)) && KeyedById(MergedFolders(rolemapfolders, assignedfolders))
    ensures Get(MergedFolders(rolemapfolders, assignedfolders), k) ==
              var a := LastWithKey(Items(assignedfolders), true, k);
              if a.Some? then a else LastWithKey(Items(rolemapfolders), false, k)
  {
    var empty: Assoc<Value> := [];
    var base := PutFolders(empty, Items(rolemapfolders), false);
    assert MergedFolders(rolemapfolders, assignedfolders) == PutFolders(base, Items(assignedfolders), true) by {
      if IsNullish(rolemapfolders) {
        assert Items(rolemapfolders) == [];
      }
      if IsNullish(assignedfolders) {
        assert Items(assignedfolders) == [];
      }
    }
    PutFoldersGet(empty, Items(rolemapfolders), false, k);
    PutFoldersGet(base, Items(assignedfolders), true, k);
  }

  /**
   * Every role-map folder is kept, "My Folder" included; every assigned
   * folder other than "My Folder" is kept; nothing else appears; and an
   * assigned folder wins over a role-map folder with the same Id.
   */
  lemma MergedFoldersMembers(rolemapfolders: Value, assignedfolders: Value)
    ensures forall f :: f in Items(rolemapfolders) ==> HasKey(MergedFolders(rolemapfolders, assignedfolders), FolderKey(f))
    ensures forall f :: f in Items(assignedfolders) && !IsMyFolder(f) ==>
              Get(MergedFolders(rolemapfolders, assignedfolders), FolderKey(f)).Some?
              && Get(MergedFolders(rolemapfolders, assignedfolders), FolderKey(f)).value in Items(assignedfolders)
    ensures forall k :: HasKey(MergedFolders(rolemapfolders, assignedfolders), k) ==>
              exists f :: FolderKey(f) == k && (f in Items(rolemapfolders) || (f in Items(assignedfolders) && !IsMyFolder(f)))
  {
    var m := MergedFolders(rolemapfolders, assignedfolders);
    forall f | f in Items(rolemapfolders)
      ensures HasKey(m, FolderKey(f))
    {
      MergedFoldersGet(rolemapfolders, assignedfolders, FolderKey(f));
    }
    forall f | f in Items(assignedfolders) && !IsMyFolder(f)
      ensures Get(m, FolderKey(f)).Some? && Get(m, FolderKey(f)).value in Items(assignedfolders)
    {
      MergedFoldersGet(rolemapfolders, assignedfolders, FolderKey(f));
    }
    forall k | HasKey(m, k)
      ensures exists f :: FolderKey(f) == k && (f in Items(rolemapfolders) || (f in Items(assignedfolders) && !IsMyFolder(f)))
    {
      MergedFoldersGet(rolemapfolders, assignedfolders, k);
      var a := LastWithKey(Items(assignedfolders), true, k);
      if a.Some? {
        assert FolderKey(a.value) == k && a.value in Items(assignedfolders) && !IsMyFolder(a.value);
      } else {
        var b := LastWithKey(Items(rolemapfolders), false, k);
        assert FolderKey(b.value) == k && b.value in Items(rolemapfolders);
      }
    }
  }

  /** One filing loop of `get_folder_objects_for_user`: `$folders[$f->Id] = $f` for each folder, skipping "My Folder" when asked to. */
  method FileFolders(acc: Assoc<Value>, fs: seq<Value>, skipMine: bool) returns (folders: Assoc<Value>)
    ensures folders == PutFolders(acc, fs, skipMine)
  {
    folders := acc;
    var n := 0;
    while n < |fs|
      invariant 0 <= n <= |fs|
      invariant folders == PutFolders(acc, fs[..n], skipMine)
    {
      assert fs[..n + 1][..n] == fs[..n];
      if !(skipMine && IsMyFolder(fs[n])) {
        folders := Put(folders, FolderKey(fs[n]), fs[n]);
      }
      n := n + 1;
    }
    assert fs[..n] == fs;
  }

  /** The two filing loops of `get_folder_objects_for_user`: role-map folders, then assigned folders. */
  method MergeFolders(rolemapfolders: Value, assignedfolders: Value) returns (folders: Assoc<Value>)
    ensures folders == MergedFolders(rolemapfolders, assignedfolders)
  {
    folders := [];
    if !IsNullish(rolemapfolders) {
      folders := FileFolders(folders, Items(rolemapfolders), false);
    }
    if !IsNullish(assignedfolders) {
      folders := FileFolders(folders, Items(assignedfolders), true);
    }
  }

  /** The choices `$options[$f->Id] = $f->Name` built from a list of folders. */
  function OptionsOf(fs: seq<Value>): Assoc<Value>
    decreases |fs|
  {
    if |fs| == 0 then []
    else
      var f := fs[|fs| - 1];
      Put(OptionsOf(fs[..|fs| - 1]), FolderKey(f), Prop(f, "Name"))
  }

  /** For folders filed under distinct Ids, the choices are those Ids in the same order, each with its folder's name. */
  lemma {:induction false} OptionsOfFolders(a: Assoc<Value>)
    requires DistinctKeys(a) && KeyedById(a)
    ensures |OptionsOf(Values(a))| == |a|
    ensures forall i :: 0 <= i < |a| ==> OptionsOf(Values(a))[i] == (a[i].0, Prop(a[i].1, "Name"))
    decreases |a|
  {
    if |a| > 0 {
      var p := a[..|a| - 1];
      var f := a[|a| - 1].1;
      assert Values(a)[..|a| - 1] == Values(p);
      assert DistinctKeys(p);
      OptionsOfFolders(p);
      var prev := OptionsOf(Values(p));
      assert !HasKey(prev, FolderKey(f)) by {
        assert forall j :: 0 <= j < |prev| ==> prev[j].0 == a[j].0 != a[|a| - 1].0;
      }
      assert OptionsOf(Values(a)) == prev + [(FolderKey(f), Prop(f, "Name"))];
    }
  }

  /** The loop of `get_folder_options_for_user`. */
  method FolderOptions(folders: seq<Value>) returns (options: Assoc<Value>)
    ensures options == OptionsOf(folders)
  {
    options := [];
    var n := 0;
    while n < |folders|
      invariant 0 <= n <= |folders|
      invariant options == OptionsOf(folders[..n])
    {
      assert folders[..n + 1][..n] == folders[..n];
      options := Put(options, FolderKey(folders[n]), Prop(folders[n], "Name"));
      n := n + 1;
    }
    assert folders[..n] == folders;
  }

  /** One folder of the recording tree: its id and name, and its recordings. */
  datatype Branch = Branch(folderid: Value, foldername: Value, recordings: seq<Value>)

  /** The key a recording is filed under in the tree: the name of its folder. */
  function RecordingKey(r: Value): string
  {
    KeyOf(Prop(r, "FolderName"))
  }

  /** The tree after one more recording: appended to its folder's branch, opening the branch if needed. */
  function AddRecording(t: Assoc<Branch>, r: Value): Assoc<Branch>
  {
    var k := RecordingKey(r);
    if HasKey(t, k) then
      var i := IndexOf(t, k);
      t[i := (k, t[i].1.(recordings := t[i].1.recordings + [r]))]
    else
      t + [(k, Branch(Prop(r, "FolderId"), Prop(r, "FolderName"), [r]))]
  }

  /** The tree `get_recordings_for_user` builds from a list of recordings, before sorting. */
  function Grouped(recs: seq<Value>): Assoc<Branch>
    decreases |recs|
  {
    if |recs| == 0 then [] else AddRecording(Grouped(recs[..|recs| - 1]), recs[|recs| - 1])
  }

  /** The recordings filed under a folder-name key, in their original order. */
  function Filter(recs: seq<Value>, k: string): (rs: seq<Value>)
    ensures forall r :: r in rs ==> r in recs && RecordingKey(r) == k
    ensures forall r :: r in recs && RecordingKey(r) == k ==> r in rs
    decreases |recs|
  {
    if |recs| == 0 then []
    else
      var r := recs[|recs| - 1];
      assert recs == recs[..|recs| - 1] + [r];
      Filter(recs[..|recs| - 1], k) + (if RecordingKey(r) == k then [r] else [])
  }

  /** All recordings of a tree, branch after branch. */
  function Flatten(t: Assoc<Branch>): seq<Value>
    decreases |t|
  {
    if |t| == 0 then [] else Flatten(t[..|t| - 1]) + t[|t| - 1].1.recordings
  }

  /** Filtering a list with one more recording. */
  lemma FilterSnoc(pre: seq<Value>, r: Value, k: string)
    ensures Filter(pre + [r], k) == Filter(pre, k) + (if RecordingKey(r) == k then [r] else [])
  {
    assert (pre + [r])[..|pre|] == pre;
  }

  /** A branch holds exactly the recordings with its key, in order, and takes its folder from the first. */
  predicate BranchOf(recs: seq<Value>, e: (string, Branch))
  {
    && e.1.recordings == Filter(recs, e.0)
    && |e.1.recordings| > 0
    && e.1.folderid == Prop(e.1.recordings[0], "FolderId")
    && e.1.foldername == Prop(e.1.recordings[0], "FolderName")
  }

  /** A tree of the recordings: one branch per folder name, each as BranchOf says, and every recording has one. */
  predicate TreeOf(recs: seq<Value>, t: Assoc<Branch>)
  {
    && DistinctKeys(t)
    && (forall i :: 0 <= i < |t| ==> BranchOf(recs, t[i]))
    && (forall r :: r in recs ==> HasKey(t, RecordingKey(r)))
  }

  /** Adding a recording whose folder already has a branch keeps the tree a tree of the longer list. */
  lemma AddToBranch(pre: seq<Value>, t: Assoc<Branch>, r: Value)
    requires TreeOf(pre, t) && HasKey(t, RecordingKey(r))
    ensures TreeOf(pre + [r], AddRecording(t, r))
  {
    var k := RecordingKey(r);
    var i := IndexOf(t, k);
    var t' := AddRecording(t, r);
    assert t' == t[i := (k, t[i].1.(recordings := t[i].1.recordings + [r]))];
    forall j | 0 <= j < |t'|
      ensures BranchOf(pre + [r], t'[j])
    {
      FilterSnoc(pre, r, t'[j].0);
      if j != i {
        assert t[j].0 != k;
      }
    }
    forall x | x in pre + [r]
      ensures HasKey(t', RecordingKey(x))
    {
      var j := if x in pre then IndexOf(t, RecordingKey(x)) else i;
      assert t'[j].0 == RecordingKey(x);
    }
  }

  /** No recording has the key: nothing is filed under it. */
  lemma {:induction false} FilterNone(recs: seq<Value>, k: string)
    requires forall x :: x in recs ==> RecordingKey(x) != k
    ensures Filter(recs, k) == []
    decreases |recs|
  {
    if |recs| > 0 {
      FilterNone(recs[..|recs| - 1], k);
    }
  }

  /** The branch a recording of a new folder opens holds just that recording. */
  lemma NewBranch(pre: seq<Value>, r: Value)
    requires forall x :: x in pre ==> RecordingKey(x) != RecordingKey(r)
    ensures BranchOf(pre + [r], (RecordingKey(r), Branch(Prop(r, "FolderId"), Prop(r, "FolderName"), [r])))
  {
    var k := RecordingKey(r);
    FilterNone(pre, k);
    FilterSnoc(pre, r, k);
  }

  /** A branch of another folder is unaffected by one more recording. */
  lemma OtherBranch(pre: seq<Value>, r: Value, e: (string, Branch))
    requires BranchOf(pre, e) && e.0 != RecordingKey(r)
    ensures BranchOf(pre + [r], e)
  {
    FilterSnoc(pre, r, e.0);
  }

  /** Opening a branch for a new folder keeps keys distinct and every earlier folder's branch. */
  lemma AddBranchKeys(t: Assoc<Branch>, e: (string, Branch), recs: seq<Value>)
    requires DistinctKeys(t) && !HasKey(t, e.0)
    requires forall x :: x in recs ==> HasKey(t, RecordingKey(x))
    ensures DistinctKeys(t + [e])
    ensures forall x :: x in recs ==> HasKey(t + [e], RecordingKey(x))
  {
    var t' := t + [e];
    assert forall j :: 0 <= j < |t| ==> t'[j] == t[j];
    forall x | x in recs
      ensures HasKey(t', RecordingKey(x))
    {
      var j := IndexOf(t, RecordingKey(x));
      assert t'[j].0 == RecordingKey(x);
    }
  }

  /** The branches of a tree stay branches when a recording of another folder follows, and a new one is appended. */
  lemma KeptBranches(pre: seq<Value>, t: Assoc<Branch>, r: Value, e: (string, Branch))
    requires forall j :: 0 <= j < |t| ==> BranchOf(pre, t[j])
    requires !HasKey(t, RecordingKey(r)) && BranchOf(pre + [r], e)
    ensures forall j :: 0 <= j < |t + [e]| ==> BranchOf(pre + [r], (t + [e])[j])
  {
    forall j | 0 <= j < |t + [e]|
      ensures BranchOf(pre + [r], (t + [e])[j])
    {
      if j < |t| {
        assert t[j].0 != RecordingKey(r);
        OtherBranch(pre, r, t[j]);
      }
    }
  }

  /** Adding a recording of a new folder opens a branch and keeps the tree a tree of the longer list. */
  lemma AddBranch(pre: seq<Value>, t: Assoc<Branch>, r: Value)
    requires TreeOf(pre, t) && !HasKey(t, RecordingKey(r))
    ensures TreeOf(pre + [r], AddRecording(t, r))
  {
    var k := RecordingKey(r);
    var e := (k, Branch(Prop(r, "FolderId"), Prop(r, "FolderName"), [r]));
    var t' := t + [e];
    assert AddRecording(t, r) == t';
    assert forall x :: x in pre ==> RecordingKey(x) != k;
    NewBranch(pre, r);
    KeptBranches(pre, t, r, e);
    AddBranchKeys(t, e, pre);
    forall x | x in pre + [r]
      ensures HasKey(t', RecordingKey(x))
    {
      if x !in pre {
        assert t'[|t|].0 == RecordingKey(x);
      }
    }
  }

  /** The body of the tree-building loop is one AddRecording step: open the branch if new, then append. */
  lemma AddRecordingStep(t: Assoc<Branch>, r: Value)
    ensures var k := RecordingKey(r);
            var t1 := if HasKey(t, k) then t else t + [(k, Branch(Prop(r, "FolderId"), Prop(r, "FolderName"), []))];
            var i := IndexOf(t1, k);
            0 <= i && t1[i := (k, t1[i].1.(recordings := t1[i].1.recordings + [r]))] == AddRecording(t, r)
  {
    var k := RecordingKey(r);
    if !HasKey(t, k) {
      var t1 := t + [(k, Branch(Prop(r, "FolderId"), Prop(r, "FolderName"), []))];
      assert IndexOf(t1, k) == |t|;
      var b := t1[|t|].1;
      assert b.recordings + [r] == [r];
      assert b.(recordings := b.recordings + [r]) == Branch(Prop(r, "FolderId"), Prop(r, "FolderName"), [r]);
      assert t1[|t| := (k, b.(recordings := b.recordings + [r]))]
          == t + [(k, Branch(Prop(r, "FolderId"), Prop(r, "FolderName"), [r]))];
    }
  }

  /**
   * The tree has one branch per folder name; a branch holds exactly the
   * recordings with that folder name, in order, and takes its folder id and
   * name from the first of them; every recording has a branch.
   */
  lemma {:induction false} GroupedBranches(recs: seq<Value>)
    ensures TreeOf(recs, Grouped(recs))
    decreases |recs|
  {
    if |recs| > 0 {
      var pre := recs[..|recs| - 1];
      var r := recs[|recs| - 1];
      assert recs == pre + [r];
      GroupedBranches(pre);
      if HasKey(Grouped(pre), RecordingKey(r)) {
        AddToBranch(pre, Grouped(pre), r);
      } else {
        AddBranch(pre, Grouped(pre), r);
      }
    }
  }

  /** Appending a recording to one branch adds exactly that recording to the tree's contents. */
  lemma {:induction false} FlattenAppendAt(t: Assoc<Branch>, i: nat, r: Value)
    requires i < |t|
    ensures multiset(Flatten(t[i := (t[i].0, t[i].1.(recordings := t[i].1.recordings + [r]))]))
            == multiset(Flatten(t)) + multiset{r}
    decreases |t|
  {
    var t' := t[i := (t[i].0, t[i].1.(recordings := t[i].1.recordings + [r]))];
    var n := |t|;
    var p := t[..n - 1];
    assert Flatten(t) == Flatten(p) + t[n - 1].1.recordings;
    if i == n - 1 {
      assert t'[..n - 1] == p;
      assert Flatten(t') == Flatten(p) + (t[n - 1].1.recordings + [r]);
      assert Flatten(t') == Flatten(t) + [r];
    } else {
      var p' := t'[..n - 1];
      assert p' == p[i := (p[i].0, p[i].1.(recordings := p[i].1.recordings + [r]))];
      FlattenAppendAt(p, i, r);
      assert Flatten(t') == Flatten(p') + t[n - 1].1.recordings;
    }
  }

  /** The tree is a partition of the recordings: each appears in it exactly as often as in the list. */
  lemma {:induction false} GroupedPartition(recs: seq<Value>)
    ensures multiset(Flatten(Grouped(recs))) == multiset(recs)
    decreases |recs|
  {
    if |recs| > 0 {
      var pre := recs[..|recs| - 1];
      var r := recs[|recs| - 1];
      GroupedPartition(pre);
      AddRecordingFlatten(Grouped(pre), r);
      MultisetSnoc(recs);
    }
  }

  /** A list's multiset is that of all but its last element, plus the last. */
  lemma MultisetSnoc<T>(s: seq<T>)
    requires |s| > 0
    ensures multiset(s) == multiset(s[..|s| - 1]) + multiset{s[|s| - 1]}
  {
    assert s == s[..|s| - 1] + [s[|s| - 1]];
  }

  /** Filing one recording adds exactly that recording to the tree's contents. */
  lemma AddRecordingFlatten(t: Assoc<Branch>, r: Value)
    ensures multiset(Flatten(AddRecording(t, r))) == multiset(Flatten(t)) + multiset{r}
  {
    var k := RecordingKey(r);
    if HasKey(t, k) {
      FlattenAppendAt(t, IndexOf(t, k), r);
    } else {
      var t' := t + [(k, Branch(Prop(r, "FolderId"), Prop(r, "FolderName"), [r]))];
      assert t'[..|t'| - 1] == t;
      assert Flatten(t') == Flatten(t) + [r];
    }
  }

  /** Grouping one more recording of a list is one AddRecording step. */
  lemma GroupedPrefix(recs: seq<Value>, n: nat)
    requires n < |recs|
    ensures Grouped(recs[..n + 1]) == AddRecording(Grouped(recs[..n]), recs[n])
  {
    assert recs[..n + 1][..n] == recs[..n];
  }

  /** The loop of `get_recordings_for_user` that builds the tree. */
  method BuildTree(recordings: Value) returns (tree: Assoc<Branch>)
    ensures tree == Grouped(Items(recordings))
  {
    var recs := Items(recordings);
    tree := [];
    var n := 0;
    while n < |recs|
      invariant 0 <= n <= |recs|
      invariant tree == Grouped(recs[..n])
    {
      GroupedPrefix(recs, n);
      tree := FileRecording(tree, recs[n]);
      n := n + 1;
    }
    assert recs[..n] == recs;
  }

  /** One pass of the tree-building loop: open the recording's branch if new, then append the recording to it. */
  method FileRecording(tree: Assoc<Branch>, r: Value) returns (tree': Assoc<Branch>)
    ensures tree' == AddRecording(tree, r)
  {
    var k := RecordingKey(r);
    AddRecordingStep(tree, r);
    tree' := tree;
    if !HasKey(tree', k) {
      tree' := tree' + [(k, Branch(Prop(r, "FolderId"), Prop(r, "FolderName"), []))];
    }
    var i := IndexOf(tree', k);
    tree' := tree'[i := (k, tree'[i].1.(recordings := tree'[i].1.recordings + [r]))];
  }

  /** What a "recordings:" entry of the session cache holds: a folder's recordings as listed, or a user's tree. */
  datatype Listing = Flat(recordings: Value) | Tree(branches: Assoc<Branch>)

  /** The session-cache key of a user's folders. */
  function FoldersCacheKey(username: string): string
  {
    "folders:" + username
  }

  /** The session-cache key of a folder's recordings, or of a user's recording tree. */
  function RecordingsCacheKey(id: string): string
  {
    "recordings:" + id
  }

  /** The message of a failed last result, "" otherwise. */
  function ErrorOf(lr: LastResult): (msg: string)
    ensures lr.Failed? ==> msg == lr.failure.Message()
    ensures !lr.Failed? ==> msg == ""
  {
    if lr.Failed? then lr.failure.Message() else ""
  }

  /** The session cache: folder lists and recording listings, each under its key. */
  class SessionCache {
    var folders: map<string, Assoc<Value>>
    var recordings: map<string, Listing>

    /** Every cached folder list is filed by Id without duplicates. */
    predicate Valid()
      reads this
    {
      forall k :: k in folders ==> DistinctKeys(folders[k]) && KeyedById(folders[k])
    }

    /** A fresh session holds nothing. */
    constructor()
      ensures folders == map[] && recordings == map[]
      ensures Valid()
    {
      folders := map[];
      recordings := map[];
    }
  }

  /** The folders the role-map lookup contributes: none without a role map, null when no course matched. */
  function RolemapFolders(config: Config, courseids: seq<string>, answer: Outcome): (folders: Value)
    ensures EmptyString(config.creatorrolemap) ==> Items(folders) == []
    ensures courseids == [] ==> Items(folders) == []
    ensures answer.Thrown? ==> Items(folders) == []
  {
    if EmptyString(config.creatorrolemap) then List([])
    else if courseids == [] then Null
    else FolderContextReply("GetAllFoldersWithExternalContextByExternalId", answer)
  }

  /** The client's last result after the role-map lookup, which makes no call without a role map or courses. */
  function RolemapResult(config: Config, courseids: seq<string>, answer: Outcome, prev: LastResult): (lr: LastResult)
    ensures EmptyString(config.creatorrolemap) || courseids == [] ==> lr == prev
    ensures lr.Failed? ==> answer.Thrown? || lr == prev
  {
    if EmptyString(config.creatorrolemap) || courseids == [] then prev
    else AfterCall("GetAllFoldersWithExternalContextByExternalId", answer, prev)
  }

  /** The folders the assigned-folder lookup contributes: null for an empty username. */
  function AssignedFolders(username: string, answer: Outcome): (folders: Value)
    ensures EmptyString(username) || answer.Thrown? ==> folders == Null
  {
    if EmptyString(username) then Null else CreatorFoldersReply(answer)
  }

  /** The client's last result after the assigned-folder lookup, which makes no call for an empty username. */
  function AssignedResult(username: string, answer: Outcome, prev: LastResult): (lr: LastResult)
    ensures EmptyString(username) ==> lr == prev
    ensures lr.Failed? ==> answer.Thrown? || lr == prev
  {
    if EmptyString(username) then prev else AfterCall("GetCreatorFoldersList", answer, prev)
  }

  /**
   * The error message of a folder fetch: the message of the last result
   * after the role-map lookup when there is a role map, followed by that
   * after the assigned-folder lookup, each when it is a failure.
   */
  function FolderErrors(config: Config, courseids: seq<string>, username: string,
                        rolemapAnswer: Outcome, assignedAnswer: Outcome, prev: LastResult): (msg: string)
  {
    var r1 := RolemapResult(config, courseids, rolemapAnswer, prev);
    var r2 := AssignedResult(username, assignedAnswer, r1);
    (if EmptyString(config.creatorrolemap) then "" else ErrorOf(r1)) + ErrorOf(r2)
  }

  /** A fetch on a healthy client whose calls all return reports no error, so its folders are cached. */
  lemma HealthyFetchHasNoError(config: Config, courseids: seq<string>, username: string,
                               rolemapAnswer: Outcome, assignedAnswer: Outcome, prev: LastResult)
    requires !prev.Failed? && rolemapAnswer.Returned? && assignedAnswer.Returned?
    ensures FolderErrors(config, courseids, username, rolemapAnswer, assignedAnswer, prev) == ""
  {
    var r1 := RolemapResult(config, courseids, rolemapAnswer, prev);
    assert !r1.Failed?;
    assert !AssignedResult(username, assignedAnswer, r1).Failed?;
  }

  /** A lookup that is made and throws an exception whose message is not empty() makes the fetch report an error, so nothing is cached. */
  lemma ThrownLookupReportsError(config: Config, courseids: seq<string>, username: string,
                                 rolemapAnswer: Outcome, assignedAnswer: Outcome, prev: LastResult)
    requires || (!EmptyString(username) && assignedAnswer.Thrown? && !EmptyString(assignedAnswer.failure.Message()))
             || (!EmptyString(config.creatorrolemap) && courseids != [] && rolemapAnswer.Thrown?
                 && !EmptyString(rolemapAnswer.failure.Message()))
    ensures !EmptyString(FolderErrors(config, courseids, username, rolemapAnswer, assignedAnswer, prev))
  {
    var r1 := RolemapResult(config, courseids, rolemapAnswer, prev);
    var r2 := AssignedResult(username, assignedAnswer, r1);
    var e1 := if EmptyString(config.creatorrolemap) then "" else ErrorOf(r1);
    if !EmptyString(username) && assignedAnswer.Thrown? && !EmptyString(assignedAnswer.failure.Message()) {
      assert r2 == Failed(assignedAnswer.failure);
      assert (e1 + ErrorOf(r2))[|e1|..] == ErrorOf(r2);
    } else {
      assert r1 == Failed(rolemapAnswer.failure);
      assert (e1 + ErrorOf(r2))[..|e1|] == e1;
    }
  }

  /**
   * A failure left over from an earlier call is reported again when the
   * fetch makes no call: with no role map and no username the message is
   * that failure's.
   */
  lemma StaleFailureReported(config: Config, courseids: seq<string>, username: string,
                             rolemapAnswer: Outcome, assignedAnswer: Outcome, prev: LastResult)
    requires EmptyString(config.creatorrolemap) && EmptyString(username) && prev.Failed?
    ensures FolderErrors(config, courseids, username, rolemapAnswer, assignedAnswer, prev) == prev.failure.Message()
  {
  }

  /** Unless refreshing, a non-empty cached folder list is answered without a fetch. */
  predicate FoldersHit(cached: map<string, Assoc<Value>>, username: string, refresh: bool)
  {
    !refresh && FoldersCacheKey(username) in cached && |cached[FoldersCacheKey(username)]| > 0
  }

  /** Unless refreshing, a folder lookup that misses the cache is left to the AJAX request when the site asks for that. */
  predicate FoldersDeferred(cached: map<string, Assoc<Value>>, config: Config, username: string, refresh: bool, ajax: bool)
  {
    !refresh && !FoldersHit(cached, username, refresh) && !ajax && Flag(config.ajaxfirstload)
  }

  /** The folders a fetch assembles. */
  function FetchedFolders(config: Config, courseids: seq<string>, username: string,
                          rolemapAnswer: Outcome, assignedAnswer: Outcome): (fs: Assoc<Value>)
    ensures DistinctKeys(fs) && KeyedById(fs)
  {
    var rm := RolemapFolders(config, courseids, rolemapAnswer);
    var af := AssignedFolders(username, assignedAnswer);
    MergedFoldersGet(rm, af, "");
    MergedFolders(rm, af)
  }

  /**
   * The fetch of `get_folder_objects_for_user`: the role-map lookup when
   * the site maps roles to creators, then the assigned-folder lookup, each
   * failure's message appended to the error, and the two lists merged.
   */
  method FetchFolders(c: SoapClient, config: Config, username: string, courseids: seq<string>,
                      rolemapAnswer: Outcome, assignedAnswer: Outcome)
    returns (merged: Assoc<Value>, errormsg: string)
    modifies c
    ensures merged == FetchedFolders(config, courseids, username, rolemapAnswer, assignedAnswer)
    ensures c.result == AssignedResult(username, assignedAnswer,
                                       RolemapResult(config, courseids, rolemapAnswer, old(c.result)))
    ensures errormsg == FolderErrors(config, courseids, username, rolemapAnswer, assignedAnswer, old(c.result))
  {
    var rolemapfolders, rolemaperror := RolemapLookup(c, config, courseids, rolemapAnswer);
    var assignedfolders, assignederror := AssignedLookup(c, username, assignedAnswer);
    errormsg := rolemaperror + assignederror;
    merged := MergeFolders(rolemapfolders, assignedfolders);
  }

  /** The role-map lookup of `get_folder_objects_for_user`, made only when the site maps roles to creators. */
  method RolemapLookup(c: SoapClient, config: Config, courseids: seq<string>, answer: Outcome)
    returns (folders: Value, errormsg: string)
    modifies c
    ensures folders == RolemapFolders(config, courseids, answer)
    ensures c.result == RolemapResult(config, courseids, answer, old(c.result))
    ensures errormsg == if EmptyString(config.creatorrolemap) then "" else ErrorOf(c.result)
  {
    errormsg := "";
    folders := List([]);
    if !EmptyString(config.creatorrolemap) {
      folders := GetFoldersByCourseIds(c, Array(courseids), answer);
      if !c.Success() {
        errormsg := c.Result().failure.Message();
      }
    }
  }

  /** The assigned-folder lookup of `get_folder_objects_for_user`. */
  method AssignedLookup(c: SoapClient, username: string, answer: Outcome) returns (folders: Value, errormsg: string)
    modifies c
    ensures folders == AssignedFolders(username, answer)
    ensures c.result == AssignedResult(username, answer, old(c.result))
    ensures errormsg == ErrorOf(c.result)
  {
    errormsg := "";
    folders := GetFoldersForUser(c, username, answer);
    if !c.Success() {
      errormsg := c.Result().failure.Message();
    }
  }

  /**
   * `get_folder_objects_for_user`: the user's folders and an error message.
   * Unless refreshing, a non-empty cached list is answered at once, and an
   * empty cache defers the fetch to the AJAX request when the site asks for
   * that (the folders are then null). A fetch merges the role-map folders
   * of the given courses with the folders assigned to the user, collects
   * the failures' messages, and caches the merge only when there were none.
   */
  method FolderObjectsForUser(c: SoapClient, cache: SessionCache, config: Config, username: string,
                              refresh: bool, ajax: bool, courseids: seq<string>,
                              rolemapAnswer: Outcome, assignedAnswer: Outcome)
    returns (folders: Option<Assoc<Value>>, errormsg: string)
    requires cache.Valid()
    modifies c, cache
    ensures cache.Valid()
    ensures cache.recordings == old(cache.recordings)
    ensures folders.Some? ==> DistinctKeys(folders.value) && KeyedById(folders.value)
    ensures FoldersHit(old(cache.folders), username, refresh) ==>
              && folders == Some(old(cache.folders)[FoldersCacheKey(username)]) && errormsg == ""
              && c.request == old(c.request) && c.result == old(c.result) && cache.folders == old(cache.folders)
    ensures FoldersDeferred(old(cache.folders), config, username, refresh, ajax) ==>
              && folders == None && errormsg == ""
              && c.request == old(c.request) && c.result == old(c.result) && cache.folders == old(cache.folders)
    ensures !FoldersHit(old(cache.folders), username, refresh)
            && !FoldersDeferred(old(cache.folders), config, username, refresh, ajax) ==>
              && folders == Some(FetchedFolders(config, courseids, username, rolemapAnswer, assignedAnswer))
              && c.result == AssignedResult(username, assignedAnswer,
                                            RolemapResult(config, courseids, rolemapAnswer, old(c.result)))
              && errormsg == FolderErrors(config, courseids, username, rolemapAnswer, assignedAnswer, old(c.result))
              && (EmptyString(errormsg) ==> cache.folders == old(cache.folders)[FoldersCacheKey(username) := folders.value])
              && (!EmptyString(errormsg) ==> cache.folders == old(cache.folders))
  {
    var key := FoldersCacheKey(username);
    errormsg := "";
    if !refresh {
      if key in cache.folders && |cache.folders[key]| > 0 {
        return Some(cache.folders[key]), errormsg;
      }
      if !ajax && Flag(config.ajaxfirstload) {
        return None, errormsg;
      }
    }
    assert !FoldersHit(old(cache.folders), username, refresh);
    assert !FoldersDeferred(old(cache.folders), config, username, refresh, ajax);
    var merged;
    merged, errormsg := FetchFolders(c, config, username, courseids, rolemapAnswer, assignedAnswer);
    if EmptyString(errormsg) {
      assert forall k :: k in cache.folders[key := merged] ==> k == key || k in cache.folders;
      cache.folders := cache.folders[key := merged];
    }
    return Some(merged), errormsg;
  }

  /**
   * `get_folder_options_for_user`: the Id-to-name choices of the user's
   * folders, in the folders' order; none when fetching them reported an
   * error, and none when the fetch was deferred.
   */
  method FolderOptionsForUser(c: SoapClient, cache: SessionCache, config: Config, username: string,
                              refresh: bool, ajax: bool, courseids: seq<string>,
                              rolemapAnswer: Outcome, assignedAnswer: Outcome)
    returns (options: Assoc<Value>)
    requires cache.Valid()
    modifies c, cache
    ensures cache.Valid()
    ensures DistinctKeys(options)
    ensures FoldersDeferred(old(cache.folders), config, username, refresh, ajax) ==> options == []
    ensures !FoldersHit(old(cache.folders), username, refresh)
            && !FoldersDeferred(old(cache.folders), config, username, refresh, ajax)
            && !EmptyString(FolderErrors(config, courseids, username, rolemapAnswer, assignedAnswer, old(c.result))) ==>
              options == []
    ensures var fs := if FoldersHit(old(cache.folders), username, refresh)
                      then old(cache.folders)[FoldersCacheKey(username)]
                      else FetchedFolders(config, courseids, username, rolemapAnswer, assignedAnswer);
            FoldersHit(old(cache.folders), username, refresh)
            || (!FoldersDeferred(old(cache.folders), config, username, refresh, ajax)
                && EmptyString(FolderErrors(config, courseids, username, rolemapAnswer, assignedAnswer, old(c.result)))) ==>
              && |options| == |fs|
              && forall i :: 0 <= i < |fs| ==> options[i] == (fs[i].0, Prop(fs[i].1, "Name"))
  {
    var folders, errormsg := FolderObjectsForUser(c, cache, config, username, refresh, ajax, courseids,
                                                  rolemapAnswer, assignedAnswer);
    if !EmptyString(errormsg) {
      return [];
    }
    var fs := if folders.Some? then folders.value else [];
    options := FolderOptions(Values(fs));
    OptionsOfFolders(fs);
    assert forall i :: 0 <= i < |options| ==> options[i].0 == fs[i].0;
  }

  /**
   * `get_recordings_for_folder`: a folder's recordings and an error
   * message. An incomplete site configuration or an empty folder id is
   * reported without a call. Unless refreshing, any cached entry is
   * answered, and an empty cache may defer to the AJAX request. A fetch
   * that fails reports the failure's message and caches nothing; otherwise
   * its answer is cached.
   */
  method RecordingsForFolder(site: Option<Config>, c: SoapClient, cache: SessionCache, folderid: string,
                             refresh: bool, ajax: bool, answer: Outcome)
    returns (recordings: Listing, errormsg: string)
    modifies c, cache
    ensures cache.folders == old(cache.folders)
    ensures !PluginConfigured(site) ==> recordings == Flat(Null) && errormsg == NO_SITE_CONFIG
    ensures PluginConfigured(site) && EmptyString(folderid) ==> recordings == Flat(Null) && errormsg == NO_INSTANCE_CONFIG
    ensures var key := RecordingsCacheKey(folderid);
            var ready := PluginConfigured(site) && !EmptyString(folderid);
            var hit := ready && !refresh && key in old(cache.recordings);
            var defer := ready && !refresh && !hit && !ajax && Flag(site.value.ajaxfirstload);
            var after := AfterCall("GetSessionsList", answer, old(c.result));
            && (hit ==> recordings == old(cache.recordings[key]) && errormsg == "")
            && (defer ==> recordings == Flat(Null) && errormsg == "")
            && (!ready || hit || defer ==>
                  c.request == old(c.request) && c.result == old(c.result) && cache.recordings == old(cache.recordings))
            && (ready && !hit && !defer ==>
                  && c.result == after
                  && (after.Failed? ==> recordings == Flat(Null) && errormsg == after.failure.Message()
                                        && cache.recordings == old(cache.recordings))
                  && (!after.Failed? ==> recordings == Flat(RecordingsReply(answer)) && errormsg == ""
                                         && cache.recordings == old(cache.recordings)[key := recordings]))
  {
    if !PluginConfigured(site) {
      return Flat(Null), NO_SITE_CONFIG;
    }
    if EmptyString(folderid) {
      return Flat(Null), NO_INSTANCE_CONFIG;
    }
    var config := site.value;
    var key := RecordingsCacheKey(folderid);
    if !refresh {
      if key in cache.recordings {
        return cache.recordings[key], "";
      }
      if !ajax && Flag(config.ajaxfirstload) {
        return Flat(Null), "";
      }
    }
    var recs := GetRecordingsByFolderId(c, folderid, answer);
    if !c.Success() {
      return Flat(Null), c.Result().failure.Message();
    }
    cache.recordings := cache.recordings[key := Flat(recs)];
    return Flat(recs), "";
  }

  /**
   * `get_recordings_for_user`: the recordings a user can see, grouped into
   * a tree by folder name, and an error message. Caching, deferral and
   * failure are as for a folder's recordings; an empty username makes no
   * call and, unless an earlier failure is still the last result, gives an
   * empty tree.
   */
  method RecordingsForUser(site: Option<Config>, c: SoapClient, cache: SessionCache, username: string,
                           refresh: bool, ajax: bool, answer: Outcome)
    returns (tree: Listing, errormsg: string)
    modifies c, cache
    ensures cache.folders == old(cache.folders)
    ensures !PluginConfigured(site) ==> tree == Flat(Null) && errormsg == NO_SITE_CONFIG
    ensures var key := RecordingsCacheKey(username);
            var ready := PluginConfigured(site);
            var hit := ready && !refresh && key in old(cache.recordings);
            var defer := ready && !refresh && !hit && !ajax && Flag(site.value.ajaxfirstload);
            var after := if EmptyString(username) then old(c.result) else AfterCall("GetSessionsList", answer, old(c.result));
            var recs := if EmptyString(username) then Null else RecordingsReply(answer);
            && (hit ==> tree == old(cache.recordings[key]) && errormsg == "")
            && (defer ==> tree == Flat(Null) && errormsg == "")
            && (!ready || hit || defer ==>
                  c.request == old(c.request) && c.result == old(c.result) && cache.recordings == old(cache.recordings))
            && (ready && !hit && !defer ==>
                  && c.result == after
                  && (after.Failed? ==> tree == Flat(Null) && errormsg == after.failure.Message()
                                        && cache.recordings == old(cache.recordings))
                  && (!after.Failed? ==> tree == Tree(Grouped(Items(recs))) && errormsg == ""
                                         && cache.recordings == old(cache.recordings)[key := tree]))
  {
    if !PluginConfigured(site) {
      return Flat(Null), NO_SITE_CONFIG;
    }
    var config := site.value;
    var key := RecordingsCacheKey(username);
    if !refresh {
      if key in cache.recordings {
        return cache.recordings[key], "";
      }
      if !ajax && Flag(config.ajaxfirstload) {
        return Flat(Null), "";
      }
    }
    var recs := GetRecordingsByUsername(c, username, answer);
    if !c.Success() {
      return Flat(Null), c.Result().failure.Message();
    }
    var branches := BuildTree(recs);
    tree := Tree(branches);
    cache.recordings := cache.recordings[key := tree];
    errormsg := "";
  }
}
