/**
 * The virtual file tree of a playground and the identity of its files:
 * locating a file's path (the object itself or an equal copy), listing every
 * path of a file name, the content hash and the file id built from them.
 */
module FileTree {
  import opened Wrappers
  import opened JsStrings

  /** A file leaf. `id` stands for the identity of the JavaScript object: two
      nodes with the same id are the same object. */
  datatype File = File(id: nat, filename: string, fileExtension: string, content: string)

  /** A folder: a name and an ordered list of files and sub-folders. */
  datatype Folder = Folder(folderName: string, items: seq<Item>)

  /** An item of a folder; in the source a folder is recognised by its `folderName` key. */
  datatype Item = FileItem(file: File) | FolderItem(folder: Folder)

  /** `filename`, followed by `"." + fileExtension` when the extension is non-empty. */
  function LeafName(f: File): string {
    f.filename + (if f.fileExtension != "" then "." + f.fileExtension else "")
  }

  /** The path of file `f` below the folders named `dirs`, joined with `/`. */
  function PathOf(dirs: seq<string>, f: File): string {
    Join(dirs + [LeafName(f)], "/")
  }

  /** `item === file`. */
  predicate IdMatch(item: File, file: File) {
    item.id == file.id
  }

  /** Same filename, extension and content. */
  predicate ValueMatch(item: File, file: File) {
    item.filename == file.filename && item.fileExtension == file.fileExtension && item.content == file.content
  }

  /** What `findFilePath` accepts: the same object, or an equal triple. */
  predicate Matches(item: File, file: File) {
    IdMatch(item, file) || ValueMatch(item, file)
  }

  /** What `findAllFilePaths` accepts: same filename and extension. */
  predicate SameName(item: File, file: File) {
    item.filename == file.filename && item.fileExtension == file.fileExtension
  }

  // ---------------------------------------------------------------------------
  // The reference view: every file of a tree with its enclosing folder names.
  // ---------------------------------------------------------------------------

  /** A file of the tree and the names of the folders that enclose it, outermost first. */
  datatype Entry = Entry(dirs: seq<string>, file: File)

  function EntryPath(e: Entry): string {
    PathOf(e.dirs, e.file)
  }

  /** Every file below `folder` in depth-first, left-to-right order, each with
      `pathSoFar` followed by the folder names on the way down to it (so at
      least as many folder names as `pathSoFar` holds). */
  function Entries(folder: Folder, pathSoFar: seq<string>): (es: seq<Entry>)
    ensures forall k :: 0 <= k < |es| ==> |es[k].dirs| >= |pathSoFar|
    decreases folder, 1, 0, 0
  {
    EntriesFrom(folder, pathSoFar, 0)
  }

  /** The entries contributed by `folder.items[i]`. */
  function ItemEntries(folder: Folder, pathSoFar: seq<string>, i: nat): (es: seq<Entry>)
    requires i < |folder.items|
    ensures forall k :: 0 <= k < |es| ==> |es[k].dirs| >= |pathSoFar|
    decreases folder, 0, |folder.items| - i, 0
  {
    match folder.items[i]
    case FileItem(f) => [Entry(pathSoFar, f)]
    case FolderItem(sub) =>
      Entries(sub, pathSoFar + [sub.folderName])
  }

  /** The entries contributed by `folder.items[i..]`. */
  function EntriesFrom(folder: Folder, pathSoFar: seq<string>, i: nat): (es: seq<Entry>)
    requires i <= |folder.items|
    ensures forall k :: 0 <= k < |es| ==> |es[k].dirs| >= |pathSoFar|
    decreases folder, 0, |folder.items| - i, 1
  {
    if i == |folder.items| then [] else ItemEntries(folder, pathSoFar, i) + EntriesFrom(folder, pathSoFar, i + 1)
  }

  /** Node ids stand for object identity: an entry that is the same object as
      `file` has `file`'s fields. */
  predicate IdentityConsistent(file: File, es: seq<Entry>) {
    forall k :: 0 <= k < |es| && IdMatch(es[k].file, file) ==> es[k].file == file
  }

  /** Some entry of `es` matches `file`. */
  predicate AnyMatch(file: File, es: seq<Entry>) {
    exists k :: 0 <= k < |es| && Matches(es[k].file, file)
  }

  /** Some entry of `es` matches `file` and has path `p`. */
  predicate MatchAt(file: File, es: seq<Entry>, p: string) {
    exists k :: 0 <= k < |es| && Matches(es[k].file, file) && EntryPath(es[k]) == p
  }

  lemma MatchAtAppend(file: File, a: seq<Entry>, b: seq<Entry>, p: string)
    requires MatchAt(file, a, p) || MatchAt(file, b, p)
    ensures MatchAt(file, a + b, p)
  {
    if MatchAt(file, a, p) {
      var k :| 0 <= k < |a| && Matches(a[k].file, file) && EntryPath(a[k]) == p;
      assert (a + b)[k] == a[k];
    } else {
      var k :| 0 <= k < |b| && Matches(b[k].file, file) && EntryPath(b[k]) == p;
      assert (a + b)[|a| + k] == b[k];
    }
  }

  lemma AnyMatchAppend(file: File, a: seq<Entry>, b: seq<Entry>)
    ensures AnyMatch(file, a + b) <==> AnyMatch(file, a) || AnyMatch(file, b)
  {
    if AnyMatch(file, a + b) {
      var k :| 0 <= k < |a + b| && Matches((a + b)[k].file, file);
      if k >= |a| { assert (a + b)[k] == b[k - |a|]; }
    }
    if AnyMatch(file, a) {
      var k :| 0 <= k < |a| && Matches(a[k].file, file);
      assert (a + b)[k] == a[k];
    }
    if AnyMatch(file, b) {
      var k :| 0 <= k < |b| && Matches(b[k].file, file);
      assert (a + b)[|a| + k] == b[k];
    }
  }

  lemma MatchAtTail(file: File, es: seq<Entry>, r: Option<string>)
    requires es != [] && (r.Some? ==> MatchAt(file, es[1..], r.value))
    ensures r.Some? ==> MatchAt(file, es, r.value)
  {
    if r.Some? {
      var k :| 0 <= k < |es[1..]| && Matches(es[1..][k].file, file) && EntryPath(es[1..][k]) == r.value;
      assert es[k + 1] == es[1..][k];
    }
  }

  /** A path below at least one folder is never the empty string. */
  lemma NestedPathNonEmpty(file: File, es: seq<Entry>, p: string)
    requires MatchAt(file, es, p)
    requires forall k :: 0 <= k < |es| ==> |es[k].dirs| >= 1
    ensures p != ""
  {
    var k :| 0 <= k < |es| && Matches(es[k].file, file) && EntryPath(es[k]) == p;
    JoinManyNonEmpty(es[k].dirs + [LeafName(es[k].file)], "/");
  }

  // ---------------------------------------------------------------------------
  // findFilePath, as written
  // ---------------------------------------------------------------------------

  /** `findFilePath(file, folder, pathSoFar)`: the first loop over the items
      (sub-folders searched recursively, files matched by identity), then the
      fallback loop (sub-folders searched again, files matched by value). */
  function FindFilePath(file: File, folder: Folder, pathSoFar: seq<string>): Option<string>
    decreases folder, 2, 0, 0
  {
    match IdentityPass(file, folder, pathSoFar, 0)
    case Some(p) => Some(p)
    case None => ValuePass(file, folder, pathSoFar, 0)
  }

  /** The first loop from item `i` on; `Some` exactly when it returns. A
      sub-folder's result is returned only when truthy (`if (res) return res`). */
  function IdentityPass(file: File, folder: Folder, pathSoFar: seq<string>, i: nat): Option<string>
    requires i <= |folder.items|
    decreases folder, 1, |folder.items| - i, 0
  {
    if i == |folder.items| then None
    else match folder.items[i]
      case FolderItem(sub) =>
        var res := FindFilePath(file, sub, pathSoFar + [sub.folderName]);
        if Truthy(res) then res else IdentityPass(file, folder, pathSoFar, i + 1)
      case FileItem(f) =>
        if IdMatch(f, file) then Some(PathOf(pathSoFar, f)) else IdentityPass(file, folder, pathSoFar, i + 1)
  }

  /** The fallback loop from item `i` on; `None` stands for the final `return null`. */
  function ValuePass(file: File, folder: Folder, pathSoFar: seq<string>, i: nat): Option<string>
    requires i <= |folder.items|
    decreases folder, 1, |folder.items| - i, 0
  {
    if i == |folder.items| then None
    else match folder.items[i]
      case FolderItem(sub) =>
        var res := FindFilePath(file, sub, pathSoFar + [sub.folderName]);
        if Truthy(res) then res else ValuePass(file, folder, pathSoFar, i + 1)
      case FileItem(f) =>
        if ValueMatch(f, file) then Some(PathOf(pathSoFar, f)) else ValuePass(file, folder, pathSoFar, i + 1)
  }

  /** Item `j` is a sub-folder holding no matching file at any depth, or a file. */
  predicate SubfolderClear(file: File, folder: Folder, pathSoFar: seq<string>, j: nat)
    requires j < |folder.items|
  {
    folder.items[j].FolderItem? ==>
      !AnyMatch(file, Entries(folder.items[j].folder, pathSoFar + [folder.items[j].folder.folderName]))
  }

  /** Item `j` is a file that is not the same object as `file`, or a folder. */
  predicate NoIdentityAt(file: File, folder: Folder, j: nat)
    requires j < |folder.items|
  {
    folder.items[j].FileItem? ==> !IdMatch(folder.items[j].file, file)
  }

  /** Item `j` is a file that does not equal `file` by value, or a folder. */
  predicate NoValueAt(file: File, folder: Folder, j: nat)
    requires j < |folder.items|
  {
    folder.items[j].FileItem? ==> !ValueMatch(folder.items[j].file, file)
  }

  /** When no item from `i` on holds or is a matching file, no entry from `i` on matches. */
  lemma {:induction false} ClearItemsNoMatch(file: File, folder: Folder, pathSoFar: seq<string>, i: nat)
    requires i <= |folder.items|
    requires forall j :: i <= j < |folder.items| ==>
      SubfolderClear(file, folder, pathSoFar, j) && NoIdentityAt(file, folder, j) && NoValueAt(file, folder, j)
    ensures !AnyMatch(file, EntriesFrom(folder, pathSoFar, i))
    decreases |folder.items| - i
  {
    if i < |folder.items| {
      ClearItemsNoMatch(file, folder, pathSoFar, i + 1);
      AnyMatchAppend(file, ItemEntries(folder, pathSoFar, i), EntriesFrom(folder, pathSoFar, i + 1));
      assert SubfolderClear(file, folder, pathSoFar, i) && NoIdentityAt(file, folder, i) && NoValueAt(file, folder, i);
    }
  }

  /** A file of item `i` that matches yields a match among the entries from `i` on. */
  lemma FileItemMatchAt(file: File, folder: Folder, pathSoFar: seq<string>, i: nat)
    requires i < |folder.items| && folder.items[i].FileItem? && Matches(folder.items[i].file, file)
    ensures MatchAt(file, EntriesFrom(folder, pathSoFar, i), PathOf(pathSoFar, folder.items[i].file))
  {
    var es := EntriesFrom(folder, pathSoFar, i);
    assert ItemEntries(folder, pathSoFar, i) == [Entry(pathSoFar, folder.items[i].file)];
    assert es[0] == Entry(pathSoFar, folder.items[i].file);
  }

  /** `findFilePath` is sound and complete: a result is the path of a file of
      the tree that is `file` or equals it by value, and the result is null
      exactly when no file anywhere in the tree matches. */
  lemma {:induction false} FindFilePathCorrect(file: File, folder: Folder, pathSoFar: seq<string>)
    ensures var r := FindFilePath(file, folder, pathSoFar);
      (r.Some? ==> MatchAt(file, Entries(folder, pathSoFar), r.value))
      && (r.None? <==> !AnyMatch(file, Entries(folder, pathSoFar)))
    decreases folder, 2, 0, 0
  {
    IdentityPassCorrect(file, folder, pathSoFar, 0);
    ValuePassCorrect(file, folder, pathSoFar, 0);
    var r := FindFilePath(file, folder, pathSoFar);
    if r.None? {
      ClearItemsNoMatch(file, folder, pathSoFar, 0);
    } else {
      assert AnyMatch(file, Entries(folder, pathSoFar));
    }
  }

  /** The sub-folder call of item `i` yields a truthy result exactly when the
      sub-folder holds a matching file, and then a path of one. */
  lemma SubfolderCall(file: File, folder: Folder, pathSoFar: seq<string>, i: nat)
    requires i < |folder.items| && folder.items[i].FolderItem?
    ensures var sub := folder.items[i].folder;
      var res := FindFilePath(file, sub, pathSoFar + [sub.folderName]);
      (Truthy(res) <==> !SubfolderClear(file, folder, pathSoFar, i))
      && (Truthy(res) ==> MatchAt(file, EntriesFrom(folder, pathSoFar, i), res.value))
    decreases folder, 0, |folder.items| - i, 0
  {
    var sub := folder.items[i].folder;
    var sp := pathSoFar + [sub.folderName];
    var res := FindFilePath(file, sub, sp);
    FindFilePathCorrect(file, sub, sp);
    if res.Some? {
      NestedPathNonEmpty(file, Entries(sub, sp), res.value);
      assert ItemEntries(folder, pathSoFar, i) == Entries(sub, sp);
      MatchAtAppend(file, Entries(sub, sp), EntriesFrom(folder, pathSoFar, i + 1), res.value);
    }
  }

  lemma {:induction false} IdentityPassCorrect(file: File, folder: Folder, pathSoFar: seq<string>, i: nat)
    requires i <= |folder.items|
    ensures var r := IdentityPass(file, folder, pathSoFar, i);
      (r.Some? ==> MatchAt(file, EntriesFrom(folder, pathSoFar, i), r.value))
      && (r.None? ==> forall j :: i <= j < |folder.items| ==>
            SubfolderClear(file, folder, pathSoFar, j) && NoIdentityAt(file, folder, j))
    decreases folder, 1, |folder.items| - i, 0
  {
    if i < |folder.items| {
      var r := IdentityPass(file, folder, pathSoFar, i);
      IdentityPassCorrect(file, folder, pathSoFar, i + 1);
      match folder.items[i]
      case FolderItem(sub) =>
        SubfolderCall(file, folder, pathSoFar, i);
        if !Truthy(FindFilePath(file, sub, pathSoFar + [sub.folderName])) && r.Some? {
          MatchAtAppend(file, ItemEntries(folder, pathSoFar, i), EntriesFrom(folder, pathSoFar, i + 1), r.value);
        }
      case FileItem(f) =>
        if IdMatch(f, file) {
          FileItemMatchAt(file, folder, pathSoFar, i);
        } else if r.Some? {
          MatchAtAppend(file, ItemEntries(folder, pathSoFar, i), EntriesFrom(folder, pathSoFar, i + 1), r.value);
        }
    }
  }

  lemma {:induction false} ValuePassCorrect(file: File, folder: Folder, pathSoFar: seq<string>, i: nat)
    requires i <= |folder.items|
    ensures var r := ValuePass(file, folder, pathSoFar, i);
      (r.Some? ==> MatchAt(file, EntriesFrom(folder, pathSoFar, i), r.value))
      && (r.None? ==> forall j :: i <= j < |folder.items| ==>
            SubfolderClear(file, folder, pathSoFar, j) && NoValueAt(file, folder, j))
    decreases folder, 1, |folder.items| - i, 0
  {
    if i < |folder.items| {
      var r := ValuePass(file, folder, pathSoFar, i);
      ValuePassCorrect(file, folder, pathSoFar, i + 1);
      match folder.items[i]
      case FolderItem(sub) =>
        SubfolderCall(file, folder, pathSoFar, i);
        if !Truthy(FindFilePath(file, sub, pathSoFar + [sub.folderName])) && r.Some? {
          MatchAtAppend(file, ItemEntries(folder, pathSoFar, i), EntriesFrom(folder, pathSoFar, i + 1), r.value);
        }
      case FileItem(f) =>
        if ValueMatch(f, file) {
          FileItemMatchAt(file, folder, pathSoFar, i);
        } else if r.Some? {
          MatchAtAppend(file, ItemEntries(folder, pathSoFar, i), EntriesFrom(folder, pathSoFar, i + 1), r.value);
        }
    }
  }

  /** From item `j` up to item `i`, the first loop reaches item `i`, a file
      that is `file` itself, and returns its path. */
  lemma {:induction false} IdentityPassReaches(file: File, folder: Folder, pathSoFar: seq<string>, j: nat, i: nat)
    requires j <= i < |folder.items| && folder.items[i].FileItem? && IdMatch(folder.items[i].file, file)
    requires forall m :: j <= m < i ==> SubfolderClear(file, folder, pathSoFar, m) && NoIdentityAt(file, folder, m)
    ensures IdentityPass(file, folder, pathSoFar, j) == Some(PathOf(pathSoFar, folder.items[i].file))
    decreases i - j
  {
    if j < i {
      IdentityPassReaches(file, folder, pathSoFar, j + 1, i);
      assert SubfolderClear(file, folder, pathSoFar, j) && NoIdentityAt(file, folder, j);
      if folder.items[j].FolderItem? {
        SubfolderCall(file, folder, pathSoFar, j);
      }
    }
  }

  /** Within one folder, a file that is `file` itself wins over every file of
      that folder equal to it by value, even one listed earlier, provided no
      earlier sub-folder holds a match. */
  lemma IdentityFirstAtLevel(file: File, folder: Folder, pathSoFar: seq<string>, i: nat)
    requires i < |folder.items| && folder.items[i].FileItem? && IdMatch(folder.items[i].file, file)
    requires forall m :: 0 <= m < i ==> SubfolderClear(file, folder, pathSoFar, m) && NoIdentityAt(file, folder, m)
    ensures FindFilePath(file, folder, pathSoFar) == Some(PathOf(pathSoFar, folder.items[i].file))
  {
    IdentityPassReaches(file, folder, pathSoFar, 0, i);
  }

  /** The first file among `folder.items[i..]` (files only) equal to `file` by value. */
  function DirectValueMatch(file: File, folder: Folder, pathSoFar: seq<string>, i: nat): Option<string>
    requires i <= |folder.items|
    decreases |folder.items| - i
  {
    if i == |folder.items| then None
    else if folder.items[i].FileItem? && ValueMatch(folder.items[i].file, file) then Some(PathOf(pathSoFar, folder.items[i].file))
    else DirectValueMatch(file, folder, pathSoFar, i + 1)
  }

  lemma {:induction false} ValuePassDirect(file: File, folder: Folder, pathSoFar: seq<string>, i: nat)
    requires i <= |folder.items|
    requires forall m :: i <= m < |folder.items| ==> SubfolderClear(file, folder, pathSoFar, m)
    ensures ValuePass(file, folder, pathSoFar, i) == DirectValueMatch(file, folder, pathSoFar, i)
    decreases |folder.items| - i
  {
    if i < |folder.items| {
      ValuePassDirect(file, folder, pathSoFar, i + 1);
      assert SubfolderClear(file, folder, pathSoFar, i);
      if folder.items[i].FolderItem? {
        SubfolderCall(file, folder, pathSoFar, i);
      }
    }
  }

  /** When the first loop finds nothing, the fallback loop's second descent
      into the sub-folders finds nothing either: the result is the first file
      of this very folder equal to `file` by value, or null. */
  lemma ValueFallbackAtLevel(file: File, folder: Folder, pathSoFar: seq<string>)
    requires IdentityPass(file, folder, pathSoFar, 0).None?
    ensures FindFilePath(file, folder, pathSoFar) == DirectValueMatch(file, folder, pathSoFar, 0)
  {
    IdentityPassCorrect(file, folder, pathSoFar, 0);
    ValuePassDirect(file, folder, pathSoFar, 0);
  }

  // ---------------------------------------------------------------------------
  // Identity first across the whole tree (the evidently intended order)
  // ---------------------------------------------------------------------------

  /** The path of the first entry of `es` that is `file` itself, else of the
      first entry equal to it by value, else null. */
  function FindFilePathIdentityFirst(file: File, es: seq<Entry>): (r: Option<string>)
    ensures r.None? <==> !AnyMatch(file, es)
    ensures r.Some? ==> MatchAt(file, es, r.value)
    ensures forall k :: (0 <= k < |es| && IdMatch(es[k].file, file)
      && (forall m :: 0 <= m < k ==> !IdMatch(es[m].file, file))) ==> r == Some(EntryPath(es[k]))
  {
    match FirstIdentity(file, es)
    case Some(p) => Some(p)
    case None => FirstValue(file, es)
  }

  function FirstIdentity(file: File, es: seq<Entry>): (r: Option<string>)
    ensures r.Some? ==> MatchAt(file, es, r.value)
    ensures r.None? ==> forall k :: 0 <= k < |es| ==> !IdMatch(es[k].file, file)
    ensures forall k :: (0 <= k < |es| && IdMatch(es[k].file, file)
      && (forall m :: 0 <= m < k ==> !IdMatch(es[m].file, file))) ==> r == Some(EntryPath(es[k]))
  {
    if es == [] then None
    else if IdMatch(es[0].file, file) then Some(EntryPath(es[0]))
    else
      var r := FirstIdentity(file, es[1..]);
      MatchAtTail(file, es, r);
      assert forall k :: 1 <= k < |es| ==> es[k] == es[1..][k - 1];
      r
  }

  function FirstValue(file: File, es: seq<Entry>): (r: Option<string>)
    ensures r.Some? ==> MatchAt(file, es, r.value)
    ensures r.None? ==> forall k :: 0 <= k < |es| ==> !ValueMatch(es[k].file, file)
  {
    if es == [] then None
    else if ValueMatch(es[0].file, file) then Some(EntryPath(es[0]))
    else
      var r := FirstValue(file, es[1..]);
      MatchAtTail(file, es, r);
      assert forall k :: 1 <= k < |es| ==> es[k] == es[1..][k - 1];
      r
  }

  /** A file `index.ts` (object 1) in folder `b`, and an equal copy of it
      (object 2) in the earlier folder `a`. */
  const ExampleFile: File := File(1, "index", "ts", "")
  const ExampleCopy: File := File(2, "index", "ts", "")
  const ExampleRoot: Folder :=
    Folder("", [FolderItem(Folder("a", [FileItem(ExampleCopy)])), FolderItem(Folder("b", [FileItem(ExampleFile)]))])

  lemma ExamplePaths()
    ensures PathOf(["a"], ExampleCopy) == "a/index.ts"
    ensures PathOf(["b"], ExampleFile) == "b/index.ts"
  {
    JoinCons("a", ["index.ts"], "/");
    JoinCons("b", ["index.ts"], "/");
    assert LeafName(ExampleCopy) == "index.ts";
    assert LeafName(ExampleFile) == "index.ts";
    assert ["a"] + [LeafName(ExampleCopy)] == ["a"] + ["index.ts"];
    assert ["b"] + [LeafName(ExampleFile)] == ["b"] + ["index.ts"];
  }

  /** `findFilePath` as written returns the copy's path, although the object
      itself sits in the later folder. */
  lemma EarlierCopyBeatsIdentity()
    ensures FindFilePath(ExampleFile, ExampleRoot, []) == Some("a/index.ts")
  {
    ExamplePaths();
    var a := Folder("a", [FileItem(ExampleCopy)]);
    assert IdentityPass(ExampleFile, a, ["a"], 0) == None;
    assert FindFilePath(ExampleFile, a, ["a"]) == Some("a/index.ts");
    assert [] + ["a"] == ["a"];
  }

  lemma ExampleEntries()
    ensures Entries(ExampleRoot, []) == [Entry(["a"], ExampleCopy), Entry(["b"], ExampleFile)]
  {
    var a := Folder("a", [FileItem(ExampleCopy)]);
    var b := Folder("b", [FileItem(ExampleFile)]);
    assert [] + ["a"] == ["a"] && [] + ["b"] == ["b"];
    assert ItemEntries(a, ["a"], 0) == [Entry(["a"], ExampleCopy)];
    assert EntriesFrom(a, ["a"], 0) == ItemEntries(a, ["a"], 0) + EntriesFrom(a, ["a"], 1);
    assert Entries(a, ["a"]) == [Entry(["a"], ExampleCopy)];
    assert ItemEntries(b, ["b"], 0) == [Entry(["b"], ExampleFile)];
    assert EntriesFrom(b, ["b"], 0) == ItemEntries(b, ["b"], 0) + EntriesFrom(b, ["b"], 1);
    assert Entries(b, ["b"]) == [Entry(["b"], ExampleFile)];
    assert EntriesFrom(ExampleRoot, [], 1) == [Entry(["b"], ExampleFile)];
    assert EntriesFrom(ExampleRoot, [], 0) == ItemEntries(ExampleRoot, [], 0) + EntriesFrom(ExampleRoot, [], 1);
  }

  /** On the same tree the identity-first search returns the object's own path. */
  lemma IdentityFirstFindsObject()
    ensures FindFilePathIdentityFirst(ExampleFile, Entries(ExampleRoot, [])) == Some("b/index.ts")
  {
    ExamplePaths();
    ExampleEntries();
    var es := Entries(ExampleRoot, []);
    assert !IdMatch(es[0].file, ExampleFile) && IdMatch(es[1].file, ExampleFile);
  }

  // ---------------------------------------------------------------------------
  // findAllFilePaths
  // ---------------------------------------------------------------------------

  /** The paths of the entries with the same filename and extension as `file`, in order. */
  function NamePaths(file: File, es: seq<Entry>): (paths: seq<string>)
    ensures |paths| <= |es|
  {
    if es == [] then [] else (if SameName(es[0].file, file) then [EntryPath(es[0])] else []) + NamePaths(file, es[1..])
  }

  lemma {:induction false} NamePathsAppend(file: File, a: seq<Entry>, b: seq<Entry>)
    ensures NamePaths(file, a + b) == NamePaths(file, a) + NamePaths(file, b)
  {
    if a == [] {
      assert a + b == b;
    } else {
      assert (a + b)[1..] == a[1..] + b;
      NamePathsAppend(file, a[1..], b);
    }
  }

  /** A path is listed exactly when some same-named file of the tree has it. */
  lemma {:induction false} NamePathsMembers(file: File, es: seq<Entry>, p: string)
    ensures p in NamePaths(file, es) <==> exists k :: 0 <= k < |es| && SameName(es[k].file, file) && EntryPath(es[k]) == p
  {
    if es != [] {
      NamePathsMembers(file, es[1..], p);
      if exists k :: 0 <= k < |es| && SameName(es[k].file, file) && EntryPath(es[k]) == p {
        var k :| 0 <= k < |es| && SameName(es[k].file, file) && EntryPath(es[k]) == p;
        if k > 0 { assert es[1..][k - 1] == es[k]; }
      }
      if exists k :: 0 <= k < |es[1..]| && SameName(es[1..][k].file, file) && EntryPath(es[1..][k]) == p {
        var k :| 0 <= k < |es[1..]| && SameName(es[1..][k].file, file) && EntryPath(es[1..][k]) == p;
        assert es[k + 1] == es[1..][k];
      }
    }
  }

  /** The names listed from `folder.items[i..]`: those of item `i`, then the rest. */
  lemma NamePathsStep(file: File, folder: Folder, pathSoFar: seq<string>, i: nat)
    requires i < |folder.items|
    ensures NamePaths(file, EntriesFrom(folder, pathSoFar, i))
         == NamePaths(file, ItemEntries(folder, pathSoFar, i)) + NamePaths(file, EntriesFrom(folder, pathSoFar, i + 1))
  {
    NamePathsAppend(file, ItemEntries(folder, pathSoFar, i), EntriesFrom(folder, pathSoFar, i + 1));
  }

  /** A file item lists its own path exactly when it has the same name. */
  lemma NamePathsFileItem(file: File, folder: Folder, pathSoFar: seq<string>, i: nat)
    requires i < |folder.items| && folder.items[i].FileItem?
    ensures var f := folder.items[i].file;
      NamePaths(file, ItemEntries(folder, pathSoFar, i)) == if SameName(f, file) then [PathOf(pathSoFar, f)] else []
  {
    var es := ItemEntries(folder, pathSoFar, i);
    assert es == [Entry(pathSoFar, folder.items[i].file)];
    assert es[1..] == [];
  }

  /** One iteration of `findAllFilePaths`' loop keeps its invariant: the
      paths so far, then the names of item `i`, then those of the rest. */
  lemma FindAllStep(file: File, folder: Folder, pathSoFar: seq<string>, i: nat, paths: seq<string>, found: seq<string>)
    requires i < |folder.items|
    requires NamePaths(file, Entries(folder, pathSoFar)) == paths + NamePaths(file, EntriesFrom(folder, pathSoFar, i))
    requires found == NamePaths(file, ItemEntries(folder, pathSoFar, i))
    ensures NamePaths(file, Entries(folder, pathSoFar)) == (paths + found) + NamePaths(file, EntriesFrom(folder, pathSoFar, i + 1))
  {
    NamePathsStep(file, folder, pathSoFar, i);
    var rest := NamePaths(file, EntriesFrom(folder, pathSoFar, i + 1));
    assert (paths + found) + rest == paths + (found + rest);
  }

  /** `findAllFilePaths`: every path of a file with the same filename and
      extension as `file`, in depth-first, left-to-right order. */
  method FindAllFilePaths(file: File, folder: Folder, pathSoFar: seq<string>) returns (paths: seq<string>)
    ensures paths == NamePaths(file, Entries(folder, pathSoFar))
    decreases folder
  {
    paths := [];
    for i := 0 to |folder.items|
      invariant NamePaths(file, Entries(folder, pathSoFar)) == paths + NamePaths(file, EntriesFrom(folder, pathSoFar, i))
    {
      var found: seq<string>;
      if folder.items[i].FolderItem? {
        var sub := folder.items[i].folder;
        found := FindAllFilePaths(file, sub, pathSoFar + [sub.folderName]);
        assert found == NamePaths(file, ItemEntries(folder, pathSoFar, i)) by {
          assert ItemEntries(folder, pathSoFar, i) == Entries(sub, pathSoFar + [sub.folderName]);
        }
      } else {
        var f := folder.items[i].file;
        found := if SameName(f, file) then [PathOf(pathSoFar, f)] else [];
        assert found == NamePaths(file, ItemEntries(folder, pathSoFar, i)) by {
          NamePathsFileItem(file, folder, pathSoFar, i);
        }
      }
      FindAllStep(file, folder, pathSoFar, i, paths, found);
      paths := paths + found;
    }
  }

  // ---------------------------------------------------------------------------
  // hashCode
  // ---------------------------------------------------------------------------

  const TWO_31: int := 0x8000_0000
  const TWO_32: int := 0x1_0000_0000

  /** ECMAScript ToInt32: the signed 32-bit integer congruent to `x` modulo 2^32. */
  function ToInt32(x: int): (r: int)
    ensures -TWO_31 <= r < TWO_31
    ensures (r - x) % TWO_32 == 0
  {
    var m := x % TWO_32;
    if m >= TWO_31 then m - TWO_32 else m
  }

  /** Two integers congruent modulo 2^32 have the same ToInt32. */
  lemma ToInt32Congruent(x: int, y: int)
    requires (x - y) % TWO_32 == 0
    ensures ToInt32(x) == ToInt32(y)
  {
    var q := (x - y) / TWO_32;
    assert x == y + q * TWO_32;
    assert x % TWO_32 == y % TWO_32;
  }

  /** `hash << 5` for a hash that is already a signed 32-bit integer. */
  function ShiftLeft5(h: int): int {
    ToInt32(h * 32)
  }

  /** One iteration: `hash = ((hash << 5) - hash) + char; hash = hash & hash`. */
  function HashStep(h: int, unit: int): int {
    ToInt32(ShiftLeft5(h) - h + unit)
  }

  /** The shift-and-subtract step is the 31-times rolling hash wrapped to 32 bits. */
  lemma HashStepIsTimes31(h: int, unit: int)
    ensures HashStep(h, unit) == ToInt32(31 * h + unit)
  {
    var s := ShiftLeft5(h);
    assert (s - h * 32) % TWO_32 == 0;
    assert (s - h + unit) - (31 * h + unit) == s - h * 32;
    ToInt32Congruent(s - h + unit, 31 * h + unit);
  }

  /** The UTF-16 code units of one character, as `charCodeAt` reads them. */
  function CharUnits(c: char): (u: seq<int>)
    ensures 1 <= |u| <= 2 && forall k :: 0 <= k < |u| ==> 0 <= u[k] < 0x10000
  {
    var n := c as int;
    if n < 0x10000 then [n]
    else
      var v := n - 0x10000;
      [0xD800 + v / 0x400, 0xDC00 + v % 0x400]
  }

  /** The UTF-16 code units of a string: `str.length` of them, in order. */
  function CodeUnits(s: string): (u: seq<int>)
    ensures |u| >= |s|
    ensures forall k :: 0 <= k < |u| ==> 0 <= u[k] < 0x10000
  {
    if s == [] then [] else CharUnits(s[0]) + CodeUnits(s[1..])
  }

  /** The value of `hash` after the loop has consumed the code units `u`. */
  function Fold(u: seq<int>): (h: int)
    ensures -TWO_31 <= h < TWO_31
  {
    if u == [] then 0 else HashStep(Fold(u[..|u| - 1]), u[|u| - 1])
  }

  /** `hashCode(str)`: `Math.abs` of the folded hash. */
  function ContentHash(s: string): (h: nat)
    ensures h <= TWO_31
  {
    var f := Fold(CodeUnits(s));
    if f < 0 then -f else f
  }

  /** The empty string hashes to 0, and short strings hash to the polynomial
      `31 * c0 + c1` before any wrap-around. */
  lemma {:induction false} ContentHashExamples()
    ensures ContentHash("") == 0
    ensures ContentHash("a") == 97
    ensures ContentHash("ab") == 31 * 97 + 98
  {
    assert CodeUnits("a") == [97];
    assert "ab"[1..] == "b";
    assert CodeUnits("ab") == [97, 98];
    HashStepIsTimes31(0, 97);
    assert ToInt32(97) == 97;
    assert [97][..0] == [];
    assert Fold([97]) == 97;
    HashStepIsTimes31(97, 98);
    assert ToInt32(31 * 97 + 98) == 31 * 97 + 98;
    assert [97, 98][..1] == [97];
    assert Fold([97, 98]) == 31 * 97 + 98;
  }

  /** `hashCode`: folds every code unit into the hash in a loop, then takes the absolute value. */
  method HashCode(str: string) returns (h: nat)
    ensures h == ContentHash(str)
    ensures h <= TWO_31
  {
    var units := CodeUnits(str);
    var hash := 0;
    for i := 0 to |units|
      invariant hash == Fold(units[..i])
    {
      assert units[..i + 1][..i] == units[..i];
      hash := ShiftLeft5(hash) - hash + units[i];
      hash := ToInt32(hash);
    }
    assert units[..|units|] == units;
    h := if hash < 0 then -hash else hash;
  }

  // ---------------------------------------------------------------------------
  // generateFileId
  // ---------------------------------------------------------------------------

  /** The fallback chain of `generateFileId` once the search has produced
      `path`: a truthy path is the id; else the only same-named path; else
      the first same-named path suffixed with `-` and the content hash; else
      the name, the trimmed extension and `stamp`, which stands for the
      `Date.now()-random` suffix. */
  function IdFrom(file: File, root: Folder, path: Option<string>, stamp: string): (id: string)
    ensures Truthy(path) ==> id == path.value
  {
    if Truthy(path) then path.value
    else
      var allPaths := NamePaths(file, Entries(root, []));
      if |allPaths| == 1 then allPaths[0]
      else if |allPaths| > 1 then allPaths[0] + "-" + NatToDecimal(ContentHash(file.content))
      else
        var ext := Trim(file.fileExtension);
        file.filename + (if ext != "" then "." + ext else "") + "-" + stamp
  }

  /** `generateFileId(file, rootFolder)` as written: it locates the file
      with `findFilePath` (`FindFilePath`). */
  function GenerateFileId(file: File, root: Folder, stamp: string): (id: string)
    ensures Truthy(FindFilePath(file, root, [])) ==> id == FindFilePath(file, root, []).value
  {
    IdFrom(file, root, FindFilePath(file, root, []), stamp)
  }

  /** When `findFilePath` yields a truthy path, the id is that path, and it
      is the path of a file of the tree that is `file` or equals it by value. */
  lemma GenerateFileIdFound(file: File, root: Folder, stamp: string)
    requires Truthy(FindFilePath(file, root, []))
    ensures GenerateFileId(file, root, stamp) == FindFilePath(file, root, []).value
    ensures MatchAt(file, Entries(root, []), GenerateFileId(file, root, stamp))
  {
    FindFilePathCorrect(file, root, []);
  }

  /** On the tree of `EarlierCopyBeatsIdentity`, the id as written is the
      copy's path. */
  lemma GenerateFileIdOfCopy(stamp: string)
    ensures GenerateFileId(ExampleFile, ExampleRoot, stamp) == "a/index.ts"
  {
    EarlierCopyBeatsIdentity();
  }

  /** The id with the identity-first search in place of `findFilePath`. */
  function GenerateFileIdIntended(file: File, root: Folder, stamp: string): (id: string)
    ensures Truthy(FindFilePathIdentityFirst(file, Entries(root, []))) ==> MatchAt(file, Entries(root, []), id)
    ensures var es := Entries(root, []);
      forall k :: (0 <= k < |es| && IdMatch(es[k].file, file) && EntryPath(es[k]) != ""
        && (forall m :: 0 <= m < k ==> !IdMatch(es[m].file, file))) ==> id == EntryPath(es[k])
  {
    IdFrom(file, root, FindFilePathIdentityFirst(file, Entries(root, [])), stamp)
  }

  /** On the same tree the intended id is the object's own path. */
  lemma GenerateFileIdIntendedOfObject(stamp: string)
    ensures GenerateFileIdIntended(ExampleFile, ExampleRoot, stamp) == "b/index.ts"
    ensures GenerateFileIdIntended(ExampleFile, ExampleRoot, stamp) != GenerateFileId(ExampleFile, ExampleRoot, stamp)
  {
    IdentityFirstFindsObject();
    GenerateFileIdOfCopy(stamp);
  }

  /** When the search gives no truthy path (nothing matches, or only a
      match whose path is "") but some files have the same filename and
      extension, the id is the path of the first of them (in depth-first
      order), suffixed with `-` and the content hash when there are several. */
  lemma GenerateFileIdByName(file: File, root: Folder, stamp: string)
    requires !Truthy(FindFilePath(file, root, []))
    requires exists k :: 0 <= k < |Entries(root, [])| && SameName(Entries(root, [])[k].file, file)
    ensures var es := Entries(root, []);
      var id := GenerateFileId(file, root, stamp);
      |NamePaths(file, es)| >= 1
      && var first := NamePaths(file, es)[0];
      (exists k :: 0 <= k < |es| && SameName(es[k].file, file) && EntryPath(es[k]) == first)
      && (|NamePaths(file, es)| == 1 ==> id == first)
      && (|NamePaths(file, es)| > 1 ==> id == first + "-" + NatToDecimal(ContentHash(file.content)))
  {
    var es := Entries(root, []);
    var k :| 0 <= k < |es| && SameName(es[k].file, file);
    NamePathsMembers(file, es, EntryPath(es[k]));
    NamePathsMembers(file, es, NamePaths(file, es)[0]);
  }

  /** When no file of the tree has the same filename and extension, the id is
      the name, the trimmed extension (when non-empty) and the fresh stamp. */
  lemma GenerateFileIdFresh(file: File, root: Folder, stamp: string)
    requires IdentityConsistent(file, Entries(root, []))
    requires !exists k :: 0 <= k < |Entries(root, [])| && SameName(Entries(root, [])[k].file, file)
    ensures GenerateFileId(file, root, stamp)
      == LeafName(File(file.id, file.filename, Trim(file.fileExtension), file.content)) + "-" + stamp
  {
    var es := Entries(root, []);
    assert !AnyMatch(file, es);
    FindFilePathCorrect(file, root, []);
    if NamePaths(file, es) != [] {
      NamePathsMembers(file, es, NamePaths(file, es)[0]);
    }
  }
}
