/** `listSidFilesRecursively` of `src/lib/supabaseStorage.js`: the pages of
    a storage folder are fetched 1000 entries at a time; each entry is either
    a SID file, whose path is collected, a sub-folder, which is listed
    recursively and spliced in at its position, or something else, which is
    skipped. The storage service is a finite folder tree: each folder holds
    its whole listing and, optionally, the page whose request fails. */
module SupabaseStorage {
  import opened Collections
  import opened Text

  /** A folder's listing, and the index of the page whose request answers
      with an error, if any. */
  datatype Folder = Folder(entries: seq<Entry>, failingPage: Option<nat>)

  /** A listed entry: `id` (null, or a string that may be empty), whether
      `metadata` is null, and for a folder its own contents. */
  datatype Entry = Entry(name: string, id: Option<string>, metadataIsNull: bool, contents: Folder)

  /** The page size of each listing request. */
  const PageSize: nat := 1000

  /** A file entry: a truthy id and a name ending in '.sid' in any letter case. */
  predicate IsSidFile(e: Entry) {
    e.id.Some? && e.id.value != "" && EndsWith(Lower(e.name), ".sid")
  }

  /** A folder entry: a null id and null metadata. */
  predicate IsFolder(e: Entry) {
    e.id.None? && e.metadataIsNull
  }

  /** The path of a child: its name at the top level, else joined with '/'. */
  function ChildPath(path: string, name: string): (r: string)
    ensures path == "" ==> r == name
    ensures path != "" ==> r == path + "/" + name
  {
    if path == "" then name else path + "/" + name
  }

  function Min(a: int, b: int): int {
    if a <= b then a else b
  }

  /** The answer to the request for the page at `offset`. */
  function ListPage(f: Folder, offset: nat): (r: Result<seq<Entry>>)
    ensures r.Ok? ==> |r.value| <= PageSize
    ensures r.Ok? && offset <= |f.entries| ==> r.value == f.entries[offset..Min(offset + PageSize, |f.entries|)]
  {
    if f.failingPage == Some(offset / PageSize) then Err("storage listing failed")
    else
      var lo := Min(offset, |f.entries|);
      Ok(f.entries[lo..Min(offset + PageSize, |f.entries|)])
  }

  /** The paths listed from the page at `offset` on: each page's files in
      order, followed by the later pages when the page was full; a failing
      request contributes nothing and ends the listing. */
  function ListFrom(f: Folder, path: string, offset: nat): seq<string>
    requires offset <= |f.entries|
    decreases f, 2, |f.entries| - offset
  {
    var page := ListPage(f, offset);
    if page.Err? then []
    else
      var here := EntriesFiles(f, path, offset, offset + |page.value|);
      if |page.value| < PageSize then here else here + ListFrom(f, path, offset + PageSize)
  }

  /** The paths contributed by the entries `lo` to `hi` of the folder, in order. */
  function EntriesFiles(f: Folder, path: string, lo: nat, hi: nat): seq<string>
    requires lo <= hi <= |f.entries|
    decreases f, 1, hi - lo
  {
    if lo == hi then [] else EntriesFiles(f, path, lo, hi - 1) + EntryFiles(f, path, hi - 1)
  }

  /** The paths one entry contributes: its own path for a SID file, the
      listing of its contents for a folder, and nothing otherwise. */
  function EntryFiles(f: Folder, path: string, i: nat): seq<string>
    requires i < |f.entries|
    decreases f, 0, 0
  {
    var e := f.entries[i];
    if IsSidFile(e) then [ChildPath(path, e.name)]
    else if IsFolder(e) then
      assert e.contents < e < f;
      ListFrom(e.contents, ChildPath(path, e.name), 0)
    else []
  }

  /** The whole listing of a folder. */
  function ListAll(f: Folder, path: string): seq<string> {
    ListFrom(f, path, 0)
  }

  /** Every path has a name ending in '.sid', in any letter case. */
  predicate AllSidPaths(paths: seq<string>) {
    forall p :: p in paths ==> EndsWith(Lower(p), ".sid")
  }

  /** Every listed path, at any depth, ends in '.sid' once lowercased. */
  lemma {:induction false} ListFromSidOnly(f: Folder, path: string, offset: nat)
    requires offset <= |f.entries|
    ensures AllSidPaths(ListFrom(f, path, offset))
    decreases f, 2, |f.entries| - offset
  {
    var page := ListPage(f, offset);
    if page.Ok? {
      EntriesFilesSidOnly(f, path, offset, offset + |page.value|);
      if |page.value| == PageSize {
        ListFromSidOnly(f, path, offset + PageSize);
      }
    }
  }

  lemma {:induction false} EntriesFilesSidOnly(f: Folder, path: string, lo: nat, hi: nat)
    requires lo <= hi <= |f.entries|
    ensures AllSidPaths(EntriesFiles(f, path, lo, hi))
    decreases f, 1, hi - lo
  {
    if lo < hi {
      EntriesFilesSidOnly(f, path, lo, hi - 1);
      EntryFilesSidOnly(f, path, hi - 1);
    }
  }

  lemma {:induction false} EntryFilesSidOnly(f: Folder, path: string, i: nat)
    requires i < |f.entries|
    ensures AllSidPaths(EntryFiles(f, path, i))
    decreases f, 0, 0
  {
    var e := f.entries[i];
    if IsSidFile(e) {
      if path != "" {
        LowerEndsWithJoin(path + "/", e.name, ".sid");
      }
    } else if IsFolder(e) {
      assert e.contents < e < f;
      ListFromSidOnly(e.contents, ChildPath(path, e.name), 0);
    }
  }

  /** The paths of consecutive entry ranges join up. */
  lemma {:induction false} EntriesFilesSplit(f: Folder, path: string, lo: nat, mid: nat, hi: nat)
    requires lo <= mid <= hi <= |f.entries|
    ensures EntriesFiles(f, path, lo, hi) == EntriesFiles(f, path, lo, mid) + EntriesFiles(f, path, mid, hi)
    decreases hi - mid
  {
    if mid < hi {
      EntriesFilesSplit(f, path, lo, mid, hi - 1);
    }
  }

  /** How far the listing of `f` gets: to the start of the failing page when
      that page is ever requested, else to the end. */
  function Reach(f: Folder): (r: nat)
    ensures r <= |f.entries|
  {
    if f.failingPage.Some? && f.failingPage.value * PageSize <= |f.entries|
    then f.failingPage.value * PageSize else |f.entries|
  }

  /** Paging leaves no trace: from a page boundary up to the reach, the
      listing is the entries' paths in order. */
  lemma {:induction false} ListFromReach(f: Folder, path: string, offset: nat)
    requires offset % PageSize == 0 && offset <= Reach(f)
    ensures ListFrom(f, path, offset) == EntriesFiles(f, path, offset, Reach(f))
    decreases |f.entries| - offset
  {
    var n := |f.entries|;
    var page := ListPage(f, offset);
    assert offset / PageSize * PageSize == offset;
    if page.Err? {
      assert Reach(f) == offset;
    } else {
      var hi := Min(offset + PageSize, n);
      assert page.value == f.entries[offset..hi];
      if |page.value| < PageSize {
        assert hi == n;
        assert Reach(f) == n;
      } else {
        assert hi == offset + PageSize;
        assert offset + PageSize <= Reach(f);
        ListFromReach(f, path, offset + PageSize);
        EntriesFilesSplit(f, path, offset, offset + PageSize, Reach(f));
      }
    }
  }

  /** The listing of a folder is its entries' paths in listing order, up to
      the failing page if one is reached, and holds SID paths only. */
  lemma ListAllSpec(f: Folder, path: string)
    ensures ListAll(f, path) == EntriesFiles(f, path, 0, Reach(f))
    ensures f.failingPage.None? ==> ListAll(f, path) == EntriesFiles(f, path, 0, |f.entries|)
    ensures AllSidPaths(ListAll(f, path))
  {
    ListFromReach(f, path, 0);
    ListFromSidOnly(f, path, 0);
  }

  /** Without a failing page, a SID file's path appears at its entry's
      position and a sub-folder's listing is spliced in at its position. */
  lemma ListAllSplice(f: Folder, path: string, i: nat)
    requires i < |f.entries| && f.failingPage.None?
    ensures var e := f.entries[i];
            ListAll(f, path)
            == EntriesFiles(f, path, 0, i)
               + (if IsSidFile(e) then [ChildPath(path, e.name)]
                  else if IsFolder(e) then ListAll(e.contents, ChildPath(path, e.name))
                  else [])
               + EntriesFiles(f, path, i + 1, |f.entries|)
  {
    ListFromReach(f, path, 0);
    EntriesFilesSplit(f, path, 0, i, |f.entries|);
    EntriesFilesSplit(f, path, i, i + 1, |f.entries|);
    assert EntriesFiles(f, path, i, i + 1) == EntryFiles(f, path, i);
    EntryFilesCases(f, path, i);
  }

  /** One step of the listing: a failing page ends it; otherwise the page
      holds the next entries, a short page is the last one and a full page
      is followed by the next, so the paths collected before it extend by
      its entries' paths. */
  lemma ListFromStep(f: Folder, path: string, offset: nat, before: seq<string>)
    requires offset <= |f.entries|
    ensures ListPage(f, offset).Err? ==> before + ListFrom(f, path, offset) == before
    ensures ListPage(f, offset).Ok? ==>
              var data := ListPage(f, offset).value;
              var after := before + EntriesFiles(f, path, offset, offset + |data|);
              offset + |data| <= |f.entries|
              && data == f.entries[offset..offset + |data|]
              && (|data| < PageSize ==> before + ListFrom(f, path, offset) == after)
              && (|data| == PageSize ==>
                    offset + PageSize <= |f.entries|
                    && before + ListFrom(f, path, offset) == after + ListFrom(f, path, offset + PageSize))
  {
  }

  /** The paths of one entry, case by case. */
  lemma EntryFilesCases(f: Folder, path: string, i: nat)
    requires i < |f.entries|
    ensures var e := f.entries[i];
            EntryFiles(f, path, i)
            == if IsSidFile(e) then [ChildPath(path, e.name)]
               else if IsFolder(e) then ListAll(e.contents, ChildPath(path, e.name))
               else []
  {
  }

  /** `listSidFilesRecursively(bucket, path)` on the storage tree `f`. */
  method ListSidFilesRecursively(f: Folder, path: string) returns (sidFiles: seq<string>)
    ensures sidFiles == ListAll(f, path)
    decreases f, 1
  {
    sidFiles := [];
    var offset: nat := 0;
    var keepGoing := true;
    while keepGoing
      invariant offset <= |f.entries|
      invariant keepGoing ==> sidFiles + ListFrom(f, path, offset) == ListAll(f, path)
      invariant !keepGoing ==> sidFiles == ListAll(f, path)
      decreases keepGoing, |f.entries| - offset
    {
      ListFromStep(f, path, offset, sidFiles);
      var page := ListPage(f, offset);
      if page.Err? {
        return sidFiles;
      }
      var data := page.value;
      var pageFiles := ListPageFiles(f, path, offset, data);
      sidFiles := sidFiles + pageFiles;
      if |data| < PageSize {
        keepGoing := false;
      } else {
        offset := offset + PageSize;
      }
    }
  }

  /** The loop of `listSidFilesRecursively` over the entries of one page,
      which is `data`, starting at entry `offset` of `f`: files are
      collected and sub-folders listed recursively, in order. */
  method ListPageFiles(f: Folder, path: string, offset: nat, data: seq<Entry>) returns (files: seq<string>)
    requires offset + |data| <= |f.entries| && data == f.entries[offset..offset + |data|]
    ensures files == EntriesFiles(f, path, offset, offset + |data|)
    decreases f, 0
  {
    files := [];
    var j := 0;
    while j < |data|
      invariant 0 <= j <= |data|
      invariant files == EntriesFiles(f, path, offset, offset + j)
    {
      var item := data[j];
      assert item == f.entries[offset + j];
      EntryFilesCases(f, path, offset + j);
      if IsSidFile(item) {
        files := files + [ChildPath(path, item.name)];
      } else if IsFolder(item) {
        var subfolderFiles := ListSidFilesRecursively(item.contents, ChildPath(path, item.name));
        files := files + subfolderFiles;
      }
      j := j + 1;
    }
  }
}
