/** The catalogue update script `scripts/updateSidFiles.js`: list every SID
    path of the `sids` bucket, derive each file's public URL and file name,
    and upsert one row per path into the `sid_files` table, keyed by the
    URL. The table is a map from URL to row; `rejected` holds the URLs whose
    upsert the database answers with an error, which leaves the table as it
    was and is only logged. */
module UpdateSidFiles {
  import opened Collections
  import opened Text
  import opened SupabaseStorage

  const BucketName: string := "sids"
  const BaseUrl: string := "https://mecrdveeocgjsmmigdzb.supabase.co/storage/v1/object/public"

  /** The public URL of the object at path `p` of the bucket. */
  function StorageUrl(p: string): string {
    BaseUrl + "/" + BucketName + "/" + p
  }

  /** Distinct paths have distinct URLs. */
  lemma StorageUrlInjective(p: string, q: string)
    ensures StorageUrl(p) == StorageUrl(q) <==> p == q
  {
    var prefix := BaseUrl + "/" + BucketName + "/";
    if StorageUrl(p) == StorageUrl(q) {
      assert p == StorageUrl(p)[|prefix|..];
      assert q == StorageUrl(q)[|prefix|..];
    }
  }

  /** A row of `sid_files` as the script writes it. */
  datatype SidFileRow = SidFileRow(storage_url: string, filename: string, file_path: string)

  /** The row for the path `p`: its URL, its last '/'-separated segment and the path. */
  function RowFor(p: string): SidFileRow {
    SidFileRow(StorageUrl(p), LastSegment(p), p)
  }

  /** The row holds the URL of the path, the path, and a file name with no
      '/' that ends the path and is the whole path when it has no '/'. */
  lemma RowForSpec(p: string)
    ensures RowFor(p).storage_url == StorageUrl(p) && RowFor(p).file_path == p
    ensures '/' !in RowFor(p).filename && EndsWith(p, RowFor(p).filename)
    ensures '/' !in p ==> RowFor(p).filename == p
  {
    LastSegmentSuffix(p);
  }

  /** The file name of `dir/name` is `name`. */
  lemma RowForNested(dir: string, name: string)
    requires '/' !in name
    ensures RowFor(dir + "/" + name).filename == name
  {
    LastSegmentOfJoin(dir, name);
  }

  type Table = map<string, SidFileRow>

  /** One upsert with `storage_url` as the conflict key. */
  function Upsert(t: Table, row: SidFileRow, rejected: set<string>): Table {
    if row.storage_url in rejected then t else t[row.storage_url := row]
  }

  /** The upserts of `rows`, in order. */
  function UpsertAll(t: Table, rows: seq<SidFileRow>, rejected: set<string>): Table
    decreases |rows|
  {
    if rows == [] then t else UpsertAll(Upsert(t, rows[0], rejected), rows[1..], rejected)
  }

  /** The rows of the paths, in discovery order: one row per path, at the
      path's position. */
  function Rows(paths: seq<string>): (r: seq<SidFileRow>)
    ensures |r| == |paths|
  {
    seq(|paths|, i requires 0 <= i < |paths| => RowFor(paths[i]))
  }

  /** The rows of a prefix of the paths grow by one row at a time. */
  lemma RowsPrefixStep(paths: seq<string>, k: nat)
    requires k < |paths|
    ensures Rows(paths[..k + 1]) == Rows(paths[..k]) + [RowFor(paths[k])]
  {
    var l, r := Rows(paths[..k + 1]), Rows(paths[..k]) + [RowFor(paths[k])];
    forall i | 0 <= i < |l| ensures l[i] == r[i] {
      assert paths[..k + 1][i] == paths[i];
    }
  }

  /** The upserts the script issues: the first path once on its own, then
      every path in discovery order. */
  function IssuedUpserts(paths: seq<string>): seq<SidFileRow> {
    (if paths == [] then [] else [RowFor(paths[0])]) + Rows(paths)
  }

  /** Repeating an upsert right away changes nothing. */
  lemma UpsertIdempotent(t: Table, row: SidFileRow, rejected: set<string>)
    ensures Upsert(Upsert(t, row, rejected), row, rejected) == Upsert(t, row, rejected)
  {
  }

  /** The extra upsert of the first path leaves the same table as the loop alone. */
  lemma FirstUpsertHarmless(t: Table, paths: seq<string>, rejected: set<string>)
    ensures UpsertAll(t, IssuedUpserts(paths), rejected) == UpsertAll(t, Rows(paths), rejected)
  {
    if paths != [] {
      var rows := Rows(paths);
      var issued := IssuedUpserts(paths);
      assert issued[0] == rows[0] && issued[1..] == rows;
      UpsertIdempotent(t, rows[0], rejected);
      assert UpsertAll(t, issued, rejected) == UpsertAll(Upsert(t, rows[0], rejected), rows, rejected);
      assert rows[1..] == issued[2..];
    }
  }

  /** The URLs of some rows. */
  function Urls(rows: seq<SidFileRow>): set<string> {
    set i | 0 <= i < |rows| :: rows[i].storage_url
  }

  /** Rows that share a URL are the same row. */
  predicate Consistent(rows: seq<SidFileRow>) {
    forall i, j :: 0 <= i < |rows| && 0 <= j < |rows| && rows[i].storage_url == rows[j].storage_url ==> rows[i] == rows[j]
  }

  /** After upserting consistent rows, each accepted row is stored under its
      URL, and every other URL keeps what it had. */
  lemma {:induction false} UpsertAllConsistent(t: Table, rows: seq<SidFileRow>, rejected: set<string>)
    requires Consistent(rows)
    ensures forall i :: 0 <= i < |rows| && rows[i].storage_url !in rejected ==>
              rows[i].storage_url in UpsertAll(t, rows, rejected)
              && UpsertAll(t, rows, rejected)[rows[i].storage_url] == rows[i]
    ensures forall k :: k !in Urls(rows) || k in rejected ==>
              (k in UpsertAll(t, rows, rejected) <==> k in t)
              && (k in t ==> UpsertAll(t, rows, rejected)[k] == t[k])
    decreases |rows|
  {
    if rows != [] {
      var t1 := Upsert(t, rows[0], rejected);
      var rest := rows[1..];
      var r := UpsertAll(t, rows, rejected);
      assert r == UpsertAll(t1, rest, rejected);
      UpsertAllConsistent(t1, rest, rejected);
      forall i | 0 <= i < |rows| && rows[i].storage_url !in rejected
        ensures rows[i].storage_url in r && r[rows[i].storage_url] == rows[i]
      {
        if i > 0 {
          assert rows[i] == rest[i - 1];
        } else if rows[0].storage_url in Urls(rest) {
          var j :| 0 <= j < |rest| && rest[j].storage_url == rows[0].storage_url;
          assert rest[j] == rows[j + 1];
        }
      }
      forall k | k !in Urls(rows) || k in rejected
        ensures (k in r <==> k in t) && (k in t ==> r[k] == t[k])
      {
        if k !in rejected {
          assert rows[0].storage_url in Urls(rows);
          forall j | 0 <= j < |rest| ensures rest[j].storage_url != k {
            assert rest[j] == rows[j + 1];
          }
        }
      }
    }
  }

  /** The rows of distinct paths never clash: rows sharing a URL are equal. */
  lemma RowsConsistent(paths: seq<string>)
    ensures Consistent(Rows(paths))
  {
    var rows := Rows(paths);
    forall i, j | 0 <= i < |rows| && 0 <= j < |rows| && rows[i].storage_url == rows[j].storage_url
      ensures rows[i] == rows[j]
    {
      StorageUrlInjective(paths[i], paths[j]);
    }
  }

  /** The table after the script: each discovered path whose upsert is
      accepted has its row under its URL; every other URL is as before. */
  lemma FinalTable(t: Table, paths: seq<string>, rejected: set<string>)
    ensures var r := UpsertAll(t, IssuedUpserts(paths), rejected);
            (forall i :: 0 <= i < |paths| && StorageUrl(paths[i]) !in rejected ==>
               StorageUrl(paths[i]) in r && r[StorageUrl(paths[i])] == RowFor(paths[i]))
            && (forall k :: k !in Urls(Rows(paths)) || k in rejected ==>
                  (k in r <==> k in t) && (k in t ==> r[k] == t[k]))
  {
    FirstUpsertHarmless(t, paths, rejected);
    assert forall i :: 0 <= i < |paths| ==> Rows(paths)[i] == RowFor(paths[i]);
    RowsConsistent(paths);
    UpsertAllConsistent(t, Rows(paths), rejected);
  }

  /** `updateSidFilesInDB()` on the bucket `root` and the table `t0`: the
      table it leaves, the upserts it issues, and the count it reports. */
  method UpdateSidFilesInDB(root: Folder, t0: Table, rejected: set<string>)
    returns (table: Table, issued: seq<SidFileRow>, reported: nat)
    ensures issued == IssuedUpserts(ListAll(root, ""))
    ensures table == UpsertAll(t0, issued, rejected)
    ensures reported == |ListAll(root, "")|
  {
    var sidFiles := ListSidFilesRecursively(root, "");
    table, issued, reported := UpsertSidFiles(sidFiles, t0, rejected);
  }

  /** The part of `updateSidFilesInDB()` after the listing: the URLs are
      derived, the first path is upserted on its own, then every path in
      order, and the number of URLs is reported. */
  method UpsertSidFiles(sidFiles: seq<string>, t0: Table, rejected: set<string>)
    returns (table: Table, issued: seq<SidFileRow>, reported: nat)
    ensures issued == IssuedUpserts(sidFiles)
    ensures table == UpsertAll(t0, issued, rejected)
    ensures reported == |sidFiles|
  {
    var sidFileUrls := seq(|sidFiles|, i requires 0 <= i < |sidFiles| => StorageUrl(sidFiles[i]));
    table := t0;
    issued := [];
    if |sidFiles| > 0 {
      var filePath := sidFiles[0];
      var row := RowFor(filePath);
      table := Upsert(table, row, rejected);
      issued := [row];
    }
    ghost var start := issued;
    assert UpsertAll(t0, issued, rejected) == table by {
      if issued != [] {
        assert issued[1..] == [];
      }
    }
    var k := 0;
    while k < |sidFiles|
      invariant 0 <= k <= |sidFiles|
      invariant issued == start + Rows(sidFiles[..k])
      invariant UpsertAll(t0, issued, rejected) == table
    {
      var filePath := sidFiles[k];
      var row := RowFor(filePath);
      UpsertAllAppend(t0, issued, row, rejected);
      table := Upsert(table, row, rejected);
      issued := issued + [row];
      RowsPrefixStep(sidFiles, k);
      k := k + 1;
    }
    assert sidFiles[..k] == sidFiles;
    reported := |sidFileUrls|;
  }

  /** Upserting one more row at the end of a sequence of upserts. */
  lemma {:induction false} UpsertAllAppend(t: Table, rows: seq<SidFileRow>, row: SidFileRow, rejected: set<string>)
    ensures UpsertAll(t, rows + [row], rejected) == Upsert(UpsertAll(t, rows, rejected), row, rejected)
    decreases |rows|
  {
    if rows == [] {
      assert [] + [row] == [row];
      assert [row][1..] == [];
    } else {
      assert (rows + [row])[1..] == rows[1..] + [row];
      UpsertAllAppend(Upsert(t, rows[0], rejected), rows[1..], row, rejected);
    }
  }
}
