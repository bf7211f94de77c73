/**
 * The Supabase back-end (backend/supabase_storage.py): the 'fruit-images'
 * bucket, the 'classifications' table and the 'users' table, each held as a
 * field. Every operation is refused while the client is not initialised.
 *
 * Whether an SDK call raises is a parameter (`...Ok`); the public URL of an
 * object is the bucket's URL prefix followed by its path; the identifier the
 * database assigns to an inserted row is a parameter.
 */
module Supabase {
  import opened Common
  import opened Json
  import opened CloudStorage

  /** The row inserted for an upload (the timestamp column holds the ISO text of the local time). */
  function UploadRow(d: DateTime, classification: string, confidence: Value, deviceId: Value,
                     imageUrl: string, path: string): (row: Row)
    ensures row.Keys == {"timestamp", "classification", "confidence", "device_id", "image_url", "image_path"}
    ensures Category(row) == Str(classification) && row["timestamp"] == Str(IsoFormat(d))
    ensures row["confidence"] == confidence && row["device_id"] == deviceId
    ensures row["image_path"] == Str(path) && row["image_url"] == Str(imageUrl)
  {
    map["timestamp" := Str(IsoFormat(d)), "classification" := Str(classification),
        "confidence" := confidence, "device_id" := deviceId,
        "image_url" := Str(imageUrl), "image_path" := Str(path)]
  }

  /** The table after delete().eq('id', id): every row with that id goes, the others stay in order. */
  function WithoutId(rows: seq<Row>, id: Value): (r: seq<Row>)
    ensures |r| <= |rows|
    ensures forall row :: row in r ==> row in rows && Get(row, "id", Null) != id
    ensures forall row :: row in rows && Get(row, "id", Null) != id ==> row in r
  {
    if rows == [] then []
    else
      var rest := WithoutId(rows[..|rows| - 1], id);
      var last := rows[|rows| - 1];
      assert forall row :: row in rows[..|rows| - 1] ==> row in rows;
      if Get(last, "id", Null) == id then rest else rest + [last]
  }

  /** Deleting from a table split in two deletes from each part: the surviving rows keep their order. */
  lemma {:induction false} WithoutIdAppend(a: seq<Row>, b: seq<Row>, id: Value)
    ensures WithoutId(a + b, id) == WithoutId(a, id) + WithoutId(b, id)
    decreases |b|
  {
    if b == [] {
      assert a + b == a;
    } else {
      var init, last := b[..|b| - 1], b[|b| - 1];
      var tail := if Get(last, "id", Null) == id then [] else [last];
      WithoutIdAppend(a, init, id);
      assert (a + b)[..|a + b| - 1] == a + init && (a + b)[|a + b| - 1] == last;
      assert WithoutId(a + b, id) == WithoutId(a + init, id) + tail;
      assert WithoutId(b, id) == WithoutId(init, id) + tail;
    }
  }

  class SupabaseStorage {
    const urlPrefix: string
    var initialized: bool
    var bucket: map<string, seq<byte>>
    var table: seq<Row>
    var users: map<string, Row>

    constructor (urlPrefix: string, users: map<string, Row>)
      ensures this.urlPrefix == urlPrefix && this.users == users
      ensures !initialized && bucket == map[] && table == []
    {
      this.urlPrefix := urlPrefix;
      this.users := users;
      initialized := false;
      bucket := map[];
      table := [];
    }

    /** initialize(): needs a non-empty URL and key and a client that can be created. */
    method Initialize(url: string, key: string, clientOk: bool) returns (ok: bool)
      modifies this
      ensures ok == (url != "" && key != "" && clientOk)
      ensures initialized == (old(initialized) || ok)
      ensures bucket == old(bucket) && table == old(table) && users == old(users)
    {
      if url == "" || key == "" {
        return false;
      }
      if !clientOk {
        return false;
      }
      initialized := true;
      ok := true;
    }

    /**
     * upload_image(): the object goes to the bucket first, then its row to
     * the table. The timestamp defaults to `now`; `calendar` is the local
     * calendar time of a Unix timestamp. A failed insert leaves the object
     * in the bucket without a row.
     */
    method UploadImage(image: seq<byte>, classification: string, confidence: Value, deviceId: Value,
                       timestamp: Option<real>, now: real, calendar: real -> DateTime,
                       assignedId: Value, uploadOk: bool, insertOk: bool)
      returns (r: UploadResult)
      modifies this
      ensures !old(initialized) ==> r == NotInitialized && unchanged(this)
      ensures old(initialized) ==>
        var d := calendar(timestamp.GetOr(now));
        var path := BlobPath(d, classification);
        && (!uploadOk ==> r == UploadFailed && unchanged(this))
        && (uploadOk ==> bucket == old(bucket)[path := image])
        && (uploadOk && !insertOk ==> r == UploadFailed && table == old(table))
        && (uploadOk && insertOk ==>
              r == Uploaded(urlPrefix + path, assignedId, path)
              && table == old(table) + [UploadRow(d, classification, confidence, deviceId, urlPrefix + path, path)
                                          ["id" := assignedId]])
      ensures r.Uploaded? ==>
        CountOf(Counts(table), Str(classification)) == CountOf(Counts(old(table)), Str(classification)) + 1
      ensures initialized == old(initialized) && users == old(users)
    {
      if !initialized {
        return NotInitialized;
      }
      var d := calendar(timestamp.GetOr(now));
      var path := BlobPath(d, classification);
      if !uploadOk {
        return UploadFailed;
      }
      bucket := bucket[path := image];
      var url := urlPrefix + path;
      if !insertOk {
        return UploadFailed;
      }
      var row := UploadRow(d, classification, confidence, deviceId, url, path)["id" := assignedId];
      assert Category(row) == Str(classification);
      table := table + [row];
      assert table[..|table| - 1] == old(table);
      r := Uploaded(url, assignedId, path);
    }

    /**
     * get_recent_images(limit): the first `limit` rows of the query, which
     * holds the stored rows ordered newest first (`ordered`).
     */
    function GetRecentImages(limit: nat, ordered: seq<Row>, queryOk: bool): (r: seq<Row>)
      requires multiset(ordered) == multiset(table)
      reads this
      ensures !initialized || !queryOk ==> r == []
      ensures |r| <= limit && r <= ordered
      ensures forall row :: row in r ==> row in table
      ensures initialized && queryOk ==> |r| == (if |table| < limit then |table| else limit)
      ensures initialized && queryOk && |table| <= limit ==> multiset(r) == multiset(table)
    {
      assert |ordered| == |table| by { assert |multiset(ordered)| == |multiset(table)|; }
      assert forall row :: row in ordered ==> row in table by {
        forall row | row in ordered ensures row in table {
          assert row in multiset(ordered);
        }
      }
      if !initialized || !queryOk then [] else Take(ordered, limit)
    }

    /** get_statistics(): the fold over every stored row; None is the {} of a refusal or a failure. */
    method GetStatistics(queryOk: bool) returns (stats: Option<Stats>)
      ensures stats == (if initialized && queryOk then Tally(table) else None)
    {
      if !initialized || !queryOk {
        return None;
      }
      stats := TallyRows(table);
    }

    /** check_user_role(): the user's row decides; no row, no client or a failed query give None. */
    function CheckUserRole(uid: string, queryOk: bool): (r: Option<Value>)
      reads this
      ensures r.Some? <==> initialized && queryOk && uid in users
      ensures r.Some? ==> r == RoleOf(users, uid)
    {
      if !initialized || !queryOk then None else RoleOf(users, uid)
    }

    /**
     * delete_image(): removes the object, then every row with the record id.
     * A failed row delete leaves the object removed and the row in place.
     */
    method DeleteImage(path: string, recordId: Value, removeOk: bool, deleteOk: bool) returns (ok: bool)
      modifies this
      ensures ok == (old(initialized) && removeOk && deleteOk)
      ensures !(old(initialized) && removeOk) ==> unchanged(this)
      ensures old(initialized) && removeOk ==> bucket == old(bucket) - {path}
      ensures ok ==> table == WithoutId(old(table), recordId)
      ensures !ok ==> table == old(table)
      ensures initialized == old(initialized) && users == old(users)
    {
      if !initialized {
        return false;
      }
      if !removeOk {
        return false;
      }
      bucket := bucket - {path};
      if !deleteOk {
        return false;
      }
      table := WithoutId(table, recordId);
      ok := true;
    }
  }
}
