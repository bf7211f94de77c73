/**
 * The Firebase back-end (backend/firebase_storage.py): the storage bucket,
 * the 'classifications' collection (documents with their generated ids, in
 * creation order) and the 'users' collection, each held as a field. Every
 * operation is refused while the SDK is not initialised.
 *
 * Whether an SDK call raises is a parameter (`...Ok`); a blob's public URL
 * is the bucket's URL prefix followed by its path; the id Firestore
 * generates for a new document is a parameter.
 */
module Firebase {
  import opened Common
  import opened Json
  import opened CloudStorage

  /** A stored document: its id and its data. */
  datatype Doc = Doc(id: string, data: Row)

  /** The document data written for an upload (the server timestamp field is not modelled). */
  function UploadDoc(timestamp: real, classification: string, confidence: Value, deviceId: Value,
                     imageUrl: string, path: string): (row: Row)
    ensures row.Keys == {"timestamp", "classification", "confidence", "device_id", "image_url", "image_path"}
    ensures Category(row) == Str(classification) && row["timestamp"] == Num(timestamp)
    ensures row["confidence"] == confidence && row["device_id"] == deviceId
    ensures row["image_path"] == Str(path) && row["image_url"] == Str(imageUrl)
  {
    map["timestamp" := Num(timestamp), "classification" := Str(classification),
        "confidence" := confidence, "device_id" := deviceId,
        "image_url" := Str(imageUrl), "image_path" := Str(path)]
  }

  /** The data of each document, in order. */
  function Data(docs: seq<Doc>): (rows: seq<Row>)
    ensures |rows| == |docs| && forall i :: 0 <= i < |docs| ==> rows[i] == docs[i].data
  {
    if docs == [] then [] else Data(docs[..|docs| - 1]) + [docs[|docs| - 1].data]
  }

  /** to_dict() with the document id attached under 'id'. */
  function WithId(doc: Doc): (row: Row)
    ensures row.Keys == doc.data.Keys + {"id"} && row["id"] == Str(doc.id)
    ensures forall k :: k in doc.data && k != "id" ==> row[k] == doc.data[k]
  {
    doc.data["id" := Str(doc.id)]
  }

  class FirebaseStorage {
    const urlPrefix: string
    var initialized: bool
    var bucket: map<string, seq<byte>>
    var docs: seq<Doc>
    var users: map<string, Row>

    constructor (urlPrefix: string, users: map<string, Row>)
      ensures this.urlPrefix == urlPrefix && this.users == users
      ensures !initialized && bucket == map[] && docs == []
    {
      this.urlPrefix := urlPrefix;
      this.users := users;
      initialized := false;
      bucket := map[];
      docs := [];
    }

    /** initialize(): needs the credentials file and an SDK start-up that does not raise. */
    method Initialize(credentialsExist: bool, sdkOk: bool) returns (ok: bool)
      modifies this
      ensures ok == (credentialsExist && sdkOk)
      ensures initialized == (old(initialized) || ok)
      ensures bucket == old(bucket) && docs == old(docs) && users == old(users)
    {
      if !credentialsExist {
        return false;
      }
      if !sdkOk {
        return false;
      }
      initialized := true;
      ok := true;
    }

    /**
     * upload_image(): the blob is written (replacing any blob at the same
     * path) and made public, then the document is created under a fresh id.
     * The timestamp defaults to `now` and is stored as the number itself.
     */
    method UploadImage(image: seq<byte>, classification: string, confidence: Value, deviceId: Value,
                       timestamp: Option<real>, now: real, calendar: real -> DateTime,
                       newId: string, uploadOk: bool, setOk: bool)
      returns (r: UploadResult)
      modifies this
      ensures !old(initialized) ==> r == NotInitialized && unchanged(this)
      ensures old(initialized) ==>
        var t := timestamp.GetOr(now);
        var path := BlobPath(calendar(t), classification);
        && (!uploadOk ==> r == UploadFailed && unchanged(this))
        && (uploadOk ==> bucket == old(bucket)[path := image])
        && (uploadOk && !setOk ==> r == UploadFailed && docs == old(docs))
        && (uploadOk && setOk ==>
              r == Uploaded(urlPrefix + path, Str(newId), path)
              && docs == old(docs) + [Doc(newId, UploadDoc(t, classification, confidence, deviceId,
                                                           urlPrefix + path, path))])
      ensures r.Uploaded? ==>
        CountOf(Counts(Data(docs)), Str(classification)) == CountOf(Counts(Data(old(docs))), Str(classification)) + 1
      ensures initialized == old(initialized) && users == old(users)
    {
      if !initialized {
        return NotInitialized;
      }
      var t := timestamp.GetOr(now);
      var path := BlobPath(calendar(t), classification);
      if !uploadOk {
        return UploadFailed;
      }
      bucket := bucket[path := image];
      var url := urlPrefix + path;
      if !setOk {
        return UploadFailed;
      }
      AddDoc(Doc(newId, UploadDoc(t, classification, confidence, deviceId, url, path)));
      r := Uploaded(url, Str(newId), path);
    }

    /** doc_ref.set(): the document joins the collection, and its label's count rises by one. */
    method AddDoc(doc: Doc)
      modifies this
      ensures docs == old(docs) + [doc]
      ensures CountOf(Counts(Data(docs)), Category(doc.data)) == CountOf(Counts(Data(old(docs))), Category(doc.data)) + 1
      ensures initialized == old(initialized) && bucket == old(bucket) && users == old(users)
    {
      docs := docs + [doc];
      assert Data(docs) == Data(old(docs)) + [doc.data] by {
        assert docs[..|docs| - 1] == old(docs);
      }
      CountsAppend(Data(old(docs)), doc.data);
    }

    /**
     * get_recent_images(limit): the query orders the stored documents newest
     * first (`ordered`) and keeps `limit` of them; each is returned with its id.
     */
    method GetRecentImages(limit: nat, ordered: seq<Doc>, queryOk: bool) returns (results: seq<Row>)
      requires multiset(ordered) == multiset(docs)
      ensures |results| <= limit && |results| <= |ordered|
      ensures !initialized || !queryOk ==> results == []
      ensures initialized && queryOk ==>
        |results| == (if |docs| < limit then |docs| else limit)
        && forall i :: 0 <= i < |results| ==> ordered[i] in docs && results[i] == WithId(ordered[i])
    {
      assert |ordered| == |docs| by { assert |multiset(ordered)| == |multiset(docs)|; }
      assert forall d :: d in ordered ==> d in docs by {
        forall d | d in ordered ensures d in docs {
          assert d in multiset(ordered);
        }
      }
      if !initialized || !queryOk {
        return [];
      }
      var stream := Take(ordered, limit);
      results := [];
      for i := 0 to |stream|
        invariant |results| == i
        invariant forall j :: 0 <= j < i ==> results[j] == WithId(stream[j])
      {
        var data := stream[i].data;
        data := data["id" := Str(stream[i].id)];
        results := results + [data];
      }
    }

    /** get_statistics(): the fold over every stored document; None is the {} of a refusal or a failure. */
    method GetStatistics(queryOk: bool) returns (stats: Option<Stats>)
      ensures stats == (if initialized && queryOk then Tally(Data(docs)) else None)
    {
      if !initialized || !queryOk {
        return None;
      }
      stats := TallyRows(Data(docs));
    }

    /** check_user_role(): the user's document decides; no document, no SDK or a failed read give None. */
    function CheckUserRole(uid: string, readOk: bool): (r: Option<Value>)
      reads this
      ensures r.Some? <==> initialized && readOk && uid in users
      ensures r.Some? ==> r == RoleOf(users, uid)
    {
      if !initialized || !readOk then None else RoleOf(users, uid)
    }
  }
}
