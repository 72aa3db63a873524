/** The object bucket both storage-backed workers write to, and the
    `/file/:key` route that serves what it holds. */
module Store {
  import opened Common

  /** The bucket's contents seen as a value: key to stored bytes. HTTP
      metadata and ETags are not part of the model. */
  class Bucket {
    var objects: map<string, seq<byte>>

    constructor ()
      ensures objects == map[]
    {
      objects := map[];
    }

    /** `put`: store `value` under `key`, replacing whatever was there. */
    method Put(key: string, value: seq<byte>)
      modifies this
      ensures objects == old(objects)[key := value]
    {
      objects := objects[key := value];
    }

    /** `get`: the stored bytes, or nothing (`null`) for an absent key. */
    method Get(key: string) returns (found: Option<seq<byte>>)
      ensures found.Some? <==> key in objects
      ensures found.Some? ==> found.value == objects[key]
      ensures found == Lookup(objects, key)
    {
      if key in objects {
        found := Some(objects[key]);
      } else {
        found := None;
      }
    }
  }

  /** What `get` answers for `key` when the bucket holds `objects`. */
  function Lookup(objects: map<string, seq<byte>>, key: string): (found: Option<seq<byte>>)
    ensures found.Some? <==> key in objects
    ensures found.Some? ==> found.value == objects[key]
  {
    if key in objects then Some(objects[key]) else None
  }

  /** The response of `/file/:key` for the result of `get`. */
  function FileResponse(found: Option<seq<byte>>): (r: Response)
    ensures r.status == 404 <==> found.None?
    ensures found.None? ==> r.body == Text("Object Not Found")
    ensures found.Some? ==> r.status == 200 && r.body == Bytes(found.value)
  {
    match found
    case None => Response(404, map[], Text("Object Not Found"))
    case Some(bytes) => Response(200, map[], Bytes(bytes))
  }

  /** The `/file/:key` handler: 404 with `Object Not Found` for an absent
      key, the stored bytes otherwise. */
  method HandleFileRequest(bucket: Bucket, key: string) returns (r: Response)
    ensures r.status == 404 <==> key !in bucket.objects
    ensures key !in bucket.objects ==> r.body == Text("Object Not Found")
    ensures key in bucket.objects ==> r.status == 200 && r.body == Bytes(bucket.objects[key])
    ensures r == FileResponse(Lookup(bucket.objects, key))
  {
    var found := bucket.Get(key);
    if found.None? {
      r := Response(404, map[], Text("Object Not Found"));
    } else {
      r := Response(200, map[], Bytes(found.value));
    }
  }
}
