/** The share API of `app/api/share/route.ts`: an in-memory map from share id to the
    shared results, records that expire seven days after creation, the POST and GET
    handlers, and the periodic sweep of expired records. Times are milliseconds
    since the epoch; the ISO strings the source stores are exact at that
    precision. */
module ShareRoute {
  import opened Wrappers

  /** Seven days in milliseconds. */
  const ShareLifetime := 7 * 24 * 60 * 60 * 1000

  /** A stored share; `results` are the shared analysis results as JSON texts. */
  datatype ShareData = ShareData(
    id: string, results: seq<string>, capturedImage: Option<string>, timestamp: string, expiresAt: int)

  /** The `results` field of a POST body. */
  datatype ResultsField = Missing | NotAnArray | ResultArray(items: seq<string>)

  datatype PostBody = PostBody(results: ResultsField, capturedImage: Option<string>)

  datatype Response =
    | Created(shareId: string, shareUrl: string, expiresAt: int)
    | Found(data: ShareData)
    | Error(status: int, message: string)

  type Storage = map<string, ShareData>

  /** POST: `body` is `None` when the request body is not JSON (status 500).
      `shareId` stands for the random id, `now` for the clock. */
  function Create(storage: Storage, body: Option<PostBody>, shareId: string, origin: string,
                  now: int, timestamp: string): (r: (Response, Storage))
    ensures body.None? ==> r == (Error(500, "Failed to create share"), storage)
    ensures body.Some? && !body.value.results.ResultArray? ==> r == (Error(400, "Invalid results data"), storage)
    ensures body.Some? && body.value.results.ResultArray? ==>
              r.0 == Created(shareId, origin + "/shared/" + shareId, now + ShareLifetime)
              && r.1 == storage[shareId := ShareData(shareId, body.value.results.items, body.value.capturedImage,
                                                     timestamp, now + ShareLifetime)]
  {
    match body
    case None => (Error(500, "Failed to create share"), storage)
    case Some(b) =>
      match b.results
      case ResultArray(items) =>
        var data := ShareData(shareId, items, b.capturedImage, timestamp, now + ShareLifetime);
        (Created(shareId, origin + "/shared/" + shareId, data.expiresAt), storage[shareId := data])
      case _ => (Error(400, "Invalid results data"), storage)
  }

  /** GET: the `id` query parameter (absent is `None`) looked up at time `now`. */
  function Fetch(storage: Storage, id: Option<string>, now: int): (r: (Response, Storage))
    ensures id.None? || id.value == "" ==> r == (Error(400, "Share ID required"), storage)
    ensures id.Some? && id.value != "" && id.value !in storage ==>
              r == (Error(404, "Share not found or expired"), storage)
    ensures id.Some? && id.value != "" && id.value in storage && storage[id.value].expiresAt < now ==>
              r == (Error(410, "Share has expired"), storage - {id.value})
    ensures id.Some? && id.value in storage && storage[id.value].expiresAt >= now && id.value != "" ==>
              r == (Found(storage[id.value]), storage)
    ensures r.0.Found? ==> r.1 == storage
  {
    match id
    case None => (Error(400, "Share ID required"), storage)
    case Some(k) =>
      if k == "" then (Error(400, "Share ID required"), storage)
      else if k !in storage then (Error(404, "Share not found or expired"), storage)
      else if storage[k].expiresAt < now then (Error(410, "Share has expired"), storage - {k})
      else (Found(storage[k]), storage)
  }

  /** The records the sweep at time `now` keeps: those not yet past their expiry. */
  function Unexpired(storage: Storage, now: int): (r: Storage)
    ensures r.Keys <= storage.Keys
    ensures forall id :: id in r ==> r[id] == storage[id]
    ensures forall id :: id in storage ==> (id in r <==> storage[id].expiresAt >= now)
  {
    map id | id in storage && storage[id].expiresAt >= now :: storage[id]
  }

  /** A later sweep subsumes an earlier one. */
  lemma SweepsCompose(storage: Storage, t1: int, t2: int)
    requires t1 <= t2
    ensures Unexpired(Unexpired(storage, t1), t2) == Unexpired(storage, t2)
  {
    var a := Unexpired(Unexpired(storage, t1), t2);
    var b := Unexpired(storage, t2);
    assert a.Keys == b.Keys;
  }

  /** A share is served up to and including the instant it expires, for any time
      up to seven days after its creation. */
  lemma CreatedShareIsServed(storage: Storage, body: PostBody, shareId: string, origin: string,
                             now: int, timestamp: string, later: int)
    requires body.results.ResultArray? && shareId != ""
    requires later <= now + ShareLifetime
    ensures var stored := Create(storage, Some(body), shareId, origin, now, timestamp).1;
            Fetch(stored, Some(shareId), later).0 == Found(stored[shareId])
            && stored[shareId].results == body.results.items
  {
  }

  /** After the sweep, an expired share is reported as missing (404) instead of
      expired (410); a live one is served as before. */
  lemma FetchAfterSweep(storage: Storage, id: string, now: int)
    requires id != "" && id in storage
    ensures Fetch(storage, Some(id), now).0.Error? && Fetch(storage, Some(id), now).0.status == 410 ==>
              Fetch(Unexpired(storage, now), Some(id), now).0 == Error(404, "Share not found or expired")
    ensures Fetch(storage, Some(id), now).0.Found? ==>
              Fetch(Unexpired(storage, now), Some(id), now).0 == Fetch(storage, Some(id), now).0
  {
  }

  /** The module-level `shareStorage` map. */
  class ShareStore {
    var storage: Storage

    constructor ()
      ensures storage == map[]
    {
      storage := map[];
    }

    method Post(body: Option<PostBody>, shareId: string, origin: string, now: int, timestamp: string)
      returns (response: Response)
      modifies this
      ensures (response, storage) == Create(old(storage), body, shareId, origin, now, timestamp)
    {
      var outcome := Create(storage, body, shareId, origin, now, timestamp);
      response := outcome.0;
      storage := outcome.1;
    }

    method Get(id: Option<string>, now: int) returns (response: Response)
      modifies this
      ensures (response, storage) == Fetch(old(storage), id, now)
    {
      if id.None? || id.value == "" {
        return Error(400, "Share ID required");
      }
      var k := id.value;
      if k !in storage {
        return Error(404, "Share not found or expired");
      }
      if storage[k].expiresAt < now {
        storage := storage - {k};
        return Error(410, "Share has expired");
      }
      return Found(storage[k]);
    }

    /** The hourly clean-up: every record whose expiry is before `now` is deleted,
        one entry at a time. */
    method Sweep(now: int)
      modifies this
      ensures storage == Unexpired(old(storage), now)
    {
      var pending := storage.Keys;
      while pending != {}
        invariant pending <= storage.Keys <= old(storage).Keys
        invariant forall id :: id in storage ==> storage[id] == old(storage)[id]
        invariant forall id :: id in old(storage) && id !in pending ==>
                    (id in storage <==> old(storage)[id].expiresAt >= now)
        decreases pending
      {
        var id :| id in pending;
        if storage[id].expiresAt < now {
          storage := storage - {id};
        }
        pending := pending - {id};
      }
      assert storage.Keys == Unexpired(old(storage), now).Keys;
    }
  }
}
