/**
 The camera registry behind the `/v0/cameras` REST routes.

 Each handler is one atomic operation on a `Registry` object: the map from camera id to camera
 held by the configuration manager, and the configured base URL. The reader/writer lock around
 it, the JSON encoding and the route table are not modelled.
 */
module RestApi {
  import opened Wrappers
  import opened ClusterVms

  // ---------------------------------------------------------------------------------------------
  // Camera id generation
  // ---------------------------------------------------------------------------------------------

  /** Generated camera ids are this many characters long. */
  const IdLength: nat := 8

  predicate IsAlphanumeric(c: char)
  {
    'A' <= c <= 'Z' || 'a' <= c <= 'z' || '0' <= c <= '9'
  }

  /** The shape of every generated id: exactly `IdLength` alphanumeric characters. */
  predicate IsCameraIdToken(id: CameraId)
  {
    |id| == IdLength && forall i :: 0 <= i < |id| ==> IsAlphanumeric(id[i])
  }

  /**
   The character the alphanumeric distribution yields for sample `n`: the 62 characters
   A-Z, a-z, 0-9, in that order, indexed by `n % 62`.
   */
  function SampleChar(n: nat): (c: char)
    ensures IsAlphanumeric(c)
  {
    var k := n % 62;
    if k < 26 then ('A' as int + k) as char
    else if k < 52 then ('a' as int + (k - 26)) as char
    else ('0' as int + (k - 52)) as char
  }

  /** One attempt: the id made of `IdLength` consecutive samples. */
  function Token(draw: seq<nat>): (id: CameraId)
    requires |draw| == IdLength
    ensures IsCameraIdToken(id)
  {
    seq(IdLength, j requires 0 <= j < IdLength => SampleChar(draw[j]))
  }

  /**
   The ids the generator would try, in order, given the samples `rng` the random source yields:
   one per complete block of `IdLength` samples.
   */
  function Candidates(rng: seq<nat>): (ids: seq<CameraId>)
    ensures |ids| == |rng| / IdLength
    ensures forall i :: 0 <= i < |ids| ==> IsCameraIdToken(ids[i])
    ensures forall i :: 0 <= i < |ids| ==> ids[i] == Token(rng[i * IdLength .. (i + 1) * IdLength])
    decreases |rng|
  {
    if |rng| < IdLength then []
    else
      var rest := rng[IdLength..];
      var ids := [Token(rng[..IdLength])] + Candidates(rest);
      assert forall i :: 1 <= i < |ids| ==>
        rest[(i - 1) * IdLength .. i * IdLength] == rng[i * IdLength .. (i + 1) * IdLength];
      ids
  }

  /** The first of `ids` that is not in `taken`, or None when every one of them is taken. */
  function FirstFree(ids: seq<CameraId>, taken: set<CameraId>): (r: Option<CameraId>)
    ensures r.Some? ==> r.value in ids && r.value !in taken
    ensures r.None? <==> forall i :: 0 <= i < |ids| ==> ids[i] in taken
    ensures r.Some? ==> exists k :: 0 <= k < |ids| && ids[k] == r.value && forall j :: 0 <= j < k ==> ids[j] in taken
  {
    if ids == [] then None
    else if ids[0] !in taken then Some(ids[0])
    else
      var r := FirstFree(ids[1..], taken);
      assert forall i :: 1 <= i < |ids| ==> ids[i] == ids[1..][i - 1];
      if r.Some? then
        var k :| 0 <= k < |ids| - 1 && ids[1..][k] == r.value && forall j :: 0 <= j < k ==> ids[1..][j] in taken;
        assert ids[k + 1] == r.value && forall j :: 0 <= j < k + 1 ==> ids[j] in taken;
        r
      else r
  }

  /**
   Draws `IdLength`-character alphanumeric ids from `rng` until one is not a key of `existing`.
   The random source is the finite sequence `rng`; when it runs out before a free id turns up,
   the result is None.
   */
  method GenerateCameraId(existing: map<CameraId, Camera>, rng: seq<nat>) returns (r: Option<CameraId>)
    ensures r == FirstFree(Candidates(rng), existing.Keys)
    ensures r.Some? ==> IsCameraIdToken(r.value) && r.value !in existing
    ensures r.None? <==> forall id :: id in Candidates(rng) ==> id in existing
  {
    var rest := rng;
    while IdLength <= |rest|
      invariant FirstFree(Candidates(rest), existing.Keys) == FirstFree(Candidates(rng), existing.Keys)
      decreases |rest|
    {
      var id := Token(rest[..IdLength]);
      if id !in existing {
        return Some(id);
      }
      rest := rest[IdLength..];
    }
    return None;
  }

  // ---------------------------------------------------------------------------------------------
  // Recast URLs
  // ---------------------------------------------------------------------------------------------

  /** The text `{baseUrl}/v0/cameras/{cameraId}/streams/{streamId}/sdp`. */
  function RecastUrlText(baseUrl: string, cameraId: CameraId, streamId: StreamId): string
  {
    baseUrl + "/v0/cameras/" + cameraId + "/streams/" + streamId + "/sdp"
  }

  /**
   Two derived recast-URL texts on the same base, from camera ids of equal length, coincide only
   when camera id and stream id both coincide.
   */
  lemma RecastUrlTextInjective(baseUrl: string, id1: CameraId, sid1: StreamId, id2: CameraId, sid2: StreamId)
    requires |id1| == |id2|
    requires RecastUrlText(baseUrl, id1, sid1) == RecastUrlText(baseUrl, id2, sid2)
    ensures id1 == id2 && sid1 == sid2
  {
    var u1, u2 := RecastUrlText(baseUrl, id1, sid1), RecastUrlText(baseUrl, id2, sid2);
    var p := |baseUrl| + |"/v0/cameras/"|;
    var q := p + |id1| + |"/streams/"|;
    assert u1[p..p + |id1|] == id1;
    assert u2[p..p + |id2|] == id2;
    assert |sid1| == |sid2|;
    assert u1[q..q + |sid1|] == sid1;
    assert u2[q..q + |sid2|] == sid2;
  }

  /** The recast-URL texts derived for two different streams of generated cameras differ. */
  lemma GeneratedRecastUrlTextsDistinct(baseUrl: string, id1: CameraId, sid1: StreamId, id2: CameraId, sid2: StreamId)
    requires IsCameraIdToken(id1) && IsCameraIdToken(id2)
    requires id1 != id2 || sid1 != sid2
    ensures RecastUrlText(baseUrl, id1, sid1) != RecastUrlText(baseUrl, id2, sid2)
  {
    if RecastUrlText(baseUrl, id1, sid1) == RecastUrlText(baseUrl, id2, sid2) {
      RecastUrlTextInjective(baseUrl, id1, sid1, id2, sid2);
    }
  }

  /** One stream after the recast-URL step: a missing recast URL becomes the parse of the derived text. */
  function WithRecastUrl(stream: Stream, baseUrl: string, cameraId: CameraId, streamId: StreamId,
                         parse: string -> Option<string>): Stream
  {
    if stream.recastUrl.None? then stream.(recastUrl := parse(RecastUrlText(baseUrl, cameraId, streamId)))
    else stream
  }

  /**
   All streams of a camera after the recast-URL step: the same stream ids; a stream that had a
   recast URL is unchanged; one that had none gets the parse of its derived URL (which stays
   absent when the parse fails).
   */
  function WithRecastUrls(streams: map<StreamId, Stream>, baseUrl: string, cameraId: CameraId,
                          parse: string -> Option<string>): (r: map<StreamId, Stream>)
    ensures r.Keys == streams.Keys
    ensures forall sid :: sid in streams && streams[sid].recastUrl.Some? ==> r[sid] == streams[sid]
    ensures forall sid :: sid in streams && streams[sid].recastUrl.None? ==>
              r[sid].sourceUrl == streams[sid].sourceUrl
              && r[sid].recastUrl == parse(RecastUrlText(baseUrl, cameraId, sid))
  {
    map sid | sid in streams :: WithRecastUrl(streams[sid], baseUrl, cameraId, sid, parse)
  }

  /** The basic view of each camera of `cameras`, in the same order. */
  function BasicAll(cameras: seq<Camera>): seq<BasicCameraInfo>
  {
    seq(|cameras|, i requires 0 <= i < |cameras| => Basic(cameras[i]))
  }

  // ---------------------------------------------------------------------------------------------
  // The registry and its handlers
  // ---------------------------------------------------------------------------------------------

  class Registry {
    /** The cameras of the configuration, by id. */
    var cameras: map<CameraId, Camera>
    /** The configured base URL recast URLs are derived from. No handler changes it. */
    const baseUrl: string
    /**
     The snapshots of `cameras` handed to the configuration writer, oldest first: one after each
     successful mutation. A failed write is only logged, so every attempt is recorded here and
     none undoes the in-memory change.
     */
    ghost var written: seq<map<CameraId, Camera>>

    ghost predicate Valid()
      reads this
    {
      KeysMatchIds(cameras)
    }

    /** The registry as hydrated from the configuration at start-up. */
    constructor (baseUrl: string, loaded: map<CameraId, Camera>)
      ensures this.baseUrl == baseUrl && cameras == loaded && written == []
      ensures KeysMatchIds(loaded) ==> Valid()
    {
      this.baseUrl := baseUrl;
      cameras := loaded;
      written := [];
    }

    /** `GET /<id>`: the stored camera, or None when no camera has that id. */
    function GetCamera(id: CameraId): (r: Option<Camera>)
      reads this
      ensures r.Some? <==> id in cameras
      ensures r.Some? ==> r.value == cameras[id]
      ensures Valid() && r.Some? ==> r.value.id == id
    {
      if id in cameras then Some(cameras[id]) else None
    }

    /** `GET /<camera_id>/streams/<stream_id>`: None when the camera or the stream is missing. */
    function GetStream(cameraId: CameraId, streamId: StreamId): (r: Option<Stream>)
      reads this
      ensures r.Some? <==> cameraId in cameras && streamId in cameras[cameraId].streams
      ensures r.Some? ==> r.value == cameras[cameraId].streams[streamId]
    {
      match GetCamera(cameraId)
      case None => None
      case Some(camera) => if streamId in camera.streams then Some(camera.streams[streamId]) else None
    }

    /**
     `GET /?format=full`: every stored camera, once each. The map's iteration order is unspecified;
     `order` is the order of ids this call happened to use.
     */
    method ListCamerasFull() returns (r: seq<Camera>, ghost order: seq<CameraId>)
      ensures Enumerates(order, cameras.Keys)
      ensures |r| == |order| == |cameras|
      ensures forall i :: 0 <= i < |r| ==> r[i] == cameras[order[i]]
      ensures forall id :: id in cameras ==> cameras[id] in r
    {
      r, order := [], [];
      var todo := cameras.Keys;
      while todo != {}
        invariant todo <= cameras.Keys
        invariant forall id :: id in order ==> id in cameras && id !in todo
        invariant forall id :: id in cameras ==> id in todo || id in order
        invariant forall i, j :: 0 <= i < j < |order| ==> order[i] != order[j]
        invariant |r| == |order| && |todo| + |order| == |cameras|
        invariant forall i :: 0 <= i < |r| ==> r[i] == cameras[order[i]]
        invariant forall id :: id in order ==> cameras[id] in r
        decreases |todo|
      {
        var id :| id in todo;
        r := r + [cameras[id]];
        order := order + [id];
        todo := todo - {id};
      }
    }

    /** `GET /`: the id and name of every stored camera, once each, in the map's iteration order. */
    method ListCameras() returns (r: seq<BasicCameraInfo>, ghost order: seq<CameraId>)
      ensures |r| == |cameras|
      ensures forall id :: id in cameras ==> Basic(cameras[id]) in r
      ensures Enumerates(order, cameras.Keys) && |order| == |r|
      ensures forall i :: 0 <= i < |r| ==> r[i].id == cameras[order[i]].id && r[i].name == cameras[order[i]].name
    {
      var full;
      full, order := ListCamerasFull();
      r := BasicAll(full);
      forall id | id in cameras
        ensures Basic(cameras[id]) in r
      {
        var i :| 0 <= i < |full| && full[i] == cameras[id];
        assert r[i] == Basic(cameras[id]);
      }
    }

    /**
     The recast-URL step of `POST /`, done in place one stream at a time in the map's iteration
     order: a stream without a recast URL gets the parse of the URL derived from this registry's
     base URL, the camera id and the stream id; every other stream is left as it is.
     */
    method FillRecastUrls(streams: map<StreamId, Stream>, id: CameraId, parse: string -> Option<string>)
      returns (filled: map<StreamId, Stream>)
      ensures filled == WithRecastUrls(streams, baseUrl, id, parse)
    {
      filled := streams;
      var todo := streams.Keys;
      while todo != {}
        invariant todo <= streams.Keys
        invariant filled.Keys == streams.Keys
        invariant forall sid :: sid in streams ==>
                    filled[sid] == if sid in todo then streams[sid]
                                   else WithRecastUrl(streams[sid], baseUrl, id, sid, parse)
        decreases |todo|
      {
        var sid :| sid in todo;
        var stream := filled[sid];
        if stream.recastUrl.None? {
          filled := filled[sid := stream.(recastUrl := parse(RecastUrlText(baseUrl, id, sid)))];
        }
        todo := todo - {sid};
      }
    }

    /**
     `POST /`: stores `candidate` under a freshly generated id. Whatever id the client sent is
     replaced; each stream without a recast URL gets one derived from the base URL, the new id and
     the stream id. The stored camera is returned. None only when `rng` runs out before a free id
     is drawn; then nothing changes.
     */
    method NewCamera(candidate: Camera, rng: seq<nat>, parse: string -> Option<string>) returns (r: Option<Camera>)
      modifies this
      ensures r.None? <==> FirstFree(Candidates(rng), old(cameras).Keys).None?
      ensures r.None? ==> cameras == old(cameras) && written == old(written)
      ensures r.Some? ==> r.value.id == FirstFree(Candidates(rng), old(cameras).Keys).value
      ensures r.Some? ==> IsCameraIdToken(r.value.id) && r.value.id !in old(cameras)
      ensures r.Some? ==> r.value.name == candidate.name
      ensures r.Some? ==> r.value.streams == WithRecastUrls(candidate.streams, baseUrl, r.value.id, parse)
      ensures r.Some? ==> cameras == old(cameras)[r.value.id := r.value]
      ensures r.Some? ==> cameras.Keys == old(cameras).Keys + {r.value.id}
      ensures r.Some? ==> written == old(written) + [cameras]
      ensures old(Valid()) ==> Valid()
    {
      var generated := GenerateCameraId(cameras, rng);
      if generated.None? {
        return None;
      }
      var id := generated.value;
      var streams := FillRecastUrls(candidate.streams, id, parse);
      var camera := candidate.(id := id, streams := streams);
      cameras := cameras[id := camera];
      written := written + [cameras];
      r := Some(camera);
    }

    /**
     `PUT /<id>`: rejected (None, nothing changes, nothing is written) when `id` differs from the
     body's id; otherwise the body is stored under `id` as it is, whether or not `id` was present,
     and returned.
     */
    method EditCamera(id: CameraId, camera: Camera) returns (r: Option<Camera>)
      modifies this
      ensures id != camera.id ==> r.None? && cameras == old(cameras) && written == old(written)
      ensures id == camera.id ==> r == Some(camera)
      ensures id == camera.id ==> cameras == old(cameras)[id := camera]
      ensures id == camera.id ==> written == old(written) + [cameras]
      ensures old(Valid()) ==> Valid()
    {
      if id != camera.id {
        return None;
      }
      cameras := cameras[id := camera];
      written := written + [cameras];
      r := Some(camera);
    }
  }

  /**
   A client of the handlers, using their contracts only: on an empty registry, create a camera with
   one stream and no recast URL, read it back, list it, create a second camera, and send an edit
   whose path id and body id differ.
   */
  method LobbyScenario(rng: seq<nat>, parse: string -> Option<string>)
    requires IdLength <= |rng|
  {
    var registry := new Registry("http://vms.local", map[]);
    var lobby := Camera("client-chosen", "Lobby", map["1" := Stream("rtsp://cam1", None)]);

    var created := registry.NewCamera(lobby, rng, parse);
    assert |Candidates(rng)| > 0;
    assert created.Some?;
    var id := created.value.id;
    assert registry.cameras == map[id := created.value];
    assert IsCameraIdToken(id) && |lobby.id| != IdLength;
    assert created.value.streams["1"].recastUrl == parse(RecastUrlText("http://vms.local", id, "1"));
    assert registry.GetCamera(id) == created;
    assert registry.GetStream(id, "1") == Some(created.value.streams["1"]);
    assert registry.GetStream(id, "2") == None;

    var listed, order := registry.ListCameras();
    assert |listed| == 1 && order[0] == id;
    assert listed[0] == BasicCameraInfo(id, "Lobby");
    assert listed == [BasicCameraInfo(id, "Lobby")];

    var second := registry.NewCamera(lobby, rng, parse);
    assert second.Some? ==> second.value.id != id;

    var before := registry.cameras;
    var edited := registry.EditCamera("abc", lobby.(id := "xyz"));
    assert edited == None && registry.cameras == before;
    assert registry.GetCamera("abc") == None;
  }
}
