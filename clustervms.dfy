/**
 The record types of the camera registry, reduced to the fields the REST handlers use.
 The types themselves live in a crate that is not part of this model; their shape here follows
 how the handlers use them: camera ids are strings, a camera's streams are keyed by stream id,
 and a stream's recast URL is optional.
 */
module ClusterVms {
  import opened Wrappers

  type CameraId = string

  /** A stream id, as the text it renders to inside a URL. */
  type StreamId = string

  datatype Stream = Stream(sourceUrl: string, recastUrl: Option<string>)

  datatype Camera = Camera(id: CameraId, name: string, streams: map<StreamId, Stream>)

  /** The reduced view used by the plain listing: id and name, no streams. */
  datatype BasicCameraInfo = BasicCameraInfo(id: CameraId, name: string)

  function Basic(camera: Camera): BasicCameraInfo
  {
    BasicCameraInfo(camera.id, camera.name)
  }

  /** The registry invariant: every key is the id of the camera stored under it. */
  predicate KeysMatchIds(cameras: map<CameraId, Camera>)
  {
    forall id :: id in cameras ==> cameras[id].id == id
  }

  /** `order` lists every key of `keys` exactly once, in some order. */
  predicate Enumerates(order: seq<CameraId>, keys: set<CameraId>)
  {
    && (forall i, j :: 0 <= i < j < |order| ==> order[i] != order[j])
    && (forall i :: 0 <= i < |order| ==> order[i] in keys)
    && (forall id :: id in keys ==> id in order)
  }
}
