# Camera registry of clustervms-camera-mgr, in Dafny

This project models the camera registry of the ClusterVMS camera manager. The manager is a REST
service. It keeps a map from camera id to camera inside its configuration manager and serves these
routes under `/v0/cameras`:

- list cameras: plain (id and name) or full;
- read one camera, or one stream of a camera;
- create a camera;
- replace a camera.

Each handler takes the configuration lock, works on the map, and on a mutation asks the
configuration manager to write the configuration file.

The model is one class, `RestApi.Registry`. It has these fields:

- `cameras`: the map from camera id to camera;
- `baseUrl`: the configured base URL, a constant;
- `written`: a ghost log of the snapshots handed to the configuration writer.

Each handler is one method or function of the class, and runs as one atomic step.

- Read handlers (`GetCamera`, `GetStream`, `ListCameras`, `ListCamerasFull`) change nothing.
  The two listings walk the map in an unspecified order, modelled by choosing the next key with `:|`.
  Each listing also returns, as a ghost value, the order of ids it used.
- `NewCamera` ignores the id the client sent. It draws a fresh id with `GenerateCameraId`.
  It fills in each missing recast URL (`FillRecastUrls`) from
  `{baseUrl}/v0/cameras/{id}/streams/{stream_id}/sdp`. It inserts the camera, records a write and
  returns the stored camera.
- `EditCamera` rejects a body whose id differs from the path id. It then changes nothing and
  writes nothing. Otherwise it stores the body exactly as sent, with no recast-URL derivation.
  The handler inserts whether or not the id is already a key, so a PUT to an absent id creates
  that camera.
- Both mutations keep the registry invariant `KeysMatchIds`: every key is the id of the camera
  stored under it.

Id generation draws 8 samples from the alphanumeric distribution (A-Z, a-z, 0-9) per attempt.
It retries until the id is not a key. The random source is the input `rng`, a finite sequence of
sample indices. `Candidates(rng)` is the sequence of ids the loop would try, and
`FirstFree` picks the first one that is free. The URL parser is the input `parse`.

`LobbyScenario` is a client of the handlers. Using their contracts alone, it shows this sequence:

- a create on an empty registry gets an 8-character id different from the client's id;
- the created camera's stream gets its derived recast URL;
- read-back and listing return what was stored;
- a second create gets a different id;
- a mismatched edit changes nothing.

## Model

| member | source | states |
|---|---|---|
| `RestApi.SampleChar` | src/rest_api.rs:97 | every character the alphanumeric distribution yields is in A-Z, a-z or 0-9 |
| `RestApi.Token` | src/rest_api.rs:97 | one attempt of 8 samples is an id of exactly 8 alphanumeric characters |
| `RestApi.Candidates` | src/rest_api.rs:96-97 | the random source yields one candidate id per complete block of 8 samples: candidate i is the token of the i-th block, 8 alphanumeric characters |
| `RestApi.FirstFree` | src/rest_api.rs:96-102 | the id picked is the first candidate that is not taken: it is not taken and every earlier candidate is; none is picked exactly when every candidate is taken |
| `RestApi.GenerateCameraId` | src/rest_api.rs:95-103 | the retry loop returns the first candidate that is not a key of the existing map; that id has 8 alphanumeric characters and is absent from the map; it returns nothing only if every drawn candidate was taken |
| `RestApi.RecastUrlTextInjective` | src/rest_api.rs:56 | derived recast-URL texts on one base URL, for camera ids of equal length, are equal only if the camera ids and the stream ids are equal |
| `RestApi.GeneratedRecastUrlTextsDistinct` | src/rest_api.rs:56 | for two generated (8-character alphanumeric) camera ids, the recast-URL texts derived for two different (camera, stream) pairs differ; this is about the texts before parsing, not the parsed URLs stored |
| `RestApi.WithRecastUrls` | src/rest_api.rs:53-58 | the recast-URL step keeps the stream ids and leaves streams with a recast URL untouched; a stream without one keeps its source URL and gets the parse of `{base}/v0/cameras/{id}/streams/{sid}/sdp`, which stays absent if the parse fails |
| `RestApi.Registry.constructor` | src/rest_api.rs:132-136 | the registry starts with the loaded cameras, the configured base URL and no writes; it satisfies the key invariant when the loaded map does |
| `RestApi.Registry.GetCamera` | src/rest_api.rs:33-40 | returns the stored camera exactly when the id is a key, otherwise None; under the invariant the returned camera carries the requested id |
| `RestApi.Registry.GetStream` | src/rest_api.rs:84-93 | returns the stream exactly when both the camera and the stream exist; None when either level is missing |
| `RestApi.Registry.ListCamerasFull` | src/rest_api.rs:26-31 | returns one entry per stored camera: the ids it used enumerate the keys with no repeats, each entry is the camera stored under its id, and every stored camera appears |
| `RestApi.Registry.ListCameras` | src/rest_api.rs:13-24 | returns one entry per stored camera, and the (id, name) view of every stored camera appears; the ids used enumerate the keys with no repeats, and each entry carries the id and name of the camera stored under its id |
| `RestApi.Registry.FillRecastUrls` | src/rest_api.rs:53-58 | the in-place loop over the streams yields exactly the recast-URL step applied to every stream |
| `RestApi.Registry.NewCamera` | src/rest_api.rs:42-64 | the client's id is replaced by the generated id; that id is 8 alphanumeric characters, absent before and present after; the name is kept and the streams get the recast-URL step; the map gains exactly that one key, and all other entries are unchanged; one snapshot is written; the key invariant is kept; if no id can be drawn, nothing changes |
| `RestApi.Registry.EditCamera` | src/rest_api.rs:66-82 | a path id different from the body id gives None, leaves the map unchanged and writes nothing; otherwise the body is stored under the id exactly as sent and returned, with all other keys unchanged and one snapshot written; the key invariant is kept |

## Left out

- The reader/writer lock (src/rest_api.rs:133-136) is left out: each handler is one atomic method call. Concurrent interleavings, and the writer-preference of the lock, are not modelled.
- Writing the configuration file (src/rest_api.rs:105-120) is modelled only by the ghost log `written`. Each successful mutation appends the whole map to it. File I/O is not modelled. Neither is the logging of a failed write, which never undoes the change.
- Log messages are left out: the warning on a rejected edit (src/rest_api.rs:74), the success message after a write (src/rest_api.rs:114) and the error message after a failed write (src/rest_api.rs:117).
- `Url::parse` is a foreign library. It is the function parameter `parse`, of type `string -> Option<string>`.
- The random generator is the finite input `rng` of sample indices. The distribution and the rejection sampling inside the library are not modelled.
- GenerateCameraId: the source loops until it finds a free id and always returns one. The model returns None when `rng` runs out first, because an unbounded loop cannot be written here.
- NewCamera: for the same reason it returns None, and changes nothing, when `rng` runs out before a free id is drawn. The source always returns the created camera.
- JSON encoding and decoding, the 404 catcher body (src/rest_api.rs:122-128) and route mounting (src/rest_api.rs:138-144) are framework code and are left out.
- src/main.rs is left out: argument parsing, the CORS response headers and server launch are I/O and framework wiring.
- src/common.rs is left out. It is not compiled (main.rs declares only `rest_api`), and its integer ids and stream lists do not match the string ids and keyed streams the handlers use.
- The configuration manager and the record types of the `clustervms` crate are not part of this model. Cameras carry only the fields the handlers touch (id, name, streams). Streams carry a source URL and an optional recast URL. The basic projection is id and name.
- Loading the configuration at start-up is not modelled. The constructor takes the loaded map as it is.
- A stream id is modelled by the text it renders to in a URL. The base URL is also modelled as plain text.
