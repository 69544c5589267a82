# Verified model of three pieces of the robot runtime

This project models and proves properties of three sequential, stateful
parts of the robot runtime.

- **Stream orchestration of the web service** (`robot/web/web_c.go`).
  - `addNewStreams` refreshes the stream server's video and audio sources.
  - It then walks them. Every source name not yet registered gets a
    stream, which is created and started. Registered names are skipped.
  - The walk returns on the first `CreateStream` error. On Windows it skips
    video entirely.
  - `Reconfigure` runs the step only while the service is running.
  - `filterXML.Write` is a write-once wrapper around a response writer. It
    drops the six XML document-type lines from the body it passes on.
- **The RTP passthrough subscription registry of the fake camera**
  (`components/camera/fake/camera_test.go`).
  - The camera hands out subscriptions when passthrough is enabled.
  - `Unsubscribe` cancels one subscription. `Close` cancels every one still
    live. Each misuse has a specific error.
  - The two halves of `TestRTPPassthrough` are replayed call by call as the
    verified methods `FakeCamera.ReplayPassthroughEnabled` and
    `FakeCamera.ReplayPassthroughDisabled`.
- **Joint-limit operations of a kinematic joint** (`kinematics/joint.go`).
  - `Clamp` saturates a position vector in place.
  - `Clip` saturates or, at wraparound indices, wraps by whole ranges.
  - `IsValid` checks limits. `Step` adds a delta into a fresh vector.

Layout:

| file | module | contents |
|---|---|---|
| `wrappers.dfy` | `Wrappers` | `Option` |
| `webstream.dfy` | `WebStream` | the stream server `Server`, reduced to what the web service relies on: source directories, a catalog of streams by name, and a log of start calls per kind |
| `web.dfy` | `Web` | the specification of `addNewStreams` over catalogs, the `WebService` class with `AddNewStreams` and `Reconfigure`, and `filterXML` over bytes |
| `rtp_passthrough.dfy` | `FakeCamera` | the `Camera` subscription registry and the test replay |
| `joint.dfy` | `Kinematics` | Clamp and Clip specification functions, their lemmas, and the `Joint` class |

### How the model is built

- **Server.** `webstream.Server` is not part of this model.
  - It is a class in `WebStream` whose fields are the refreshed source
    directories, a map from name to stream, and one log per kind of the
    names passed to `StartVideoStream` and `StartAudioStream`, in call order
    and with repeats.
  - `CreateStream` follows the de-duplication contract that
    `robot/web/web_c.go:109-110` describes.
  - `Server.Registry()` abstracts the server to a `Catalog`: the streams
    and the set of names in each start log.
- **Walk order.** Go visits a map in no fixed order.
  - The two loops of `addNewStreams` share one body, modelled once as
    `Web.StartNewStreams`, which picks each next name arbitrarily (`:|`).
  - The loop is proved equal to `Web.WalkSources`, which does not depend
    on order. That holds because `CreateStream` is modelled as failing for
    every new name of a kind or for none (see "## Left out"). If it could
    fail for some new names only, the catalog left by an aborted walk would
    depend on Go's map order.
  - On Windows the video loop breaks before its first iteration, so
    `AddNewStreams` skips the video walk.
- **Iteration invariant.** The catalog equals the walk over the names
  visited so far.
- **Each new stream is started once.** Besides its effect on the catalog,
  `AddNewStreams` ensures `FreshStarts` for both start logs. Every start
  call it makes is for a name that was not registered when it began, and
  no name is started twice. A stream that is already running is never
  started again. `WebStream.FreshStartsCount` turns this into a count: the
  run makes exactly as many start calls as it adds started names.
  `Web.RerunStartsNothing` shows that a second run on the same sources
  makes no start call at all.
- **Joint.** The joint's `min`, `max`, `wraparound` and `position` are
  sequence fields of `Kinematics.Joint`.
  - A slice passed to `Clamp`, `Clip`, `IsValid` or `Step` is an `array<real>`.
  - `Clamp` and `Clip` mutate that array in place.
  - `Clip`'s inner wrap loops are `while` loops. They are proved to terminate
    using the measure `floor(distance / range) + 1`.
- **Subscription registry.**
  - Subscription IDs are natural numbers taken from a counter, with 0
    standing for the nil UUID. An ID from the counter differs from every
    ID handed out before, which is what `uuid.New` provides.
  - A terminated subscription stays in the map with its cause. That makes
    `sub.Terminated.Err()` observable.

### Behaviour of the code worth noting

- **Clip termination.** Over the reals, the wrap loops stop exactly when
  `min[i] != max[i] || q[i] == min[i]` (`Kinematics.WrapTerminates`, a
  requirement of `Kinematics.Joint.Clip`). For Go's float64 there are
  more non-terminating inputs (see "## Left out").
  - So they also terminate when `max[i] < min[i]`, because the range is
    `|max - min|`.
  - When `min[i] == max[i]` and `q[i]` differs, they never terminate.
- **Clamp and Clip with reversed limits.** Clamp tests `< min` first. Clip
  tests `> max` first. With ordered limits they always agree
  (`Kinematics.ClipSaturatesLikeClamp`). With `max[i] < min[i]` they still
  agree on an entry `q <= max[i]` or `q >= min[i]`. They differ only for
  `max[i] < q < min[i]`: Clip stores `max[i]`, Clamp stores `min[i]`
  (`Kinematics.ClipClampReversedLimits`).
- **The length filterXML returns.** `filterXML.Write` returns the byte count
  of the filtered body, not of the input (`robot/web/web_c.go:229-233`).

## Model

| member | source | states |
|---|---|---|
| Web.WebService.StreamInitialized | robot/web/web_c.go:70-72 | The stream server counts as initialised exactly when the `StreamServer` is present and holds a server. `AddNewStreams` returns nil and modifies nothing when it is false. |
| Web.WebService.AddNewStreams | robot/web/web_c.go:74-140 | Without an initialised stream server, returns nil and changes nothing. Otherwise the sources are refreshed to the given cameras and microphones. Without a stream config, the catalog is unchanged and nil is returned. With one, the catalog becomes the order-independent `AddNewStreamsOutcome`, and an error is returned exactly when a walk aborted. The error names a new source. Every start call made is for a name not registered before the run, and none is repeated. |
| Web.StartNewStreams | robot/web/web_c.go:97-137 | One loop of `addNewStreams` for one kind. The catalog becomes `WalkSources` of the kind's sources, and an error is returned exactly when that walk aborts. Each start call is for a name not registered before the loop, no name is started twice, and the other kind's log is untouched. |
| Web.WebService.Reconfigure | robot/web/web_c.go:175-185 | A failed resource update returns its error with the server untouched. When not running, returns nil with the server untouched. When running, it has exactly the effect of `AddNewStreams`, including its start-call guarantee, and any error it returns is a stream-creation error. |
| Web.StartsOnlyNewStreams | robot/web/web_c.go:113-119 | Registered streams are kept unchanged. The names started in a run are exactly the names newly created, each as one kind only. Video starts only at cameras, audio only at microphones. |
| Web.RerunStartsNothing | robot/web/web_c.go:109-117 | After a first run, a second run on the same sources leaves each start log exactly as it was: no stream is started again. |
| WebStream.FreshStartsCount | robot/web/web_c.go:116-119 | For fresh start calls, the names added to a log are the names of the new calls, and there are exactly as many calls as added names. |
| WebStream.NoNewNameNoStart | robot/web/web_c.go:116-117 | Fresh start calls that add no new name were never made: the log is unchanged. |
| WebStream.DistinctNames | robot/web/web_c.go:119 | A start log without repeats names as many names as it has entries. |
| Web.AddNewStreamsIdempotent | robot/web/web_c.go:109-117 | Running the step again on its own result, with the same sources, returns the same catalog and outcome: nothing new is created or started. |
| Web.FailureStopsTheWalk | robot/web/web_c.go:113-115 | After an abort no audio stream has been started and only camera names may have been added. A failure in the video walk leaves the catalog exactly as it was, with no audio walk. |
| Web.WindowsSkipsVideo | robot/web/web_c.go:97-102 | On Windows the outcome is the audio walk alone. No video stream is started, and every new stream is a microphone's. |
| Web.AddNewStreamsKeepsValid | robot/web/web_c.go:113-136 | Only registered names are ever marked started, before and after a run. |
| Web.WalkStep | robot/web/web_c.go:113-119 | One iteration in terms of the walk so far. A registered name leaves the catalog as it is. A new name with no encoder aborts with the original catalog. Otherwise the name's stream is added and marked started. |
| WebStream.Server.CreateStream | robot/web/web_c.go:109-113 | A registered name returns its existing stream with `alreadyRegistered` and changes nothing. A new name without an encoder factory fails and changes nothing. Otherwise the stream is added under the name. |
| WebStream.Server.RefreshVideoSources | robot/web/web_c.go:81-84 | The video directory becomes the current cameras, and nothing else changes. |
| WebStream.Server.RefreshAudioSources | robot/web/web_c.go:81-85 | The audio directory becomes the current microphones, and nothing else changes. |
| WebStream.Server.StartVideoStream | robot/web/web_c.go:119 | Appends the stream's name to the video start log, even if it is already there, and nothing else changes. |
| WebStream.Server.StartAudioStream | robot/web/web_c.go:136 | Appends the stream's name to the audio start log, even if it is already there, and nothing else changes. |
| WebStream.Server.constructor | robot/web/web_c.go:196 | A new server has no sources and an empty catalog. |
| Web.FilterXML.Write | robot/web/web_c.go:221-234 | Once a write has succeeded, every call fails with "cannot write more than once" and leaves the inner writer untouched. Before that, the inner writer is handed the input without its first six lines. `called` becomes true exactly when that inner write succeeds. On success the filtered length is returned. On failure the inner writer's `(0, error)` is passed through and the body is unchanged. |
| Web.FilterXML.constructor | robot/web/web_c.go:216-219 | A new filter has not been called yet and wraps the given writer. |
| Web.Split | robot/web/web_c.go:225 | Splitting on newline gives one more segment than there are newlines, and no segment holds a newline. |
| Web.JoinSplit | robot/web/web_c.go:225-228 | Joining the split segments with newline gives back the input. |
| Web.SplitJoin | robot/web/web_c.go:225-228 | Splitting newline-free segments joined with newline gives back the segments. |
| Web.SplitPrefix | robot/web/web_c.go:225 | A newline-free prefix glues onto the first segment of what follows it. |
| Web.DropLines | robot/web/web_c.go:227-228 | Dropping the first k segments and rejoining gives the text after the k-th newline. |
| Web.StripDtdAfterSixthNewline | robot/web/web_c.go:225-229 | The body passed on is exactly what follows the sixth newline of the input. |
| Web.AfterNewlinesIsSuffix | robot/web/web_c.go:227-228 | What follows the k-th newline is a suffix of the input: filtering only removes a prefix. |
| FakeCamera.Camera.constructor | components/camera/fake/camera_test.go:81-94 | A new camera is open, has no subscriptions, and keeps its passthrough setting. |
| FakeCamera.Camera.SubscribeRTP | components/camera/fake/camera_test.go:109-155 | Enabled and open: succeeds with a live subscription under an ID never handed out before, and adds only that. Disabled (or closed): returns the nil subscription and "not enabled", and changes nothing. |
| FakeCamera.Camera.Unsubscribe | components/camera/fake/camera_test.go:121-158 | Disabled: "not enabled" for any ID. An ID that is not live: "id not found", with nothing changed, so other subscriptions stay live. A live ID: succeeds and terminates exactly that subscription with Canceled. |
| FakeCamera.Camera.Close | components/camera/fake/camera_test.go:130-159 | Returns nil and marks the camera closed. Every subscription still live becomes terminated with Canceled. Terminated ones keep their cause and no ID is added or removed. |
| FakeCamera.Camera.TerminatedErr | components/camera/fake/camera_test.go:124-135 | A subscription's `Terminated.Err()` is nil exactly while it is live. |
| Kinematics.Joint.Clamp | kinematics/joint.go:192-207 | Returns the same slice it was given. Each entry of the slice becomes that entry clamped: wraparound entries unchanged, others raised to min or lowered to max, min tested first. The precondition is exactly that no limit slice is read past its end. |
| Kinematics.ClampWithinLimits | kinematics/joint.go:196-203 | With ordered limits, every clamped non-wraparound entry lies within `[min[i], max[i]]`. |
| Kinematics.ClampKeepsWraparoundAndInRange | kinematics/joint.go:193-206 | Clamping keeps the length, leaves wraparound entries unchanged, and leaves in-range entries unchanged. |
| Kinematics.ClampIdempotent | kinematics/joint.go:192-207 | With ordered limits, clamping twice is clamping once. |
| Kinematics.ClampMakesValid | kinematics/joint.go:233-240 | With ordered limits and no wraparound index, the result of Clamp passes IsValid. |
| Kinematics.Joint.Clip | kinematics/joint.go:58-74 | Below the joint's position count, each entry becomes its clipped value. The rest of the slice is untouched. Over the reals, the wrap loops terminate under the exact condition they need. |
| Kinematics.ClipSeq | kinematics/joint.go:59 | Clipping keeps the length and leaves every index from `len(position)` on unchanged. |
| Kinematics.WrapDown | kinematics/joint.go:62-64 | The first wrap loop ends at or below max, and does nothing to an entry already at or below max. |
| Kinematics.WrapUp | kinematics/joint.go:65-67 | The second wrap loop ends at or above min, and does nothing to an entry already at or above min. |
| Kinematics.WrapDownShift | kinematics/joint.go:62-64 | The first wrap loop ends at or below max, having subtracted a whole number of ranges. If it ran at all, it ends within one range below max. |
| Kinematics.WrapUpShift | kinematics/joint.go:65-67 | The second wrap loop ends at or above min, having added a whole number of ranges. If it ran at all, it ends within one range above min. |
| Kinematics.MeasureStep | kinematics/joint.go:62-67 | Each pass of a wrap loop lowers `floor(distance / range)` by one, and that measure stays non-negative: the loops terminate. |
| Kinematics.ClipWrapInRange | kinematics/joint.go:60-67 | For a wraparound index with `min < max`, the clipped value lies in `[min, max]` and differs from the input by an integer multiple of `max - min`. |
| Kinematics.ClipSaturatesLikeClamp | kinematics/joint.go:68-72 | With ordered limits, a non-wraparound entry is clipped exactly as Clamp clamps it. |
| Kinematics.ClipClampReversedLimits | kinematics/joint.go:68-72 | With `max < min` at a non-wraparound index, Clip and Clamp agree exactly when the entry is not strictly between max and min. Between them, Clip gives max and Clamp gives min. |
| Kinematics.ClipWithinLimits | kinematics/joint.go:58-74 | With ordered limits, strict at wraparound indices, every clipped entry below the position count passes IsValid. |
| Kinematics.Joint.IsValid | kinematics/joint.go:233-240 | True exactly when every entry has limits and lies within them. The precondition is exactly that no limit slice is read past its end: `min[i]` is read only after every earlier entry passed, and `max[i]` only when the entry is not below `min[i]`. |
| Kinematics.Joint.DofPosition | kinematics/joint.go:111-113 | The joint's position count is the length of its position vector, not of a vector passed in. `Clip` iterates over exactly that many indices. |
| Kinematics.Joint.Step | kinematics/joint.go:211-218 | A fresh slice of the same length holding the elementwise sum. Neither input is modified. |
| FakeCamera.ReplayPassthroughEnabled | components/camera/fake/camera_test.go:81-136 | The enabled half of the test, call by call. Subscribe succeeds with a live subscription. Unsubscribing an unknown ID fails with "id not found" and leaves it live. Unsubscribing its ID cancels it. A second subscription is live until `Close`, which returns nil and cancels it. |
| FakeCamera.ReplayPassthroughDisabled | components/camera/fake/camera_test.go:138-160 | The disabled half of the test. Subscribe gives the nil subscription and "not enabled". Unsubscribe gives "not enabled" for any ID. `Close` returns nil. |
| Kinematics.Joint.constructor | kinematics/joint.go:40-56 | `dPos` position slots at zero, none a wraparound index, and empty (nil) limits. |

## Left out

- `New`, `initStreamServer`'s service registration, `closeStreamServer` and
  the internals of `updateResources` are RPC and HTTP plumbing around
  foreign calls. `updateResources` enters `Reconfigure` only as whether it
  failed (the `updateFailed` parameter).
- `Reconfigure`'s `deps` go only to `updateResources`, and its config
  argument is ignored. The names `RefreshVideoSources` and
  `RefreshAudioSources` find by walking the robot given to the stream
  server are parameters: the camera and microphone name sets.
- The commented-out `startVideoStream`, `startAudioStream` and
  `propertiesFromStream` are dead code and are not modelled.
- `StartVideoStream` and `StartAudioStream` effects beyond recording the
  call in the start log. The encoding and streaming work lives in the `webstream` package,
  which is not part of this model. The same holds for the
  `VideoSources[name]` source handed to them and for the context argument.
- WebStream.Server.CreateStream: when creation fails is not visible, since
  `gostream.NewStream` is not part of this model. The model assumes it fails
  exactly when the new stream's configuration carries no encoder factory.
- The `HasStreams` flag is carried in `Web.StreamServer` but not updated.
  Its only reader is `initStreamServer`'s WebRTC template switch.
- Logging, the service mutex, the worker wait groups and every other form
  of concurrency. Each operation runs as one sequential step.
- Web.FilterXML.Write: the wrapped `http.ResponseWriter` is a stand-in that
  either accepts the whole slice or fails having written nothing. A real
  writer can fail after a partial write and report that partial count.
- Web.FilterXML.Write: input with fewer than six lines makes the Go slice
  `lines[6:]` panic. This is a precondition of the first call, not a
  modelled outcome.
- Fake-camera configuration validation, image bounds and the `Properties`
  toggle. The camera implementation is not part of this model.
- Packet delivery and the "4 packets" count. They depend on the fake
  producer, which is not part of this model.
- The test never calls `SubscribeRTP` after `Close`, so what that call
  does is not shown. FakeCamera.Camera.SubscribeRTP on a closed camera is
  modelled, as a choice, to return the nil subscription and "not enabled".
- FakeCamera.Camera.SubscribeRTP: the buffer size and the packet callback
  are not validated or used, beyond being recorded with the subscription.
- Random UUIDs are replaced by a counter: only their freshness matters to
  the registry.
- `Normalize` (`math.Remainder`), `Distance` (gonum L2 norm),
  `RandomJointPositions` (random numbers), `SetPosition`, `SetVelocity`,
  `GetRotationVector`, `ForwardPosition`, `ForwardVelocity` (quaternion and
  matrix libraries), and the trivial getters and setters other than
  `GetDofPosition`.
- Floating point: positions are reals. Rounding in `Step`'s addition and in
  `Clip`'s repeated shifts is not modelled, and there is no NaN.
- Kinematics.Joint.Clamp: a read past the end of `wraparound`, `min` or
  `max` panics in Go, and the panic is a precondition, not a modelled
  outcome. `ClampReadsOk` states exactly which reads happen: `wraparound[i]`
  at every index, `min[i]` only at a non-wraparound index, and `max[i]` only
  there and when the entry is not below `min[i]`.
- Kinematics.Joint.IsValid: likewise, the panic on a short `min` or `max` is
  a precondition. It admits exactly the inputs on which Go does not panic.
- Kinematics.Joint.Step: when `dpos` is shorter than `posvec`, Go panics.
  That becomes the requirement `dpos.Length >= posvec.Length`.
- Kinematics.Joint.Clip: requires `q`, `min`, `max` and `wraparound` to be
  at least as long as the position vector. A shorter `q` panics in Go. In Go, a short `min` is harmless at
  a non-wraparound index whose entry is above max, because those branches
  never read it; the model does not admit that case.
- Kinematics.Joint.Clip: the wrap loops must terminate, so they are required
  to (`WrapTerminates`). The non-terminating case of equal limits with the
  entry off them is excluded rather than modelled. The model is over the
  reals. With Go's float64 the loops also never end when `q[i]` is
  infinite, or when the range is below half the float spacing at `q[i]`
  (for example range 1 and `q[i]` = 1e17, where `q - 1 == q`). The model
  proves termination for those inputs, which Go does not have.
- Kinematics.Joint.constructor: `SpatialMat`, `offset`, the velocity slices,
  the transform and the motion vector are not modelled.
