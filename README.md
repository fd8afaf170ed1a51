# kmscube: DRM lease negotiation and the offscreen frame loop, in Dafny

This project models two pieces of sequential bookkeeping of kmscube, with the
Wayland, DRM, GBM, EGL and GL calls around them replaced by abstract events and
oracle inputs.

- **Lease negotiation** (`drm-lease.c`, module `DrmLease` in `drm_lease.dfy`).
  The `wayland_state` session is the class `WaylandState`. It holds the device
  list (`seq<Device>`, each device with its connectors in advertisement order),
  the lease request once sent, and the stored lease fd. The protocol callbacks
  `registry_global`, `device_connector` and `lease_fd` are methods that update
  it in place. `find_device_in_list` is a loop with an early `break`.
  The compositor is two event sequences, one per blocking round trip: discovery,
  then the answer to the lease request. They are applied in order by
  `Roundtrip`. `InitDrmLease` also takes whether the connection opened and the
  result of the DRM resource query. It is proved equal to the function
  `Negotiate`, and the source's promises are proved about that function.
  Because the state is zero-initialised (drm-lease.c:183), the stored fd starts
  at 0, not at the invalid value -1, and only a negative fd is rejected
  (drm-lease.c:232). The model follows the code here. Findings below shows what
  this does.
- **Offscreen frame loop** (`drm-offscreen.c`, module `DrmOffscreen` in
  `drm_offscreen.dfy`). `OffscreenRun` is the `while` loop of `offscreen_run`.
  Its external effects are a trace of `Bind(slot)`, `Draw(frame)` and
  `Release(bo)` events. The results of `gbm_surface_lock_front_buffer` are an
  input sequence of optional buffer-object ids, one per frame. The loop is
  proved equal to the function `Frames`, one iteration at a time. Draw order,
  slot bounds and release discipline are proved about `Frames`. The static
  `struct drm` is the class `Drm`, with `init_drm_offscreen` installing the
  run hook.

`optional.dfy` holds the `Option` type that stands for a pointer that may be NULL.

## Model

| member | source | states |
|---|---|---|
| `DrmLease.IndexOf` | drm-lease.c:16-34 | the result is -1 or a valid index; at that index the handle matches and no earlier device matches; -1 means no device matches |
| `DrmLease.FindDeviceInList` | drm-lease.c:16-34 | the scan returns the index of the first device with the handle, or -1 exactly when none has it; any non-negative result is below the list length |
| `DrmLease.WaylandState.constructor` | drm-lease.c:183 | a fresh session has no devices, no lease request, and fd 0 |
| `DrmLease.WaylandState.RegistryGlobal` | drm-lease.c:141-147 | a lease-device global appends exactly one device with an empty connector list and keeps existing devices in order; any other interface leaves the list unchanged; request and fd stay the same |
| `DrmLease.WaylandState.DeviceConnector` | drm-lease.c:103-110 | the connector goes to the end of the first matching device's list, and no other device changes; an unknown handle leaves the whole state unchanged |
| `DrmLease.WaylandState.LeaseFd` | drm-lease.c:162-168 | the stored fd is overwritten with the granted one; nothing else changes |
| `DrmLease.WaylandState.SubmitLease` | drm-lease.c:221-226 | the lease request names the device and the first element of its connector list |
| `DrmLease.WaylandState.Dispatch` | drm-lease.c:157-179 | each event goes to its callback; a lease fd is only stored once a lease request exists, because its listener is attached then |
| `DrmLease.WaylandState.Roundtrip` | drm-lease.c:196-198 | after a round trip the device list is the replay of its events, in order, and the fd is the last one granted |
| `DrmLease.FirstWithConnectors` | drm-lease.c:205-219 | the selected index is the lowest one whose device has a connector, and every earlier device has none; -1 means no device has a connector |
| `DrmLease.SelectionIgnoresLater` | drm-lease.c:205-214 | devices that arrive after the selected one do not change the selection |
| `DrmLease.Negotiate` | drm-lease.c:181-244 | a failed connection gives -1 and nothing else happens. A request is sent exactly when some discovered device has a connector, for the first such device and its first connector. No devices, or none with a connector, gives -1 with no request. Resources are queried exactly when a request was sent and the fd is not negative. The result is the stored fd, which is at least 0, exactly when the query was made and succeeded; otherwise it is -1 |
| `DrmLease.InitDrmLease` | drm-lease.c:181-244 | the method returns what `Negotiate` gives with the zero-initialised fd: return value, lease request, whether resources were queried, and the query's result (what `*resources` holds once queried) |
| `DrmLease.NoLeaseGlobalsFails` | drm-lease.c:200-203 | if the compositor advertises no lease-device global, negotiation returns -1 before any selection, request or query |
| `DrmLease.DeviceCount` | drm-lease.c:141-147 | the number of devices grows by exactly the number of lease-device globals |
| `DrmLease.ReplayKeepsDevices` | drm-lease.c:97-148 | events only append: devices already listed keep their position and handle, and their connector lists only grow at the end |
| `DrmLease.ConnectorsInOrder` | drm-lease.c:103-110 | a listed device receives every connector advertised for it, appended in advertisement order |
| `DrmLease.ReplaySplit` | drm-lease.c:196-198 | applying two event sequences one after the other is the same as applying their concatenation |
| `DrmLease.DiscoveredConnectors` | drm-lease.c:97-148 | in a discovery starting from no devices, the device bound by a lease-device global ends with exactly the connectors advertised for it after that global, in order |
| `DrmLease.GrantedFd` | drm-lease.c:162-168 | the stored fd changes only through a lease fd event; with none it keeps its initial value |
| `DrmLease.UngrantedLeaseReturnsZero` | drm-lease.c:232-243 | for every discovery with a qualifying device and every answer with no fd: as written, the resource query is made on fd 0 and 0 is returned if it succeeds; with -1 as the initial fd the same input is rejected |
| `DrmLease.UngrantedLeaseExample` | drm-lease.c:232-243 | a concrete input (one device, one connector, no grant) for which the code as written queries on fd 0 and returns 0 |
| `DrmLease.IntendedNegotiation` | drm-lease.c:183 | with the fd starting at -1, resources are queried, and a non-negative result returned, only after the compositor granted an fd; a granted non-negative fd with a qualifying device and a successful query is still returned |
| `DrmOffscreen.FirstNull` | drm-offscreen.c:61-64 | the first frame whose `next_bo` is NULL, or -1 when every frame below `n` gets a buffer object |
| `DrmOffscreen.RunFailsIffNull` | drm-offscreen.c:44-72 | the loop aborts exactly when some frame's `next_bo` is NULL |
| `DrmOffscreen.RunStaysFailed` | drm-offscreen.c:61-64 | after an abort no later frame runs: the abort is a return |
| `DrmOffscreen.DrawsInOrder` | drm-offscreen.c:44-52 | draw is called with 0, 1, ... in increasing order: `count` times on success (none for count 0), and `f + 1` times when frame `f` fails |
| `DrmOffscreen.NoSurfaceTrace` | drm-offscreen.c:48-52 | without a surface, each frame `f` that runs binds framebuffer slot `f % NUM_BUFFERS` just before drawing `f`, and nothing else is traced |
| `DrmOffscreen.NoSurfaceSlots` | drm-offscreen.c:57-71 | without a surface nothing is released, and after frame `f` the held bo is pool slot `f % NUM_BUFFERS`, the same slot that was bound |
| `DrmOffscreen.SurfaceReleases` | drm-offscreen.c:54-71 | with a surface, the released bos are the bos acquired in every successful frame but the last, in order; the last acquired is still held. So a successful run of count >= 1 frames releases exactly count - 1 bos |
| `DrmOffscreen.SurfaceFrame` | drm-offscreen.c:68-71 | with a surface, frame 0 releases nothing; a later successful frame draws, then releases exactly the bo acquired in the previous frame, and holds the bo it just acquired |
| `DrmOffscreen.OffscreenRun` | drm-offscreen.c:37-77 | returns 0 exactly when every frame obtained a buffer object, and -1 otherwise; the trace and the held bo are those of `Frames` |
| `DrmOffscreen.Drm.constructor` | drm-offscreen.c:35 | the static struct starts with frame count 0 and no run hook |
| `DrmOffscreen.Drm.InitDrmOffscreen` | drm-offscreen.c:79-90 | a non-zero status from `init_drm_render` gives NULL and installs no hook; status zero installs `offscreen_run` as the run hook and returns the struct |
| `DrmOffscreen.Drm.Run` | drm-offscreen.c:87-89 | calling the installed hook runs the offscreen loop over the struct's frame count |

## Findings

| source | as written | input that shows it | evidently intended | confidence | as-written member | corrected member |
|---|---|---|---|---|---|---|
| drm-lease.c:183 | the lease fd is zero-initialised, and only a negative fd counts as a denial (line 232) | a compositor that answers the lease request with `finished` and sends no `lease_fd` (the drm-lease-v1 way to deny a lease): fd 0 passes the check, resources are queried on fd 0, and 0 is returned as the leased fd if that query succeeds | the fd starts at an invalid value (-1), so an ungranted lease is reported as a denial | medium, not executed | `DrmLease.UngrantedLeaseReturnsZero` | `DrmLease.IntendedNegotiation` |

`InitDrmLease` models the code as written. `IntendedNegotiation` is `Negotiate`
started at -1, with the intended property proved about it.

## Left out

- Wayland transport: connecting, `wl_display_dispatch`/`wl_display_roundtrip`, binding globals and attaching listeners. The connection result is a boolean input. The compositor is the given events, and the proxy a bind yields is part of the `Global` event.
- The callbacks that do nothing: the connector `name`, `description`, `connector_id`, `done` and `withdrawn` events, the device `done` and `released` events, `registry_remove`, and `lease_finished`. A denial sent as `finished` is modelled as no `LeaseFdGranted` event.
- `device_drm_fd` only closes the fd it receives. That is OS I/O with no effect on the session, so it is not modelled.
- `drmModeGetResources`, `errno` and `g_strerror`: the query is an oracle input, `None` for failure.
- The GL/EGL/GBM calls: `eglSwapBuffers` and `glFinish` are not traced. `gbm_surface_lock_front_buffer` is the `locks` input. The pool slots `gbm->bos[]` may be NULL, like a failed lock.
- `NUM_BUFFERS` is defined in common.h, which is not part of this model. It is taken as 2, and the proofs only use that it is positive.
- `init_drm_render` is not part of this model. Its status is an input, and on success it is taken to store the frame count in `drm.count`.
- The fps counters, every `printf`/`fprintf` diagnostic, and the missing cleanup of protocol objects (leaks).
- Integer widths: the fd is an `int` rather than `int32_t`, and the frame counter and count are `nat` rather than 32-bit unsigned. The loop stops at `count`, so the counter never wraps.
- `DrmLease.WaylandState.Roundtrip`: a `lease_fd` event is dropped before a lease request exists. The source cannot receive one then, because the lease object does not exist yet.
