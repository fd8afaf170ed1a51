/**
 * Lease negotiation of kmscube (drm-lease.c), over the drm-lease-v1 Wayland
 * protocol.
 *
 * The compositor is modelled as the events it delivers during each of the two
 * blocking round trips of `init_drm_lease`: first the discovery of lease
 * devices and their connectors, then the answer to the lease request. The
 * callbacks `registry_global`, `device_connector` and `lease_fd` update a
 * `WaylandState` object in place; `init_drm_lease` then selects the first device
 * with a connector, requests a lease on that device's first connector, and
 * checks the granted fd and the DRM resource query, whose result is an input.
 */
module DrmLease {
  import opened Optional

  /** A bound `wp_drm_lease_device_v1` proxy (the pointer identifies it). */
  type DeviceHandle = nat
  /** A `wp_drm_lease_connector_v1` proxy. */
  type ConnectorHandle = nat
  /** The `drmModeRes` returned by a successful resource query. */
  type ModeResources = nat

  /** Interface name of the lease-device global advertised by the registry. */
  const LEASE_DEVICE_INTERFACE: string := "wp_drm_lease_device_v1"

  /** The `LeaseDevice` record: the bound proxy and its connectors in advertisement order. */
  datatype Device = Device(handle: DeviceHandle, connectors: seq<ConnectorHandle>)

  /** The compositor events that reach a callback with an effect. */
  datatype Event =
    | Global(interface: string, bound: DeviceHandle)                          // registry global; `bound` is what binding it yields
    | ConnectorAdvertised(device: DeviceHandle, connector: ConnectorHandle)   // lease device `connector` event
    | LeaseFdGranted(fd: int)                                                // lease `lease_fd` event

  /** The lease request sent to the compositor: device and the one connector requested. */
  datatype LeaseRequest = LeaseRequest(device: DeviceHandle, connector: ConnectorHandle)

  /**
   * What `init_drm_lease` produces: its return value, the lease request it sent
   * (if any), whether it queried DRM resources, and the query's result. `resources`
   * is what `*resources` holds only when `queried` is true: before the query the
   * source never writes `*resources`, and the model then puts `None` there.
   */
  datatype Outcome = Outcome(fd: int, request: Option<LeaseRequest>, queried: bool, resources: Option<ModeResources>)

  /** Position of the first device whose proxy is `h`, or -1 when there is none. */
  function IndexOf(devices: seq<Device>, h: DeviceHandle): (r: int)
    ensures -1 <= r < |devices|
    ensures r >= 0 ==> devices[r].handle == h
    ensures forall j :: 0 <= j < |devices| && (r < 0 || j < r) ==> devices[j].handle != h
  {
    if devices == [] then -1
    else if devices[0].handle == h then 0
    else
      var k := IndexOf(devices[1..], h);
      if k < 0 then -1 else k + 1
  }

  /**
   * `find_device_in_list`: a linear scan that stops at the first match and
   * returns its index, or -1 when no device has proxy `h`.
   */
  method FindDeviceInList(devices: seq<Device>, h: DeviceHandle) returns (index: int)
    ensures -1 <= index < |devices|
    ensures index >= 0 ==> devices[index].handle == h
    ensures index >= 0 ==> forall j :: 0 <= j < index ==> devices[j].handle != h
    ensures index < 0 <==> forall j :: 0 <= j < |devices| ==> devices[j].handle != h
    ensures index == IndexOf(devices, h)
  {
    var listLength := |devices|;
    index := 0;
    while index < listLength
      invariant 0 <= index <= listLength
      invariant forall j :: 0 <= j < index ==> devices[j].handle != h
    {
      if devices[index].handle == h {
        break;
      }
      index := index + 1;
    }
    if index < listLength {
      return index;
    }
    return -1;
  }

  /** The device list after a registry global: a lease device is appended, anything else ignored. */
  function WithGlobal(devices: seq<Device>, interface: string, bound: DeviceHandle): seq<Device>
  {
    if interface == LEASE_DEVICE_INTERFACE then devices + [Device(bound, [])] else devices
  }

  /** The device list after a connector event for proxy `h`. */
  function WithConnector(devices: seq<Device>, h: DeviceHandle, c: ConnectorHandle): seq<Device>
  {
    var i := IndexOf(devices, h);
    if i < 0 then devices
    else devices[i := devices[i].(connectors := devices[i].connectors + [c])]
  }

  /** The device list after one event. */
  function Apply(devices: seq<Device>, e: Event): seq<Device>
  {
    match e
    case Global(interface, bound) => WithGlobal(devices, interface, bound)
    case ConnectorAdvertised(h, c) => WithConnector(devices, h, c)
    case LeaseFdGranted(_) => devices
  }

  /** The device list after a sequence of events, applied in order. */
  function Replay(devices: seq<Device>, events: seq<Event>): seq<Device>
  {
    if events == [] then devices
    else Apply(Replay(devices, events[..|events| - 1]), events[|events| - 1])
  }

  /** The stored lease fd after the events of a round trip: the last one granted, else `fd`. */
  function FdAfter(fd: int, events: seq<Event>): int
  {
    if events == [] then fd
    else
      var last := events[|events| - 1];
      if last.LeaseFdGranted? then last.fd else FdAfter(fd, events[..|events| - 1])
  }

  /** Number of registry globals advertising the lease-device interface. */
  function LeaseGlobals(events: seq<Event>): nat
  {
    if events == [] then 0
    else
      var last := events[|events| - 1];
      LeaseGlobals(events[..|events| - 1])
        + (if last.Global? && last.interface == LEASE_DEVICE_INTERFACE then 1 else 0)
  }

  /** The connectors advertised for proxy `h`, in order. */
  function ConnectorsFor(events: seq<Event>, h: DeviceHandle): seq<ConnectorHandle>
  {
    if events == [] then []
    else
      var last := events[|events| - 1];
      ConnectorsFor(events[..|events| - 1], h)
        + (if last.ConnectorAdvertised? && last.device == h then [last.connector] else [])
  }

  /** Whether some event of the round trip grants a lease fd. */
  predicate Granted(events: seq<Event>)
  {
    exists j :: 0 <= j < |events| && events[j].LeaseFdGranted?
  }

  /** The selection rule: index of the first device with a connector, or -1. */
  function FirstWithConnectors(devices: seq<Device>): (r: int)
    ensures -1 <= r < |devices|
    ensures r >= 0 ==> devices[r].connectors != []
    ensures forall j :: 0 <= j < |devices| && (r < 0 || j < r) ==> devices[j].connectors == []
  {
    if devices == [] then -1
    else if devices[0].connectors != [] then 0
    else
      var k := FirstWithConnectors(devices[1..]);
      if k < 0 then -1 else k + 1
  }

  /**
   * `init_drm_lease` as a function of its inputs, with the lease fd starting at
   * `initialFd`. `connected` is whether the compositor connection opened,
   * `discovery` and `grant` are the events of the two round trips, `query` the
   * result of the DRM resource query on the leased fd.
   */
  function Negotiate(initialFd: int, connected: bool, discovery: seq<Event>, grant: seq<Event>,
                     query: Option<ModeResources>): (o: Outcome)
    ensures !connected ==> o == Outcome(-1, None, false, None)
    ensures o.fd == -1 || (o.fd >= 0 && o.queried && o.resources == query && query.Some?)
    ensures o.request.Some? <==> connected && FirstWithConnectors(Replay([], discovery)) >= 0
    ensures o.request.Some? ==>
      var devices := Replay([], discovery);
      var k := FirstWithConnectors(devices);
      o.request == Some(LeaseRequest(devices[k].handle, devices[k].connectors[0]))
    ensures o.queried <==> o.request.Some? && FdAfter(initialFd, grant) >= 0
    ensures !o.queried ==> o.fd == -1 && o.resources.None?
    ensures o.fd >= 0 ==> o.fd == FdAfter(initialFd, grant)
    ensures o.queried && query.Some? ==> o.fd == FdAfter(initialFd, grant)
  {
    if !connected then Outcome(-1, None, false, None)
    else
      var devices := Replay([], discovery);
      if devices == [] then Outcome(-1, None, false, None)
      else
        var k := FirstWithConnectors(devices);
        if k < 0 then Outcome(-1, None, false, None)
        else
          var request := Some(LeaseRequest(devices[k].handle, devices[k].connectors[0]));
          var fd := FdAfter(initialFd, grant);
          if fd < 0 then Outcome(-1, request, false, None)
          else if query.None? then Outcome(-1, request, true, query)
          else Outcome(fd, request, true, query)
  }

  /** The zero-initialised `struct wayland_state` of drm-lease.c:183 holds fd 0. */
  const ZERO_INIT_FD: int := 0

  /**
   * `init_drm_lease` as intended: the fd starts at the invalid value -1, so only a
   * granted fd can reach the resource query.
   */
  function IntendedNegotiation(connected: bool, discovery: seq<Event>, grant: seq<Event>,
                               query: Option<ModeResources>): (o: Outcome)
    ensures o.queried ==> Granted(grant)
    ensures o.fd >= 0 ==> Granted(grant) && o.fd == FdAfter(-1, grant)
    ensures (connected && FirstWithConnectors(Replay([], discovery)) >= 0
             && FdAfter(-1, grant) >= 0 && query.Some?) ==> o.fd == FdAfter(-1, grant)
  {
    GrantedFd(-1, grant);
    Negotiate(-1, connected, discovery, grant, query)
  }

  /** A stored fd that differs from the initial one was granted by an event. */
  lemma {:induction false} GrantedFd(fd: int, events: seq<Event>)
    ensures FdAfter(fd, events) != fd ==> Granted(events)
    ensures !Granted(events) ==> FdAfter(fd, events) == fd
  {
    if events != [] {
      var init := events[..|events| - 1];
      GrantedFd(fd, init);
      if Granted(init) {
        var j :| 0 <= j < |init| && init[j].LeaseFdGranted?;
        assert events[j] == init[j];
      }
      if events[|events| - 1].LeaseFdGranted? {
        assert Granted(events);
      }
    }
  }

  /**
   * As written, a lease request answered without any `lease_fd` event (the
   * compositor denying it with `finished` alone) leaves fd 0 in place: the
   * denial is not detected, resources are queried on fd 0 and, should that
   * query succeed, 0 is returned as the leased fd. Starting at -1 rejects it.
   */
  lemma {:induction false} UngrantedLeaseReturnsZero(discovery: seq<Event>, grant: seq<Event>,
                                                     query: ModeResources)
    requires FirstWithConnectors(Replay([], discovery)) >= 0
    requires !Granted(grant)
    ensures var o := Negotiate(ZERO_INIT_FD, true, discovery, grant, Some(query));
      o.request.Some? && o.queried && o.fd == 0
    ensures var o := IntendedNegotiation(true, discovery, grant, Some(query));
      o.request.Some? && !o.queried && o.fd == -1
  {
    GrantedFd(ZERO_INIT_FD, grant);
    GrantedFd(-1, grant);
  }

  /** An input that meets the premises of `UngrantedLeaseReturnsZero`: one device, one connector, no grant. */
  lemma UngrantedLeaseExample(query: ModeResources)
    ensures var discovery := [Global(LEASE_DEVICE_INTERFACE, 1), ConnectorAdvertised(1, 7)];
      var o := Negotiate(ZERO_INIT_FD, true, discovery, [], Some(query));
      o.request == Some(LeaseRequest(1, 7)) && o.queried && o.fd == 0 && !Granted([])
    ensures var discovery := [Global(LEASE_DEVICE_INTERFACE, 1), ConnectorAdvertised(1, 7)];
      var o := IntendedNegotiation(true, discovery, [], Some(query));
      o.request == Some(LeaseRequest(1, 7)) && !o.queried && o.fd == -1
  {
    var discovery := [Global(LEASE_DEVICE_INTERFACE, 1), ConnectorAdvertised(1, 7)];
    assert discovery[..1] == [Global(LEASE_DEVICE_INTERFACE, 1)];
    assert discovery[..1][..0] == [];
    assert Replay([], discovery[..1]) == [Device(1, [])];
    assert IndexOf([Device(1, [])], 1) == 0;
    var none: seq<ConnectorHandle> := [];
    assert none + [7] == [7];
    assert WithConnector([Device(1, [])], 1, 7) == [Device(1, [7])];
    assert Replay([], discovery) == [Device(1, [7])];
  }

  /** Each lease-device global adds exactly one device; nothing else adds any. */
  lemma {:induction false} DeviceCount(devices: seq<Device>, events: seq<Event>)
    ensures |Replay(devices, events)| == |devices| + LeaseGlobals(events)
  {
    if events != [] {
      DeviceCount(devices, events[..|events| - 1]);
    }
  }

  /**
   * Events only ever append: devices already listed keep their position and
   * proxy, and their connector lists only grow at the end.
   */
  lemma {:induction false} ReplayKeepsDevices(devices: seq<Device>, events: seq<Event>, i: nat)
    requires i < |devices|
    ensures i < |Replay(devices, events)|
    ensures Replay(devices, events)[i].handle == devices[i].handle
    ensures devices[i].connectors <= Replay(devices, events)[i].connectors
  {
    if events != [] {
      ReplayKeepsDevices(devices, events[..|events| - 1], i);
    }
  }

  /**
   * A device listed before the events (and first with its proxy) receives every
   * connector advertised for it, appended in advertisement order.
   */
  lemma {:induction false} ConnectorsInOrder(devices: seq<Device>, events: seq<Event>, i: nat)
    requires i < |devices| && IndexOf(devices, devices[i].handle) == i
    ensures i < |Replay(devices, events)|
    ensures Replay(devices, events)[i].connectors
      == devices[i].connectors + ConnectorsFor(events, devices[i].handle)
  {
    ReplayKeepsDevices(devices, events, i);
    if events != [] {
      var init := events[..|events| - 1];
      var h := devices[i].handle;
      ConnectorsInOrder(devices, init, i);
      var before := Replay(devices, init);
      forall j | 0 <= j < |devices|
        ensures j < |before| && before[j].handle == devices[j].handle
      {
        ReplayKeepsDevices(devices, init, j);
      }
      assert IndexOf(before, h) == i;
    }
  }

  /** Replaying two event sequences one after the other is replaying their concatenation. */
  lemma {:induction false} ReplaySplit(devices: seq<Device>, a: seq<Event>, b: seq<Event>)
    ensures Replay(devices, a + b) == Replay(Replay(devices, a), b)
  {
    if b == [] {
      assert a + b == a;
    } else {
      assert (a + b)[..|a + b| - 1] == a + b[..|b| - 1];
      assert (a + b)[|a + b| - 1] == b[|b| - 1];
      ReplaySplit(devices, a, b[..|b| - 1]);
    }
  }

  /**
   * Discovery from an empty list: the device bound by the lease-device global
   * at position `p` (when no device before it has the same proxy) ends up with
   * exactly the connectors advertised for it after that global, in order.
   */
  lemma {:induction false} DiscoveredConnectors(events: seq<Event>, p: nat)
    requires p < |events|
    requires events[p].Global? && events[p].interface == LEASE_DEVICE_INTERFACE
    requires IndexOf(Replay([], events[..p]), events[p].bound) < 0
    ensures var i := |Replay([], events[..p])|;
      i < |Replay([], events)|
      && Replay([], events)[i] == Device(events[p].bound, ConnectorsFor(events[p + 1..], events[p].bound))
  {
    var h := events[p].bound;
    var before := Replay([], events[..p]);
    var i := |before|;
    assert events[..p + 1][..p] == events[..p];
    var added := Replay([], events[..p + 1]);
    assert added == before + [Device(h, [])];
    assert added[i].handle == h;
    assert forall j :: 0 <= j < i ==> added[j] == before[j];
    assert IndexOf(added, h) == i;
    assert events == events[..p + 1] + events[p + 1..];
    ReplaySplit([], events[..p + 1], events[p + 1..]);
    ConnectorsInOrder(added, events[p + 1..], i);
    ReplayKeepsDevices(added, events[p + 1..], i);
  }

  /** The selection only looks at devices up to the selected one: later arrivals do not matter. */
  lemma {:induction false} SelectionIgnoresLater(devices: seq<Device>, later: seq<Device>)
    requires FirstWithConnectors(devices) >= 0
    ensures FirstWithConnectors(devices + later) == FirstWithConnectors(devices)
  {
    var k := FirstWithConnectors(devices);
    var r := FirstWithConnectors(devices + later);
    assert (devices + later)[k] == devices[k];
  }

  /** A compositor advertising no lease-device global makes negotiation fail before any request. */
  lemma NoLeaseGlobalsFails(initialFd: int, discovery: seq<Event>, grant: seq<Event>,
                            query: Option<ModeResources>)
    requires LeaseGlobals(discovery) == 0
    ensures Negotiate(initialFd, true, discovery, grant, query) == Outcome(-1, None, false, None)
  {
    DeviceCount([], discovery);
  }

  /** The session a negotiation mutates through the protocol callbacks. */
  class WaylandState {
    var devices: seq<Device>
    var request: Option<LeaseRequest>
    var fd: int

    /** `struct wayland_state state = { 0 }`: no devices, no request, fd 0. */
    constructor()
      ensures devices == [] && request == None && fd == ZERO_INIT_FD
    {
      devices := [];
      request := None;
      fd := ZERO_INIT_FD;
    }

    /** `registry_global`: appends a device with no connectors for a lease-device global. */
    method RegistryGlobal(interface: string, bound: DeviceHandle)
      modifies this
      ensures devices == WithGlobal(old(devices), interface, bound)
      ensures interface == LEASE_DEVICE_INTERFACE ==>
        |devices| == |old(devices)| + 1 && devices[..|old(devices)|] == old(devices)
        && devices[|old(devices)|] == Device(bound, [])
      ensures interface != LEASE_DEVICE_INTERFACE ==> devices == old(devices)
      ensures request == old(request) && fd == old(fd)
    {
      if interface == LEASE_DEVICE_INTERFACE {
        devices := devices + [Device(bound, [])];
      }
    }

    /**
     * `device_connector`: appends the connector to the first device with proxy
     * `h`; an unknown proxy changes nothing.
     */
    method DeviceConnector(h: DeviceHandle, c: ConnectorHandle)
      modifies this
      ensures devices == WithConnector(old(devices), h, c)
      ensures |devices| == |old(devices)|
      ensures IndexOf(old(devices), h) < 0 ==> devices == old(devices)
      ensures var i := IndexOf(old(devices), h);
        i >= 0 ==>
          devices[i] == Device(h, old(devices)[i].connectors + [c])
          && forall j :: 0 <= j < |devices| && j != i ==> devices[j] == old(devices)[j]
      ensures request == old(request) && fd == old(fd)
    {
      var deviceIndex := FindDeviceInList(devices, h);
      if deviceIndex < 0 {
        return;
      }
      var device := devices[deviceIndex];
      devices := devices[deviceIndex := device.(connectors := device.connectors + [c])];
    }

    /** `lease_fd`: overwrites the stored fd with the granted one. */
    method LeaseFd(granted: int)
      modifies this
      ensures fd == granted
      ensures devices == old(devices) && request == old(request)
    {
      fd := granted;
    }

    /**
     * Lines 221-226: request a lease on `device`'s first connector. The lease
     * listener is attached from here on.
     */
    method SubmitLease(device: Device)
      requires device.connectors != []
      modifies this
      ensures request == Some(LeaseRequest(device.handle, device.connectors[0]))
      ensures devices == old(devices) && fd == old(fd)
    {
      request := Some(LeaseRequest(device.handle, device.connectors[0]));
    }

    /**
     * Delivers one event to its callback. A `lease_fd` event only has a listener
     * once a lease has been requested.
     */
    method Dispatch(e: Event)
      modifies this
      ensures devices == Apply(old(devices), e)
      ensures request == old(request)
      ensures fd == if e.LeaseFdGranted? && request.Some? then e.fd else old(fd)
    {
      match e
      case Global(interface, bound) => RegistryGlobal(interface, bound);
      case ConnectorAdvertised(h, c) => DeviceConnector(h, c);
      case LeaseFdGranted(granted) =>
        if request.Some? {
          LeaseFd(granted);
        }
    }

    /** `wl_display_dispatch` + `wl_display_roundtrip`: the events, in order. */
    method Roundtrip(events: seq<Event>)
      modifies this
      ensures devices == Replay(old(devices), events)
      ensures request == old(request)
      ensures fd == if request.Some? then FdAfter(old(fd), events) else old(fd)
    {
      var i := 0;
      while i < |events|
        invariant 0 <= i <= |events|
        invariant devices == Replay(old(devices), events[..i])
        invariant request == old(request)
        invariant fd == if request.Some? then FdAfter(old(fd), events[..i]) else old(fd)
      {
        Dispatch(events[i]);
        assert events[..i + 1][..i] == events[..i];
        i := i + 1;
      }
      assert events[..|events|] == events;
    }
  }

  /**
   * `init_drm_lease`: returns the leased fd, or -1 on a failed connection, no
   * lease device, no device with a connector, a negative fd, or a failed
   * resource query. The result is `Negotiate` with the zero-initialised fd.
   */
  method InitDrmLease(connected: bool, discovery: seq<Event>, grant: seq<Event>,
                      query: Option<ModeResources>)
    returns (r: int, request: Option<LeaseRequest>, queried: bool, resources: Option<ModeResources>)
    ensures Outcome(r, request, queried, resources) == Negotiate(ZERO_INIT_FD, connected, discovery, grant, query)
  {
    request, queried, resources := None, false, None;
    if !connected {
      return -1, request, queried, resources;
    }
    var state := new WaylandState();
    state.Roundtrip(discovery);

    if state.devices == [] {
      return -1, request, queried, resources;
    }

    var devices := state.devices;
    var selected := -1;
    var i := 0;
    while i < |devices|
      invariant 0 <= i <= |devices|
      invariant forall j :: 0 <= j < i ==> devices[j].connectors == []
      invariant selected == -1
    {
      if devices[i].connectors != [] {
        selected := i;
        break;
      }
      i := i + 1;
    }
    assert selected == FirstWithConnectors(devices);

    if selected < 0 {
      return -1, request, queried, resources;
    }

    state.SubmitLease(devices[selected]);
    request := state.request;
    state.Roundtrip(grant);

    if state.fd < 0 {
      return -1, request, queried, resources;
    }

    queried := true;
    resources := query;
    if resources.None? {
      return -1, request, queried, resources;
    }
    return state.fd, request, queried, resources;
  }
}
