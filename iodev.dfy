/**
 * The device-lifecycle layer: the device record, the core that owns the
 * device registry, pool and id counter, and the operations that create,
 * bind, re-arm, close, linger-close and free devices.
 *
 * Every operation runs as one atomic step. The calls a step makes into the
 * OS or into a collaborator (poller, timer, pool) come back, in order, as
 * its `fx` trace.
 */
module IoDev {
  import opened Wrappers
  import opened Kinds
  import opened Interest
  import opened Teardown
  import opened Binding

  /** The id the counter hands out next: the counter, raised to the reserved base if it fell below it. */
  function IdFloor(counter: nat): (id: nat)
    ensures id >= ID_BASE && id >= counter
    ensures counter >= ID_BASE ==> id == counter
  {
    if counter < ID_BASE then ID_BASE else counter
  }

  /** The peer and local addresses of a socket device. */
  datatype Endpoints = Endpoints(remoteIp: string, localIp: string, remotePort: int, localPort: int)

  /** Empty address strings and zero ports, as `iodev_new` leaves them. */
  const NoEndpoints := Endpoints("", "", 0, 0)

  /** All fields of a device, as one value. */
  datatype DeviceView = DeviceView(
    id: nat, fd: Fd, fdtype: FdType, rwflag: bv8, iostate: IoState,
    bindtype: int, epump: Option<WorkerId>, core: Core?, iot: Option<TimerId>,
    para: Option<Opaque>, callback: Option<Opaque>, cbpara: Option<Opaque>, addr: Endpoints)

  /** One I/O device (`iodev_t`). */
  class Device {
    var id: nat
    var fd: Fd
    var fdtype: FdType
    var rwflag: bv8
    var iostate: IoState
    var bindtype: int
    var epump: Option<WorkerId>
    var core: Core?
    var iot: Option<TimerId>
    var para: Option<Opaque>
    var callback: Option<Opaque>
    var cbpara: Option<Opaque>
    var addr: Endpoints

    /** `iodev_alloc`: zero-filled memory whose descriptor is then set to the sentinel. */
    constructor ()
      ensures View() == DeviceView(0, INVALID_SOCKET, Unset, 0, Idle, 0, None, null, None,
                                   None, None, None, NoEndpoints)
    {
      id, fd, fdtype, rwflag, iostate := 0, INVALID_SOCKET, Unset, 0, Idle;
      bindtype, epump, core, iot := 0, None, null, None;
      para, callback, cbpara := None, None, None;
      addr := NoEndpoints;
    }

    function View(): DeviceView
      reads this
    {
      DeviceView(id, fd, fdtype, rwflag, iostate, bindtype, epump, core, iot,
                 para, callback, cbpara, addr)
    }

    /** The resets of `iodev_new` on a fetched or allocated device, which gets id `id` in `core`. */
    method Reset(core: Core, id: nat)
      modifies this
      ensures View() == DeviceView(id, INVALID_SOCKET, Unset, 0, Idle, old(bindtype), None, core, None,
                                   old(para), old(callback), old(cbpara), NoEndpoints)
    {
      this.id := id;
      fd, fdtype := INVALID_SOCKET, Unset;
      addr := NoEndpoints;
      rwflag, iostate := 0, Idle;
      this.core, iot, epump := core, None, None;
    }

    /** The fields `iodev_new_from_fd` sets on a new device. */
    method Open(fd: Fd, fdtype: FdType, para: Option<Opaque>, callback: Option<Opaque>, cbpara: Option<Opaque>,
                c: Core)
      requires c.Valid() && this !in c.pool
      modifies this
      ensures View() == old(View()).(fd := fd, fdtype := fdtype, para := para, callback := callback,
                                     cbpara := cbpara, iostate := ReadWrite)
      ensures c.Valid()
    {
      this.fd, this.fdtype := fd, fdtype;
      this.para, this.callback, this.cbpara := para, callback, cbpara;
      iostate := ReadWrite;
    }

    /** A new interest mask for a live device, which is therefore not pooled. */
    method SetMask(mask: bv8, c: Core?)
      requires fd != INVALID_SOCKET
      requires c != null ==> c.Valid()
      modifies this
      ensures View() == old(View()).(rwflag := mask)
      ensures c != null ==> c.Valid()
    {
      rwflag := mask;
    }

    /**
     * The fields `iodev_linger_close` changes on a registered device: the
     * kind, and the timer.
     */
    method Linger(kind: FdType, timer: Option<TimerId>, c: Core)
      requires c.Valid() && id in c.registry
      modifies this
      ensures View() == old(View()).(fdtype := kind, iot := timer)
      ensures c.Valid()
    {
      fdtype, iot := kind, timer;
    }

    /** The fields `iodev_bind_epump` records: the binding mode and the owning worker. */
    method Attach(mode: int, owner: Option<WorkerId>, c: Core)
      requires c.Valid()
      modifies this
      ensures View() == old(View()).(bindtype := mode, epump := owner)
      ensures c.Valid()
    {
      bindtype, epump := mode, owner;
    }

    /** The field clearing of `iodev_close`, including the descriptor it has just closed. */
    method Scrub()
      modifies this
      ensures View() == DeviceView(old(id), INVALID_SOCKET, old(fdtype), 0, Idle, old(bindtype), old(epump),
                                   old(core), None, None, None, None, old(addr))
      ensures Clean()
    {
      rwflag := 0;
      para, callback, cbpara := None, None, None;
      iostate := Idle;
      iot := None;
      fd := INVALID_SOCKET;
    }

    /** A device as a close leaves it: no socket, no interest, no timer, no application pointers. */
    predicate Clean()
      reads this
    {
      && fd == INVALID_SOCKET && rwflag == 0 && iostate == Idle && iot == None
      && para == None && callback == None && cbpara == None
    }
  }

  /** The process-wide core (`epcore_t`), as far as devices are concerned. */
  class Core {
    /** The id counter (`gdevid`). */
    var nextId: nat
    /** Every id handed out so far. */
    ghost var issued: set<nat>
    /** `device_table`: the live devices, by id. */
    var registry: map<nat, Device>
    /** `device_pool`: closed devices waiting to be reused. */
    var pool: seq<Device>
    /** Devices bound to every worker, for workers that start later. */
    var global: seq<Device>
    /** The workers whose poller has an `fdpollclear` hook. */
    const pollClear: set<WorkerId>

    ghost predicate Valid()
      reads this, registry.Values, pool
    {
      // a registered device sits under its own id
      && (forall k | k in registry :: registry[k].id == k)
      // ids come from the counter, which is ahead of all of them
      && registry.Keys <= issued
      && (forall i | i in issued :: i < IdFloor(nextId))
      // pooled devices are closed, clean, unregistered and pooled once
      && (forall d | d in pool :: d.id in issued && d.id !in registry && d.Clean())
      && (forall i, j | 0 <= i < j < |pool| :: pool[i] != pool[j])
    }

    /**
     * `epm_pool_fetch`, falling back to `iodev_alloc`: the most recently
     * pooled device, or a new zero-filled one when the pool is empty.
     */
    method Fetch() returns (d: Device)
      requires Valid()
      modifies this
      ensures Valid()
      ensures old(pool) == [] ==> fresh(d) && pool == [] && d.bindtype == 0
      ensures old(pool) == [] ==> d.View() == DeviceView(0, INVALID_SOCKET, Unset, 0, Idle, 0, None, null, None,
                                                         None, None, None, NoEndpoints)
      ensures old(pool) != [] ==> d == old(pool[|pool| - 1]) && pool == old(pool[..|pool| - 1])
      ensures registry == old(registry) && nextId == old(nextId) && issued == old(issued) && global == old(global)
      ensures d.Clean() && d !in pool && forall k | k in registry :: registry[k] != d
    {
      if |pool| > 0 {
        d := pool[|pool| - 1];
        assert d in pool;
        pool := pool[..|pool| - 1];
      } else {
        d := new Device();
      }
    }

    /**
     * The registration step of `iodev_new` for a device that already carries
     * the counter's value as its id: the counter moves past it and the
     * registry maps it to the device.
     */
    method Register(d: Device)
      requires Valid() && d.id == nextId >= ID_BASE && d.Clean()
      requires d !in pool && forall k | k in registry :: registry[k] != d
      modifies this
      ensures Valid()
      ensures nextId == d.id + 1 && issued == old(issued) + {d.id} && registry == old(registry)[d.id := d]
      ensures pool == old(pool) && global == old(global)
    {
      nextId := d.id + 1;
      issued := issued + {d.id};
      registry := registry[d.id := d];
    }

    constructor (pollClear: set<WorkerId>)
      ensures Valid()
      ensures nextId == ID_BASE && issued == {} && registry == map[] && pool == [] && global == []
      ensures this.pollClear == pollClear
    {
      nextId := ID_BASE;
      issued := {};
      registry := map[];
      pool := [];
      global := [];
      this.pollClear := pollClear;
    }
  }

  /** The objects an operation on `d` may change: the device and its core. */
  function Frame(d: Device?): set<object>
    reads d
  {
    if d == null then {} else if d.core == null then {d} else {d, d.core}
  }

  /** The pooled devices of `c`, which creating a device may reuse. */
  function Pooled(c: Core?): set<object>
    reads c
  {
    if c == null then {} else set d | d in c.pool :: d
  }

  /** The core's state apart from the registry and the pool did not change. */
  twostate predicate SameCounter(c: Core)
    reads c
  {
    c.nextId == old(c.nextId) && c.issued == old(c.issued) && c.global == old(c.global)
  }

  /**
   * What a close that won the registry removal leaves: the id unregistered,
   * the device clean and back in the pool, and the teardown calls made.
   */
  twostate predicate TornDown(d: Device, c: Core, fx: seq<Effect>)
    reads d, c
  {
    && c.registry == old(c.registry) - {d.id}
    && c.pool == old(c.pool) + [d]
    && SameCounter(c)
    && d.View() == old(d.View()).(fd := INVALID_SOCKET, rwflag := 0, iostate := Idle, iot := None,
                                  para := None, callback := None, cbpara := None)
    && fx == CloseEffects(d.id, old(d.fd), d.fdtype, d.epump, old(d.iot),
                          d.epump.Some? && d.epump.value in c.pollClear)
  }

  /**
   * What `iodev_close` does to `d`, whose core is `c`: nothing at all without
   * a core or when the id is no longer registered, the teardown otherwise.
   */
  twostate predicate Closed(d: Device, c: Core?, fx: seq<Effect>)
    reads d, c
  {
    if c == null then fx == [] && unchanged(d)
    else if old(d.id) !in old(c.registry) then fx == [] && unchanged(d, c)
    else TornDown(d, c, fx)
  }

  /**
   * `iodev_new`: take a device from the pool (or allocate one), give it the
   * next id, register it, and reset it.
   */
  method New(core: Core?) returns (d: Device?)
    requires core != null ==> core.Valid()
    modifies core, Pooled(core)
    ensures core == null ==> d == null
    ensures core != null ==> d != null && core.Valid()
    // the id: at least the reserved base, and above every id handed out before
    ensures core != null ==> d.id == IdFloor(old(core.nextId)) && core.nextId == d.id + 1
    ensures core != null ==> d.id >= ID_BASE && forall i | i in old(core.issued) :: i < d.id
    ensures core != null ==> core.issued == old(core.issued) + {d.id} && core.global == old(core.global)
    // registered under that id
    ensures core != null ==> core.registry == old(core.registry)[d.id := d]
    // reused from the pool when it has a device, fresh otherwise
    ensures core != null && old(core.pool) == [] ==> fresh(d) && core.pool == [] && d.bindtype == 0
    ensures core != null && old(core.pool) != [] ==>
              d == old(core.pool[|core.pool| - 1]) && core.pool == old(core.pool[..|core.pool| - 1])
              && d.bindtype == old(core.pool[|core.pool| - 1].bindtype)
    // the other pooled devices are left as they were
    ensures core != null ==> forall x | x in old(core.pool) && x != d :: unchanged(x)
    // reset, and clean since a pooled device is
    ensures core != null ==>
              d.View() == DeviceView(d.id, INVALID_SOCKET, Unset, 0, Idle, d.bindtype, None, core, None,
                                     None, None, None, NoEndpoints)
  {
    if core == null {
      return null;
    }
    d := core.Fetch();
    assert old(core.pool) != [] ==> d in old(core.pool);
    if core.nextId < ID_BASE {
      core.nextId := ID_BASE;
    }
    d.Reset(core, core.nextId);
    core.Register(d);
  }

  /**
   * `iodev_close`: unregister the device (giving up if it is already gone),
   * detach it from its worker, clear it, release its socket and recycle it.
   */
  method Close(d: Device?) returns (fx: seq<Effect>)
    requires d != null && d.core != null ==> d.core.Valid()
    modifies Frame(d)
    ensures d == null ==> fx == []
    ensures d != null ==> d.core == old(d.core) && Closed(d, d.core, fx)
    ensures d != null && d.core != null ==> d.core.Valid()
  {
    fx := [];
    if d == null {
      return;
    }
    var c := d.core;
    if c == null {
      return;
    }
    if d.id !in c.registry {
      return;
    }
    c.registry := c.registry - {d.id};

    assert d !in c.pool;
    assert forall k | k in c.registry :: c.registry[k] != d;

    var clear := d.epump.Some? && d.epump.value in c.pollClear;
    fx := CloseEffects(d.id, d.fd, d.fdtype, d.epump, d.iot, clear);
    d.Scrub();
    c.pool := c.pool + [d];
  }

  /**
   * `iodev_new_from_fd`: wrap the live descriptor `fd` in a new device,
   * ready for reading. Without a core, or for the sentinel descriptor,
   * nothing is created.
   */
  method NewFromFd(core: Core?, fd: Fd, fdtype: FdType, para: Option<Opaque>,
                   callback: Option<Opaque>, cbpara: Option<Opaque>) returns (d: Device?)
    requires core != null ==> core.Valid()
    modifies core, Pooled(core)
    ensures d == null <==> core == null || fd == INVALID_SOCKET
    ensures core != null && fd == INVALID_SOCKET ==> unchanged(core)
    ensures core != null ==> core.Valid()
    ensures d != null ==>
              && core != null
              && d.id == IdFloor(old(core.nextId)) && core.nextId == d.id + 1
              && core.registry == old(core.registry)[d.id := d]
              && core.issued == old(core.issued) + {d.id} && core.global == old(core.global)
    // reused from the pool when it has a device, fresh otherwise; the other pooled devices are left alone
    ensures d != null && old(core.pool) == [] ==> fresh(d) && core.pool == [] && d.bindtype == 0
    ensures d != null && old(core.pool) != [] ==>
              d == old(core.pool[|core.pool| - 1]) && core.pool == old(core.pool[..|core.pool| - 1])
              && d.bindtype == old(core.pool[|core.pool| - 1].bindtype)
    ensures core != null ==> forall x | x in old(core.pool) && x != d :: unchanged(x)
    // the device wraps the descriptor, carries the caller's pointers and waits for input
    ensures d != null ==>
              d.View() == DeviceView(d.id, fd, fdtype, RWF_READ, ReadWrite, d.bindtype, None, core, None,
                                     para, callback, cbpara, NoEndpoints)
  {
    if core == null || fd == INVALID_SOCKET {
      return null;
    }
    d := New(core);
    assert old(core.pool) != [] ==> d in old(core.pool);
    assert d in old(Pooled(core)) || fresh(d);
    ghost var created := d.View();
    assert d !in core.pool;
    d.Open(fd, fdtype, para, callback, cbpara, core);
    ghost var wrapped := d.View();
    assert wrapped == created.(fd := fd, fdtype := fdtype, para := para, callback := callback,
                              cbpara := cbpara, iostate := ReadWrite);
    var rc, fx := RwflagSet(d, RWF_READ);
    assert d.View() == wrapped.(rwflag := RWF_READ);
  }

  /**
   * `iodev_rwflag_set`: overwrite the interest mask of a live device; a
   * device whose descriptor is the sentinel is closed instead.
   */
  method RwflagSet(d: Device?, flags: bv8) returns (rc: int, fx: seq<Effect>)
    requires d != null && d.core != null ==> d.core.Valid()
    modifies Frame(d)
    ensures d == null ==> rc == -1 && fx == []
    ensures d != null ==> rc == 0 && d.core == old(d.core)
    ensures d != null && d.core != null ==> d.core.Valid()
    ensures d != null && old(d.fd) == INVALID_SOCKET ==> Closed(d, d.core, fx)
    ensures d != null && old(d.fd) != INVALID_SOCKET ==>
              && fx == [] && d.View() == old(d.View()).(rwflag := flags)
              && (d.core != null ==> unchanged(d.core))
  {
    if d == null {
      return -1, [];
    }
    if d.fd == INVALID_SOCKET {
      fx := Close(d);
      return 0, fx;
    }
    d.SetMask(flags, d.core);
    return 0, [];
  }

  /**
   * `iodev_add_notify`: add the bits `flags` to a live device's interest
   * mask and ask for a poll-set update, even when the mask already held them.
   */
  method AddNotify(d: Device?, flags: bv8) returns (rc: int, fx: seq<Effect>)
    requires d != null && d.core != null ==> d.core.Valid()
    modifies Frame(d)
    ensures d == null ==> rc == -1 && fx == []
    ensures d != null ==> d.core == old(d.core)
    ensures d != null && d.core != null ==> d.core.Valid()
    ensures d != null && old(d.fd) == INVALID_SOCKET ==> rc == 0 && Closed(d, d.core, fx)
    // nothing asked, or no core to route through: nothing happens
    ensures d != null && old(d.fd) != INVALID_SOCKET && (flags == 0 || d.core == null) ==>
              && rc == (if flags == 0 then 0 else -2) && fx == [] && unchanged(d)
              && (d.core != null ==> unchanged(d.core))
    ensures d != null && old(d.fd) != INVALID_SOCKET && flags != 0 && d.core != null ==>
              && rc == 0 && unchanged(d.core)
              && d.View() == old(d.View()).(rwflag := AddMask(old(d.rwflag), flags))
              && fx == PollRoute(d.bindtype, d.epump, d.id)
  {
    if d == null {
      return -1, [];
    }
    if d.fd == INVALID_SOCKET {
      fx := Close(d);
      return 0, fx;
    }
    if flags == 0 {
      return 0, [];
    }
    if d.core == null {
      return -2, [];
    }
    var merged := d.rwflag | flags;
    if d.rwflag != merged {
      d.SetMask(merged, d.core);
    }
    fx := PollRoute(d.bindtype, d.epump, d.id);
    rc := 0;
  }

  /**
   * `iodev_del_notify`: remove the bits `flags` from a live device's
   * interest mask, and ask for a poll-set update only if the mask changed.
   */
  method DelNotify(d: Device?, flags: bv8) returns (rc: int, fx: seq<Effect>)
    requires d != null && d.core != null ==> d.core.Valid()
    modifies Frame(d)
    ensures d == null ==> rc == -1 && fx == []
    ensures d != null ==> d.core == old(d.core)
    ensures d != null && d.core != null ==> d.core.Valid()
    ensures d != null && old(d.fd) == INVALID_SOCKET ==> rc == 0 && Closed(d, d.core, fx)
    ensures d != null && old(d.fd) != INVALID_SOCKET && (flags == 0 || d.core == null) ==>
              && rc == (if flags == 0 then 0 else -2) && fx == [] && unchanged(d)
              && (d.core != null ==> unchanged(d.core))
    ensures d != null && old(d.fd) != INVALID_SOCKET && flags != 0 && d.core != null ==>
              && rc == 0 && unchanged(d.core)
              && d.View() == old(d.View()).(rwflag := DelMask(old(d.rwflag), flags))
              && fx == (if d.rwflag != old(d.rwflag) then PollRoute(d.bindtype, d.epump, d.id) else [])
  {
    if d == null {
      return -1, [];
    }
    if d.fd == INVALID_SOCKET {
      fx := Close(d);
      return 0, fx;
    }
    if flags == 0 {
      return 0, [];
    }
    if d.core == null {
      return -2, [];
    }
    var kept := d.rwflag & !flags;
    var setpoll := false;
    if d.rwflag != kept {
      d.SetMask(kept, d.core);
      setpoll := true;
    }
    if !setpoll {
      return 0, [];
    }
    fx := PollRoute(d.bindtype, d.epump, d.id);
    rc := 0;
  }

  /**
   * `iodev_bind_epump`: attach the device to one worker (`selected` is the
   * worker the core's load distribution picks, consulted only in mode 1;
   * `given` is the caller's), or to every worker.
   */
  method Bind(d: Device?, mode: int, given: Option<WorkerId>, selected: Option<WorkerId>)
    returns (rc: int, fx: seq<Effect>)
    requires d != null && d.core != null ==> d.core.Valid()
    modifies Frame(d)
    ensures d == null ==> rc == -1 && fx == []
    ensures d != null ==> d.core == old(d.core)
    ensures d != null && d.core == null ==> rc == -2 && fx == [] && unchanged(d)
    ensures d != null && d.core != null ==>
              && d.core.Valid()
              && rc == BindCode(BindPlan(mode, given, selected))
              && fx == BindEffects(BindPlan(mode, given, selected), d.id)
              && d.core.registry == old(d.core.registry) && d.core.pool == old(d.core.pool)
              && d.core.nextId == old(d.core.nextId) && d.core.issued == old(d.core.issued)
    ensures d != null && d.core != null && BindPlan(mode, given, selected).Owned? ==>
              && d.View() == old(d.View()).(bindtype := BindPlan(mode, given, selected).mode,
                                            epump := Some(BindPlan(mode, given, selected).worker))
              && d.core.global == old(d.core.global)
    ensures d != null && d.core != null && BindPlan(mode, given, selected).Everywhere? ==>
              && d.View() == old(d.View()).(bindtype := BIND_ALL, epump := None)
              && d.core.global == old(d.core.global) + [d]
    ensures d != null && d.core != null && (BindPlan(mode, given, selected).NoWorker? || BindPlan(mode, given, selected).Unbound?) ==>
              unchanged(d) && d.core.global == old(d.core.global)
  {
    if d == null {
      return -1, [];
    }
    var c := d.core;
    if c == null {
      return -2, [];
    }
    rc, fx := 0, [];
    if mode == BIND_SELECTED {
      if selected.None? {
        return -100, [];
      }
      d.Attach(BIND_SELECTED, selected, c);
      fx := [EpumpAdd(selected.value, d.id), PollUpdate(selected.value, d.id)];
    } else if mode == BIND_GIVEN && given.Some? {
      d.Attach(BIND_GIVEN, given, c);
      fx := [EpumpAdd(given.value, d.id), PollUpdate(given.value, d.id)];
    } else if mode == BIND_ALL {
      d.Attach(BIND_ALL, None, c);
      c.global := c.global + [d];
      fx := [GlobalAdd(d.id), CoreFanOut(d.id)];
    } else if given.Some? {
      d.Attach(BIND_GIVEN, given, c);
      fx := [EpumpAdd(given.value, d.id), PollUpdate(given.value, d.id)];
    }
  }

  /**
   * `iodev_linger_close`: a graceful close for an accepted connection that
   * is still registered. The write side is shut down (the device is marked
   * as lingering) and a 2-second idle timer, `started` being what
   * `iotimer_start` returns, replaces any running one; the final close
   * happens when it fires. Any other kind of device is closed at once.
   */
  method LingerClose(d: Device?, started: Option<TimerId>) returns (fx: seq<Effect>)
    requires d != null && d.core != null ==> d.core.Valid()
    modifies Frame(d)
    ensures d == null ==> fx == []
    ensures d != null ==> d.core == old(d.core)
    ensures d != null && d.core != null ==> d.core.Valid()
    ensures d != null && old(d.fdtype) != Accepted ==> Closed(d, d.core, fx)
    // an accepted device that is gone from the registry, or has no core, is left alone
    ensures d != null && old(d.fdtype) == Accepted && (d.core == null || d.id !in d.core.registry) ==>
              fx == [] && unchanged(d) && (d.core != null ==> unchanged(d.core))
    ensures d != null && old(d.fdtype) == Accepted && d.core != null && d.id in d.core.registry ==>
              && unchanged(d.core)
              && d.View() == old(d.View()).(fdtype := if old(d.fd) != INVALID_SOCKET then LingerClosing else Accepted,
                                            iot := started)
              && fx == LingerEffects(d.id, d.fd, d.epump, old(d.iot))
  {
    if d == null {
      return [];
    }
    if d.fdtype != Accepted {
      fx := Close(d);
      return;
    }
    var c := d.core;
    if c == null || d.id !in c.registry {
      return [];
    }
    fx := [];
    var kind := d.fdtype;
    if d.fd != INVALID_SOCKET {
      fx := fx + [Shutdown(d.fd, ShutWr)];
      kind := LingerClosing;
    }
    if d.iot.Some? {
      fx := fx + [TimerStop(d.iot.value)];
    }
    fx := fx + [TimerStart(d.epump, LINGER_MS, IdleCmd, d.id)];
    d.Linger(kind, started, c);
  }

  /**
   * `iodev_free`, the pool's release of device memory: a real socket is shut
   * down (connected or accepted streams) and closed, and the device is reset
   * to the sentinel descriptor. The memory release itself is not modelled.
   */
  method Free(d: Device?) returns (fx: seq<Effect>)
    modifies d
    ensures d == null ==> fx == []
    ensures d != null ==>
              && fx == FreeEffects(old(d.fd), d.id, old(d.fdtype))
              && d.View() == old(d.View()).(fd := INVALID_SOCKET, rwflag := 0, fdtype := Unset, iostate := Idle)
  {
    if d == null {
      return [];
    }
    fx := [];
    if d.fd != INVALID_SOCKET {
      if d.fd <= 0 && d.id == 0 {
        // never-used pool memory: there is no socket to release
      } else {
        if d.fdtype == Connected || d.fdtype == Accepted {
          fx := fx + [Shutdown(d.fd, ShutRdWr)];
        }
        fx := fx + [CloseSocket(d.fd)];
      }
    }
    d.fd, d.rwflag, d.fdtype, d.iostate := INVALID_SOCKET, 0, Unset, Idle;
  }
}
