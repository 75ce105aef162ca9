/**
 * Sequences of device operations that the lifecycle layer promises to
 * handle: closing twice, a graceful close followed by a second close
 * request while the linger timer is running, reusing a closed device,
 * notifying a bound device, and the whole life of an accepted connection.
 */
module Lifecycle {
  import opened Wrappers
  import opened Kinds
  import opened Interest
  import opened Teardown
  import opened Binding
  import opened IoDev

  /**
   * Closing a device a second time does nothing: the first close took the
   * id out of the registry, so the second finds it gone and makes no call.
   */
  method CloseTwice(d: Device) returns (first: seq<Effect>, second: seq<Effect>)
    requires d.core != null && d.core.Valid()
    modifies d, d.core
    ensures d.core == old(d.core) && d.core.Valid()
    ensures d.id !in d.core.registry
    ensures old(d.id in d.core.registry) ==> d in d.core.pool && d.fd == INVALID_SOCKET && Recycle(d.id) in first
    // the final state is the one the first close left: the second changes nothing and makes no call
    ensures old(d.id in d.core.registry) ==> TornDown(d, d.core, first)
    ensures old(d.id !in d.core.registry) ==> first == [] && unchanged(d, d.core)
    ensures second == []
  {
    first := Close(d);
    if old(d.id in d.core.registry) {
      CloseMembers(d.id, old(d.fd), d.fdtype, d.epump, old(d.iot),
                   d.epump.Some? && d.epump.value in d.core.pollClear, Recycle(d.id));
    }
    label between:
    second := Close(d);
    assert unchanged@between(d, d.core);
  }

  /**
   * A linger close of an accepted connection half-closes it and arms the
   * linger timer; a second linger close, made when that timer fires, finds
   * the device marked as lingering and falls through to a full close. That
   * close stops the timer armed by the first call and closes the socket
   * without the abortive reset a connected socket would get.
   */
  method LingerTwice(d: Device, timer: TimerId, later: Option<TimerId>)
    returns (first: seq<Effect>, second: seq<Effect>)
    requires d.core != null && d.core.Valid() && d.id in d.core.registry
    requires d.fdtype == Accepted && d.fd != INVALID_SOCKET
    modifies d, d.core
    ensures d.core == old(d.core) && d.core.Valid()
    ensures first == LingerEffects(d.id, old(d.fd), old(d.epump), old(d.iot))
    ensures Shutdown(old(d.fd), ShutWr) in first
    ensures d.id !in d.core.registry && d in d.core.pool && d.fd == INVALID_SOCKET
    ensures TimerStop(timer) in second && CloseSocket(old(d.fd)) in second
    ensures SetLingerAbort(old(d.fd)) !in second && Shutdown(old(d.fd), ShutRdWr) !in second
    ensures second[|second| - 1] == Recycle(d.id)
  {
    first := LingerClose(d, Some(timer));
    assert d.fdtype == LingerClosing && d.iot == Some(timer) && d.id in d.core.registry;
    label between:
    second := LingerClose(d, later);
    ghost var fd := old@between(d.fd);
    ghost var clear := d.epump.Some? && d.epump.value in d.core.pollClear;
    assert second == CloseEffects(d.id, fd, LingerClosing, d.epump, Some(timer), clear);
    CloseMembers(d.id, fd, LingerClosing, d.epump, Some(timer), clear, TimerStop(timer));
    CloseMembers(d.id, fd, LingerClosing, d.epump, Some(timer), clear, CloseSocket(fd));
    CloseMembers(d.id, fd, LingerClosing, d.epump, Some(timer), clear, SetLingerAbort(fd));
    CloseMembers(d.id, fd, LingerClosing, d.epump, Some(timer), clear, Shutdown(fd, ShutRdWr));
    CloseOrder(d.id, fd, LingerClosing, d.epump, Some(timer), clear);
  }

  /**
   * A device reused from the pool keeps the binding mode it had when it was
   * closed: a device closed while bound to every worker comes back from
   * `iodev_new` still marked so, with no owner, and its first interest
   * change is fanned out to every worker.
   */
  method ReuseKeepsBinding(d: Device) returns (e: Device)
    requires d.core != null && d.core.Valid() && d.core.pool == [] && d.id in d.core.registry
    requires d.bindtype == BIND_ALL
    modifies d, d.core
    ensures e == d && e.core == old(d.core) && e.id in e.core.registry
    ensures e.bindtype == BIND_ALL && e.epump == None
    ensures PollRoute(e.bindtype, e.epump, e.id) == [CoreFanOut(e.id)]
  {
    var c := d.core;
    var fx := Close(d);
    assert c.pool == [d];
    var r := New(c);
    e := r;
  }

  /**
   * The poll-set update a successful bind makes is the one a later interest
   * change on the bound device makes: the owner's `fdpoll` for a worker
   * binding, the core's fan-out for an all-workers binding.
   */
  lemma BindPollMatchesNotify(mode: int, given: Option<WorkerId>, selected: Option<WorkerId>, dev: nat)
    requires BindPlan(mode, given, selected).Owned? || BindPlan(mode, given, selected).Everywhere?
    ensures var p := BindPlan(mode, given, selected);
      var fx := BindEffects(p, dev);
      |fx| == 2 && fx[1] == (if p.Owned? then PollRoute(p.mode, Some(p.worker), dev)
                             else PollRoute(BIND_ALL, None, dev))[0]
  {
  }

  /**
   * The life of an accepted connection: wrap the descriptor, bind it to the
   * worker `w`, ask for write readiness and drop it again, linger-close it,
   * and close it when the linger timer fires.
   */
  method ServeConnection(c: Core, fd: Fd, w: WorkerId, timer: TimerId)
    returns (d: Device, bindFx: seq<Effect>, addFx: seq<Effect>, delFx: seq<Effect>,
             lingerFx: seq<Effect>, closeFx: seq<Effect>)
    requires c.Valid() && fd != INVALID_SOCKET
    modifies c, Pooled(c)
    ensures c.Valid() && d.core == c
    ensures bindFx == [EpumpAdd(w, d.id), PollUpdate(w, d.id)]
    ensures addFx == [PollUpdate(w, d.id)] && delFx == [PollUpdate(w, d.id)]
    ensures lingerFx == [Shutdown(fd, ShutWr), TimerStart(Some(w), LINGER_MS, IdleCmd, d.id)]
    ensures closeFx == CloseEffects(d.id, fd, LingerClosing, Some(w), Some(timer), w in c.pollClear)
    ensures d.id !in c.registry && d in c.pool && d.fd == INVALID_SOCKET && d.rwflag == 0
  {
    d, bindFx := Accept(c, fd, w);
    addFx, delFx := WantWrite(d, w);
    lingerFx, closeFx := Retire(d, w, timer);
  }

  /** Wrap an accepted descriptor and bind it to the worker `w`. */
  method Accept(c: Core, fd: Fd, w: WorkerId) returns (d: Device, bindFx: seq<Effect>)
    requires c.Valid() && fd != INVALID_SOCKET
    modifies c, Pooled(c)
    ensures c.Valid() && (fresh(d) || d in old(c.pool))
    ensures d.core == c && d.id in c.registry && d.iot == None
    ensures d.fd == fd && d.fdtype == Accepted && d.rwflag == RWF_READ
    ensures d.bindtype == BIND_GIVEN && d.epump == Some(w)
    ensures bindFx == [EpumpAdd(w, d.id), PollUpdate(w, d.id)]
  {
    var r := NewFromFd(c, fd, Accepted, None, None, None);
    d := r;
    var rc;
    assert BindPlan(BIND_GIVEN, Some(w), None) == Owned(BIND_GIVEN, w);
    rc, bindFx := Bind(d, BIND_GIVEN, Some(w), None);
    assert BindEffects(Owned(BIND_GIVEN, w), d.id) == [EpumpAdd(w, d.id), PollUpdate(w, d.id)];
  }

  /**
   * Ask for write readiness on a bound connection and drop it again: each
   * step asks the owner to update its poll set, and the mask ends as it began.
   */
  method WantWrite(d: Device, w: WorkerId) returns (addFx: seq<Effect>, delFx: seq<Effect>)
    requires d.core != null && d.core.Valid() && d.fd != INVALID_SOCKET
    requires d.bindtype == BIND_GIVEN && d.epump == Some(w) && d.rwflag == RWF_READ
    modifies d, d.core
    ensures d.View() == old(d.View()) && unchanged(old(d.core))
    ensures addFx == [PollUpdate(w, d.id)] && delFx == [PollUpdate(w, d.id)]
  {
    var rc;
    rc, addFx := AddNotify(d, RWF_WRITE);
    assert d.rwflag == RWF_READ | RWF_WRITE != RWF_READ;
    rc, delFx := DelNotify(d, RWF_WRITE);
  }

  /** Linger-close an accepted connection, then close it when the timer fires. */
  method Retire(d: Device, w: WorkerId, timer: TimerId) returns (lingerFx: seq<Effect>, closeFx: seq<Effect>)
    requires d.core != null && d.core.Valid() && d.id in d.core.registry
    requires d.fd != INVALID_SOCKET && d.fdtype == Accepted && d.epump == Some(w) && d.iot == None
    modifies d, d.core
    ensures d.core == old(d.core) && d.core.Valid() && d.id == old(d.id)
    ensures lingerFx == [Shutdown(old(d.fd), ShutWr), TimerStart(Some(w), LINGER_MS, IdleCmd, d.id)]
    ensures closeFx == CloseEffects(d.id, old(d.fd), LingerClosing, Some(w), Some(timer), w in d.core.pollClear)
    ensures d.id !in d.core.registry && d in d.core.pool && d.fd == INVALID_SOCKET && d.rwflag == 0
  {
    lingerFx := LingerClose(d, Some(timer));
    closeFx := Close(d);
  }
}
