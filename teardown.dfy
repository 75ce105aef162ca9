/**
 * The external calls made when a device's socket is released: the full close,
 * the linger (half) close, and the pool's free of unused device memory.
 */
module Teardown {
  import opened Wrappers
  import opened Kinds

  /**
   * The calls `iodev_close` makes once it has removed device `dev` from the
   * registry: detach from the owning worker, stop the timer, release and close
   * a live socket, and recycle the device.
   */
  function CloseEffects(dev: nat, fd: Fd, fdtype: FdType, owner: Option<WorkerId>,
                        timer: Option<TimerId>, clearHook: bool): (fx: seq<Effect>)
    // whatever else happens, the device ends up recycled
    ensures |fx| >= 1 && fx[|fx| - 1] == Recycle(dev)
  {
    Detach(owner, fd) + StopTimer(timer) + ReleaseSocket(dev, fd, fdtype, owner, clearHook) + [Recycle(dev)]
  }

  /** `epump_iodev_del`: the owning worker, if any, drops the device from its list. */
  function Detach(owner: Option<WorkerId>, fd: Fd): (fx: seq<Effect>)
    ensures forall e :: e in fx <==> owner.Some? && e == EpumpDel(owner.value, fd)
    ensures |fx| <= 1
  {
    if owner.Some? then [EpumpDel(owner.value, fd)] else []
  }

  /** `iotimer_stop` on the device's timer, if it has one. */
  function StopTimer(timer: Option<TimerId>): (fx: seq<Effect>)
    ensures forall e :: e in fx <==> timer.Some? && e == TimerStop(timer.value)
    ensures |fx| <= 1
  {
    if timer.Some? then [TimerStop(timer.value)] else []
  }

  /**
   * What happens to a live socket, under the device lock: the worker's poll
   * registration is cleared if the poller has that hook, a connected stream
   * gets an abortive linger and a two-way shutdown, and the socket is closed.
   * A dead socket is left alone.
   */
  function ReleaseSocket(dev: nat, fd: Fd, fdtype: FdType, owner: Option<WorkerId>, clearHook: bool): (fx: seq<Effect>)
    ensures fx == [] <==> fd == INVALID_SOCKET
    ensures fx != [] ==> fx[|fx| - 1] == CloseSocket(fd)
  {
    if fd == INVALID_SOCKET then []
    else
      (if owner.Some? && clearHook then [PollClear(owner.value, dev)] else [])
      + (if fdtype == Connected then [SetLingerAbort(fd), Shutdown(fd, ShutRdWr)] else [])
      + [CloseSocket(fd)]
  }

  /** The calls releasing a socket can make, and its closing call last. */
  lemma ReleaseSocketShape(dev: nat, fd: Fd, fdtype: FdType, owner: Option<WorkerId>,
                             clearHook: bool)
    returns (prep: seq<Effect>)
    ensures fd == INVALID_SOCKET ==> ReleaseSocket(dev, fd, fdtype, owner, clearHook) == []
    ensures fd != INVALID_SOCKET ==> ReleaseSocket(dev, fd, fdtype, owner, clearHook) == prep + [CloseSocket(fd)]
    ensures forall e :: e in prep <==>
              || (fd != INVALID_SOCKET && owner.Some? && clearHook && e == PollClear(owner.value, dev))
              || (fd != INVALID_SOCKET && fdtype == Connected && (e == SetLingerAbort(fd) || e == Shutdown(fd, ShutRdWr)))
    ensures fd != INVALID_SOCKET && fdtype == Connected ==>
              |prep| >= 2 && prep[|prep| - 2] == SetLingerAbort(fd) && prep[|prep| - 1] == Shutdown(fd, ShutRdWr)
  {
    if fd == INVALID_SOCKET {
      prep := [];
    } else {
      var clear := if owner.Some? && clearHook then [PollClear(owner.value, dev)] else [];
      var abort := if fdtype == Connected then [SetLingerAbort(fd), Shutdown(fd, ShutRdWr)] else [];
      prep := clear + abort;
    }
  }

  /** Exactly the calls a close can make, one alternative per stage. */
  lemma CloseMembers(dev: nat, fd: Fd, fdtype: FdType, owner: Option<WorkerId>,
                       timer: Option<TimerId>, clearHook: bool, e: Effect)
    ensures e in CloseEffects(dev, fd, fdtype, owner, timer, clearHook) <==>
      || (owner.Some? && e == EpumpDel(owner.value, fd))
      || (timer.Some? && e == TimerStop(timer.value))
      || (fd != INVALID_SOCKET && owner.Some? && clearHook && e == PollClear(owner.value, dev))
      || (fd != INVALID_SOCKET && fdtype == Connected && (e == SetLingerAbort(fd) || e == Shutdown(fd, ShutRdWr)))
      || (fd != INVALID_SOCKET && e == CloseSocket(fd))
      || e == Recycle(dev)
  {
    var prep := ReleaseSocketShape(dev, fd, fdtype, owner, clearHook);
  }

  /** A close starts no timer, asks for no poll update, and touches no other socket. */
  lemma CloseStartsNothing(dev: nat, fd: Fd, fdtype: FdType, owner: Option<WorkerId>,
                             timer: Option<TimerId>, clearHook: bool)
    ensures forall e | e in CloseEffects(dev, fd, fdtype, owner, timer, clearHook) ::
              && !e.TimerStart? && !e.PollUpdate? && !e.CoreFanOut? && !e.EpumpAdd? && !e.GlobalAdd?
              && (e.CloseSocket? ==> e.fd == fd != INVALID_SOCKET)
              && (e.Shutdown? ==> e == Shutdown(fd, ShutRdWr) && fd != INVALID_SOCKET && fdtype == Connected)
              && (e.TimerStop? ==> timer == Some(e.timer))
  {
    forall e | e in CloseEffects(dev, fd, fdtype, owner, timer, clearHook)
      ensures && !e.TimerStart? && !e.PollUpdate? && !e.CoreFanOut? && !e.EpumpAdd? && !e.GlobalAdd?
              && (e.CloseSocket? ==> e.fd == fd != INVALID_SOCKET)
              && (e.Shutdown? ==> e == Shutdown(fd, ShutRdWr) && fd != INVALID_SOCKET && fdtype == Connected)
              && (e.TimerStop? ==> timer == Some(e.timer))
    {
      CloseMembers(dev, fd, fdtype, owner, timer, clearHook, e);
    }
  }

  /**
   * The order of a close: the owner is detached first, a live socket is closed
   * right before the device is recycled, and a connected one is aborted and
   * shut down right before that.
   */
  lemma CloseOrder(dev: nat, fd: Fd, fdtype: FdType, owner: Option<WorkerId>,
                     timer: Option<TimerId>, clearHook: bool)
    ensures var fx := CloseEffects(dev, fd, fdtype, owner, timer, clearHook);
      && |fx| >= 1 && fx[|fx| - 1] == Recycle(dev)
      && (owner.Some? ==> fx[0] == EpumpDel(owner.value, fd))
      && (fd != INVALID_SOCKET ==> |fx| >= 2 && fx[|fx| - 2] == CloseSocket(fd))
      && (fd != INVALID_SOCKET && fdtype == Connected ==>
            |fx| >= 4 && fx[|fx| - 4] == SetLingerAbort(fd) && fx[|fx| - 3] == Shutdown(fd, ShutRdWr))
  {
    var prep := ReleaseSocketShape(dev, fd, fdtype, owner, clearHook);
    var pre := Detach(owner, fd) + StopTimer(timer);
    var rel := ReleaseSocket(dev, fd, fdtype, owner, clearHook);
    var fx := CloseEffects(dev, fd, fdtype, owner, timer, clearHook);
    assert fx == pre + (rel + [Recycle(dev)]);
    if owner.Some? {
      assert pre[0] == EpumpDel(owner.value, fd);
    }
    if fd != INVALID_SOCKET {
      var head := pre + prep;
      assert fx == head + [CloseSocket(fd), Recycle(dev)];
      if fdtype == Connected {
        assert head[|head| - 2] == prep[|prep| - 2] && head[|head| - 1] == prep[|prep| - 1];
      }
    }
  }

  /** Positions taken by `head` in `head + tail` never hold a call absent from `head`. */
  lemma AbsentBefore(head: seq<Effect>, tail: seq<Effect>, e: Effect)
    requires e !in head
    ensures forall i | 0 <= i < |head| :: (head + tail)[i] != e
  {
    forall i | 0 <= i < |head| ensures (head + tail)[i] != e {
      assert (head + tail)[i] == head[i];
    }
  }

  /**
   * A close recycles the device once, as its last call, and closes the socket
   * once, right before that, and only if it was live.
   */
  lemma CloseOnce(dev: nat, fd: Fd, fdtype: FdType, owner: Option<WorkerId>,
                    timer: Option<TimerId>, clearHook: bool)
    ensures var fx := CloseEffects(dev, fd, fdtype, owner, timer, clearHook);
      && (forall i | 0 <= i < |fx| && fx[i] == Recycle(dev) :: i == |fx| - 1)
      && (forall i | 0 <= i < |fx| && fx[i] == CloseSocket(fd) :: fd != INVALID_SOCKET && i == |fx| - 2)
  {
    var prep := ReleaseSocketShape(dev, fd, fdtype, owner, clearHook);
    var pre := Detach(owner, fd) + StopTimer(timer);
    var rel := ReleaseSocket(dev, fd, fdtype, owner, clearHook);
    var close, recycle := CloseSocket(fd), Recycle(dev);
    assert close !in pre && recycle !in pre;
    if fd != INVALID_SOCKET {
      assert rel == prep + [close];
      assert pre + rel + [recycle] == (pre + prep) + [close, recycle];
      AbsentBefore(pre + prep, [close, recycle], close);
      AbsentBefore(pre + prep, [close, recycle], recycle);
    } else {
      AbsentBefore(pre + rel, [recycle], close);
      AbsentBefore(pre + rel, [recycle], recycle);
    }
  }

  /**
   * The calls `iodev_linger_close` makes on an accepted connection that is
   * still registered: half-close the write side, stop the old timer, and arm
   * the drain timer.
   */
  function LingerEffects(dev: nat, fd: Fd, owner: Option<WorkerId>, timer: Option<TimerId>): (fx: seq<Effect>)
    // the socket stays open and the device stays out of the pool
    ensures forall e | e in fx :: !e.CloseSocket? && !e.Recycle? && !e.SetLingerAbort?
    // only the write direction is shut, and only on a live socket
    ensures forall e | e in fx :: e.Shutdown? ==> e == Shutdown(fd, ShutWr) && fd != INVALID_SOCKET
    ensures fd != INVALID_SOCKET ==> |fx| >= 1 && fx[0] == Shutdown(fd, ShutWr)
    // the old timer is stopped right before the 2-second idle timer is started
    ensures |fx| >= 1 && fx[|fx| - 1] == TimerStart(owner, LINGER_MS, IdleCmd, dev)
    ensures timer.Some? ==> |fx| >= 2 && fx[|fx| - 2] == TimerStop(timer.value)
    ensures forall e | e in fx :: e.TimerStop? ==> timer == Some(e.timer)
  {
    (if fd != INVALID_SOCKET then [Shutdown(fd, ShutWr)] else [])
    + (if timer.Some? then [TimerStop(timer.value)] else [])
    + [TimerStart(owner, LINGER_MS, IdleCmd, dev)]
  }

  /**
   * The calls `iodev_free` makes: a real socket (not the sentinel, and not the
   * zeroed descriptor of never-used pool memory) is closed, after a two-way
   * shutdown if it is a connected or accepted stream.
   */
  function FreeEffects(fd: Fd, id: nat, fdtype: FdType): (fx: seq<Effect>)
    ensures (CloseSocket(fd) in fx) <==> fd != INVALID_SOCKET && !(fd <= 0 && id == 0)
    ensures (Shutdown(fd, ShutRdWr) in fx) <==>
              CloseSocket(fd) in fx && (fdtype == Connected || fdtype == Accepted)
    ensures forall e | e in fx :: e == CloseSocket(fd) || e == Shutdown(fd, ShutRdWr)
    ensures fx != [] ==> fx[|fx| - 1] == CloseSocket(fd)
  {
    if fd == INVALID_SOCKET || (fd <= 0 && id == 0) then []
    else (if fdtype == Connected || fdtype == Accepted then [Shutdown(fd, ShutRdWr)] else [])
         + [CloseSocket(fd)]
  }
}
