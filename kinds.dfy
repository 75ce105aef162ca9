/**
 * The vocabulary of the device layer: descriptors, device kinds, interest
 * bits, binding modes and the external calls a device operation can make.
 */
module Kinds {
  import opened Wrappers

  /** A socket descriptor: a C `int` on the UNIX build. */
  type Fd = x: int | -0x8000_0000 <= x < 0x8000_0000

  /** The "no socket" sentinel of the UNIX build. */
  const INVALID_SOCKET: Fd := -1

  /** Values of the C `ulong` type (64 bits on the UNIX build). */
  const ULONG_MODULUS: nat := 0x1_0000_0000_0000_0000

  /** Ids below this base are reserved; the id counter never hands them out. */
  const ID_BASE: nat := 100

  /** Delay of the drain timer armed by a linger-close, in milliseconds. */
  const LINGER_MS: nat := 2 * 1000

  /** A polling worker (an `epump_t`). */
  type WorkerId = nat

  /** A running timer (an `iotimer_t`). */
  type TimerId = nat

  /** An application pointer (`para`, `callback`, `cbpara`): only set versus cleared matters. */
  type Opaque = nat

  /**
   * Interest bits. Their numeric values live in a header that is not part of
   * this model; the model relies only on their being two distinct single bits.
   */
  const RWF_READ: bv8 := 0x02
  const RWF_WRITE: bv8 := 0x04

  /** Binding modes of `iodev_bind_epump`. */
  const BIND_SELECTED: int := 1
  const BIND_GIVEN: int := 2
  const BIND_ALL: int := 3

  /** The kind of handle a device wraps (`fdtype`); `Unset` is the zero value. */
  datatype FdType =
    | Unset
    | Listen | Connected | Accepted
    | UdpServer | UdpClient | RawSocket
    | Timer | UserCmd | LingerClosing
    | Stdin | Stdout
    | UnixListen | UnixConnected | UnixAccepted

  /** `iostate`: zero, or `IOS_READWRITE` once the device is usable. */
  datatype IoState = Idle | ReadWrite

  /** The command a device timer delivers when it fires. */
  datatype TimerCmd = IdleCmd

  /** The `how` argument of `shutdown` (UNIX branch). */
  datatype ShutHow = ShutWr | ShutRdWr

  /** One call out of the device layer, into the OS or a collaborator. */
  datatype Effect =
    | Shutdown(fd: Fd, how: ShutHow)                       // shutdown(fd, how)
    | SetLingerAbort(fd: Fd)                               // setsockopt SO_LINGER {on, 0 s}
    | CloseSocket(fd: Fd)                                  // closesocket(fd)
    | EpumpAdd(worker: WorkerId, dev: nat)                 // epump_iodev_add
    | EpumpDel(worker: WorkerId, fd: Fd)                   // epump_iodev_del (keyed by fd)
    | PollUpdate(worker: WorkerId, dev: nat)               // epump->fdpoll
    | PollClear(worker: WorkerId, dev: nat)                // epump->fdpollclear
    | CoreFanOut(dev: nat)                                 // epcore_thread_fdpoll
    | GlobalAdd(dev: nat)                                  // epcore_global_iodev_add
    | TimerStop(timer: TimerId)                            // iotimer_stop
    | TimerStart(owner: Option<WorkerId>, ms: nat, cmd: TimerCmd, dev: nat)  // iotimer_start
    | Recycle(dev: nat)                                    // epm_pool_recycle
}
