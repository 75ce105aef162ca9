/**
 * The read-only accessors of a device. Each one answers a fixed default for
 * a missing device instead of dereferencing it.
 */
module Accessors {
  import opened Wrappers
  import opened Kinds
  import opened IoDev

  /** What the address accessors answer for a missing device. */
  const UNSPECIFIED_IP: string := "0.0.0.0"

  /** `iodev_para` */
  function ParaOf(d: Device?): (r: Option<Opaque>)
    reads d
    ensures r.None? <==> d == null || d.para.None?
    ensures r.Some? ==> r == d.para
  {
    if d == null then None else d.para
  }

  /** `iodev_epcore` */
  function CoreOf(d: Device?): (r: Core?)
    reads d
    ensures r == null <==> d == null || d.core == null
    ensures r != null ==> r == d.core
  {
    if d == null then null else d.core
  }

  /** `iodev_epump` */
  function EpumpOf(d: Device?): (r: Option<WorkerId>)
    reads d
    ensures r.None? <==> d == null || d.epump.None?
    ensures r.Some? ==> r == d.epump
  {
    if d == null then None else d.epump
  }

  /** `iodev_fd` */
  function FdOf(d: Device?): (r: Fd)
    reads d
    ensures r == INVALID_SOCKET <==> d == null || d.fd == INVALID_SOCKET
    ensures r != INVALID_SOCKET ==> r == d.fd
  {
    if d == null then INVALID_SOCKET else d.fd
  }

  /** `iodev_fdtype`: a missing device reads as the unset kind 0. */
  function FdTypeOf(d: Device?): (r: FdType)
    reads d
    ensures r == Unset <==> d == null || d.fdtype == Unset
    ensures r != Unset ==> r == d.fdtype
  {
    if d == null then Unset else d.fdtype
  }

  /** `iodev_rwflag` */
  function RwflagOf(d: Device?): (r: bv8)
    reads d
    ensures r == 0 <==> d == null || d.rwflag == 0
    ensures r != 0 ==> r == d.rwflag
  {
    if d == null then 0 else d.rwflag
  }

  /** `iodev_rip` */
  function RemoteIpOf(d: Device?): (r: string)
    reads d
    ensures d == null ==> r == UNSPECIFIED_IP
    ensures d != null ==> r == d.addr.remoteIp
  {
    if d == null then UNSPECIFIED_IP else d.addr.remoteIp
  }

  /** `iodev_rport` */
  function RemotePortOf(d: Device?): (r: int)
    reads d
    ensures r == 0 <==> d == null || d.addr.remotePort == 0
    ensures r != 0 ==> r == d.addr.remotePort
  {
    if d == null then 0 else d.addr.remotePort
  }

  /** `iodev_lip` */
  function LocalIpOf(d: Device?): (r: string)
    reads d
    ensures d == null ==> r == UNSPECIFIED_IP
    ensures d != null ==> r == d.addr.localIp
  {
    if d == null then UNSPECIFIED_IP else d.addr.localIp
  }

  /** `iodev_lport` */
  function LocalPortOf(d: Device?): (r: int)
    reads d
    ensures r == 0 <==> d == null || d.addr.localPort == 0
    ensures r != 0 ==> r == d.addr.localPort
  {
    if d == null then 0 else d.addr.localPort
  }

  /**
   * A missing device reads as one that holds nothing: no descriptor, no
   * interest, no core or worker, no caller pointer, and the unspecified
   * address with port 0.
   */
  lemma MissingDeviceDefaults()
    ensures FdOf(null) == INVALID_SOCKET && FdTypeOf(null) == Unset && RwflagOf(null) == 0
    ensures ParaOf(null) == None && CoreOf(null) == null && EpumpOf(null) == None
    ensures RemoteIpOf(null) == UNSPECIFIED_IP && LocalIpOf(null) == UNSPECIFIED_IP
    ensures RemotePortOf(null) == 0 && LocalPortOf(null) == 0
  {
  }

  /**
   * Wrapping a descriptor and reading the device back: every accessor
   * reports what `iodev_new_from_fd` was given, or the reset value for the
   * fields it does not set.
   */
  method WrapAndInspect(core: Core, fd: Fd, fdtype: FdType, para: Option<Opaque>,
                        callback: Option<Opaque>, cbpara: Option<Opaque>) returns (d: Device?)
    requires core.Valid() && fd != INVALID_SOCKET
    modifies core, Pooled(core)
    ensures d != null && core.Valid() && d.id in core.registry
    ensures FdOf(d) == fd && FdTypeOf(d) == fdtype && RwflagOf(d) == RWF_READ
    ensures ParaOf(d) == para && CoreOf(d) == core && EpumpOf(d) == None
    ensures RemoteIpOf(d) == "" && LocalIpOf(d) == "" && RemotePortOf(d) == 0 && LocalPortOf(d) == 0
  {
    d := NewFromFd(core, fd, fdtype, para, callback, cbpara);
  }
}
