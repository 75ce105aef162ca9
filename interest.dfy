/**
 * Interest masks: how `iodev_add_notify` and `iodev_del_notify` change a
 * device's `rwflag`, where the resulting poll-set update is sent, and what a
 * whole series of such requests leaves behind.
 */
module Interest {
  import opened Wrappers
  import opened Kinds

  /** A mask with exactly one of the eight bits set. */
  predicate IsBit(bit: bv8) {
    bit == 1 || bit == 2 || bit == 4 || bit == 8 || bit == 16 || bit == 32 || bit == 64 || bit == 128
  }

  /** Whether mask `m` holds the single bit `bit`. */
  predicate Has(m: bv8, bit: bv8) {
    m & bit != 0
  }

  /** The mask `iodev_add_notify` computes: every bit of the old mask and every requested bit. */
  function AddMask(m: bv8, flags: bv8): (r: bv8)
    ensures forall bit | IsBit(bit) :: Has(r, bit) <==> Has(m, bit) || Has(flags, bit)
  {
    m | flags
  }

  /** The mask `iodev_del_notify` computes: the old mask without any requested bit. */
  function DelMask(m: bv8, flags: bv8): (r: bv8)
    ensures forall bit | IsBit(bit) :: Has(r, bit) <==> Has(m, bit) && !Has(flags, bit)
  {
    m & !flags
  }

  /** One interest request on a live device. */
  datatype Request = Add(flags: bv8) | Remove(flags: bv8)

  function Apply(m: bv8, q: Request): bv8 {
    match q
    case Add(f) => AddMask(m, f)
    case Remove(f) => DelMask(m, f)
  }

  /** The mask after the requests `qs`, issued in order, starting from `m`. */
  function Replay(m: bv8, qs: seq<Request>): bv8
    decreases |qs|
  {
    if qs == [] then m else Apply(Replay(m, qs[..|qs| - 1]), qs[|qs| - 1])
  }

  /**
   * The verdict of the latest request in `qs` that names `bit`: on for an
   * add, off for a remove, none if no request names it.
   */
  function LastWord(qs: seq<Request>, bit: bv8): Option<bool>
    decreases |qs|
  {
    if qs == [] then None
    else if Has(qs[|qs| - 1].flags, bit) then Some(qs[|qs| - 1].Add?)
    else LastWord(qs[..|qs| - 1], bit)
  }

  /**
   * Interest convergence: after any series of add/remove requests, a bit is
   * set exactly when the last request naming it was an add, or, if none
   * named it, when it was set to begin with.
   */
  lemma {:induction false} ReplayBit(m: bv8, qs: seq<Request>, bit: bv8)
    requires IsBit(bit)
    ensures Has(Replay(m, qs), bit) == match LastWord(qs, bit)
                                       case Some(on) => on
                                       case None => Has(m, bit)
    decreases |qs|
  {
    if qs != [] {
      ReplayBit(m, qs[..|qs| - 1], bit);
    }
  }

  /** Removing bits after adding them is the same as removing them alone, and the reverse. */
  lemma RemoveAfterAdd(m: bv8, flags: bv8)
    ensures DelMask(AddMask(m, flags), flags) == DelMask(m, flags)
    ensures AddMask(DelMask(m, flags), flags) == AddMask(m, flags)
  {
  }

  /**
   * The poll-set update a changed interest mask asks for: the core's fan-out
   * to every worker for a device bound to all workers, otherwise the owning
   * worker's `fdpoll`, and nothing for a device with no owner.
   */
  function PollRoute(bindtype: int, owner: Option<WorkerId>, dev: nat): (fx: seq<Effect>)
    ensures |fx| <= 1
    ensures CoreFanOut(dev) in fx <==> bindtype == BIND_ALL
    ensures forall w: WorkerId :: PollUpdate(w, dev) in fx <==> bindtype != BIND_ALL && owner == Some(w)
    ensures forall e | e in fx :: e == CoreFanOut(dev) || (e.PollUpdate? && e.dev == dev)
  {
    if bindtype == BIND_ALL then [CoreFanOut(dev)]
    else if owner.Some? then [PollUpdate(owner.value, dev)]
    else []
  }
}
