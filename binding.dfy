/** The decision `iodev_bind_epump` takes for a requested binding mode. */
module Binding {
  import opened Wrappers
  import opened Kinds

  /** Outcome of a bind request on a device that has a core. */
  datatype Binding =
    | NoWorker                             // auto-selection found no worker: -100
    | Owned(mode: int, worker: WorkerId)   // one worker owns the poll registration
    | Everywhere                           // every worker polls the device
    | Unbound                              // nothing to bind to: no-op

  /**
   * `given` is the caller's worker; `selected` is what the core's load
   * distribution would pick, consulted only for mode 1.
   */
  function BindPlan(mode: int, given: Option<WorkerId>, selected: Option<WorkerId>): (p: Binding)
    ensures p.NoWorker? <==> mode == BIND_SELECTED && selected.None?
    ensures p.Everywhere? <==> mode == BIND_ALL
    ensures p.Unbound? <==> mode != BIND_SELECTED && mode != BIND_ALL && given.None?
    // an explicit worker, even with an unknown mode, binds as mode 2
    ensures p.Owned? ==>
              (mode == BIND_SELECTED && p == Owned(BIND_SELECTED, selected.value))
              || (mode != BIND_SELECTED && mode != BIND_ALL && p == Owned(BIND_GIVEN, given.value))
  {
    if mode == BIND_SELECTED then
      if selected.None? then NoWorker else Owned(BIND_SELECTED, selected.value)
    else if mode == BIND_GIVEN && given.Some? then Owned(BIND_GIVEN, given.value)
    else if mode == BIND_ALL then Everywhere
    else if given.Some? then Owned(BIND_GIVEN, given.value)
    else Unbound
  }

  /**
   * The calls a bind makes: register on the owner and poll there, or publish
   * on the global list and fan out; a failed or empty bind makes none.
   */
  function BindEffects(p: Binding, dev: nat): (fx: seq<Effect>)
    ensures fx == [] <==> p.NoWorker? || p.Unbound?
    ensures forall e :: e in fx <==>
              || (p.Owned? && (e == EpumpAdd(p.worker, dev) || e == PollUpdate(p.worker, dev)))
              || (p.Everywhere? && (e == GlobalAdd(dev) || e == CoreFanOut(dev)))
    // the device is registered before it is polled
    ensures fx != [] ==> |fx| == 2 && (fx[0].EpumpAdd? || fx[0].GlobalAdd?)
  {
    match p
    case Owned(_, w) => [EpumpAdd(w, dev), PollUpdate(w, dev)]
    case Everywhere => [GlobalAdd(dev), CoreFanOut(dev)]
    case _ => []
  }

  /** The `iodev_bind_epump` return code. */
  function BindCode(p: Binding): (rc: int)
    ensures rc == 0 || rc == -100
    ensures rc == -100 <==> p.NoWorker?
  {
    if p.NoWorker? then -100 else 0
  }
}
