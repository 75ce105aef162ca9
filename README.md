# epump device lifecycle, in Dafny

This project models the I/O-device layer of the epump event library
(`src/iodev.c`). An `iodev_t` wraps one descriptor: a listening, connected,
accepted or UDP socket, a timer, or a user command. The layer creates
devices from the core's pool and gives each one a unique id. It registers
them in the core's device table. It binds them to one worker thread (an
*epump*) or to all workers, and changes their read/write interest mask. It
closes them, linger-closes accepted connections, and frees pool memory.

The model has the following parts.

- `kinds.dfy`: descriptors, device kinds, flag constants, and the `Effect`
  datatype. `Effect` names each external call the layer makes: socket
  syscalls, worker and poller calls, timer calls, and the pool recycle.
- `iodev.dfy`: a `Device` class (the `iodev_t` fields) and a `Core` class.
  `Core` holds the id counter `gdevid`, the device table as a map from id to
  device, the device pool, and the global list of all-workers devices.
  `Core.Valid()` is the layer's invariant:
  - each registered device sits under its own id;
  - every id was issued by the counter, which is ahead of all of them;
  - pooled devices are clean, unregistered, and pooled only once.

  Each operation of `src/iodev.c` is a module-level method that takes the
  device (or the core) as an argument, possibly null. The methods that run
  against a core require and keep `Valid()`; `Free` works on a device alone
  and needs no core. Each method states the whole new state. Every one
  except `New` and `NewFromFd` also returns its external calls, in order, as
  an `fx` trace.
- `teardown.dfy`: the call sequences of close, linger-close and free, as
  functions. Lemmas state what each sequence contains and in what order.
- `interest.dfy`: the interest-mask arithmetic, the routing of poll updates,
  and what a whole series of add/remove requests converges to.
- `binding.dfy`: the decision `iodev_bind_epump` takes for each bind mode.
- `ordering.dfy`: the comparators and hash functions the device table and
  worker lists use.
- `accessors.dfy`: the null-guarded field accessors.
- `lifecycle.dfy`: multi-step scenarios:
  - closing twice;
  - linger-closing twice;
  - reusing a closed device;
  - notifying after a bind;
  - the whole life of an accepted connection, from wrapping its descriptor
    to the close when its linger timer fires.

A reader might expect `iodev_new` to reset every field of a device it
takes from the pool. The model follows what the code does:

- `iodev_new` resets the descriptor, kind, addresses, interest, state,
  core, timer and worker. It does not reset the binding mode
  (`bindtype`), so a device reused from the pool keeps the mode it had
  when it was closed (`Lifecycle.ReuseKeepsBinding`).
- `iodev_new` does not reset the `para`/`callback`/`cbpara` pointers either.
  They are still cleared on reuse, because `iodev_close` clears them before
  it recycles the device.
- `iodev_add_notify` computes whether the mask changed but does not use
  the answer: it asks for a poll update even when the mask already held
  the requested bits (`IoDev.AddNotify`). `iodev_del_notify` asks only when
  the mask changed.
- The pointer checks in `iodev_cmp_id` and `iodev_cmp_fd` come after the
  key has been read, so a missing key is not a case the code can handle.
  The comparators take the key as a plain value and keep only the check on
  the device.

## Model

| member | source | states |
|---|---|---|
| IoDev.IdFloor | src/iodev.c:171-172 | the id handed out is at least 100 and at least the counter, and equals the counter once it has reached 100 |
| IoDev.Device.constructor | src/iodev.c:37-59 | a newly allocated device is zero-filled except for the sentinel descriptor `INVALID_SOCKET`, with empty addresses |
| IoDev.Device.Reset | src/iodev.c:171-194 | `iodev_new`'s resets: the new id, sentinel descriptor, unset kind, empty addresses, zero interest, idle state, the core, no timer, no worker; binding mode and caller pointers untouched |
| IoDev.Device.Open | src/iodev.c:309-316 | wrapping a descriptor sets the descriptor, kind, the three caller pointers and the read/write state, and nothing else |
| IoDev.Device.SetMask | src/iodev.c:334-336 | only the interest mask changes, and the core invariant is kept |
| IoDev.Device.Linger | src/iodev.c:287-294 | only the kind and the timer change, and the core invariant is kept |
| IoDev.Device.Attach | src/iodev.c:430-465 | only the binding mode and the owning worker change, and the core invariant is kept |
| IoDev.Device.Scrub | src/iodev.c:221-231 | close's clearing: interest, state, timer, caller pointers and descriptor are cleared, all else kept, and the device is clean |
| IoDev.Core.Fetch | src/iodev.c:164-168 | the last pooled device is taken off the pool, or, when the pool is empty, a fresh one is allocated that is zero-filled (id 0, unset kind, no worker, no core, empty addresses, binding mode 0) except for the sentinel descriptor; either way it is clean and unregistered, and the invariant holds |
| IoDev.Core.Register | src/iodev.c:170-175 | the device is stored under its id, the counter moves past that id, and the invariant is kept |
| IoDev.Core.constructor | src/iodev.c:160 | an empty core whose counter starts at 100 satisfies the invariant |
| IoDev.New | src/iodev.c:156-197 | no core gives no device; otherwise the new id is `IdFloor` of the counter and above every id issued before, the table gains exactly that entry, the pool's last device is reused (keeping its binding mode) or a fresh one allocated, the other pooled devices are left as they were, and every other field is reset |
| IoDev.Close | src/iodev.c:200-257 | no device or no core: nothing; an id already gone from the table: nothing at all; otherwise the id leaves the table, the device is cleared and appended to the pool, the counter is untouched, and the calls are exactly `CloseEffects` |
| IoDev.NewFromFd | src/iodev.c:298-321 | no device exactly when there is no core or the descriptor is the sentinel, with the core untouched for a sentinel; otherwise a newly registered device, taken from the end of the pool (keeping its binding mode) or freshly allocated, with the other pooled devices left as they were, that holds the descriptor, kind and caller pointers, reads, and is in read/write state |
| IoDev.RwflagSet | src/iodev.c:324-339 | -1 for no device; a sentinel descriptor closes the device and returns 0; otherwise the mask is replaced and nothing else changes |
| IoDev.AddNotify | src/iodev.c:342-377 | -1 for no device; a sentinel descriptor closes the device; no flags gives 0 and no core gives -2, each changing nothing; otherwise the mask gains the flags and a poll update is always routed by `PollRoute` |
| IoDev.DelNotify | src/iodev.c:379-416 | as for add, with the flags removed; a poll update is routed only when the mask actually changed |
| IoDev.Bind | src/iodev.c:419-468 | -1 for no device, -2 with no core and no change; otherwise the code, the recorded mode and worker, the global list and the calls follow `BindPlan`; an unbound or failed plan changes nothing; table, pool and counter are untouched |
| IoDev.LingerClose | src/iodev.c:260-296 | a device that is not an accepted connection is fully closed; an accepted device with no core, or one gone from the table, is left untouched; otherwise the kind becomes lingering if the socket is live, the new timer is recorded, the core is unchanged, and the calls are `LingerEffects` |
| IoDev.Free | src/iodev.c:62-100 | the calls are `FreeEffects`; descriptor, interest, kind and state are reset, all else kept |
| Interest.AddMask | src/iodev.c:362 | a bit is set in the new mask exactly when it was set in the old mask or in the request |
| Interest.DelMask | src/iodev.c:399 | a bit is set in the new mask exactly when it was set in the old mask and not in the request |
| Interest.ReplayBit | src/iodev.c:342-416 | after any series of add/remove requests, a bit is set exactly when the last request that names it was an add, or, if none names it, when it was set at the start |
| Interest.PollRoute | src/iodev.c:369-374 | at most one poll update: the core fan-out exactly for an all-workers device, otherwise the owning worker's poll update exactly when there is an owner, and nothing else |
| Interest.RemoveAfterAdd | src/iodev.c:362-403 | removing flags after adding them leaves the same mask as removing them only, and the reverse for adding after removing |
| Binding.BindPlan | src/iodev.c:430-465 | mode 1 fails exactly when no worker can be selected; mode 3 binds to every worker; with any other mode, a given worker binds as mode 2 and no worker is a no-op |
| Binding.BindEffects | src/iodev.c:437-455 | a failed or empty bind makes no call; a worker binding registers the device on that worker and polls there, an all-workers binding publishes it on the global list and fans out, registration first |
| Binding.BindCode | src/iodev.c:432 | the bind code is 0 or -100, and -100 exactly when mode 1 found no worker |
| Teardown.CloseEffects | src/iodev.c:215-256 | whatever else a close does, its last call recycles the device (the full contents and order are stated by the lemmas below) |
| Teardown.Detach | src/iodev.c:215-217 | the device is dropped from its worker's list exactly when it has a worker, and at most once |
| Teardown.StopTimer | src/iodev.c:228-231 | the timer is stopped exactly when the device has one, and at most once |
| Teardown.ReleaseSocket | src/iodev.c:233-253 | a socket release makes calls exactly when the descriptor is live, and then ends by closing it |
| Teardown.ReleaseSocketShape | src/iodev.c:233-253 | a sentinel descriptor releases nothing; a live socket's release ends with its close, preceded only by the poll clear (when the worker has that hook) and, for a connected stream, the abortive linger then the two-way shutdown |
| Teardown.CloseMembers | src/iodev.c:215-256 | the exact set of calls a close makes: worker detach, timer stop, poll clear, abortive linger and shutdown, socket close, each under its condition, and the recycle |
| Teardown.CloseStartsNothing | src/iodev.c:215-256 | a close starts no timer, requests no poll, registers nowhere, shuts down and closes only its own live socket (shutdown only for a connected stream), and stops only its own timer |
| Teardown.CloseOrder | src/iodev.c:215-256 | the worker detach comes first, the recycle last, the socket close just before it, and for a connected stream the linger and shutdown just before the close |
| Teardown.CloseOnce | src/iodev.c:233-256 | a close recycles the device exactly once and closes the socket at most once, only a live one |
| Teardown.LingerEffects | src/iodev.c:279-294 | a linger close never closes the socket, never recycles and never aborts; it shuts down only the write side of a live socket, first; it stops the old timer, if any, just before starting the 2000 ms idle timer as its last call |
| Teardown.FreeEffects | src/iodev.c:71-88 | the socket is closed exactly when the descriptor is not the sentinel and the device is not skipped as pool-recycled memory, which is the case for any non-positive descriptor on a device whose id is 0; a two-way shutdown comes first exactly for connected or accepted streams; nothing else happens |
| Ordering.CmpDevices | src/iodev.c:102-112 | a missing device compares as 1; otherwise devices order by descending descriptor |
| Ordering.CmpFd | src/iodev.c:127-137 | a missing device compares as -1; otherwise the device orders against the key by descending descriptor |
| Ordering.CmpId | src/iodev.c:114-125 | a missing device compares as -1; otherwise the device orders against the key by ascending id |
| Ordering.CmpDevicesAntisymmetric | src/iodev.c:102-112 | swapping two devices negates their comparison |
| Ordering.CmpDevicesTransitive | src/iodev.c:102-112 | the device order is transitive, in both its non-strict and its equal forms |
| Ordering.CmpFdMatchesCmpDevices | src/iodev.c:102-137 | looking a device up by a descriptor orders it exactly as comparing it with a device that holds that descriptor |
| Ordering.CmpIdTotal | src/iodev.c:114-125 | the id comparison is 0 exactly for equal ids, and negates when swapped |
| Ordering.HashFd | src/iodev.c:139-144 | the descriptor hash is the descriptor converted to a 64-bit unsigned value: below 2^64, congruent to the descriptor, and the descriptor itself when it is not negative |
| Ordering.HashId | src/iodev.c:146-151 | the id hash is the id unchanged, so distinct ids never collide |
| Ordering.HashFdInjective | src/iodev.c:139-144 | distinct descriptors never share a hash |
| Ordering.HashFdAgreesWithCmpFd | src/iodev.c:127-144 | the descriptor comparator says equal exactly when the hashes are equal |
| Ordering.HashIdAgreesWithCmpId | src/iodev.c:114-151 | the id comparator says equal exactly when the id hashes are equal |
| Accessors.ParaOf | src/iodev.c:471-478 | the caller pointer: none exactly for a missing device or an unset pointer, the device's own pointer otherwise |
| Accessors.CoreOf | src/iodev.c:480-487 | the core: null exactly for a missing device or one without a core, the device's core otherwise |
| Accessors.EpumpOf | src/iodev.c:489-496 | the owning worker: none exactly for a missing device or an unbound one, the device's worker otherwise |
| Accessors.FdOf | src/iodev.c:498-505 | the descriptor: the sentinel exactly for a missing device or a device without a socket, the device's descriptor otherwise |
| Accessors.FdTypeOf | src/iodev.c:507-514 | the kind: unset (0) exactly for a missing device or an unset kind, the device's kind otherwise |
| Accessors.RwflagOf | src/iodev.c:516-523 | the interest mask: 0 exactly for a missing device or an empty mask, the device's mask otherwise |
| Accessors.RemoteIpOf | src/iodev.c:525-532 | the peer address: "0.0.0.0" for a missing device, the device's peer address otherwise |
| Accessors.RemotePortOf | src/iodev.c:534-541 | the peer port: 0 exactly for a missing device or port 0, the device's peer port otherwise |
| Accessors.LocalIpOf | src/iodev.c:543-550 | the local address: "0.0.0.0" for a missing device, the device's local address otherwise |
| Accessors.LocalPortOf | src/iodev.c:552-559 | the local port: 0 exactly for a missing device or port 0, the device's local port otherwise |
| Accessors.MissingDeviceDefaults | src/iodev.c:471-559 | every accessor answers its default for a missing device: sentinel descriptor, kind and mask 0, no pointer, address "0.0.0.0", port 0 |
| Accessors.WrapAndInspect | src/iodev.c:298-321 | after wrapping a descriptor, the accessors report the given descriptor, kind and caller pointer, the read mask, the core, no worker, and empty addresses with port 0 |
| Lifecycle.CloseTwice | src/iodev.c:200-213 | the final state is exactly the one the first close left (the full teardown for a registered device, no change at all otherwise), so the second close changes nothing, and it makes no call; the id ends out of the table |
| Lifecycle.LingerTwice | src/iodev.c:260-296 | a second linger close of an accepted connection falls through to a full close: it stops the first call's timer, closes the socket without abortive linger or two-way shutdown, and recycles the device last |
| Lifecycle.ReuseKeepsBinding | src/iodev.c:156-197 | a device closed while bound to all workers and reused by `iodev_new` is still marked as bound to all workers, so its interest changes fan out to every worker |
| Lifecycle.ServeConnection | src/iodev.c:298-468 | the life of an accepted connection: wrap, bind to a worker (register then poll there), add and drop write interest (one poll update each), linger-close (write-side shutdown, 2000 ms idle timer), and the close when the timer fires, which stops that timer, closes the socket and leaves the device pooled with no interest |
| Lifecycle.Accept | src/iodev.c:298-321 | wrapping an accepted descriptor and binding it to a given worker leaves a registered, read-interested device owned by that worker, with the register-then-poll calls |
| Lifecycle.WantWrite | src/iodev.c:342-416 | adding write interest and then removing it leaves the device and core as they were, with one poll update to the owner for each step |
| Lifecycle.Retire | src/iodev.c:260-296 | a linger close of a bound accepted connection half-closes it and arms the idle timer; the close that follows unregisters and pools it with its socket closed |
| Lifecycle.BindPollMatchesNotify | src/iodev.c:369-374 | the poll update a successful bind makes is the one a later interest change on the bound device makes |

## Left out

- Critical sections (`fdCS`, `devicetableCS`): every operation is one atomic step, and concurrency is not modelled.
- Socket syscalls, worker and poller calls, timer calls and the pool recycle: each is recorded as an `Effect` in the returned trace. Their own behaviour is not modelled. Only the UNIX branch is modelled; the `_WIN32` shutdown variants are not.
- `epcore_thread_select` and `iotimer_start`: their results are method parameters (`selected`, `started`).
- Whether a worker's poller has an `fdpollclear` hook is a fixed set on the core (`pollClear`).
- `epcore_iodev_del` and `epcore_iodev_find` are modelled as id membership in the table. The table itself (`epm_ht_*`) is a map.
- `epm_pool_fetch` is modelled as taking the most recently pooled device. The real pool's order is not part of this model.
- `iodev_alloc` failure (out of memory) is not modelled: allocation always succeeds.
- IoDev.New: `gdevid` is a process-wide static in C but a field of the one core here. The counter is an unbounded `nat`, so its 64-bit wrap-around is not modelled; the clamp back to 100 is modelled.
- The memory release at the end of `iodev_free` (`epm_free`), the epoll event field `epev`, and the critical-section destruction are not modelled.
- `iodev_print` (src/iodev.c:562-613) is diagnostic output and is left out.
- The close does not remove an all-workers device from the core's global list. The model keeps that list unchanged on close, as the code does.
- The numeric encodings of the device kinds and state (`FDT_*`, `IOS_*`) are defined in `iodev.h`, which is not part of this model. They are modelled as enumerations. `RWF_READ` and `RWF_WRITE` are two distinct single bits.
- Ordering.CmpId, Ordering.CmpFd: a missing key is not modelled, because the code reads the key before its pointer check.
- Pointer-typed fields (`para`, `callback`, `cbpara`) are opaque values. The address strings are plain strings.
