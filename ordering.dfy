/**
 * The comparators and hash functions the core's containers use for devices:
 * the device table is keyed by id, the per-worker lists by descriptor.
 */
module Ordering {
  import opened Kinds
  import opened IoDev

  /** -1, 0 or 1 as `x` is negative, zero or positive. */
  function Sign(x: int): int {
    if x < 0 then -1 else if x == 0 then 0 else 1
  }

  /**
   * `iodev_cmp_iodev`: devices by descending descriptor. A missing device
   * compares as 1.
   */
  function CmpDevices(a: Device?, b: Device?): (r: int)
    reads a, b
    ensures a == null || b == null ==> r == 1
    ensures a != null && b != null ==> r == Sign(b.fd - a.fd)
  {
    if a == null || b == null then 1
    else if a.fd > b.fd then -1
    else if a.fd == b.fd then 0
    else 1
  }

  /**
   * `iodev_cmp_fd`: a device against a descriptor key, in the same
   * descending order. A missing device compares as -1.
   */
  function CmpFd(a: Device?, key: Fd): (r: int)
    reads a
    ensures a == null ==> r == -1
    ensures a != null ==> r == Sign(key - a.fd)
  {
    if a == null then -1
    else if a.fd == key then 0
    else if a.fd > key then -1
    else 1
  }

  /**
   * `iodev_cmp_id`: a device against an id key, in ascending order. A
   * missing device compares as -1.
   */
  function CmpId(a: Device?, key: nat): (r: int)
    reads a
    ensures a == null ==> r == -1
    ensures a != null ==> r == Sign(a.id - key)
  {
    if a == null then -1
    else if a.id == key then 0
    else if a.id > key then 1
    else -1
  }

  /** Swapping two devices negates their comparison. */
  lemma CmpDevicesAntisymmetric(a: Device, b: Device)
    ensures CmpDevices(a, b) == -CmpDevices(b, a)
  {
  }

  /** The device order is transitive. */
  lemma CmpDevicesTransitive(a: Device, b: Device, c: Device)
    ensures CmpDevices(a, b) <= 0 && CmpDevices(b, c) <= 0 ==> CmpDevices(a, c) <= 0
    ensures CmpDevices(a, b) == 0 && CmpDevices(b, c) == 0 ==> CmpDevices(a, c) == 0
  {
  }

  /**
   * Looking a device up by its descriptor orders it exactly as comparing it
   * with a device holding that descriptor.
   */
  lemma CmpFdMatchesCmpDevices(a: Device, b: Device)
    ensures CmpFd(a, b.fd) == CmpDevices(a, b)
  {
  }

  /** The id order is a total order on ids: equal exactly for the same id, and reversed when swapped. */
  lemma CmpIdTotal(a: Device, b: Device)
    ensures CmpId(a, b.id) == 0 <==> a.id == b.id
    ensures CmpId(a, b.id) == -CmpId(b, a.id)
  {
  }

  /**
   * `iodev_hash_fd_func`: the descriptor converted to C's 64-bit unsigned
   * type, so a negative descriptor wraps around.
   */
  function HashFd(fd: Fd): (h: nat)
    ensures h < ULONG_MODULUS
    ensures (h - fd) % ULONG_MODULUS == 0
    ensures fd >= 0 ==> h == fd
  {
    if fd < 0 then fd + ULONG_MODULUS else fd
  }

  /** `iodev_hash_func`: the id itself, so ids never collide. */
  function HashId(id: nat): (h: nat)
    ensures h == id
  {
    id
  }

  /** No two descriptors share a hash, so the descriptor hash never collides. */
  lemma HashFdInjective(x: Fd, y: Fd)
    ensures HashFd(x) == HashFd(y) ==> x == y
  {
  }

  /** Keys the descriptor comparator calls equal hash alike, as a hash table needs. */
  lemma HashFdAgreesWithCmpFd(a: Device, fd: Fd)
    ensures CmpFd(a, fd) == 0 <==> HashFd(a.fd) == HashFd(fd)
  {
    HashFdInjective(a.fd, fd);
  }

  /** Keys the id comparator calls equal hash alike, and only those. */
  lemma HashIdAgreesWithCmpId(a: Device, id: nat)
    ensures CmpId(a, id) == 0 <==> HashId(a.id) == HashId(id)
  {
  }
}
