/** pkg/eBPF/c/bpf/network_bind/bind.bpf.c: the kprobe and kretprobe on
    bind(2). Each reserves one `event_data` record in the ring buffer, fills
    it field by field and submits it. The entry record carries the address
    the caller passed, copied according to its family tag; the exit record
    carries the return code. */
module Bind {
  import opened LittleEndian
  import opened EventTypes

  const AF_UNIX: bv16 := 1
  const AF_INET: bv16 := 2
  const AF_INET6: bv16 := 10

  /** sizeof(struct sockaddr_in), sizeof(struct sockaddr_in6) and
      sizeof(struct sockaddr_un) on Linux. */
  const SockaddrInSize: nat := 16
  const SockaddrIn6Size: nat := 28
  const SockaddrUnSize: nat := 110

  /** The length of `unix_addr.path`. MAX_UNIX_PATH is defined in a header
      that is not part of this model; the record is given room for the
      `sizeof(struct sockaddr_un)` bytes the entry probe copies there. */
  const UnixPathLen: nat := SockaddrUnSize

  // ---------------------------------------------------------------------
  // Byte order

  /** my_ntohs: the __u16 is promoted to int, shifted both ways and or-ed,
      and the int is truncated back to __u16 on return, so the two bytes of
      the port trade places. */
  function MyNtohs(port: bv16): (r: bv16)
    ensures r >> 8 == port & 0xFF
    ensures r & 0xFF == port >> 8
  {
    var wide: bv32 := (port as bv32 >> 8) | (port as bv32 << 8);
    (wide & 0xFFFF) as bv16
  }

  /** Swapping twice gives the port back. */
  lemma MyNtohsInvolution(port: bv16)
    ensures MyNtohs(MyNtohs(port)) == port
  {
  }

  /** A __u16 as it lies in memory on a little-endian machine. */
  function Load16(b: seq<byte>): bv16
    requires |b| == 2
  {
    (b[1] as bv16 << 8) | b[0] as bv16
  }

  /** A 32-bit word as it lies in memory on a little-endian machine. */
  function Load32(b: seq<byte>): bv32
    requires |b| == 4
  {
    (b[3] as bv32 << 24) | (b[2] as bv32 << 16) | (b[1] as bv32 << 8) | b[0] as bv32
  }

  /** The memory bytes of a 32-bit word, lowest address first. */
  function Store32(x: bv32): (b: seq<byte>)
    ensures |b| == 4
  {
    [(x & 0xFF) as byte, ((x >> 8) & 0xFF) as byte,
     ((x >> 16) & 0xFF) as byte, ((x >> 24) & 0xFF) as byte]
  }

  /** The low byte of a loaded __u16 is the byte at the lower address. */
  lemma Load16Bytes(b: seq<byte>)
    requires |b| == 2
    ensures (Load16(b) & 0xFF) as byte == b[0] && (Load16(b) >> 8) as byte == b[1]
  {
  }

  /** Storing a loaded word writes the same bytes back: s_addr is copied
      verbatim. */
  lemma Store32OfLoad32(b: seq<byte>)
    requires |b| == 4
    ensures Store32(Load32(b)) == b
  {
  }

  /** ntohs of the port as loaded from memory is the port read in network
      (big-endian) byte order: its high byte is the byte at the lower
      address. */
  lemma NtohsOfLoaded(b: seq<byte>)
    requires |b| == 2
    ensures (MyNtohs(Load16(b)) >> 8) as byte == b[0]
    ensures (MyNtohs(Load16(b)) & 0xFF) as byte == b[1]
  {
    Load16Bytes(b);
  }

  // ---------------------------------------------------------------------
  // User memory

  /** bpf_probe_read_user(dst, n, ptr): the n bytes at the user pointer.
      User memory is the sequence of bytes readable from the pointer on;
      a read that runs past it faults, and the helper then zero-fills the
      destination. */
  function ProbeReadUser(user: seq<byte>, n: nat): (r: seq<byte>)
    ensures |r| == n
    ensures n <= |user| ==> r == user[..n]
    ensures n > |user| ==> forall i :: 0 <= i < n ==> r[i] == 0
  {
    if n <= |user| then user[..n] else seq(n, _ => 0)
  }

  // ---------------------------------------------------------------------
  // The record

  /** event_context_t as filled by init_context, whose body is not part of
      this model: the probes only pass it through. */
  datatype EventContext = EventContext(bytes: seq<byte>)

  /** The values of an `event_data` record. */
  datatype Record = Record(
    context: EventContext,
    id: int32,
    fd: int32,
    addrlen: int32,
    ret: int32,
    saFamily: bv16,
    port: bv16,
    v4Addr: bv32,
    v6Addr: seq<byte>,
    unixAddr: seq<byte>,
    padding: bv32)

  predicate Sized(r: Record)
  {
    |r.v6Addr| == 16 && |r.unixAddr| == UnixPathLen
  }

  /** struct event_data: a record in ring-buffer memory that the probes
      update in place. */
  class EventData {
    var context: EventContext
    var id: int32
    var fd: int32
    var addrlen: int32
    var ret: int32
    var saFamily: bv16
    var port: bv16
    var v4Addr: bv32
    const v6Addr: array<byte>
    const unixAddr: array<byte>
    var padding: bv32

    predicate Valid()
      reads this
    {
      v6Addr.Length == 16 && unixAddr.Length == UnixPathLen && v6Addr != unixAddr
    }

    function Snapshot(): (r: Record)
      reads this, v6Addr, unixAddr
      ensures Valid() ==> Sized(r)
    {
      Record(context, id, fd, addrlen, ret, saFamily, port, v4Addr,
             v6Addr[..], unixAddr[..], padding)
    }

    /** A slot whose bytes are whatever the ring buffer held there before. */
    constructor (stale: Record)
      requires Sized(stale)
      ensures Valid() && Snapshot() == stale
      ensures fresh(v6Addr) && fresh(unixAddr)
    {
      context, id, fd, addrlen, ret := stale.context, stale.id, stale.fd, stale.addrlen, stale.ret;
      saFamily, port, v4Addr, padding := stale.saFamily, stale.port, stale.v4Addr, stale.padding;
      v6Addr := new byte[16](i => if 0 <= i < 16 then stale.v6Addr[i] else 0);
      unixAddr := new byte[UnixPathLen](i => if 0 <= i < UnixPathLen then stale.unixAddr[i] else 0);
      new;
      assert v6Addr[..] == stale.v6Addr;
      assert unixAddr[..] == stale.unixAddr;
    }
  }

  /** Writes `src` into `dst` one byte at a time: the unrolled 16-byte copy
      of the IPv6 address, and bpf_probe_read_user's write into the path. */
  method CopyBytes(dst: array<byte>, src: seq<byte>)
    requires dst.Length == |src|
    modifies dst
    ensures dst[..] == src
  {
    for i := 0 to dst.Length
      invariant forall j :: 0 <= j < i ==> dst[j] == src[j]
    {
      dst[i] := src[i];
    }
  }

  /** The `event` ring buffer: reservations hand out a slot while room is
      left, and submitting a slot publishes its contents to user space. */
  class RingBuffer {
    var free: nat
    var published: seq<Record>

    constructor (capacity: nat)
      ensures free == capacity && published == []
    {
      free := capacity;
      published := [];
    }

    /** BPF_RINGBUF_RESERVE: NULL when the buffer is full. The slot is not
        cleared; `stale` is what it held. */
    method Reserve(stale: Record) returns (ed: EventData?)
      requires Sized(stale)
      modifies this
      ensures published == old(published)
      ensures old(free) == 0 ==> ed == null && free == 0
      ensures old(free) > 0 ==> && ed != null && fresh(ed) && fresh(ed.v6Addr) && fresh(ed.unixAddr)
                                && ed.Valid() && ed.Snapshot() == stale && free == old(free) - 1
    {
      if free == 0 {
        ed := null;
      } else {
        ed := new EventData(stale);
        free := free - 1;
      }
    }

    /** BPF_RINGBUF_SUBMIT: the record becomes visible to user space. */
    method Submit(ed: EventData)
      requires ed.Valid()
      modifies this
      ensures published == old(published) + [ed.Snapshot()]
      ensures free == old(free)
    {
      published := published + [ed.Snapshot()];
    }
  }

  // ---------------------------------------------------------------------
  // The probes, specified

  /** The record the entry probe submits, given the stale slot, the context,
      the syscall arguments and the user memory at args[1]. */
  function EntryRecord(stale: Record, ctx: EventContext, args: seq<uint64>, user: seq<byte>): Record
    requires |args| >= 3
  {
    var family := Load16(ProbeReadUser(user, 2));
    var base := stale.(id := 0, context := ctx, fd := Int32(args[0]),
                       addrlen := Int32(args[2]), saFamily := family);
    if family == AF_INET then
      var v4 := ProbeReadUser(user, SockaddrInSize);
      base.(v4Addr := Load32(v4[4..8]), port := MyNtohs(Load16(v4[2..4])))
    else if family == AF_INET6 then
      var v6 := ProbeReadUser(user, SockaddrIn6Size);
      base.(v6Addr := v6[8..24], port := MyNtohs(Load16(v6[2..4])))
    else if family == AF_UNIX then
      base.(unixAddr := ProbeReadUser(user, SockaddrUnSize))
    else
      base
  }

  /** The record the exit probe submits. */
  function ExitRecord(stale: Record, ctx: EventContext, rax: uint64): Record
  {
    stale.(id := 1, context := ctx, ret := Int32(rax))
  }

  /** Every entry record is tagged 0 and carries fd = args[0],
      addrlen = args[2] and the first two bytes of the address as its
      family; the return code and padding are never written. */
  lemma EntryRecordHeader(stale: Record, ctx: EventContext, args: seq<uint64>, user: seq<byte>)
    requires |args| >= 3 && |user| >= 2
    ensures var r := EntryRecord(stale, ctx, args, user);
      && r.id == 0 && r.context == ctx
      && r.fd == Int32(args[0]) && r.addrlen == Int32(args[2])
      && (r.saFamily & 0xFF) as byte == user[0] && (r.saFamily >> 8) as byte == user[1]
      && r.ret == stale.ret && r.padding == stale.padding
  {
    Load16Bytes(user[..2]);
  }

  /** AF_INET: the four address bytes are copied verbatim and the port is
      the big-endian reading of bytes 2..4; the other address fields keep
      the slot's old contents. */
  lemma EntryInet(stale: Record, ctx: EventContext, args: seq<uint64>, user: seq<byte>)
    requires |args| >= 3 && |user| >= SockaddrInSize
    requires Load16(user[..2]) == AF_INET
    ensures var r := EntryRecord(stale, ctx, args, user);
      && Store32(r.v4Addr) == user[4..8]
      && (r.port >> 8) as byte == user[2] && (r.port & 0xFF) as byte == user[3]
      && r.v6Addr == stale.v6Addr && r.unixAddr == stale.unixAddr
  {
    var v4 := user[..SockaddrInSize];
    assert v4[4..8] == user[4..8] && v4[2..4] == user[2..4];
    Store32OfLoad32(user[4..8]);
    NtohsOfLoaded(user[2..4]);
  }

  /** AF_INET6: all 16 address bytes (8..24) are copied in order and the
      port is the big-endian reading of bytes 2..4. */
  lemma EntryInet6(stale: Record, ctx: EventContext, args: seq<uint64>, user: seq<byte>)
    requires |args| >= 3 && |user| >= SockaddrIn6Size
    requires Load16(user[..2]) == AF_INET6
    ensures var r := EntryRecord(stale, ctx, args, user);
      && r.v6Addr == user[8..24]
      && (r.port >> 8) as byte == user[2] && (r.port & 0xFF) as byte == user[3]
      && r.v4Addr == stale.v4Addr && r.unixAddr == stale.unixAddr
  {
    var v6 := user[..SockaddrIn6Size];
    assert v6[8..24] == user[8..24] && v6[2..4] == user[2..4];
    NtohsOfLoaded(user[2..4]);
  }

  /** AF_UNIX: the whole sockaddr_un, family tag included, lands in the
      path; the port and the other addresses are not written. */
  lemma EntryUnix(stale: Record, ctx: EventContext, args: seq<uint64>, user: seq<byte>)
    requires |args| >= 3 && |user| >= SockaddrUnSize
    requires Load16(user[..2]) == AF_UNIX
    ensures var r := EntryRecord(stale, ctx, args, user);
      && r.unixAddr == user[..SockaddrUnSize]
      && r.port == stale.port && r.v4Addr == stale.v4Addr && r.v6Addr == stale.v6Addr
  {
  }

  /** Any other family reads nothing past the tag and writes no address. */
  lemma EntryOtherFamily(stale: Record, ctx: EventContext, args: seq<uint64>, user: seq<byte>)
    requires |args| >= 3
    requires var f := Load16(ProbeReadUser(user, 2)); f != AF_INET && f != AF_INET6 && f != AF_UNIX
    ensures var r := EntryRecord(stale, ctx, args, user);
      && r.port == stale.port && r.v4Addr == stale.v4Addr
      && r.v6Addr == stale.v6Addr && r.unixAddr == stale.unixAddr
  {
  }

  /** An AF_INET tag followed by too little readable memory: the faulting
      read zero-fills the copy, so address and port come out 0. */
  lemma EntryInetFault(stale: Record, ctx: EventContext, args: seq<uint64>, user: seq<byte>)
    requires |args| >= 3 && 2 <= |user| < SockaddrInSize
    requires Load16(user[..2]) == AF_INET
    ensures var r := EntryRecord(stale, ctx, args, user);
      r.saFamily == AF_INET && r.v4Addr == 0 && r.port == 0
  {
    var v4 := ProbeReadUser(user, SockaddrInSize);
    assert v4[2] == 0 && v4[3] == 0 && v4[4] == 0 && v4[5] == 0 && v4[6] == 0 && v4[7] == 0;
  }

  /** An entry record always fits the record layout. */
  lemma EntryRecordSized(stale: Record, ctx: EventContext, args: seq<uint64>, user: seq<byte>)
    requires |args| >= 3 && Sized(stale)
    ensures Sized(EntryRecord(stale, ctx, args, user))
  {
  }

  /** The exit record is tagged 1 and carries the return register as an
      int; no address field is written. */
  lemma ExitRecordFields(stale: Record, ctx: EventContext, rax: uint64)
    ensures var r := ExitRecord(stale, ctx, rax);
      && r.id == 1 && r.context == ctx && r.ret == Int32(rax)
      && (-0x8000_0000 <= rax < 0x8000_0000 ==> r.ret == rax)
      && r.fd == stale.fd && r.saFamily == stale.saFamily && r.port == stale.port
  {
  }

  // ---------------------------------------------------------------------
  // The probes

  /** kprobe_bind_entry. `args` are the syscall arguments read from the
      registers and `user` the memory at args[1]. */
  method KprobeBindEntry(rb: RingBuffer, stale: Record, ctx: EventContext,
                         args: seq<uint64>, user: seq<byte>) returns (rc: int)
    requires |args| >= 3 && Sized(stale)
    modifies rb
    ensures old(rb.free) == 0 ==> rc == -1 && rb.published == old(rb.published) && rb.free == 0
    ensures old(rb.free) > 0 ==> && rc == 0 && rb.free == old(rb.free) - 1
                                 && rb.published == old(rb.published) + [EntryRecord(stale, ctx, args, user)]
  {
    var ed := rb.Reserve(stale);
    if ed == null {
      return -1;
    }

    ed.id := 0;
    ed.context := ctx;
    ed.fd := Int32(args[0]);
    ed.addrlen := Int32(args[2]);
    ed.saFamily := Load16(ProbeReadUser(user, 2));

    if ed.saFamily == AF_INET {
      var v4 := ProbeReadUser(user, SockaddrInSize);
      ed.v4Addr := Load32(v4[4..8]);
      ed.port := MyNtohs(Load16(v4[2..4]));
    } else if ed.saFamily == AF_INET6 {
      var v6 := ProbeReadUser(user, SockaddrIn6Size);
      CopyBytes(ed.v6Addr, v6[8..24]);
      ed.port := MyNtohs(Load16(v6[2..4]));
    } else if ed.saFamily == AF_UNIX {
      CopyBytes(ed.unixAddr, ProbeReadUser(user, SockaddrUnSize));
    }

    rb.Submit(ed);
    return 0;
  }

  /** kretprobe_bind_exit. `rax` is the return register. */
  method KretprobeBindExit(rb: RingBuffer, stale: Record, ctx: EventContext, rax: uint64)
    returns (rc: int)
    requires Sized(stale)
    modifies rb
    ensures old(rb.free) == 0 ==> rc == -1 && rb.published == old(rb.published) && rb.free == 0
    ensures old(rb.free) > 0 ==> && rc == 0 && rb.free == old(rb.free) - 1
                                 && rb.published == old(rb.published) + [ExitRecord(stale, ctx, rax)]
  {
    var ed := rb.Reserve(stale);
    if ed == null {
      return -1;
    }

    ed.id := 1;
    ed.context := ctx;
    ed.ret := Int32(rax);

    rb.Submit(ed);
    return 0;
  }
}
