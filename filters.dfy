/** tarian/c/utils/filters.h: the kernel-side filter that drops the events
    the detector's own user-space process causes, and the comparisons it is
    built from. The current task is given as a value: what the
    bpf_get_current_* helpers would report for it. */
module Filters {
  import opened LittleEndian
  import opened EventTypes

  const TASK_COMM_LEN: nat := 16

  /** The value get_application_pid() yields when no pid is configured:
      -1 as a uint32_t. */
  const NoApplicationPid: uint32 := 0xFFFF_FFFF

  const Two32: nat := 0x1_0000_0000

  /** What the kernel helpers report about the current task. */
  datatype Current = Current(
    pidTgid: uint64,   // bpf_get_current_pid_tgid(): tgid in the upper half, pid in the lower
    parentPid: int32,  // task->parent->pid
    comm: Chars16)     // bpf_get_current_comm()

  // ---------------------------------------------------------------------
  // Halves of a 64-bit helper result

  /** `x >> 32` on a u64. */
  function Upper32(x: uint64): (r: uint32)
    ensures r * Two32 <= x < (r + 1) * Two32
  {
    x / Two32
  }

  /** Assigning a u64 to a u32: the lower 32 bits. */
  function Lower32(x: uint64): (r: uint32)
    ensures Upper32(x) * Two32 + r == x
  {
    x % Two32
  }

  /** The u64 whose upper half is `hi` and lower half `lo`. */
  function Join32(hi: uint32, lo: uint32): (r: uint64)
    ensures r % Two32 == lo
  {
    hi * Two32 + lo
  }

  /** The two halves determine the word: splitting loses nothing. */
  lemma JoinOfSplit(x: uint64)
    ensures Join32(Upper32(x), Lower32(x)) == x
  {
  }

  /** Splitting a joined word gives its halves back. */
  lemma SplitOfJoin(hi: uint32, lo: uint32)
    ensures Upper32(Join32(hi, lo)) == hi && Lower32(Join32(hi, lo)) == lo
  {
    var x := Join32(hi, lo);
    assert x == hi * Two32 + lo;
  }

  // ---------------------------------------------------------------------
  // The comparisons

  /** has_same_pid: the upper half of pid_tgid (the process id) is `pid`. */
  function HasSamePid(cur: Current, pid: uint32): (r: bool)
    ensures r <==> exists lo: uint32 :: cur.pidTgid == Join32(pid, lo)
  {
    var result := Upper32(cur.pidTgid) == pid;
    if result then
      JoinOfSplit(cur.pidTgid);
      result
    else
      forall lo: uint32 ensures cur.pidTgid != Join32(pid, lo) {
        SplitOfJoin(pid, lo);
      }
      result
  }

  /** The pid_t of the parent as a uint32_t. */
  function ParentPidBits(cur: Current): uint32
  {
    if cur.parentPid < 0 then cur.parentPid + Two32 else cur.parentPid
  }

  /** has_same_ppid: the parent's pid, converted to uint32_t (taken modulo
      2^32), is `ppid`. */
  function HasSamePpid(cur: Current, ppid: uint32): (r: bool)
    ensures r <==> cur.parentPid % Two32 == ppid
  {
    ParentPidBits(cur) == ppid
  }

  /** For a parent pid that is not negative the conversion is the
      identity, so the comparison is plain equality. */
  lemma HasSamePpidIff(cur: Current, ppid: uint32)
    requires cur.parentPid >= 0
    ensures HasSamePpid(cur, ppid) <==> cur.parentPid == ppid
  {
  }

  /** Two parents with different pids are never both matched. */
  lemma HasSamePpidInjective(a: Current, b: Current, ppid: uint32)
    requires HasSamePpid(a, ppid) && HasSamePpid(b, ppid)
    ensures a.parentPid == b.parentPid
  {
  }

  /** is_self_generated: never when no application pid is configured,
      otherwise exactly when the current process is the application. */
  function IsSelfGenerated(appPid: uint32, cur: Current): (r: bool)
    ensures appPid == NoApplicationPid ==> !r
    ensures appPid != NoApplicationPid ==> (r <==> Upper32(cur.pidTgid) == appPid)
  {
    if appPid == NoApplicationPid then false else HasSamePid(cur, appPid)
  }

  /** can_proceed: the event is kept unless it is self-generated. */
  function CanProceed(appPid: uint32, cur: Current): bool
  {
    !IsSelfGenerated(appPid, cur)
  }

  /** An event is dropped exactly when a pid is configured and the current
      process id equals it. */
  lemma CanProceedIff(appPid: uint32, cur: Current)
    ensures !CanProceed(appPid, cur) <==> appPid != NoApplicationPid && Upper32(cur.pidTgid) == appPid
  {
  }

  /** The thread id (lower half) plays no part in the decision. */
  lemma CanProceedIgnoresThread(appPid: uint32, a: Current, b: Current)
    requires Upper32(a.pidTgid) == Upper32(b.pidTgid)
    ensures CanProceed(appPid, a) == CanProceed(appPid, b)
  {
  }

  /** How many bytes has_same_comm compares: `len` when it lies in
      0..TASK_COMM_LEN, otherwise the whole buffer (the loop never meets
      `i == len`). */
  function CommBound(len: int32): (n: nat)
    ensures n <= TASK_COMM_LEN
  {
    if 0 <= len <= TASK_COMM_LEN then len else TASK_COMM_LEN
  }

  /** has_same_comm: true exactly when the first CommBound(len) bytes of
      the current task's name match `comm`. */
  method HasSameComm(cur: Current, comm: seq<byte>, len: int32) returns (r: bool)
    requires |comm| >= CommBound(len)
    ensures r <==> cur.comm[..CommBound(len)] == comm[..CommBound(len)]
  {
    var buf := cur.comm;
    var i := 0;
    while i < TASK_COMM_LEN
      invariant 0 <= i <= CommBound(len)
      invariant buf[..i] == comm[..i]
    {
      if i == len {
        break;
      }
      if buf[i] != comm[i] {
        assert buf[..CommBound(len)][i] != comm[..CommBound(len)][i];
        return false;
      }
      assert buf[..i + 1] == buf[..i] + [buf[i]];
      assert comm[..i + 1] == comm[..i] + [comm[i]];
      i := i + 1;
    }
    return true;
  }
}
