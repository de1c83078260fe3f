/** tarian/c/utils/meta.h: how a kernel program starts an event. It counts
    the trigger, drops self-generated events, reserves and clears a buffer,
    writes the fixed header (event, task and uts metadata) at its start and
    appends the working directory and executable path. The kernel helpers
    are inputs: a `Kernel` value says what each reports for the current
    task, and the statuses of the reservation and clearing helpers are
    parameters. */
module Meta {
  import opened Results
  import opened LittleEndian
  import opened EventTypes
  import opened Filters

  /** The status codes (TDC_SUCCESS, TDCE_*); their numeric values are
      defined in a header that is not part of this model. */
  datatype Status =
    | Success
    | FilterIgnore            // TDCE_FILTER_IGNORE
    | ScratchSpaceAllocation  // TDCE_SCRATCH_SPACE_ALLOCATION
    | NullPointer             // TDCE_NULL_POINTER
    | HelperFailed(code: int) // a code passed on from tdf_reserve_space or flush

  /** The ring-buffer reservation of one event. */
  datatype Slot = Unreserved | Open | Discarded

  /** MAX_TARIAN_PATH: a power of two (its defining header is not part of
      this model; 4096 is the usual PATH_MAX). */
  const MAX_TARIAN_PATH: bv32 := 0x1000

  /** What the kernel helpers report while the probe runs. */
  datatype Kernel = Kernel(
    current: Current,                    // pid_tgid, parent and comm of the current task
    appPid: uint32,                      // get_application_pid()
    task: nat,                           // bpf_get_current_task()
    uidGid: uint64,                      // bpf_get_current_uid_gid()
    ktimeNs: uint64,                     // bpf_ktime_get_ns()
    cpu: uint32,                         // bpf_get_smp_processor_id()
    syscallId: int32,                    // get_syscall_id(regs)
    startTime: uint64,                   // get_task_start_time
    hostPpid: uint32,                    // get_task_ppid
    nsTgid: uint32,                      // get_task_ns_tgid
    nsPid: uint32,                       // get_task_ns_pid
    nsPpid: uint32,                      // get_task_ns_ppid
    cgroupId: uint64,                    // bpf_get_current_cgroup_id()
    mountNsId: uint64,                   // get_mnt_ns_id
    pidNsId: uint64,                     // get_pid_ns_id
    execIdOf: uint32 -> uint64,          // getExecId(host_pid, task)
    parentExecIdOf: uint32 -> uint64,    // getParentExecId(host_ppid, task)
    uts: SystemInfo,                     // the uts namespace's names
    scratch: bool,                       // get__scratch_space() returned a buffer
    cwdLen: bv32,                        // length get__d_path reports for the cwd
    exeLen: bv32)                        // length get__d_path reports for the executable

  /** The two paths init_cwd_and_exe appends. */
  datatype PathKind = Cwd | Exe

  /** One write_str request: which path, and the length passed. */
  datatype StrWrite = StrWrite(path: PathKind, len: bv32)

  // ---------------------------------------------------------------------
  // Specification functions

  /** `len & (MAX_TARIAN_PATH - 1)` on a uint32_t. */
  function MaskLen(len: bv32): bv32
  {
    len & (MAX_TARIAN_PATH - 1)
  }

  /** The mask keeps the length modulo the bound, so it always lies below
      the bound, and a length already below it is kept as is (it wraps
      rather than saturating). The bound is written out as 0x1000. */
  lemma MaskLenIsMod(len: bv32)
    ensures MaskLen(len) == len % 0x1000
    ensures MaskLen(len) < 0x1000
    ensures len < 0x1000 ==> MaskLen(len) == len
  {
  }

  /** The task block init_task_meta_data_t writes. */
  function TaskOf(k: Kernel): TaskInfo
  {
    var hostPid := Upper32(k.current.pidTgid);
    TaskInfo(
      k.startTime,
      hostPid, Lower32(k.current.pidTgid), k.hostPpid,
      k.nsTgid, k.nsPid, k.nsPpid,
      Lower32(k.uidGid), Upper32(k.uidGid),
      k.cgroupId, k.mountNsId, k.pidNsId,
      k.execIdOf(hostPid), k.parentExecIdOf(k.hostPpid),
      k.current.comm)
  }

  /** The event block init_event_meta_data_t writes. */
  function MetaOf(event: int32, k: Kernel): EventMeta
  {
    EventMeta(event, 0, k.syscallId, k.ktimeNs, k.cpu % 0x1_0000, TaskOf(k))
  }

  /** The header a successful initialisation leaves at the start of the
      buffer. */
  function HeaderOf(event: int32, k: Kernel): TarianMetaData
  {
    TarianMetaData(MetaOf(event, k), k.uts)
  }

  /** The task block splits the two combined helper words without losing
      anything: host pid and tgid are the upper and lower halves of
      pid_tgid, uid and gid the lower and upper halves of uid_gid. The
      namespaced pid takes the namespace tgid and the tgid the namespace
      pid, and the exec ids are computed from the host pid and ppid. */
  lemma TaskOfFields(k: Kernel)
    ensures var t := TaskOf(k);
      && Join32(t.hostPid, t.hostTgid) == k.current.pidTgid
      && Join32(t.gid, t.uid) == k.uidGid
      && t.pid == k.nsTgid && t.tgid == k.nsPid && t.ppid == k.nsPpid
      && t.execId == k.execIdOf(t.hostPid) && t.parentExecId == k.parentExecIdOf(t.hostPpid)
      && t.comm == k.current.comm
  {
    JoinOfSplit(k.current.pidTgid);
    JoinOfSplit(k.uidGid);
  }

  /** A fresh header announces no parameters yet, and its processor is the
      cpu number truncated to 16 bits. */
  lemma HeaderOfFields(event: int32, k: Kernel)
    ensures var h := HeaderOf(event, k);
      && h.Event() == event && h.Nparams() == 0 && h.Syscall() == k.syscallId
      && h.Ts() == k.ktimeNs && h.systemInfo == k.uts
      && (k.cpu < 0x1_0000 ==> h.Processor() == k.cpu)
  {
  }

  /** The header the kernel writes is the one the user-space decoder reads
      back, whatever follows it in the record. */
  lemma HeaderOfDecodes(event: int32, k: Kernel, rest: seq<byte>)
    ensures DecodeHeader(EncodeHeader(HeaderOf(event, k)) + rest) == Ok(HeaderOf(event, k))
    ensures DecodeHeader(EncodeHeader(HeaderOf(event, k)) + rest).value.Nparams() == 0
  {
    HeaderRoundTrip(HeaderOf(event, k), rest);
  }

  /** new_event as written: the status it returns and the state it leaves
      the reservation in. The header initialisation cannot fail here (its
      only failure is a NULL system-info pointer, and the header lies in a
      reserved buffer), so a missing scratch space is the one failure after
      a successful flush; it returns without discarding. */
  function NewEventOutcome(k: Kernel, slot0: Slot, reserved: Status, flushed: Status): (Status, Slot)
  {
    if !CanProceed(k.appPid, k.current) then (FilterIgnore, slot0)
    else if reserved != Success then (reserved, slot0)
    else if flushed != Success then (flushed, Discarded)
    else if !k.scratch then (ScratchSpaceAllocation, Open)
    else (Success, Open)
  }

  /** new_event as evidently intended: every failure after the reservation
      discards it. */
  function CorrectedNewEventOutcome(k: Kernel, slot0: Slot, reserved: Status, flushed: Status): (Status, Slot)
  {
    if !CanProceed(k.appPid, k.current) then (FilterIgnore, slot0)
    else if reserved != Success then (reserved, slot0)
    else if flushed != Success then (flushed, Discarded)
    else if !k.scratch then (ScratchSpaceAllocation, Discarded)
    else (Success, Open)
  }

  /** The correction changes only the outcome of the missing scratch
      space. */
  lemma CorrectedDiffersOnlyOnScratch(k: Kernel, slot0: Slot, reserved: Status, flushed: Status)
    ensures CorrectedNewEventOutcome(k, slot0, reserved, flushed) != NewEventOutcome(k, slot0, reserved, flushed)
        <==> CanProceed(k.appPid, k.current) && reserved == Success && flushed == Success && !k.scratch
  {
  }

  /** new_event succeeds exactly when the event passes the filter and every
      step succeeds; it then leaves the reservation open for the caller. */
  lemma NewEventSuccessIff(k: Kernel, slot0: Slot, reserved: Status, flushed: Status)
    ensures var (s, slot) := NewEventOutcome(k, slot0, reserved, flushed);
      && (s == Success <==> CanProceed(k.appPid, k.current) && reserved == Success && flushed == Success && k.scratch)
      && (s == Success ==> slot == Open)
  {
  }

  /** A filtered event is dropped before anything is reserved. */
  lemma NewEventFiltered(k: Kernel, slot0: Slot, reserved: Status, flushed: Status)
    requires k.appPid != NoApplicationPid && Upper32(k.current.pidTgid) == k.appPid
    ensures NewEventOutcome(k, slot0, reserved, flushed) == (FilterIgnore, slot0)
  {
    CanProceedIff(k.appPid, k.current);
  }

  /** As written, a missing scratch space returns a failure while the
      reservation stays open: it is neither submitted by the caller, which
      sees a failure, nor discarded. */
  lemma NewEventLeavesReservationOpen(k: Kernel)
    requires k.appPid == NoApplicationPid && !k.scratch
    ensures NewEventOutcome(k, Unreserved, Success, Success) == (ScratchSpaceAllocation, Open)
  {
  }

  /** With the correction, a failure never leaves a reservation open that
      new_event made, and success always does. */
  lemma CorrectedNewEventNeverLeaks(k: Kernel, reserved: Status, flushed: Status)
    ensures var (s, slot) := CorrectedNewEventOutcome(k, Unreserved, reserved, flushed);
      (s == Success <==> slot == Open)
  {
  }

  // ---------------------------------------------------------------------
  // The event under construction

  /** node_meta_data_t: the system-info part of the header. */
  class NodeInfo {
    var info: SystemInfo

    constructor (stale: SystemInfo)
      ensures info == stale
    {
      info := stale;
    }
  }

  /** stats__add_trigger's counter. */
  class Stats {
    var triggers: nat

    constructor ()
      ensures triggers == 0
    {
      triggers := 0;
    }

    method AddTrigger()
      modifies this
      ensures triggers == old(triggers) + 1
    {
      triggers := triggers + 1;
    }
  }

  /** tarian_event_t: the state one kernel program builds an event in.
      `meta` and `node` are the header at the start of the buffer;
      `strWrites` are the write_str requests made after it. */
  class TarianEventT {
    var allocationMode: int
    var ctx: nat
    var task: nat
    var slot: Slot
    var bufPos: nat
    var meta: EventMeta
    const node: NodeInfo
    var strWrites: seq<StrWrite>

    function Header(): TarianMetaData
      reads this, node
    {
      TarianMetaData(meta, node.info)
    }

    constructor (staleMeta: EventMeta, staleInfo: SystemInfo)
      ensures slot == Unreserved && strWrites == [] && Header() == TarianMetaData(staleMeta, staleInfo)
      ensures fresh(node)
    {
      allocationMode, ctx, task, slot, bufPos := 0, 0, 0, Unreserved, 0;
      meta := staleMeta;
      node := new NodeInfo(staleInfo);
      strWrites := [];
    }

    /** init_task_meta_data_t: fills the task block field by field. */
    method InitTaskMetaData(k: Kernel) returns (s: Status)
      modifies this
      ensures s == Success
      ensures meta == old(meta).(task := TaskOf(k))
      ensures allocationMode == old(allocationMode) && ctx == old(ctx) && task == old(task)
      ensures slot == old(slot) && bufPos == old(bufPos) && strWrites == old(strWrites)
    {
      var tm := meta.task;
      tm := tm.(startTime := k.startTime);
      var ptid := k.current.pidTgid;
      tm := tm.(hostTgid := Lower32(ptid));
      tm := tm.(hostPid := Upper32(ptid));
      tm := tm.(hostPpid := k.hostPpid);
      tm := tm.(pid := k.nsTgid);
      tm := tm.(tgid := k.nsPid);
      tm := tm.(ppid := k.nsPpid);
      var guid := k.uidGid;
      tm := tm.(uid := Lower32(guid));
      tm := tm.(gid := Upper32(guid));
      tm := tm.(cgroupId := k.cgroupId);
      tm := tm.(mountNsId := k.mountNsId);
      tm := tm.(pidNsId := k.pidNsId);
      tm := tm.(execId := k.execIdOf(tm.hostPid));
      tm := tm.(parentExecId := k.parentExecIdOf(tm.hostPpid));
      tm := tm.(comm := k.current.comm);
      meta := meta.(task := tm);
      return Success;
    }

    /** init_event_meta_data_t: timestamp, event, no parameters yet,
      syscall id and processor, then the task block. */
    method InitEventMetaData(event: int32, k: Kernel) returns (s: Status)
      modifies this
      ensures s == Success && meta == MetaOf(event, k)
      ensures allocationMode == old(allocationMode) && ctx == old(ctx) && task == old(task)
      ensures slot == old(slot) && bufPos == old(bufPos) && strWrites == old(strWrites)
    {
      meta := meta.(ts := k.ktimeNs);
      meta := meta.(event := event);
      meta := meta.(nparams := 0);
      meta := meta.(syscall := k.syscallId);
      meta := meta.(processor := k.cpu % 0x1_0000);
      s := InitTaskMetaData(k);
    }

    /** init_tarian_meta_data_t: the header goes at the start of the buffer
      and the write position moves past it. */
    method InitTarianMetaData(event: int32, k: Kernel) returns (s: Status)
      modifies this, node
      ensures s == Success && Header() == HeaderOf(event, k) && bufPos == HeaderSize
      ensures allocationMode == old(allocationMode) && ctx == old(ctx) && task == old(task)
      ensures slot == old(slot) && strWrites == old(strWrites)
    {
      bufPos := HeaderSize;
      s := InitEventMetaData(event, k);
      if s != Success {
        return;
      }
      s := ReadNodeInfoInto(node, k.uts);
    }

    /** init_cwd_and_exe: without scratch space nothing is written;
      otherwise the cwd and the executable are requested with their
      lengths masked to the path bound. */
    method InitCwdAndExe(k: Kernel) returns (s: Status)
      modifies this
      ensures !k.scratch ==> s == ScratchSpaceAllocation && strWrites == old(strWrites)
      ensures k.scratch ==> && s == Success
                            && strWrites == old(strWrites) + [StrWrite(Cwd, MaskLen(k.cwdLen)), StrWrite(Exe, MaskLen(k.exeLen))]
      ensures meta == old(meta) && allocationMode == old(allocationMode) && ctx == old(ctx)
      ensures task == old(task) && slot == old(slot) && bufPos == old(bufPos)
    {
      if !k.scratch {
        return ScratchSpaceAllocation;
      }
      strWrites := strWrites + [StrWrite(Cwd, MaskLen(k.cwdLen))];
      strWrites := strWrites + [StrWrite(Exe, MaskLen(k.exeLen))];
      return Success;
    }

    /** new_event as written. `reserved` and `flushed` are what
      tdf_reserve_space and flush return. */
    method NewEvent(ctx0: nat, event: int32, k: Kernel, reserved: Status, flushed: Status, stats: Stats)
      returns (s: Status)
      modifies this, node, stats
      ensures stats.triggers == old(stats.triggers) + 1
      ensures (s, slot) == NewEventOutcome(k, old(slot), reserved, flushed)
      ensures !CanProceed(k.appPid, k.current) ==>
        && Header() == old(Header()) && bufPos == old(bufPos) && strWrites == old(strWrites)
        && allocationMode == old(allocationMode) && ctx == old(ctx) && task == old(task)
      ensures CanProceed(k.appPid, k.current) ==> allocationMode == 0 && ctx == ctx0 && task == k.task
      ensures (CanProceed(k.appPid, k.current) && (reserved != Success || flushed != Success)) ==>
        Header() == old(Header()) && bufPos == old(bufPos) && strWrites == old(strWrites)
      ensures (CanProceed(k.appPid, k.current) && reserved == Success && flushed == Success) ==>
        Header() == HeaderOf(event, k) && bufPos == HeaderSize
      ensures (CanProceed(k.appPid, k.current) && reserved == Success && flushed == Success && !k.scratch) ==>
        strWrites == old(strWrites)
      ensures s == Success ==>
        strWrites == old(strWrites) + [StrWrite(Cwd, MaskLen(k.cwdLen)), StrWrite(Exe, MaskLen(k.exeLen))]
    {
      stats.AddTrigger();

      if !CanProceed(k.appPid, k.current) {
        return FilterIgnore;
      }

      allocationMode := 0;
      ctx := ctx0;
      task := k.task;

      var resp := TdfReserveSpace(reserved);
      if resp != Success {
        return resp;
      }

      resp := flushed;
      if resp != Success {
        slot := Discarded;
        return resp;
      }

      resp := InitTarianMetaData(event, k);
      if resp != Success {
        return resp;
      }

      resp := InitCwdAndExe(k);
      if resp != Success {
        return resp;
      }

      return Success;
    }

    /** new_event with the discard the failures after flushing evidently
      need. */
    method CorrectedNewEvent(ctx0: nat, event: int32, k: Kernel, reserved: Status, flushed: Status, stats: Stats)
      returns (s: Status)
      modifies this, node, stats
      ensures stats.triggers == old(stats.triggers) + 1
      ensures (s, slot) == CorrectedNewEventOutcome(k, old(slot), reserved, flushed)
      ensures !CanProceed(k.appPid, k.current) ==>
        && Header() == old(Header()) && bufPos == old(bufPos) && strWrites == old(strWrites)
        && allocationMode == old(allocationMode) && ctx == old(ctx) && task == old(task)
      ensures CanProceed(k.appPid, k.current) ==> allocationMode == 0 && ctx == ctx0 && task == k.task
      ensures (CanProceed(k.appPid, k.current) && (reserved != Success || flushed != Success)) ==>
        Header() == old(Header()) && bufPos == old(bufPos) && strWrites == old(strWrites)
      ensures (CanProceed(k.appPid, k.current) && reserved == Success && flushed == Success) ==>
        Header() == HeaderOf(event, k) && bufPos == HeaderSize
      ensures (CanProceed(k.appPid, k.current) && reserved == Success && flushed == Success && !k.scratch) ==>
        strWrites == old(strWrites)
      ensures s == Success ==>
        strWrites == old(strWrites) + [StrWrite(Cwd, MaskLen(k.cwdLen)), StrWrite(Exe, MaskLen(k.exeLen))]
    {
      stats.AddTrigger();

      if !CanProceed(k.appPid, k.current) {
        return FilterIgnore;
      }

      allocationMode := 0;
      ctx := ctx0;
      task := k.task;

      var resp := TdfReserveSpace(reserved);
      if resp != Success {
        return resp;
      }

      resp := flushed;
      if resp != Success {
        slot := Discarded;
        return resp;
      }

      resp := InitTarianMetaData(event, k);
      if resp == Success {
        resp := InitCwdAndExe(k);
      }
      if resp != Success {
        slot := Discarded;
        return resp;
      }

      return Success;
    }

    /** tdf_reserve_space, whose body is not part of this model: `status`
      is its result, and on success the buffer is reserved. */
    method TdfReserveSpace(status: Status) returns (s: Status)
      modifies this
      ensures s == status
      ensures slot == (if status == Success then Open else old(slot))
      ensures meta == old(meta) && strWrites == old(strWrites) && bufPos == old(bufPos)
      ensures allocationMode == old(allocationMode) && ctx == old(ctx) && task == old(task)
    {
      if status == Success {
        slot := Open;
      }
      return status;
    }
  }

  /** read_node_info_into: NULL is refused; otherwise the uts names are
      copied in. */
  method ReadNodeInfoInto(nm: NodeInfo?, uts: SystemInfo) returns (s: Status)
    modifies nm
    ensures nm == null ==> s == NullPointer
    ensures nm != null ==> s == Success && nm.info == uts
  {
    if nm == null {
      return NullPointer;
    }
    nm.info := uts;
    return Success;
  }
}
