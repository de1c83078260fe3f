/** pkg/eventparser/types.go: the decoded argument, the fixed-layout header
    that starts every record the kernel emits, its accessors, and the
    names of the parameter-type and event enumerations. */
module EventTypes {
  import opened Results
  import opened LittleEndian
  import opened External

  type int32 = x: int | -0x8000_0000 <= x < 0x8000_0000
  type uint8 = x: int | 0 <= x < 0x100
  type uint16 = x: int | 0 <= x < 0x1_0000
  type uint32 = x: int | 0 <= x < 0x1_0000_0000
  type uint64 = x: int | 0 <= x < 0x1_0000_0000_0000_0000

  /** Go's int32(x) and C's (int)x: the value taken modulo 2^32 into the signed range. */
  function Int32(x: int): (r: int32)
    ensures -0x8000_0000 <= x < 0x8000_0000 ==> r == x
    ensures (r - x) % 0x1_0000_0000 == 0
  {
    (x + 0x8000_0000) % 0x1_0000_0000 - 0x8000_0000
  }

  type Chars16 = s: seq<byte> | |s| == 16 witness seq(16, _ => 0)
  type Chars65 = s: seq<byte> | |s| == 65 witness seq(65, _ => 0)

  /** One decoded syscall argument. */
  datatype Arg = Arg(name: string, value: string, tarianType: string, linuxType: string)

  /** The host's uts names as the record reports them. */
  datatype HostDetails = HostDetails(
    sysname: string, hostname: string, release: string,
    kernelVersion: string, machine: string, domainname: string)

  /** A decoded event record. The Kubernetes block is filled only when a pod
      watcher is given, which this model leaves out. */
  datatype TarianDetectorEvent = TarianDetectorEvent(
    eventId: string,
    syscallId: int32,
    timestamp: uint64,
    processorId: uint16,
    threadStartTime: uint64,
    hostProcessId: uint32, hostThreadId: uint32, hostParentProcessId: uint32,
    processId: uint32, threadId: uint32, parentProcessId: uint32,
    userId: uint32, groupId: uint32,
    cgroupId: uint64, mountNamespaceId: uint64, pidNamespaceId: uint64,
    execId: uint64, parentExecId: uint64,
    processName: string,
    directory: string,
    executable: string,
    hostDetails: HostDetails,
    context: seq<Arg>)

  // ---------------------------------------------------------------------
  // The header (TarianMetaData)

  datatype TaskInfo = TaskInfo(
    startTime: uint64,
    hostPid: uint32, hostTgid: uint32, hostPpid: uint32,
    pid: uint32, tgid: uint32, ppid: uint32,
    uid: uint32, gid: uint32,
    cgroupId: uint64, mountNsId: uint64, pidNsId: uint64,
    execId: uint64, parentExecId: uint64,
    comm: Chars16)

  datatype EventMeta = EventMeta(
    event: int32, nparams: uint8, syscall: int32, ts: uint64, processor: uint16,
    task: TaskInfo)

  datatype SystemInfo = SystemInfo(
    sysname: Chars65, nodename: Chars65, release: Chars65,
    version: Chars65, machine: Chars65, domainname: Chars65)

  datatype TarianMetaData = TarianMetaData(metaData: EventMeta, systemInfo: SystemInfo)
  {
    function Event(): int32 { metaData.event }
    function Nparams(): uint8 { metaData.nparams }
    function Syscall(): int32 { metaData.syscall }
    function Ts(): uint64 { metaData.ts }
    function Processor(): uint16 { metaData.processor }
    function StartTime(): uint64 { metaData.task.startTime }
    function HostPid(): uint32 { metaData.task.hostPid }
    function HostTgid(): uint32 { metaData.task.hostTgid }
    function HostPpid(): uint32 { metaData.task.hostPpid }
    function Pid(): uint32 { metaData.task.pid }
    function Tgid(): uint32 { metaData.task.tgid }
    function Ppid(): uint32 { metaData.task.ppid }
    function Uid(): uint32 { metaData.task.uid }
    function Gid(): uint32 { metaData.task.gid }
    function CgroupId(): uint64 { metaData.task.cgroupId }
    function MountNsId(): uint64 { metaData.task.mountNsId }
    function PidNsId(): uint64 { metaData.task.pidNsId }
    function ExecId(): uint64 { metaData.task.execId }
    function ParentExecId(): uint64 { metaData.task.parentExecId }

    // The text accessors hand the whole fixed array to utils.ToString.
    function Comm(u: Helpers): string { u.toString(metaData.task.comm, 0, 16) }
    function Sysname(u: Helpers): string { u.toString(systemInfo.sysname, 0, 65) }
    function Nodename(u: Helpers): string { u.toString(systemInfo.nodename, 0, 65) }
    function Release(u: Helpers): string { u.toString(systemInfo.release, 0, 65) }
    function Version(u: Helpers): string { u.toString(systemInfo.version, 0, 65) }
    function Machine(u: Helpers): string { u.toString(systemInfo.machine, 0, 65) }
    function Domainname(u: Helpers): string { u.toString(systemInfo.domainname, 0, 65) }

    /** The header with its syscall id replaced. In Go this updates the
        struct through a pointer; the struct is a value, so the model
        returns the updated value. */
    function SetSyscall(id: int32): TarianMetaData
    {
      this.(metaData := metaData.(syscall := id))
    }
  }

  /** SetSyscall changes the syscall id and nothing else. */
  lemma SetSyscallChangesOnlySyscall(t: TarianMetaData, id: int32, u: Helpers)
    ensures t.SetSyscall(id).Syscall() == id
    ensures var s := t.SetSyscall(id);
      && s.Event() == t.Event() && s.Nparams() == t.Nparams() && s.Ts() == t.Ts()
      && s.Processor() == t.Processor() && s.StartTime() == t.StartTime()
      && s.HostPid() == t.HostPid() && s.HostTgid() == t.HostTgid() && s.HostPpid() == t.HostPpid()
      && s.Pid() == t.Pid() && s.Tgid() == t.Tgid() && s.Ppid() == t.Ppid()
      && s.Uid() == t.Uid() && s.Gid() == t.Gid() && s.CgroupId() == t.CgroupId()
      && s.MountNsId() == t.MountNsId() && s.PidNsId() == t.PidNsId()
      && s.ExecId() == t.ExecId() && s.ParentExecId() == t.ParentExecId()
      && s.Comm(u) == t.Comm(u) && s.Sysname(u) == t.Sysname(u) && s.Nodename(u) == t.Nodename(u)
      && s.Release(u) == t.Release(u) && s.Version(u) == t.Version(u)
      && s.Machine(u) == t.Machine(u) && s.Domainname(u) == t.Domainname(u)
  {
  }

  // ---------------------------------------------------------------------
  // The binary layout read by binary.Read (little-endian, packed)

  datatype FieldKind = Unsigned(w: nat) | Signed(w: nat) | Chars(n: nat)
  datatype FieldValue = Num(i: int) | Raw(b: seq<byte>)

  function Width(k: FieldKind): nat
  {
    match k
    case Unsigned(w) => w
    case Signed(w) => w
    case Chars(n) => n
  }

  function Size(layout: seq<FieldKind>): nat
  {
    if layout == [] then 0 else Width(layout[0]) + Size(layout[1..])
  }

  /** The declared fields of TarianMetaData in order, in three blocks: the
      event fields (event, nparams, syscall, ts, processor), the task block
      (start time, eight 32-bit ids, five 64-bit ids, the 16-byte command)
      and the six 65-byte uts strings. */
  const MetaLayout: seq<FieldKind> :=
    [Signed(4), Unsigned(1), Signed(4), Unsigned(8), Unsigned(2)]
  const TaskLayout: seq<FieldKind> := TaskHostIds + TaskIds + TaskNamespaces
  // start time and the host pid, tgid and ppid
  const TaskHostIds: seq<FieldKind> := [Unsigned(8), Unsigned(4), Unsigned(4), Unsigned(4)]
  // pid, tgid, ppid, uid and gid
  const TaskIds: seq<FieldKind> := [Unsigned(4), Unsigned(4), Unsigned(4), Unsigned(4), Unsigned(4)]
  // cgroup, mount and pid namespace ids, exec ids, the command
  const TaskNamespaces: seq<FieldKind> :=
    [Unsigned(8), Unsigned(8), Unsigned(8), Unsigned(8), Unsigned(8), Chars(16)]
  const SystemLayout: seq<FieldKind> :=
    [Chars(65), Chars(65), Chars(65), Chars(65), Chars(65), Chars(65)]

  /** binary.Size of the header: the sum of the declared field widths. */
  const HeaderSize: nat := 505
  const TaskOffset: nat := 19
  const SystemOffset: nat := 115

  lemma LayoutsWellFormed()
    ensures WellFormed(MetaLayout) && WellFormed(TaskLayout) && WellFormed(SystemLayout)
  {
    forall i | 0 <= i < |MetaLayout| && MetaLayout[i].Signed? ensures MetaLayout[i].w > 0 {
    }
  }

  lemma MetaLayoutSize()
    ensures Size(MetaLayout) == TaskOffset
  {
    assert Size(MetaLayout[4..]) == 2;
    assert Size(MetaLayout[3..]) == 10;
    assert Size(MetaLayout[2..]) == 14;
    assert Size(MetaLayout[1..]) == 15;
  }

  lemma {:induction false} SizeConcat(a: seq<FieldKind>, b: seq<FieldKind>)
    ensures Size(a + b) == Size(a) + Size(b)
  {
    if a == [] {
      assert a + b == b;
    } else {
      assert (a + b)[1..] == a[1..] + b;
      SizeConcat(a[1..], b);
    }
  }

  lemma TaskLayoutSize()
    ensures Size(TaskLayout) == SystemOffset - TaskOffset
  {
    assert Size(TaskHostIds[3..]) == 4;
    assert Size(TaskHostIds[2..]) == 8;
    assert Size(TaskHostIds[1..]) == 12;
    assert Size(TaskIds[4..]) == 4;
    assert Size(TaskIds[3..]) == 8;
    assert Size(TaskIds[2..]) == 12;
    assert Size(TaskIds[1..]) == 16;
    assert Size(TaskNamespaces[5..]) == 16;
    assert Size(TaskNamespaces[4..]) == 24;
    assert Size(TaskNamespaces[3..]) == 32;
    assert Size(TaskNamespaces[2..]) == 40;
    assert Size(TaskNamespaces[1..]) == 48;
    SizeConcat(TaskHostIds, TaskIds);
    SizeConcat(TaskHostIds + TaskIds, TaskNamespaces);
  }

  lemma SystemLayoutSize()
    ensures Size(SystemLayout) == HeaderSize - SystemOffset
  {
    assert Size(SystemLayout[5..]) == 65;
    assert Size(SystemLayout[4..]) == 130;
    assert Size(SystemLayout[3..]) == 195;
    assert Size(SystemLayout[2..]) == 260;
    assert Size(SystemLayout[1..]) == 325;
  }

  lemma HeaderSizeIsSumOfFields()
    ensures Size(MetaLayout) == TaskOffset
    ensures TaskOffset + Size(TaskLayout) == SystemOffset
    ensures SystemOffset + Size(SystemLayout) == HeaderSize
  {
    MetaLayoutSize();
    TaskLayoutSize();
    SystemLayoutSize();
  }

  predicate Conforms(k: FieldKind, v: FieldValue)
  {
    match k
    case Unsigned(w) => v.Num? && 0 <= v.i < Pow256(w)
    case Signed(w) => v.Num? && w > 0 && InSignedRange(v.i, w)
    case Chars(n) => v.Raw? && |v.b| == n
  }

  predicate AllConform(layout: seq<FieldKind>, vals: seq<FieldValue>)
  {
    |vals| == |layout| && forall i :: 0 <= i < |layout| ==> Conforms(layout[i], vals[i])
  }

  function DecodeField(k: FieldKind, s: seq<byte>): (v: FieldValue)
    requires |s| == Width(k)
    requires k.Signed? ==> k.w > 0
    ensures Conforms(k, v)
  {
    LeUintBound(s);
    match k
    case Unsigned(w) => Num(LeUint(s))
    case Signed(w) => ToSignedInRange(LeUint(s), w); Num(ToSigned(LeUint(s), w))
    case Chars(n) => Raw(s)
  }

  function EncodeField(k: FieldKind, v: FieldValue): (s: seq<byte>)
    requires Conforms(k, v)
    ensures |s| == Width(k)
  {
    match k
    case Unsigned(w) => LeBytes(v.i, w)
    case Signed(w) => ToSignedOfFromSigned(v.i, w); LeBytes(FromSigned(v.i, w), w)
    case Chars(n) => v.b
  }

  predicate WellFormed(layout: seq<FieldKind>)
  {
    forall i :: 0 <= i < |layout| && layout[i].Signed? ==> layout[i].w > 0
  }

  /** Reads the fields of `layout` one after the other from the front of `data`. */
  function DecodeFields(layout: seq<FieldKind>, data: seq<byte>): (vals: seq<FieldValue>)
    requires WellFormed(layout)
    requires |data| >= Size(layout)
    ensures AllConform(layout, vals)
  {
    if layout == [] then []
    else
      var w := Width(layout[0]);
      [DecodeField(layout[0], data[..w])] + DecodeFields(layout[1..], data[w..])
  }

  function EncodeFields(layout: seq<FieldKind>, vals: seq<FieldValue>): (data: seq<byte>)
    requires AllConform(layout, vals)
    ensures |data| == Size(layout)
  {
    if layout == [] then []
    else EncodeField(layout[0], vals[0]) + EncodeFields(layout[1..], vals[1..])
  }

  lemma FieldRoundTrip(k: FieldKind, v: FieldValue)
    requires Conforms(k, v)
    ensures DecodeField(k, EncodeField(k, v)) == v
  {
    match k
    case Unsigned(w) =>
      LeUintOfLeBytes(v.i, w);
    case Signed(w) =>
      ToSignedOfFromSigned(v.i, w);
      LeUintOfLeBytes(FromSigned(v.i, w), w);
    case Chars(n) =>
  }

  /** Decoding the encoding of conforming values gives them back, whatever
      bytes follow. */
  lemma {:induction false} FieldsRoundTrip(layout: seq<FieldKind>, vals: seq<FieldValue>, rest: seq<byte>)
    requires WellFormed(layout) && AllConform(layout, vals)
    ensures DecodeFields(layout, EncodeFields(layout, vals) + rest) == vals
  {
    if layout != [] {
      var head := EncodeField(layout[0], vals[0]);
      var tail := EncodeFields(layout[1..], vals[1..]);
      var data := EncodeFields(layout, vals) + rest;
      assert data == head + (tail + rest);
      assert data[..Width(layout[0])] == head;
      assert data[Width(layout[0])..] == tail + rest;
      FieldRoundTrip(layout[0], vals[0]);
      assert AllConform(layout[1..], vals[1..]) by {
        forall i | 0 <= i < |layout| - 1 ensures Conforms(layout[1..][i], vals[1..][i]) {
          assert Conforms(layout[i + 1], vals[i + 1]);
        }
      }
      FieldsRoundTrip(layout[1..], vals[1..], rest);
    }
  }

  lemma Pow256Values()
    ensures Pow256(1) == 0x100 && Pow256(2) == 0x1_0000
    ensures Pow256(4) == 0x1_0000_0000 && Pow256(8) == 0x1_0000_0000_0000_0000
  {
    assert Pow256(2) == 256 * Pow256(1);
    assert Pow256(4) == 256 * (256 * Pow256(2));
    assert Pow256(8) == 256 * (256 * (256 * (256 * Pow256(4))));
  }

  function ToEventMeta(v: seq<FieldValue>, task: TaskInfo): EventMeta
    requires AllConform(MetaLayout, v)
  {
    Pow256Values();
    assert Conforms(MetaLayout[0], v[0]) && Conforms(MetaLayout[1], v[1]) && Conforms(MetaLayout[2], v[2]);
    assert Conforms(MetaLayout[3], v[3]) && Conforms(MetaLayout[4], v[4]);
    EventMeta(v[0].i, v[1].i, v[2].i, v[3].i, v[4].i, task)
  }

  function FromEventMeta(m: EventMeta): (v: seq<FieldValue>)
    ensures AllConform(MetaLayout, v)
  {
    Pow256Values();
    [Num(m.event), Num(m.nparams), Num(m.syscall), Num(m.ts), Num(m.processor)]
  }

  function ToTaskInfo(v: seq<FieldValue>): TaskInfo
    requires AllConform(TaskLayout, v)
  {
    Pow256Values();
    assert Conforms(TaskLayout[0], v[0]) && Conforms(TaskLayout[1], v[1]) && Conforms(TaskLayout[2], v[2]);
    assert Conforms(TaskLayout[3], v[3]) && Conforms(TaskLayout[4], v[4]) && Conforms(TaskLayout[5], v[5]);
    assert Conforms(TaskLayout[6], v[6]) && Conforms(TaskLayout[7], v[7]) && Conforms(TaskLayout[8], v[8]);
    assert Conforms(TaskLayout[9], v[9]) && Conforms(TaskLayout[10], v[10]) && Conforms(TaskLayout[11], v[11]);
    assert Conforms(TaskLayout[12], v[12]) && Conforms(TaskLayout[13], v[13]) && Conforms(TaskLayout[14], v[14]);
    TaskInfo(v[0].i, v[1].i, v[2].i, v[3].i, v[4].i, v[5].i, v[6].i, v[7].i, v[8].i,
             v[9].i, v[10].i, v[11].i, v[12].i, v[13].i, v[14].b)
  }

  function FromTaskInfo(k: TaskInfo): (v: seq<FieldValue>)
    ensures AllConform(TaskLayout, v)
  {
    Pow256Values();
    [Num(k.startTime), Num(k.hostPid), Num(k.hostTgid), Num(k.hostPpid),
     Num(k.pid), Num(k.tgid), Num(k.ppid), Num(k.uid), Num(k.gid),
     Num(k.cgroupId), Num(k.mountNsId), Num(k.pidNsId), Num(k.execId), Num(k.parentExecId),
     Raw(k.comm)]
  }

  function ToSystemInfo(v: seq<FieldValue>): SystemInfo
    requires AllConform(SystemLayout, v)
  {
    assert Conforms(SystemLayout[0], v[0]) && Conforms(SystemLayout[1], v[1]) && Conforms(SystemLayout[2], v[2]);
    assert Conforms(SystemLayout[3], v[3]) && Conforms(SystemLayout[4], v[4]) && Conforms(SystemLayout[5], v[5]);
    SystemInfo(v[0].b, v[1].b, v[2].b, v[3].b, v[4].b, v[5].b)
  }

  function FromSystemInfo(s: SystemInfo): (v: seq<FieldValue>)
    ensures AllConform(SystemLayout, v)
  {
    [Raw(s.sysname), Raw(s.nodename), Raw(s.release), Raw(s.version), Raw(s.machine), Raw(s.domainname)]
  }

  /** The three blocks of a header read from their offsets. */
  function DecodeTask(data: seq<byte>): TaskInfo
    requires |data| >= HeaderSize
  {
    TaskLayoutSize();
    LayoutsWellFormed();
    ToTaskInfo(DecodeFields(TaskLayout, data[TaskOffset..SystemOffset]))
  }

  function DecodeMeta(data: seq<byte>): EventMeta
    requires |data| >= HeaderSize
  {
    MetaLayoutSize();
    LayoutsWellFormed();
    ToEventMeta(DecodeFields(MetaLayout, data[..TaskOffset]), DecodeTask(data))
  }

  function DecodeSystem(data: seq<byte>): SystemInfo
    requires |data| >= HeaderSize
  {
    SystemLayoutSize();
    LayoutsWellFormed();
    ToSystemInfo(DecodeFields(SystemLayout, data[SystemOffset..HeaderSize]))
  }

  /** binary.Read of the header from the front of `data`: fails when fewer
      than HeaderSize bytes are available. */
  function DecodeHeader(data: seq<byte>): (r: Result<TarianMetaData>)
    ensures r.Ok? <==> |data| >= HeaderSize
    ensures r.Err? ==> r.error == ShortHeader(|data|)
  {
    if |data| < HeaderSize then Err(ShortHeader(|data|))
    else Ok(TarianMetaData(DecodeMeta(data), DecodeSystem(data)))
  }

  /** The bytes of a header as the kernel lays it out. */
  function EncodeHeader(t: TarianMetaData): (data: seq<byte>)
    ensures |data| == HeaderSize
  {
    HeaderSizeIsSumOfFields();
    EncodeFields(MetaLayout, FromEventMeta(t.metaData))
      + EncodeFields(TaskLayout, FromTaskInfo(t.metaData.task))
      + EncodeFields(SystemLayout, FromSystemInfo(t.systemInfo))
  }

  lemma HeaderSlices(t: TarianMetaData, rest: seq<byte>)
    ensures var data := EncodeHeader(t) + rest;
      && data[..TaskOffset] == EncodeFields(MetaLayout, FromEventMeta(t.metaData))
      && data[TaskOffset..SystemOffset] == EncodeFields(TaskLayout, FromTaskInfo(t.metaData.task))
      && data[SystemOffset..HeaderSize] == EncodeFields(SystemLayout, FromSystemInfo(t.systemInfo))
  {
    HeaderSizeIsSumOfFields();
    ThreeSlices(EncodeFields(MetaLayout, FromEventMeta(t.metaData)),
                EncodeFields(TaskLayout, FromTaskInfo(t.metaData.task)),
                EncodeFields(SystemLayout, FromSystemInfo(t.systemInfo)), rest);
  }

  lemma ThreeSlices<T>(a: seq<T>, b: seq<T>, c: seq<T>, rest: seq<T>)
    ensures var d := a + b + c + rest;
      d[..|a|] == a && d[|a|..|a| + |b|] == b && d[|a| + |b|..|a| + |b| + |c|] == c
  {
  }

  /** A block decodes back from its encoding alone. */
  lemma EncodedFieldsRoundTrip(layout: seq<FieldKind>, vals: seq<FieldValue>)
    requires WellFormed(layout) && AllConform(layout, vals)
    ensures DecodeFields(layout, EncodeFields(layout, vals)) == vals
  {
    var data := EncodeFields(layout, vals);
    FieldsRoundTrip(layout, vals, []);
    assert data + [] == data;
  }

  lemma TaskInfoOfFields(k: TaskInfo)
    ensures ToTaskInfo(FromTaskInfo(k)) == k
  {
  }

  lemma EventMetaOfFields(m: EventMeta)
    ensures ToEventMeta(FromEventMeta(m), m.task) == m
  {
  }

  lemma TaskRoundTrip(t: TarianMetaData, rest: seq<byte>)
    ensures DecodeTask(EncodeHeader(t) + rest) == t.metaData.task
  {
    HeaderSlices(t, rest);
    LayoutsWellFormed();
    EncodedFieldsRoundTrip(TaskLayout, FromTaskInfo(t.metaData.task));
    TaskInfoOfFields(t.metaData.task);
  }

  lemma MetaRoundTrip(t: TarianMetaData, rest: seq<byte>)
    ensures DecodeMeta(EncodeHeader(t) + rest) == t.metaData
  {
    HeaderSlices(t, rest);
    LayoutsWellFormed();
    TaskRoundTrip(t, rest);
    EncodedFieldsRoundTrip(MetaLayout, FromEventMeta(t.metaData));
    EventMetaOfFields(t.metaData);
  }

  lemma SystemRoundTrip(t: TarianMetaData, rest: seq<byte>)
    ensures DecodeSystem(EncodeHeader(t) + rest) == t.systemInfo
  {
    HeaderSlices(t, rest);
    LayoutsWellFormed();
    EncodedFieldsRoundTrip(SystemLayout, FromSystemInfo(t.systemInfo));
  }

  /** Every header survives encoding and decoding, whatever follows it. */
  lemma HeaderRoundTrip(t: TarianMetaData, rest: seq<byte>)
    ensures DecodeHeader(EncodeHeader(t) + rest) == Ok(t)
  {
    MetaRoundTrip(t, rest);
    SystemRoundTrip(t, rest);
  }

  /** The event id is the signed little-endian value of bytes 0..4, the
      parameter count is byte 4, the syscall id is bytes 5..9. */
  lemma HeaderLeadingFields(data: seq<byte>)
    requires |data| >= HeaderSize
    ensures DecodeHeader(data).value.Event() == ToSigned(LeUint(data[0..4]), 4)
    ensures DecodeHeader(data).value.Nparams() == data[4] as int
    ensures DecodeHeader(data).value.Syscall() == ToSigned(LeUint(data[5..9]), 4)
  {
    var h := data[..TaskOffset];
    var v := DecodeFields(MetaLayout, h);
    var l1, d1 := MetaLayout[1..], h[4..];
    var l2, d2 := l1[1..], d1[1..];
    assert v == [DecodeField(Signed(4), h[..4])] + DecodeFields(l1, d1);
    assert DecodeFields(l1, d1) == [DecodeField(Unsigned(1), d1[..1])] + DecodeFields(l2, d2);
    assert DecodeFields(l2, d2)[0] == DecodeField(Signed(4), d2[..4]);
    assert h[..4] == data[0..4] && d2[..4] == data[5..9] && d1[..1] == [data[4]];
    assert LeUint([data[4]]) == data[4] as int;
  }

  // ---------------------------------------------------------------------
  // Decimal text (the `%d` verb of the "unknown" names)

  function DigitChar(d: nat): (c: char)
    requires d < 10
    ensures '0' <= c <= '9'
  {
    "0123456789"[d]
  }

  lemma DigitCharInjective(a: nat, b: nat)
    requires a < 10 && b < 10 && DigitChar(a) == DigitChar(b)
    ensures a == b
  {
  }

  function Decimal(n: nat): (s: string)
    ensures 1 <= |s|
    ensures n >= 10 ==> |s| >= 2
  {
    if n < 10 then [DigitChar(n)] else Decimal(n / 10) + [DigitChar(n % 10)]
  }

  /** A decimal text starts with a digit, never with a minus sign. */
  lemma {:induction false} DecimalStartsWithDigit(n: nat)
    ensures '0' <= Decimal(n)[0] <= '9'
  {
    if n >= 10 {
      DecimalStartsWithDigit(n / 10);
      assert Decimal(n)[0] == Decimal(n / 10)[0];
    }
  }

  function SignedDecimal(i: int): string
  {
    if i < 0 then "-" + Decimal(-i) else Decimal(i)
  }

  /** The number a string of decimal digits denotes (its inverse below). */
  function DecimalValue(s: string): nat
  {
    if |s| == 0 then 0
    else
      var c := s[|s| - 1];
      DecimalValue(s[..|s| - 1]) * 10 + (if '0' <= c <= '9' then c as int - '0' as int else 0)
  }

  /** Reading back the decimal text of a number gives the number. */
  /** The digit character of d stands for d. */
  lemma DigitValue(d: nat)
    requires d < 10
    ensures DigitChar(d) as int - '0' as int == d
  {
    if d < 5 {
      if d == 0 {} else if d == 1 {} else if d == 2 {} else if d == 3 {} else {}
    } else {
      if d == 5 {} else if d == 6 {} else if d == 7 {} else if d == 8 {} else {}
    }
  }

  /** Appending one digit multiplies the value by ten and adds the digit. */
  lemma DecimalValueAppend(s: string, d: nat)
    requires d < 10
    ensures DecimalValue(s + [DigitChar(d)]) == DecimalValue(s) * 10 + d
  {
    var t := s + [DigitChar(d)];
    assert t[..|t| - 1] == s;
    DigitValue(d);
  }

  lemma {:induction false} DecimalValueOfDecimal(n: nat)
    ensures DecimalValue(Decimal(n)) == n
  {
    if n < 10 {
      DecimalValueAppend([], n);
      assert [] + [DigitChar(n)] == Decimal(n);
    } else {
      DecimalValueOfDecimal(n / 10);
      DecimalValueAppend(Decimal(n / 10), n % 10);
    }
  }


  /** The value of a `%d` text, minus sign included. */
  function SignedDecimalValue(s: string): int
  {
    if |s| > 0 && s[0] == '-' then -(DecimalValue(s[1..]) as int) else DecimalValue(s)
  }

  /** The `%d` text of -n, for n > 0, is a minus sign and the digits of
      n, and reads back as -n. */
  lemma NegativeDecimalRoundTrip(n: nat)
    requires n > 0
    ensures SignedDecimalValue(SignedDecimal(-(n as int))) == -(n as int)
  {
    var s := SignedDecimal(-(n as int));
    assert s == "-" + Decimal(n);
    assert s[0] == '-' && s[1..] == Decimal(n);
    DecimalValueOfDecimal(n);
  }

  /** The `%d` text of a non-negative int is its decimal text and reads
      back as that int. */
  lemma NonNegativeDecimalRoundTrip(i: int)
    requires i >= 0
    ensures SignedDecimalValue(SignedDecimal(i)) == i
  {
    var digits := Decimal(i);
    DecimalStartsWithDigit(i);
    assert SignedDecimalValue(digits) == DecimalValue(digits);
    DecimalValueOfDecimal(i);
  }

  /** Reading back the `%d` text of an int gives the int. */
  lemma SignedDecimalValueOfSignedDecimal(i: int)
    ensures SignedDecimalValue(SignedDecimal(i)) == i
  {
    if i < 0 {
      NegativeDecimalRoundTrip(-i);
    } else {
      NonNegativeDecimalRoundTrip(i);
    }
  }

  /** Different numbers have different decimal texts. */
  lemma DecimalInjective(a: nat, b: nat)
    requires Decimal(a) == Decimal(b)
    ensures a == b
  {
    DecimalValueOfDecimal(a);
    DecimalValueOfDecimal(b);
  }

  /** Different ints have different `%d` texts. */
  lemma SignedDecimalInjective(a: int, b: int)
    requires SignedDecimal(a) == SignedDecimal(b)
    ensures a == b
  {
    SignedDecimalValueOfSignedDecimal(a);
    SignedDecimalValueOfSignedDecimal(b);
  }

  // ---------------------------------------------------------------------
  // TarianParamType

  const TDT_NONE: uint32 := 0
  const TDT_U8: uint32 := 1
  const TDT_U16: uint32 := 2
  const TDT_U32: uint32 := 3
  const TDT_U64: uint32 := 4
  const TDT_S8: uint32 := 5
  const TDT_S16: uint32 := 6
  const TDT_S32: uint32 := 7
  const TDT_S64: uint32 := 8
  const TDT_IPV6: uint32 := 9
  const TDT_STR: uint32 := 10
  const TDT_STR_ARR: uint32 := 11
  const TDT_BYTE_ARR: uint32 := 12
  const TDT_SOCKADDR: uint32 := 14
  const TDT_IOVEC_ARR: uint32 := 15

  /** The fifteen declared parameter types: 0 to 15 except 13. */
  predicate IsDeclaredParamType(t: uint32)
  {
    t <= 15 && t != 13
  }

  /** TarianParamType.String */
  function ParamTypeName(t: uint32): string
  {
    if t == TDT_NONE then "TDT_NONE"
    else if t == TDT_U8 then "TDT_U8"
    else if t == TDT_U16 then "TDT_U16"
    else if t == TDT_U32 then "TDT_U32"
    else if t == TDT_U64 then "TDT_U64"
    else if t == TDT_S8 then "TDT_S8"
    else if t == TDT_S16 then "TDT_S16"
    else if t == TDT_S32 then "TDT_S32"
    else if t == TDT_S64 then "TDT_S64"
    else if t == TDT_IPV6 then "TDT_IPV6"
    else if t == TDT_STR then "TDT_STR"
    else if t == TDT_STR_ARR then "TDT_STR_ARR"
    else if t == TDT_BYTE_ARR then "TDT_BYTE_ARR"
    else if t == TDT_IOVEC_ARR then "TDT_IOVEC_ARR"
    else if t == TDT_SOCKADDR then "TDT_SOCKADDR"
    else "unknown TarianParamType(" + Decimal(t) + ")"
  }

  /** A declared type gets a "TDT_" name, any other value the "unknown" text. */
  lemma ParamTypeNameShape(t: uint32)
    ensures IsDeclaredParamType(t) ==> |ParamTypeName(t)| > 4 && ParamTypeName(t)[..4] == "TDT_"
    ensures !IsDeclaredParamType(t) ==> ParamTypeName(t) == "unknown TarianParamType(" + Decimal(t) + ")"
  {
  }

  /** The parameter type a name stands for: the left inverse of
      ParamTypeName. */
  function ParamTypeOfName(s: string): int
  {
    var p := "unknown TarianParamType(";
    if |s| > |p| && s[..|p|] == p then DecimalValue(s[|p|..|s| - 1])
    else if s == "TDT_U8" then 1
    else if s == "TDT_U16" then 2
    else if s == "TDT_U32" then 3
    else if s == "TDT_U64" then 4
    else if s == "TDT_S8" then 5
    else if s == "TDT_S16" then 6
    else if s == "TDT_S32" then 7
    else if s == "TDT_S64" then 8
    else if s == "TDT_IPV6" then 9
    else if s == "TDT_STR" then 10
    else if s == "TDT_STR_ARR" then 11
    else if s == "TDT_BYTE_ARR" then 12
    else if s == "TDT_SOCKADDR" then 14
    else if s == "TDT_IOVEC_ARR" then 15
    else 0
  }

  /** The fifteen declared names read back as their types. */
  lemma ParamTypeOfNameDeclared(t: uint32)
    requires IsDeclaredParamType(t)
    ensures ParamTypeOfName(ParamTypeName(t)) == t
  {
    if t == 0 {
      assert ParamTypeName(0) == ParamTypeName(t);
    } else if t == 1 {
      assert ParamTypeName(1) == ParamTypeName(t);
    } else if t == 2 {
      assert ParamTypeName(2) == ParamTypeName(t);
    } else if t == 3 {
      assert ParamTypeName(3) == ParamTypeName(t);
    } else if t == 4 {
      assert ParamTypeName(4) == ParamTypeName(t);
    } else if t == 5 {
      assert ParamTypeName(5) == ParamTypeName(t);
    } else if t == 6 {
      assert ParamTypeName(6) == ParamTypeName(t);
    } else if t == 7 {
      assert ParamTypeName(7) == ParamTypeName(t);
    } else if t == 8 {
      assert ParamTypeName(8) == ParamTypeName(t);
    } else if t == 9 {
      assert ParamTypeName(9) == ParamTypeName(t);
    } else if t == 10 {
      assert ParamTypeName(10) == ParamTypeName(t);
    } else if t == 11 {
      assert ParamTypeName(11) == ParamTypeName(t);
    } else if t == 12 {
      assert ParamTypeName(12) == ParamTypeName(t);
    } else if t == 14 {
      assert ParamTypeName(14) == ParamTypeName(t);
    } else {
      assert t == 15;
    }
  }

  /** Every parameter type can be read back from its name. */
  lemma ParamTypeOfNameInvertsParamTypeName(t: uint32)
    ensures ParamTypeOfName(ParamTypeName(t)) == t
  {
    if IsDeclaredParamType(t) {
      ParamTypeOfNameDeclared(t);
    } else {
      var p := "unknown TarianParamType(";
      var s := ParamTypeName(t);
      assert s[..|p|] == p && s[|p|..|s| - 1] == Decimal(t);
      DecimalValueOfDecimal(t);
    }
  }

  /** No two parameter types share a name. */
  lemma ParamTypeNameInjective(a: uint32, b: uint32)
    requires ParamTypeName(a) == ParamTypeName(b)
    ensures a == b
  {
    ParamTypeOfNameInvertsParamTypeName(a);
    ParamTypeOfNameInvertsParamTypeName(b);
  }

  lemma ParamTypeNameExamples()
    ensures ParamTypeName(TDT_U8) == "TDT_U8"
    ensures ParamTypeName(13) == "unknown TarianParamType(13)"
    ensures ParamTypeName(16) == "unknown TarianParamType(16)"
  {
    assert Decimal(13) == Decimal(1) + [DigitChar(3)];
    assert Decimal(16) == Decimal(1) + [DigitChar(6)];
  }

  // ---------------------------------------------------------------------
  // TarianEventsE

  const TDE_SYSCALL_EXECVE_E: int := 2
  const TDE_SYSCALL_EXECVE_R: int := 3
  const TDE_SYSCALL_EXECVEAT_E: int := 4
  const TDE_SYSCALL_EXECVEAT_R: int := 5
  const TDE_SYSCALL_CLONE_E: int := 6
  const TDE_SYSCALL_CLONE_R: int := 7
  const TDE_SYSCALL_CLOSE_E: int := 8
  const TDE_SYSCALL_CLOSE_R: int := 9
  const TDE_SYSCALL_READ_E: int := 10
  const TDE_SYSCALL_READ_R: int := 11
  const TDE_SYSCALL_WRITE_E: int := 12
  const TDE_SYSCALL_WRITE_R: int := 13
  const TDE_SYSCALL_OPEN_E: int := 14
  const TDE_SYSCALL_OPEN_R: int := 15
  const TDE_SYSCALL_READV_E: int := 16
  const TDE_SYSCALL_READV_R: int := 17
  const TDE_SYSCALL_WRITEV_E: int := 18
  const TDE_SYSCALL_WRITEV_R: int := 19
  const TDE_SYSCALL_OPENAT_E: int := 20
  const TDE_SYSCALL_OPENAT_R: int := 21
  const TDE_SYSCALL_OPENAT2_E: int := 22
  const TDE_SYSCALL_OPENAT2_R: int := 23
  const TDE_SYSCALL_LISTEN_E: int := 24
  const TDE_SYSCALL_LISTEN_R: int := 25
  const TDE_SYSCALL_SOCKET_E: int := 26
  const TDE_SYSCALL_SOCKET_R: int := 27
  const TDE_SYSCALL_ACCEPT_E: int := 28
  const TDE_SYSCALL_ACCEPT_R: int := 29
  const TDE_SYSCALL_BIND_E: int := 30
  const TDE_SYSCALL_BIND_R: int := 31
  const TDE_SYSCALL_CONNECT_E: int := 32
  const TDE_SYSCALL_CONNECT_R: int := 33

  /** The events the String method names: 2, 3 and 6 to 33. The execveat
      pair (4 and 5) is declared but falls to the default case. */
  predicate IsNamedEvent(t: int)
  {
    t == 2 || t == 3 || 6 <= t <= 33
  }

  /** TarianEventsE.String */
  function EventName(t: int): string
  {
    if t == TDE_SYSCALL_EXECVE_E then "TDE_SYSCALL_EXECVE_E"
    else if t == TDE_SYSCALL_EXECVE_R then "TDE_SYSCALL_EXECVE_R"
    else if t == TDE_SYSCALL_CLONE_E then "TDE_SYSCALL_CLONE_E"
    else if t == TDE_SYSCALL_CLONE_R then "TDE_SYSCALL_CLONE_R"
    else if t == TDE_SYSCALL_CLOSE_E then "TDE_SYSCALL_CLOSE_E"
    else if t == TDE_SYSCALL_CLOSE_R then "TDE_SYSCALL_CLOSE_R"
    else if t == TDE_SYSCALL_READ_E then "TDE_SYSCALL_READ_E"
    else if t == TDE_SYSCALL_READ_R then "TDE_SYSCALL_READ_R"
    else if t == TDE_SYSCALL_WRITE_E then "TDE_SYSCALL_WRITE_E"
    else if t == TDE_SYSCALL_WRITE_R then "TDE_SYSCALL_WRITE_R"
    else if t == TDE_SYSCALL_OPEN_E then "TDE_SYSCALL_OPEN_E"
    else if t == TDE_SYSCALL_OPEN_R then "TDE_SYSCALL_OPEN_R"
    else if t == TDE_SYSCALL_READV_E then "TDE_SYSCALL_READV_E"
    else if t == TDE_SYSCALL_READV_R then "TDE_SYSCALL_READV_R"
    else if t == TDE_SYSCALL_WRITEV_E then "TDE_SYSCALL_WRITEV_E"
    else if t == TDE_SYSCALL_WRITEV_R then "TDE_SYSCALL_WRITEV_R"
    else if t == TDE_SYSCALL_OPENAT_E then "TDE_SYSCALL_OPENAT_E"
    else if t == TDE_SYSCALL_OPENAT_R then "TDE_SYSCALL_OPENAT_R"
    else if t == TDE_SYSCALL_OPENAT2_E then "TDE_SYSCALL_OPENAT2_E"
    else if t == TDE_SYSCALL_OPENAT2_R then "TDE_SYSCALL_OPENAT2_R"
    else if t == TDE_SYSCALL_LISTEN_E then "TDE_SYSCALL_LISTEN_E"
    else if t == TDE_SYSCALL_LISTEN_R then "TDE_SYSCALL_LISTEN_R"
    else if t == TDE_SYSCALL_SOCKET_E then "TDE_SYSCALL_SOCKET_E"
    else if t == TDE_SYSCALL_SOCKET_R then "TDE_SYSCALL_SOCKET_R"
    else if t == TDE_SYSCALL_ACCEPT_E then "TDE_SYSCALL_ACCEPT_E"
    else if t == TDE_SYSCALL_ACCEPT_R then "TDE_SYSCALL_ACCEPT_R"
    else if t == TDE_SYSCALL_BIND_E then "TDE_SYSCALL_BIND_E"
    else if t == TDE_SYSCALL_BIND_R then "TDE_SYSCALL_BIND_R"
    else if t == TDE_SYSCALL_CONNECT_E then "TDE_SYSCALL_CONNECT_E"
    else if t == TDE_SYSCALL_CONNECT_R then "TDE_SYSCALL_CONNECT_R"
    else "unknown TarianEventsE(" + SignedDecimal(t) + ")"
  }

  /** A named event gets a "TDE_SYSCALL_" name, any other value the "unknown" text. */
  lemma EventNameShape(t: int)
    ensures IsNamedEvent(t) ==> |EventName(t)| > 12 && EventName(t)[..12] == "TDE_SYSCALL_"
    ensures !IsNamedEvent(t) ==> EventName(t) == "unknown TarianEventsE(" + SignedDecimal(t) + ")"
  {
  }

  lemma EventNameExamples()
    ensures EventName(TDE_SYSCALL_BIND_E) == "TDE_SYSCALL_BIND_E"
    ensures EventName(TDE_SYSCALL_EXECVEAT_E) == "unknown TarianEventsE(4)"
    ensures EventName(TDE_SYSCALL_EXECVEAT_R) == "unknown TarianEventsE(5)"
    ensures EventName(-1) == "unknown TarianEventsE(-1)"
  {
  }

  /** Recovers a named event from its name by the characters that tell the
      names apart: the first letter of the syscall, its length, its fourth
      letter (CLONE against CLOSE) and the final E or R. */
  function EventOfName(s: string): int
    requires |s| >= 16
  {
    var len := |s| - 14;
    var c := s[12];
    var entry :=
      if c == 'E' then 2
      else if c == 'C' then (if len == 7 then 32 else if s[15] == 'N' then 6 else 8)
      else if c == 'R' then (if len == 4 then 10 else 16)
      else if c == 'W' then (if len == 5 then 12 else 18)
      else if c == 'O' then (if len == 4 then 14 else if len == 6 then 20 else 22)
      else if c == 'L' then 24
      else if c == 'S' then 26
      else if c == 'A' then 28
      else 30;
    if s[|s| - 1] == 'E' then entry else entry + 1
  }

  lemma EventOfNameInvertsEventName(t: int)
    requires IsNamedEvent(t)
    ensures |EventName(t)| >= 16 && EventOfName(EventName(t)) == t
  {
  }

  /** The event value a name stands for, "unknown" texts included: the
      left inverse of EventName. */
  function EventValueOfName(s: string): int
  {
    var p := "unknown TarianEventsE(";
    if |s| > |p| && s[..|p|] == p then SignedDecimalValue(s[|p|..|s| - 1])
    else if |s| >= 16 then EventOfName(s)
    else 0
  }

  /** Every event value, named or not, can be read back from its name. */
  lemma EventValueOfNameInvertsEventName(t: int)
    ensures EventValueOfName(EventName(t)) == t
  {
    var p := "unknown TarianEventsE(";
    var s := EventName(t);
    if IsNamedEvent(t) {
      EventOfNameInvertsEventName(t);
      EventNameShape(t);
    } else {
      EventNameShape(t);
      assert s[..|p|] == p && s[|p|..|s| - 1] == SignedDecimal(t);
      SignedDecimalValueOfSignedDecimal(t);
    }
  }

  /** No two event values share a name. */
  lemma EventNameInjective(a: int, b: int)
    requires EventName(a) == EventName(b)
    ensures a == b
  {
    EventValueOfNameInvertsEventName(a);
    EventValueOfNameInvertsEventName(b);
  }
}
