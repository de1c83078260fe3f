/** pkg/eventparser/probes.go: the table that describes, for every event
    id the kernel emits, its name, syscall number and ordered parameters, and
    the formatting of one decoded parameter value. */
module Probes {
  import opened Results
  import opened LittleEndian
  import opened External
  import opened EventTypes

  /** One declared parameter: its name, wire type, C type and optional
      formatting callback. */
  datatype Param = Param(name: string, paramType: uint32, linuxType: string, fn: Option<Callback>)

  datatype TarianEvent = TarianEvent(name: string, syscallId: int, eventSize: uint32, params: seq<Param>)

  /** NewTarianEvent: an event keeps its id, name, size and the parameters
      in the order they are given. The table below spells each entry with
      the datatype constructor, which is what this function returns. */
  function NewTarianEvent(id: int, name: string, size: uint32, params: seq<Param>): (e: TarianEvent)
    ensures e.name == name && e.syscallId == id && e.eventSize == size
    ensures e.params == params
  {
    TarianEvent(name, id, size, params)
  }

  const ExecveEntry: TarianEvent := TarianEvent("sys_execve_entry", 59, 16897, [
    Param("filename", TDT_STR, "const char *", None),
    Param("argv", TDT_STR_ARR, "const char **", None),
    Param("envp", TDT_STR_ARR, "const char **", None)])

  const ExecveExit: TarianEvent := TarianEvent("sys_execve_exit", 59, 8705, [
    Param("return", TDT_S32, "int", None)])

  const ExecveatEntry: TarianEvent := TarianEvent("sys_execveat_entry", 322, 16905, [
    Param("fd", TDT_S32, "int", Some(ParseExecveatDird)),
    Param("filename", TDT_STR, "const char *", None),
    Param("argv", TDT_STR_ARR, "char const **", None),
    Param("envp", TDT_STR_ARR, "char const **", None),
    Param("flags", TDT_S32, "int", Some(ParseExecveatFlags))])

  const ExecveatExit: TarianEvent := TarianEvent("sys_execveat_exit", 322, 8705, [
    Param("return", TDT_S32, "int", None)])

  const CloneEntry: TarianEvent := TarianEvent("sys_clone_entry", 56, 8733, [
    Param("clone_flags", TDT_U64, "unsigned long", Some(ParseCloneFlags)),
    Param("newsp", TDT_S64, "unsigned long", None),
    Param("parent_tid", TDT_S32, "int *", None),
    Param("child_tid", TDT_S32, "int *", None),
    Param("tls", TDT_S64, "unsigned long", None)])

  const CloneExit: TarianEvent := TarianEvent("sys_clone_exit", 56, 8705, [
    Param("return", TDT_S32, "int", None)])

  const CloseEntry: TarianEvent := TarianEvent("sys_close_entry", 3, 8705, [
    Param("fd", TDT_S32, "int", None)])

  const CloseExit: TarianEvent := TarianEvent("sys_close_exit", 3, 8705, [
    Param("return", TDT_S32, "int", None)])

  const ReadEntry: TarianEvent := TarianEvent("sys_read_entry", 0, 12807, [
    Param("fd", TDT_S32, "int", None),
    Param("buf", TDT_BYTE_ARR, "char *", None),
    Param("count", TDT_U32, "size_t", None)])

  const ReadExit: TarianEvent := TarianEvent("sys_read_exit", 0, 8709, [
    Param("return", TDT_S64, "ssize_t", None)])

  const WriteEntry: TarianEvent := TarianEvent("sys_write_entry", 1, 12807, [
    Param("fd", TDT_S32, "int", None),
    Param("buf", TDT_BYTE_ARR, "const char *", None),
    Param("count", TDT_U32, "size_t", None)])

  const WriteExit: TarianEvent := TarianEvent("sys_write_exit", 1, 8709, [
    Param("return", TDT_S64, "ssize_t", None)])

  const OpenEntry: TarianEvent := TarianEvent("sys_open_entry", 2, 12807, [
    Param("filename", TDT_STR, "const char *", None),
    Param("flags", TDT_S32, "int", Some(ParseOpenFlags)),
    Param("mode", TDT_U32, "umode_t", Some(ParseOpenMode))])

  const OpenExit: TarianEvent := TarianEvent("sys_open_exit", 2, 8705, [
    Param("return", TDT_U32, "int", None)])

  const ReadvEntry: TarianEvent := TarianEvent("sys_readv_entry", 19, 12807, [
    Param("fd", TDT_S32, "int", None),
    Param("vec", TDT_BYTE_ARR, "const struct iovec *", None),
    Param("vlen", TDT_S32, "int", None)])

  const ReadvExit: TarianEvent := TarianEvent("sys_readv_exit", 19, 8709, [
    Param("return", TDT_S64, "ssize_t", None)])

  const WritevEntry: TarianEvent := TarianEvent("sys_writev_entry", 20, 12807, [
    Param("fd", TDT_S32, "int", None),
    Param("vec", TDT_BYTE_ARR, "const struct iovec *", None),
    Param("vlen", TDT_S32, "int", None)])

  const WritevExit: TarianEvent := TarianEvent("sys_writev_exit", 20, 8709, [
    Param("return", TDT_S64, "ssize_t", None)])

  const OpenatEntry: TarianEvent := TarianEvent("sys_openat_entry", 257, 12811, [
    Param("dfd", TDT_S32, "int", Some(ParseExecveatDird)),
    Param("filename", TDT_STR, "const char *", None),
    Param("flags", TDT_S32, "int", Some(ParseOpenFlags)),
    Param("mode", TDT_U32, "umode_t", Some(ParseOpenMode))])

  const OpenatExit: TarianEvent := TarianEvent("sys_openat_exit", 257, 8705, [
    Param("return", TDT_U32, "int", None)])

  const Openat2Entry: TarianEvent := TarianEvent("sys_openat2_entry", 437, 12831, [
    Param("dfd", TDT_S32, "int", Some(ParseExecveatDird)),
    Param("filename", TDT_STR, "const char *", None),
    Param("flags", TDT_S64, "unsigned long", Some(ParseOpenat2Flags)),
    Param("mode", TDT_S64, "unsigned long", Some(ParseOpenat2Mode)),
    Param("resolve", TDT_S64, "unsigned long", Some(ParseOpenat2Resolve)),
    Param("usize", TDT_S32, "size_t", None)])

  const Openat2Exit: TarianEvent := TarianEvent("sys_openat2_exit", 437, 8709, [
    Param("return", TDT_S64, "int", None)])

  const ListenEntry: TarianEvent := TarianEvent("sys_listen_entry", 50, 8709, [
    Param("fd", TDT_S32, "int", None),
    Param("backlog", TDT_S32, "int", None)])

  const ListenExit: TarianEvent := TarianEvent("sys_listen_exit", 50, 8705, [
    Param("return", TDT_S32, "int", None)])

  const SocketEntry: TarianEvent := TarianEvent("sys_socket_entry", 41, 8713, [
    Param("family", TDT_S32, "int", Some(ParseSocketFamily)),
    Param("type", TDT_S32, "int", Some(ParseSocketType)),
    Param("protocol", TDT_S32, "int", Some(ParseSocketProtocol))])

  const SocketExit: TarianEvent := TarianEvent("sys_socket_exit", 41, 8705, [
    Param("return", TDT_S32, "int", None)])

  const AcceptEntry: TarianEvent := TarianEvent("sys_accept_entry", 43, 8820, [
    Param("fd", TDT_S32, "int", None),
    Param("upeer_sockaddr", TDT_SOCKADDR, "struct sockaddr *", None),
    Param("upper_addrlen", TDT_S32, "int *", None)])

  const AcceptExit: TarianEvent := TarianEvent("sys_accept_exit", 43, 8705, [
    Param("return", TDT_S32, "int", None)])

  const BindEntry: TarianEvent := TarianEvent("sys_bind_entry", 49, 8820, [
    Param("fd", TDT_S32, "int", None),
    Param("umyaddr", TDT_SOCKADDR, "struct sockaddr *", None),
    Param("addrlen", TDT_S32, "int", None)])

  const BindExit: TarianEvent := TarianEvent("sys_bind_exit", 49, 8705, [
    Param("return", TDT_S32, "int", None)])

  const ConnectEntry: TarianEvent := TarianEvent("sys_connect_entry", 42, 8820, [
    Param("fd", TDT_S32, "int", None),
    Param("uservaddr", TDT_SOCKADDR, "struct sockaddr *", None),
    Param("addrlen", TDT_S32, "int", None)])

  const ConnectExit: TarianEvent := TarianEvent("sys_connect_exit", 42, 8705, [
    Param("return", TDT_S32, "int", None)])

  /** The entries stored under the ids 2 to n. */
  function TableUpTo(n: int): (m: map<int, TarianEvent>)
    requires n <= 33
    ensures forall k :: k in m <==> 2 <= k <= n
  {
    map k | 2 <= k <= n :: EventEntry(k)
  }

  /** The table GenerateTarianEvents builds: one entry per event id from 2
      to 33, the entry event of a syscall at the even id and its exit event
      at the odd id after it. */
  function EventTable(): (m: map<int, TarianEvent>)
    ensures forall k :: k in m <==> 2 <= k <= 33
    ensures forall k :: k in m ==> m[k] == EventEntry(k)
  {
    TableUpTo(33)
  }

  /** Storing the entry for n + 1 extends the table up to n by one id. */
  lemma TableUpToStep(n: int, e: TarianEvent)
    requires 1 <= n < 33 && e == EventEntry(n + 1)
    ensures TableUpTo(n)[n + 1 := e] == TableUpTo(n + 1)
  {
  }

  /** The entry stored under id k. */
  function EventEntry(k: int): TarianEvent
    requires 2 <= k <= 33
  {
    if k == TDE_SYSCALL_EXECVE_E then ExecveEntry
    else if k == TDE_SYSCALL_EXECVE_R then ExecveExit
    else if k == TDE_SYSCALL_EXECVEAT_E then ExecveatEntry
    else if k == TDE_SYSCALL_EXECVEAT_R then ExecveatExit
    else if k == TDE_SYSCALL_CLONE_E then CloneEntry
    else if k == TDE_SYSCALL_CLONE_R then CloneExit
    else if k == TDE_SYSCALL_CLOSE_E then CloseEntry
    else if k == TDE_SYSCALL_CLOSE_R then CloseExit
    else if k == TDE_SYSCALL_READ_E then ReadEntry
    else if k == TDE_SYSCALL_READ_R then ReadExit
    else if k == TDE_SYSCALL_WRITE_E then WriteEntry
    else if k == TDE_SYSCALL_WRITE_R then WriteExit
    else if k == TDE_SYSCALL_OPEN_E then OpenEntry
    else if k == TDE_SYSCALL_OPEN_R then OpenExit
    else if k == TDE_SYSCALL_READV_E then ReadvEntry
    else if k == TDE_SYSCALL_READV_R then ReadvExit
    else if k == TDE_SYSCALL_WRITEV_E then WritevEntry
    else if k == TDE_SYSCALL_WRITEV_R then WritevExit
    else if k == TDE_SYSCALL_OPENAT_E then OpenatEntry
    else if k == TDE_SYSCALL_OPENAT_R then OpenatExit
    else if k == TDE_SYSCALL_OPENAT2_E then Openat2Entry
    else if k == TDE_SYSCALL_OPENAT2_R then Openat2Exit
    else if k == TDE_SYSCALL_LISTEN_E then ListenEntry
    else if k == TDE_SYSCALL_LISTEN_R then ListenExit
    else if k == TDE_SYSCALL_SOCKET_E then SocketEntry
    else if k == TDE_SYSCALL_SOCKET_R then SocketExit
    else if k == TDE_SYSCALL_ACCEPT_E then AcceptEntry
    else if k == TDE_SYSCALL_ACCEPT_R then AcceptExit
    else if k == TDE_SYSCALL_BIND_E then BindEntry
    else if k == TDE_SYSCALL_BIND_R then BindExit
    else if k == TDE_SYSCALL_CONNECT_E then ConnectEntry
    else ConnectExit
  }

  /** Every event of the table declares at least one parameter, so
      parseParams never meets an empty list for it. */
  lemma EventEntryParams(k: int)
    requires 2 <= k <= 33
    ensures |EventEntry(k).params| >= 1
  {
  }

  /** Pair j (1 to 16) is the entry event at id 2j and the exit event at id
      2j + 1: the exit event has exactly one parameter, named "return",
      without a callback, and both record the same syscall. */
  lemma {:induction false} EventPair(j: int)
    requires 1 <= j <= 16
    ensures |EventEntry(2 * j + 1).params| == 1
    ensures EventEntry(2 * j + 1).params[0].name == "return" && EventEntry(2 * j + 1).params[0].fn == None
    ensures EventEntry(2 * j + 1).syscallId == EventEntry(2 * j).syscallId
  {
    // one case per pair keeps each step to a single table entry
    if j == 1 {
    } else if j == 2 {
    } else if j == 3 {
    } else if j == 4 {
    } else if j == 5 {
    } else if j == 6 {
    } else if j == 7 {
    } else if j == 8 {
    } else if j == 9 {
    } else if j == 10 {
    } else if j == 11 {
    } else if j == 12 {
    } else if j == 13 {
    } else if j == 14 {
    } else if j == 15 {
    } else {
      assert j == 16;
    }
  }

  /** The x86-64 syscall numbers the table records, by entry event id. */
  lemma EventTableSyscallIds()
    ensures EventEntry(TDE_SYSCALL_EXECVE_E).syscallId == 59 && EventEntry(TDE_SYSCALL_EXECVEAT_E).syscallId == 322
      && EventEntry(TDE_SYSCALL_CLONE_E).syscallId == 56 && EventEntry(TDE_SYSCALL_CLOSE_E).syscallId == 3
      && EventEntry(TDE_SYSCALL_READ_E).syscallId == 0 && EventEntry(TDE_SYSCALL_WRITE_E).syscallId == 1
      && EventEntry(TDE_SYSCALL_OPEN_E).syscallId == 2 && EventEntry(TDE_SYSCALL_READV_E).syscallId == 19
      && EventEntry(TDE_SYSCALL_WRITEV_E).syscallId == 20 && EventEntry(TDE_SYSCALL_OPENAT_E).syscallId == 257
      && EventEntry(TDE_SYSCALL_OPENAT2_E).syscallId == 437 && EventEntry(TDE_SYSCALL_LISTEN_E).syscallId == 50
      && EventEntry(TDE_SYSCALL_SOCKET_E).syscallId == 41 && EventEntry(TDE_SYSCALL_ACCEPT_E).syscallId == 43
      && EventEntry(TDE_SYSCALL_BIND_E).syscallId == 49 && EventEntry(TDE_SYSCALL_CONNECT_E).syscallId == 42
  {
  }

  /** TarianEventMap: a Go map, shared by reference and filled in place. */
  class TarianEventMap {
    var events: map<int, TarianEvent>

    constructor ()
      ensures events == map[]
    {
      events := map[];
    }

    /** Stores `event` under `idx`, replacing any earlier entry. */
    method AddTarianEvent(idx: int, event: TarianEvent)
      modifies this
      ensures events == old(events)[idx := event]
    {
      events := events[idx := event];
    }
  }

  /** The insertions of GenerateTarianEvents for execve, execveat, clone and close, in source order. */
  method AddProcessEvents(te: TarianEventMap)
    requires te.events == TableUpTo(1)
    modifies te
    ensures te.events == TableUpTo(9)
  {
    te.AddTarianEvent(TDE_SYSCALL_EXECVE_E, ExecveEntry);
    TableUpToStep(1, ExecveEntry);
    te.AddTarianEvent(TDE_SYSCALL_EXECVE_R, ExecveExit);
    TableUpToStep(2, ExecveExit);
    te.AddTarianEvent(TDE_SYSCALL_EXECVEAT_E, ExecveatEntry);
    TableUpToStep(3, ExecveatEntry);
    te.AddTarianEvent(TDE_SYSCALL_EXECVEAT_R, ExecveatExit);
    TableUpToStep(4, ExecveatExit);
    te.AddTarianEvent(TDE_SYSCALL_CLONE_E, CloneEntry);
    TableUpToStep(5, CloneEntry);
    te.AddTarianEvent(TDE_SYSCALL_CLONE_R, CloneExit);
    TableUpToStep(6, CloneExit);
    te.AddTarianEvent(TDE_SYSCALL_CLOSE_E, CloseEntry);
    TableUpToStep(7, CloseEntry);
    te.AddTarianEvent(TDE_SYSCALL_CLOSE_R, CloseExit);
    TableUpToStep(8, CloseExit);
  }

  /** The insertions of GenerateTarianEvents for read, write, open and readv, in source order. */
  method AddReadWriteEvents(te: TarianEventMap)
    requires te.events == TableUpTo(9)
    modifies te
    ensures te.events == TableUpTo(17)
  {
    te.AddTarianEvent(TDE_SYSCALL_READ_E, ReadEntry);
    TableUpToStep(9, ReadEntry);
    te.AddTarianEvent(TDE_SYSCALL_READ_R, ReadExit);
    TableUpToStep(10, ReadExit);
    te.AddTarianEvent(TDE_SYSCALL_WRITE_E, WriteEntry);
    TableUpToStep(11, WriteEntry);
    te.AddTarianEvent(TDE_SYSCALL_WRITE_R, WriteExit);
    TableUpToStep(12, WriteExit);
    te.AddTarianEvent(TDE_SYSCALL_OPEN_E, OpenEntry);
    TableUpToStep(13, OpenEntry);
    te.AddTarianEvent(TDE_SYSCALL_OPEN_R, OpenExit);
    TableUpToStep(14, OpenExit);
    te.AddTarianEvent(TDE_SYSCALL_READV_E, ReadvEntry);
    TableUpToStep(15, ReadvEntry);
    te.AddTarianEvent(TDE_SYSCALL_READV_R, ReadvExit);
    TableUpToStep(16, ReadvExit);
  }

  /** The insertions of GenerateTarianEvents for writev, openat, openat2 and listen, in source order. */
  method AddOpenEvents(te: TarianEventMap)
    requires te.events == TableUpTo(17)
    modifies te
    ensures te.events == TableUpTo(25)
  {
    te.AddTarianEvent(TDE_SYSCALL_WRITEV_E, WritevEntry);
    TableUpToStep(17, WritevEntry);
    te.AddTarianEvent(TDE_SYSCALL_WRITEV_R, WritevExit);
    TableUpToStep(18, WritevExit);
    te.AddTarianEvent(TDE_SYSCALL_OPENAT_E, OpenatEntry);
    TableUpToStep(19, OpenatEntry);
    te.AddTarianEvent(TDE_SYSCALL_OPENAT_R, OpenatExit);
    TableUpToStep(20, OpenatExit);
    te.AddTarianEvent(TDE_SYSCALL_OPENAT2_E, Openat2Entry);
    TableUpToStep(21, Openat2Entry);
    te.AddTarianEvent(TDE_SYSCALL_OPENAT2_R, Openat2Exit);
    TableUpToStep(22, Openat2Exit);
    te.AddTarianEvent(TDE_SYSCALL_LISTEN_E, ListenEntry);
    TableUpToStep(23, ListenEntry);
    te.AddTarianEvent(TDE_SYSCALL_LISTEN_R, ListenExit);
    TableUpToStep(24, ListenExit);
  }

  /** The insertions of GenerateTarianEvents for socket, accept, bind and connect, in source order. */
  method AddNetworkEvents(te: TarianEventMap)
    requires te.events == TableUpTo(25)
    modifies te
    ensures te.events == TableUpTo(33)
  {
    te.AddTarianEvent(TDE_SYSCALL_SOCKET_E, SocketEntry);
    TableUpToStep(25, SocketEntry);
    te.AddTarianEvent(TDE_SYSCALL_SOCKET_R, SocketExit);
    TableUpToStep(26, SocketExit);
    te.AddTarianEvent(TDE_SYSCALL_ACCEPT_E, AcceptEntry);
    TableUpToStep(27, AcceptEntry);
    te.AddTarianEvent(TDE_SYSCALL_ACCEPT_R, AcceptExit);
    TableUpToStep(28, AcceptExit);
    te.AddTarianEvent(TDE_SYSCALL_BIND_E, BindEntry);
    TableUpToStep(29, BindEntry);
    te.AddTarianEvent(TDE_SYSCALL_BIND_R, BindExit);
    TableUpToStep(30, BindExit);
    te.AddTarianEvent(TDE_SYSCALL_CONNECT_E, ConnectEntry);
    TableUpToStep(31, ConnectEntry);
    te.AddTarianEvent(TDE_SYSCALL_CONNECT_R, ConnectExit);
    TableUpToStep(32, ConnectExit);
  }

  /** GenerateTarianEvents: a fresh map holding exactly the event table. */
  method GenerateTarianEvents() returns (te: TarianEventMap)
    ensures fresh(te) && te.events == EventTable()
  {
    te := new TarianEventMap();
    assert te.events == TableUpTo(1);
    AddProcessEvents(te);
    AddReadWriteEvents(te);
    AddOpenEvents(te);
    AddNetworkEvents(te);
  }

  /** Looks an event id up in the table: an error exactly when the id is
      not a key. */
  function GetTarianEvent(events: map<int, TarianEvent>, idx: int): (r: Result<TarianEvent>)
    ensures r.Ok? <==> idx in events
    ensures r.Ok? ==> r.value == events[idx]
    ensures r.Err? ==> r.error == MissingEvent(idx)
  {
    if idx in events then Ok(events[idx]) else Err(MissingEvent(idx))
  }

  /** Every event id the kernel programs emit (2 to 33) is found in the
      generated table, and no other id is. */
  lemma GetTarianEventOfTable(idx: int)
    ensures GetTarianEvent(EventTable(), idx).Ok? <==> 2 <= idx <= 33
  {
    assert idx in EventTable().Keys <==> 2 <= idx <= 33;
  }

  /** The decimal texts of the bytes, separated by single spaces. */
  function JoinBytes(b: seq<byte>): string
  {
    if |b| == 0 then ""
    else if |b| == 1 then Decimal(b[0] as nat)
    else Decimal(b[0] as nat) + " " + JoinBytes(b[1..])
  }

  /** fmt.Sprintf("%v", v) for the values the decoder produces: numbers in
      decimal, strings as they are, a byte slice as "[1 2 3]" and nil as
      "<nil>". */
  function DefaultText(v: Value): string
  {
    match v
    case Nil => "<nil>"
    case Uint(n, _) => Decimal(n)
    case Int(i, _) => SignedDecimal(i)
    case Str(t) => t
    case Bytes(b) => "[" + JoinBytes(b) + "]"
  }

  /** Param.processValue: the argument built from a decoded value. With a
      callback, its text or its error; without one, the default `%v` text. */
  function ProcessValue(p: Param, v: Value, u: Helpers): (r: Result<Arg>)
    ensures r.Err? <==> p.fn.Some? && u.callback(p.fn.value, v).Err?
    ensures r.Err? ==> r.error == u.callback(p.fn.value, v).error
    ensures r.Ok? ==> r.value.name == p.name && r.value.linuxType == p.linuxType
    ensures r.Ok? ==> r.value.tarianType == ParamTypeName(p.paramType)
    ensures r.Ok? ==>
      r.value.value == (if p.fn.Some? then u.callback(p.fn.value, v).value else DefaultText(v))
  {
    match p.fn
    case Some(f) =>
      (match u.callback(f, v)
       case Err(e) => Err(e)
       case Ok(text) => Ok(Arg(p.name, text, ParamTypeName(p.paramType), p.linuxType)))
    case None => Ok(Arg(p.name, DefaultText(v), ParamTypeName(p.paramType), p.linuxType))
  }
}
