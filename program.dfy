/** pkg/eBPF/program.go: one kernel program of a module, the hook it is to
    be attached to, and whether it should be attached at all. */
module Programs {

  /** *ebpf.Program: a loaded kernel program, known here only by identity. */
  datatype ProgramHandle = ProgramHandle(id: nat)

  /** *HookInfo: where a program is attached (kprobe, tracepoint, …); the
      attaching itself is not part of this model. */
  datatype HookInfo = HookInfo(id: nat)

  /** ProgramInfo. */
  class ProgramInfo {
    var name: ProgramHandle
    var hook: HookInfo
    var shouldAttach: bool

    /** NewProgram: a program is to be attached unless disabled later. */
    constructor NewProgram(n: ProgramHandle, h: HookInfo)
      ensures name == n && hook == h && shouldAttach
    {
      name := n;
      hook := h;
      shouldAttach := true;
    }

    /** Enable: marks the program for attaching and returns the receiver. */
    method Enable() returns (pi: ProgramInfo)
      modifies this
      ensures pi == this && GetShouldAttach()
      ensures GetName() == old(GetName()) && GetHook() == old(GetHook())
    {
      shouldAttach := true;
      return this;
    }

    /** Disable: marks the program to be skipped and returns the receiver. */
    method Disable() returns (pi: ProgramInfo)
      modifies this
      ensures pi == this && !GetShouldAttach()
      ensures GetName() == old(GetName()) && GetHook() == old(GetHook())
    {
      shouldAttach := false;
      return this;
    }

    function GetHook(): HookInfo
      reads this
    {
      hook
    }

    function GetName(): ProgramHandle
      reads this
    {
      name
    }

    function GetShouldAttach(): bool
      reads this
    {
      shouldAttach
    }
  }
}
