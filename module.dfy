/** pkg/eBPF/module.go: a named group of kernel programs with an optional
    ring-buffer map. Preparing a module creates a handler (with readers for
    the map, if any); attaching it attaches every enabled program in order
    and hands the links to the handler. The handler is modelled by the
    fields the module touches; creating map readers and attaching a probe
    are functions passed in. */
module Modules {
  import opened Results
  import opened Programs

  /** *MapInfo: the module's map. */
  datatype MapInfo = MapInfo(id: nat)

  /** A reader on one of the map's ring buffers. */
  datatype MapReader = MapReader(id: nat)

  /** A probe link returned by attaching a program. */
  datatype Link = Link(id: nat)

  /** Handler: what Prepare and Attach leave in it. */
  class Handler {
    var name: string
    var mapReaders: seq<MapReader>
    var probeLinks: seq<Link>
    var countPrograms: int

    /** NewHandler. */
    constructor (n: string)
      ensures name == n && mapReaders == [] && probeLinks == [] && countPrograms == 0
    {
      name := n;
      mapReaders := [];
      probeLinks := [];
      countPrograms := 0;
    }

    /** AddMapReaders. */
    method AddMapReaders(mrs: seq<MapReader>)
      modifies this
      ensures mapReaders == old(mapReaders) + mrs
      ensures name == old(name) && probeLinks == old(probeLinks) && countPrograms == old(countPrograms)
    {
      mapReaders := mapReaders + mrs;
    }

    /** AddProbeLink. */
    method AddProbeLink(l: Link)
      modifies this
      ensures probeLinks == old(probeLinks) + [l]
      ensures name == old(name) && mapReaders == old(mapReaders) && countPrograms == old(countPrograms)
    {
      probeLinks := probeLinks + [l];
    }
  }

  // ---------------------------------------------------------------------
  // Specification functions

  /** The programs of `ps` that are set to be attached, in order. */
  function Enabled(ps: seq<ProgramInfo>): (r: seq<ProgramInfo>)
    reads ps
    ensures |r| <= |ps|
  {
    if |ps| == 0 then []
    else Enabled(ps[..|ps| - 1]) + (if ps[|ps| - 1].shouldAttach then [ps[|ps| - 1]] else [])
  }

  /** A program is among the enabled ones exactly when it is in the list
      and set to be attached. */
  lemma {:induction false} EnabledMembers(ps: seq<ProgramInfo>, p: ProgramInfo)
    ensures p in Enabled(ps) <==> p in ps && p.shouldAttach
  {
    if |ps| > 0 {
      EnabledMembers(ps[..|ps| - 1], p);
      assert ps == ps[..|ps| - 1] + [ps[|ps| - 1]];
    }
  }

  /** Disabling nothing: when every program is enabled, all are kept. */
  lemma {:induction false} EnabledAll(ps: seq<ProgramInfo>)
    requires forall i :: 0 <= i < |ps| ==> ps[i].shouldAttach
    ensures Enabled(ps) == ps
  {
    if |ps| > 0 {
      EnabledAll(ps[..|ps| - 1]);
      assert ps == ps[..|ps| - 1] + [ps[|ps| - 1]];
    }
  }

  /** What attaching the programs `ps` in order yields: the links made, and
      the error of the first enabled program that fails to attach, after
      which nothing more is attempted. */
  function AttachRun(ps: seq<ProgramInfo>, attach: (HookInfo, ProgramHandle) -> Result<Link>)
    : (r: (seq<Link>, Option<Error>))
    reads ps
  {
    if |ps| == 0 then ([], None)
    else
      var (links, failure) := AttachRun(ps[..|ps| - 1], attach);
      var p := ps[|ps| - 1];
      if failure.Some? || !p.shouldAttach then (links, failure)
      else match attach(p.hook, p.name)
        case Ok(l) => (links + [l], None)
        case Err(e) => (links, Some(e))
  }

  /** A run never makes more links than there are enabled programs. */
  lemma {:induction false} AttachRunBounded(ps: seq<ProgramInfo>, attach: (HookInfo, ProgramHandle) -> Result<Link>)
    ensures |AttachRun(ps, attach).0| <= |Enabled(ps)|
  {
    if |ps| > 0 {
      AttachRunBounded(ps[..|ps| - 1], attach);
    }
  }

  /** One more program: the run over the first i + 1 programs extends the
      run over the first i. */
  lemma AttachRunStep(ps: seq<ProgramInfo>, i: nat, attach: (HookInfo, ProgramHandle) -> Result<Link>)
    requires i < |ps| && AttachRun(ps[..i], attach).1.None?
    ensures !ps[i].shouldAttach ==> AttachRun(ps[..i + 1], attach) == AttachRun(ps[..i], attach)
    ensures (ps[i].shouldAttach && attach(ps[i].hook, ps[i].name).Ok?)
              ==> AttachRun(ps[..i + 1], attach)
                  == (AttachRun(ps[..i], attach).0 + [attach(ps[i].hook, ps[i].name).value], None)
    ensures (ps[i].shouldAttach && attach(ps[i].hook, ps[i].name).Err?)
              ==> AttachRun(ps[..i + 1], attach)
                  == (AttachRun(ps[..i], attach).0, Some(attach(ps[i].hook, ps[i].name).error))
  {
    assert ps[..i + 1][..i] == ps[..i];
  }

  /** Attaching fails exactly when some enabled program fails to attach. */
  lemma {:induction false} AttachRunFailsIff(ps: seq<ProgramInfo>, attach: (HookInfo, ProgramHandle) -> Result<Link>)
    ensures AttachRun(ps, attach).1.Some?
        <==> exists i :: 0 <= i < |ps| && ps[i].shouldAttach && attach(ps[i].hook, ps[i].name).Err?
  {
    if |ps| > 0 {
      var init := ps[..|ps| - 1];
      AttachRunFailsIff(init, attach);
      if AttachRun(init, attach).1.Some? {
        var i :| 0 <= i < |init| && init[i].shouldAttach && attach(init[i].hook, init[i].name).Err?;
        assert ps[i] == init[i];
      } else {
        forall i | 0 <= i < |init|
          ensures !(ps[i].shouldAttach && attach(ps[i].hook, ps[i].name).Err?)
        {
          assert ps[i] == init[i];
        }
      }
    }
  }

  /** A successful run makes one link per enabled program: Count() links. */
  lemma {:induction false} AttachRunSucceeds(ps: seq<ProgramInfo>, attach: (HookInfo, ProgramHandle) -> Result<Link>)
    requires AttachRun(ps, attach).1.None?
    ensures |AttachRun(ps, attach).0| == |Enabled(ps)|
  {
    if |ps| > 0 {
      AttachRunSucceeds(ps[..|ps| - 1], attach);
    }
  }

  /** Once a program has failed, the programs after it change nothing: the
      links made before the failure are what the run returns. */
  lemma {:induction false} AttachRunStopsAtFailure(ps: seq<ProgramInfo>, n: nat, attach: (HookInfo, ProgramHandle) -> Result<Link>)
    requires n <= |ps| && AttachRun(ps[..n], attach).1.Some?
    ensures AttachRun(ps, attach) == AttachRun(ps[..n], attach)
  {
    if n < |ps| {
      assert ps[..|ps| - 1][..n] == ps[..n];
      AttachRunStopsAtFailure(ps[..|ps| - 1], n, attach);
    } else {
      assert ps[..n] == ps;
    }
  }

  // ---------------------------------------------------------------------
  // Module

  class Module {
    var name: string
    var programs: seq<ProgramInfo>
    var ebpfMap: Option<MapInfo>

    /** NewModule: no programs and no map yet. */
    constructor NewModule(n: string)
      ensures name == n && programs == [] && ebpfMap == None
    {
      name := n;
      programs := [];
      ebpfMap := None;
    }

    /** AddProgram: appends at the end. */
    method AddProgram(prog: ProgramInfo)
      modifies this
      ensures programs == old(programs) + [prog]
      ensures name == old(name) && ebpfMap == old(ebpfMap)
    {
      programs := programs + [prog];
    }

    /** Map: sets the map and nothing else. */
    method Map(mp: Option<MapInfo>)
      modifies this
      ensures ebpfMap == mp
      ensures name == old(name) && programs == old(programs)
    {
      ebpfMap := mp;
    }

    /** Count: the number of programs set to be attached. */
    method Count() returns (count: int)
      ensures count == |Enabled(programs)|
    {
      count := 0;
      for i := 0 to |programs|
        invariant count == |Enabled(programs[..i])|
      {
        assert programs[..i + 1][..i] == programs[..i];
        if programs[i].shouldAttach {
          count := count + 1;
        }
      }
      assert programs[..|programs|] == programs;
    }

    /** Prepare: a handler named after the module, with the map's readers
      when there is a map, and the number of programs to attach. */
    method Prepare(createReaders: MapInfo -> Result<seq<MapReader>>) returns (r: Result<Handler>)
      ensures (ebpfMap.Some? && createReaders(ebpfMap.value).Err?)
                ==> r == Err(ReadersFailed(createReaders(ebpfMap.value).error))
      ensures ebpfMap.None? ==> r.Ok? && r.value.mapReaders == []
      ensures (ebpfMap.Some? && createReaders(ebpfMap.value).Ok?)
                ==> r.Ok? && r.value.mapReaders == createReaders(ebpfMap.value).value
      ensures r.Ok? ==> && fresh(r.value) && r.value.name == name
                        && r.value.probeLinks == [] && r.value.countPrograms == |Enabled(programs)|
    {
      var handler := new Handler(name);

      if ebpfMap.Some? {
        var mrs := createReaders(ebpfMap.value);
        if mrs.Err? {
          return Err(ReadersFailed(mrs.error));
        }
        handler.AddMapReaders(mrs.value);
      }

      handler.countPrograms := Count();
      return Ok(handler);
    }

    /** Attach: attaches the enabled programs in order, adding each link to
      the handler, and stops at the first failure, keeping the links
      already added. */
    method Attach(handler: Handler, attach: (HookInfo, ProgramHandle) -> Result<Link>) returns (r: Result<()>)
      modifies handler
      ensures handler.probeLinks == old(handler.probeLinks) + AttachRun(programs, attach).0
      ensures r.Err? <==> AttachRun(programs, attach).1.Some?
      ensures r.Err? ==> r.error == AttachFailed(AttachRun(programs, attach).1.value)
      ensures handler.name == old(handler.name) && handler.mapReaders == old(handler.mapReaders)
      ensures handler.countPrograms == old(handler.countPrograms)
    {
      for i := 0 to |programs|
        invariant handler.probeLinks == old(handler.probeLinks) + AttachRun(programs[..i], attach).0
        invariant AttachRun(programs[..i], attach).1.None?
        invariant handler.name == old(handler.name) && handler.mapReaders == old(handler.mapReaders)
        invariant handler.countPrograms == old(handler.countPrograms)
      {
        AttachRunStep(programs, i, attach);
        var prog := programs[i];
        var hook := prog.hook;

        if !prog.shouldAttach {
          continue;
        }

        var pL := attach(hook, prog.name);
        if pL.Err? {
          AttachRunStopsAtFailure(programs, i + 1, attach);
          return Err(AttachFailed(pL.error));
        }

        handler.AddProbeLink(pL.value);
      }
      assert programs[..|programs|] == programs;
      return Ok(());
    }
  }
}
