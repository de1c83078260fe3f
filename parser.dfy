/** pkg/eventparser/parser.go: decoding one record received from the kernel.
    A record is the fixed header, then two length-prefixed strings (working
    directory and executable), then the parameters the event table declares
    for the event, each encoded by its type. The position of the stream only
    moves forward; a fixed-width read advances it whether or not it
    succeeded. */
module Parser {
  import opened Results
  import opened LittleEndian
  import opened External
  import opened EventTypes
  import opened Probes

  // Address families (Linux values).
  const AF_UNIX: nat := 1
  const AF_INET: nat := 2
  const AF_INET6: nat := 10

  /** The outcome of one read and the stream position after it. */
  datatype Step<+T> = Step(result: Result<T>, next: nat)

  // ---------------------------------------------------------------------
  // What each read does, as functions of the data and the position

  /** A fixed-width number: `width` bytes, signed or unsigned. */
  function NumberStep(data: seq<byte>, pos: nat, width: nat, signed: bool): (s: Step<Value>)
    requires width > 0
    ensures s.next == pos + width
    ensures s.result.Ok? <==> pos + width <= |data|
    ensures s.result.Err? ==> s.result.error == ShortBuffer(pos, width)
    ensures s.result.Ok? && !signed ==> s.result.value == Uint(LeUint(data[pos..pos + width]), width)
    ensures s.result.Ok? && signed ==> s.result.value == Int(ToSigned(LeUint(data[pos..pos + width]), width), width)
  {
    if signed then
      match ReadInt(data, pos, width)
      case Ok(i) => Step(Ok(Int(i, width)), pos + width)
      case Err(e) => Step(Err(e), pos + width)
    else
      match ReadUint(data, pos, width)
      case Ok(n) => Step(Ok(Uint(n, width)), pos + width)
      case Err(e) => Step(Err(e), pos + width)
  }

  /** parseString: a 16-bit length L, then L bytes handed to utils.ToString.
      Only the length read can fail. */
  function StringStep(data: seq<byte>, pos: nat, u: Helpers): (s: Step<string>)
    ensures s.result.Ok? <==> pos + 2 <= |data|
    ensures s.result.Err? ==> s == Step(Err(ShortBuffer(pos, 2)), pos + 2)
    ensures s.result.Ok? ==>
      var len := LeUint(data[pos..pos + 2]);
      s.next == pos + 2 + len && s.result.value == u.toString(data, pos + 2, len)
  {
    match ReadUint(data, pos, 2)
    case Err(e) => Step(Err(e), pos + 2)
    case Ok(len) => Step(Ok(u.toString(data, pos + 2, len)), pos + 2 + len)
  }

  /** parseRawArray: a 16-bit length L, then the next L bytes themselves.
      In Go a slice ending past the length of the data but within the
      capacity of its underlying array yields the bytes beyond it, and one
      ending past the capacity panics; the model has no capacity and gives
      the error SliceOutOfRange for both, with the position just after the
      length. */
  function RawArrayStep(data: seq<byte>, pos: nat): (s: Step<seq<byte>>)
    ensures s.result.Ok? <==> pos + 2 <= |data| && pos + 2 + LeUint(data[pos..pos + 2]) <= |data|
    ensures s.result.Ok? ==>
      s.next == pos + 2 + LeUint(data[pos..pos + 2]) && s.result.value == data[pos + 2..s.next]
    ensures s.result.Err? ==> s.next == pos + 2
  {
    match ReadUint(data, pos, 2)
    case Err(e) => Step(Err(e), pos + 2)
    case Ok(len) =>
      if pos + 2 + len <= |data| then Step(Ok(data[pos + 2..pos + 2 + len]), pos + 2 + len)
      else Step(Err(SliceOutOfRange(pos + 2, len)), pos + 2)
  }

  /** fmt's "%+v" of the Go address structs. */
  function InetText(family: string, addr: string, port: nat): string
  {
    "{Family:" + family + " Sa_addr:" + addr + " Sa_port:" + Decimal(port) + "}"
  }

  function UnixText(path: string): string
  {
    "{Family:AF_UNIX Sun_path:" + path + "}"
  }

  /** The port that follows an address: a 16-bit read, then utils.Ntohs. */
  function PortStep(data: seq<byte>, pos: nat, family: string, addr: string, u: Helpers): (s: Step<Value>)
    ensures s.next == pos + 2
    ensures s.result.Ok? <==> pos + 2 <= |data|
    ensures s.result.Err? ==> s.result.error == ShortBuffer(pos, 2)
    ensures s.result.Ok? ==> s.result.value == Str(InetText(family, addr, u.ntohs(LeUint(data[pos..pos + 2]))))
  {
    match ReadUint(data, pos, 2)
    case Err(e) => Step(Err(e), pos + 2)
    case Ok(port) => Step(Ok(Str(InetText(family, addr, u.ntohs(port)))), pos + 2)
  }

  /** parseSocketAddress: a family byte, then an IPv4 address and port
      (AF_INET), an IPv6 address and port (AF_INET6) or a path string
      (AF_UNIX). Any other family gives nil having consumed the family
      byte only. */
  function SockAddrStep(data: seq<byte>, pos: nat, u: Helpers): (s: Step<Value>)
    ensures s.next > pos
    ensures pos >= |data| ==> s == Step(Err(ShortBuffer(pos, 1)), pos + 1)
    ensures pos < |data| && data[pos] as nat == AF_INET ==>
      s.next == pos + 7 && (s.result.Ok? <==> pos + 7 <= |data|)
    ensures (pos < |data| && data[pos] as nat == AF_INET && pos + 7 > |data|) ==>
      s.result == Err(ShortBuffer(pos + 5, 2))
    ensures (pos < |data| && data[pos] as nat == AF_INET && pos + 7 <= |data|) ==>
      s.result == Ok(Str(InetText("AF_INET", u.ipv4(data, pos + 1), u.ntohs(LeUint(data[pos + 5..pos + 7])))))
    ensures pos < |data| && data[pos] as nat == AF_INET6 ==>
      s.next == pos + 19 && (s.result.Ok? <==> pos + 19 <= |data|)
    ensures (pos < |data| && data[pos] as nat == AF_INET6 && pos + 19 > |data|) ==>
      s.result == Err(ShortBuffer(pos + 17, 2))
    ensures (pos < |data| && data[pos] as nat == AF_INET6 && pos + 19 <= |data|) ==>
      s.result == Ok(Str(InetText("AF_INET6", u.ipv6(data, pos + 1), u.ntohs(LeUint(data[pos + 17..pos + 19])))))
    ensures pos < |data| && data[pos] as nat == AF_UNIX ==>
      s.next == StringStep(data, pos + 1, u).next && (s.result.Ok? <==> pos + 3 <= |data|)
    ensures (pos < |data| && data[pos] as nat == AF_UNIX && pos + 3 > |data|) ==>
      s.result == Err(ShortBuffer(pos + 1, 2))
    ensures (pos < |data| && data[pos] as nat == AF_UNIX && pos + 3 <= |data|) ==>
      s.result == Ok(Str(UnixText(StringStep(data, pos + 1, u).result.value)))
    ensures pos < |data| && data[pos] as nat !in {AF_INET, AF_INET6, AF_UNIX} ==>
      s == Step(Ok(Nil), pos + 1)
  {
    match ReadUint(data, pos, 1)
    case Err(e) => Step(Err(e), pos + 1)
    case Ok(family) =>
      assert data[pos..pos + 1] == [data[pos]];
      if family == AF_INET then
        PortStep(data, pos + 5, "AF_INET", u.ipv4(data, pos + 1), u)
      else if family == AF_INET6 then
        PortStep(data, pos + 17, "AF_INET6", u.ipv6(data, pos + 1), u)
      else if family == AF_UNIX then
        var path := StringStep(data, pos + 1, u);
        match path.result
        case Err(e) => Step(Err(e), path.next)
        case Ok(p) => Step(Ok(Str(UnixText(p))), path.next)
      else
        Step(Ok(Nil), pos + 1)
  }

  /** The parameter types parseParam decodes; any other type reads nothing. */
  predicate IsDecodedType(t: uint32)
  {
    t in {TDT_U8, TDT_U16, TDT_U32, TDT_U64, TDT_S8, TDT_S16, TDT_S32, TDT_S64,
          TDT_STR, TDT_STR_ARR, TDT_BYTE_ARR, TDT_SOCKADDR}
  }

  /** The value of a parameter of type `t`, read at `pos`. */
  function ValueStep(data: seq<byte>, pos: nat, t: uint32, u: Helpers): (s: Step<Value>)
    ensures s.next >= pos
    ensures IsDecodedType(t) ==> s.next > pos
    ensures !IsDecodedType(t) ==> s == Step(Ok(Nil), pos)
    ensures t == TDT_U8 ==> s == NumberStep(data, pos, 1, false)
    ensures t == TDT_U16 ==> s == NumberStep(data, pos, 2, false)
    ensures t == TDT_U32 ==> s == NumberStep(data, pos, 4, false)
    ensures t == TDT_U64 ==> s == NumberStep(data, pos, 8, false)
    ensures t == TDT_S8 ==> s == NumberStep(data, pos, 1, true)
    ensures t == TDT_S16 ==> s == NumberStep(data, pos, 2, true)
    ensures t == TDT_S32 ==> s == NumberStep(data, pos, 4, true)
    ensures t == TDT_S64 ==> s == NumberStep(data, pos, 8, true)
    ensures (t == TDT_STR || t == TDT_STR_ARR) ==>
      var str := StringStep(data, pos, u);
      s.next == str.next && (s.result.Ok? <==> str.result.Ok?)
      && (s.result.Ok? ==> s.result.value == Str(str.result.value))
      && (s.result.Err? ==> s.result.error == str.result.error)
    ensures t == TDT_BYTE_ARR ==>
      var arr := RawArrayStep(data, pos);
      s.next == arr.next && (s.result.Ok? <==> arr.result.Ok?)
      && (s.result.Ok? ==> s.result.value == Bytes(arr.result.value))
      && (s.result.Err? ==> s.result.error == arr.result.error)
    ensures t == TDT_SOCKADDR ==> s == SockAddrStep(data, pos, u)
  {
    if t == TDT_U8 then NumberStep(data, pos, 1, false)
    else if t == TDT_U16 then NumberStep(data, pos, 2, false)
    else if t == TDT_U32 then NumberStep(data, pos, 4, false)
    else if t == TDT_U64 then NumberStep(data, pos, 8, false)
    else if t == TDT_S8 then NumberStep(data, pos, 1, true)
    else if t == TDT_S16 then NumberStep(data, pos, 2, true)
    else if t == TDT_S32 then NumberStep(data, pos, 4, true)
    else if t == TDT_S64 then NumberStep(data, pos, 8, true)
    else if t == TDT_STR || t == TDT_STR_ARR then
      var s := StringStep(data, pos, u);
      (match s.result
       case Err(e) => Step(Err(e), s.next)
       case Ok(text) => Step(Ok(Str(text)), s.next))
    else if t == TDT_BYTE_ARR then
      var s := RawArrayStep(data, pos);
      (match s.result
       case Err(e) => Step(Err(e), s.next)
       case Ok(b) => Step(Ok(Bytes(b)), s.next))
    else if t == TDT_SOCKADDR then SockAddrStep(data, pos, u)
    else Step(Ok(Nil), pos)
  }

  /** parseParam: the value, then Param.processValue. */
  function ParamStep(data: seq<byte>, pos: nat, p: Param, u: Helpers): (s: Step<Arg>)
    ensures s.next >= pos
    ensures s.next == ValueStep(data, pos, p.paramType, u).next
    ensures s.result.Ok? ==>
      s.result.value.name == p.name && s.result.value.linuxType == p.linuxType
      && s.result.value.tarianType == ParamTypeName(p.paramType)
    ensures var v := ValueStep(data, pos, p.paramType, u);
      s.result.Err? <==> v.result.Err? || ProcessValue(p, v.result.value, u).Err?
    ensures var v := ValueStep(data, pos, p.paramType, u);
      v.result.Err? ==> s.result == Err(v.result.error)
    ensures var v := ValueStep(data, pos, p.paramType, u);
      v.result.Ok? ==> s.result == ProcessValue(p, v.result.value, u)
  {
    var v := ValueStep(data, pos, p.paramType, u);
    match v.result
    case Err(e) => Step(Err(e), v.next)
    case Ok(x) => Step(ProcessValue(p, x, u), v.next)
  }

  /** True when every argument was built from the declared parameter at the
      same index, starting at index `from`. */
  predicate FollowsParams(args: seq<Arg>, params: seq<Param>, from: nat)
  {
    from + |args| <= |params| &&
    forall k :: 0 <= k < |args| ==>
      args[k].name == params[from + k].name && args[k].linuxType == params[from + k].linuxType
      && args[k].tarianType == ParamTypeName(params[from + k].paramType)
  }

  /** An argument built from parameter i, in front of arguments that follow
      the parameters from i + 1, follows them from i. */
  lemma FollowsParamsCons(arg: Arg, args: seq<Arg>, params: seq<Param>, i: nat)
    requires i < |params| && FollowsParams(args, params, i + 1)
    requires arg.name == params[i].name && arg.linuxType == params[i].linuxType
    requires arg.tarianType == ParamTypeName(params[i].paramType)
    ensures FollowsParams([arg] + args, params, i)
  {
    var all := [arg] + args;
    forall k | 0 <= k < |all|
      ensures all[k].name == params[i + k].name && all[k].linuxType == params[i + k].linuxType
        && all[k].tarianType == ParamTypeName(params[i + k].paramType)
    {
      if k > 0 {
        assert all[k] == args[k - 1];
      }
    }
  }

  /** The loop of parseParams from iteration `i` at position `pos`: it stops
      after `nparams` iterations, at the end of the data, or when the
      declared parameters run out; the first failing parameter fails it. */
  function ParamsLoop(data: seq<byte>, pos: nat, params: seq<Param>, i: nat, nparams: nat, u: Helpers): (s: Step<seq<Arg>>)
    requires i <= |params| && i <= nparams
    decreases nparams - i
    ensures s.next >= pos
    ensures s.result.Ok? ==> |s.result.value| <= nparams - i && FollowsParams(s.result.value, params, i)
  {
    if i >= nparams || pos >= |data| || i >= |params| then Step(Ok([]), pos)
    else
      var p := ParamStep(data, pos, params[i], u);
      match p.result
      case Err(e) => Step(Err(e), p.next)
      case Ok(arg) =>
        var rest := ParamsLoop(data, p.next, params, i + 1, nparams, u);
        match rest.result
        case Err(e) => rest
        case Ok(args) =>
          FollowsParamsCons(arg, args, params, i);
          Step(Ok([arg] + args), rest.next)
  }

  /** When the loop of parseParams ends without reading: after `nparams`
      iterations, at the end of the data, or past the declared parameters. */
  predicate Stops(data: seq<byte>, pos: nat, params: seq<Param>, i: nat, nparams: nat)
  {
    i >= nparams || pos >= |data| || i >= |params|
  }

  /** `args` are what parameters i, i + 1, … decode to, each read where the
      one before it ended, with the loop going on before each of them; the
      last of them ends at `end`. */
  ghost predicate Walk(data: seq<byte>, pos: nat, params: seq<Param>, i: nat, nparams: nat,
                       args: seq<Arg>, end: nat, u: Helpers)
    decreases |args|
  {
    if |args| == 0 then end == pos
    else
      && !Stops(data, pos, params, i, nparams)
      && ParamStep(data, pos, params[i], u).result == Ok(args[0])
      && Walk(data, ParamStep(data, pos, params[i], u).next, params, i + 1, nparams, args[1..], end, u)
  }

  // The loop of parseParams over any step function `f`, taking a position
  // and a parameter index: it stops at iteration `n` or at position `len`.
  // The lemmas below are proved once here, then read back for ParamStep.

  predicate StopsAt(len: nat, n: nat, pos: nat, i: nat)
  {
    i >= n || pos >= len
  }

  ghost function LoopOf(f: (nat, nat) -> Step<Arg>, len: nat, n: nat, pos: nat, i: nat): Step<seq<Arg>>
    decreases n - i
  {
    if StopsAt(len, n, pos, i) then Step(Ok([]), pos)
    else
      var p := f(pos, i);
      if p.result.Err? then Step(Err(p.result.error), p.next)
      else Prepend([p.result.value], LoopOf(f, len, n, p.next, i + 1))
  }

  ghost predicate WalkOf(f: (nat, nat) -> Step<Arg>, len: nat, n: nat, pos: nat, i: nat, args: seq<Arg>, end: nat)
    decreases |args|
  {
    if |args| == 0 then end == pos
    else
      && !StopsAt(len, n, pos, i)
      && f(pos, i).result == Ok(args[0])
      && WalkOf(f, len, n, f(pos, i).next, i + 1, args[1..], end)
  }

  lemma {:induction false} LoopOfSound(f: (nat, nat) -> Step<Arg>, len: nat, n: nat, pos: nat, i: nat)
    ensures var s := LoopOf(f, len, n, pos, i);
      s.result.Ok? ==>
        WalkOf(f, len, n, pos, i, s.result.value, s.next) && StopsAt(len, n, s.next, i + |s.result.value|)
    decreases n - i
  {
    if !StopsAt(len, n, pos, i) && f(pos, i).result.Ok? {
      var rest := LoopOf(f, len, n, f(pos, i).next, i + 1);
      LoopOfSound(f, len, n, f(pos, i).next, i + 1);
      if rest.result.Ok? {
        var args := [f(pos, i).result.value] + rest.result.value;
        assert args[0] == f(pos, i).result.value && args[1..] == rest.result.value;
      }
    }
  }

  /** A failing loop made a walk to a step, before it stops, that fails
      with the loop's error. */
  lemma {:induction false} LoopOfFails(f: (nat, nat) -> Step<Arg>, len: nat, n: nat, pos: nat, i: nat, e: Error)
    returns (args: seq<Arg>, end: nat)
    requires LoopOf(f, len, n, pos, i).result == Err(e)
    ensures WalkOf(f, len, n, pos, i, args, end)
    ensures !StopsAt(len, n, end, i + |args|) && f(end, i + |args|).result == Err(e)
    decreases n - i
  {
    if f(pos, i).result.Err? {
      args, end := [], pos;
    } else {
      var rest;
      rest, end := LoopOfFails(f, len, n, f(pos, i).next, i + 1, e);
      args := [f(pos, i).result.value] + rest;
      assert args[0] == f(pos, i).result.value && args[1..] == rest;
    }
  }

  lemma {:induction false} LoopOfWalk(f: (nat, nat) -> Step<Arg>, len: nat, n: nat, pos: nat, i: nat, args: seq<Arg>, end: nat)
    requires WalkOf(f, len, n, pos, i, args, end)
    ensures StopsAt(len, n, end, i + |args|) ==> LoopOf(f, len, n, pos, i) == Step(Ok(args), end)
    ensures !StopsAt(len, n, end, i + |args|) && f(end, i + |args|).result.Err? ==>
      LoopOf(f, len, n, pos, i).result == Err(f(end, i + |args|).result.error)
    decreases |args|
  {
    if |args| > 0 {
      LoopOfWalk(f, len, n, f(pos, i).next, i + 1, args[1..], end);
      assert [args[0]] + args[1..] == args;
    }
  }

  /** The step of parseParams at a position and a parameter index. */
  ghost function ParamStepAt(data: seq<byte>, params: seq<Param>, u: Helpers): (nat, nat) -> Step<Arg>
  {
    (pos: nat, i: nat) => if i < |params| then ParamStep(data, pos, params[i], u) else Step(Err(NoParams), pos)
  }

  function Bound(params: seq<Param>, nparams: nat): nat
  {
    if nparams < |params| then nparams else |params|
  }

  lemma {:induction false} ParamsLoopIsLoopOf(data: seq<byte>, pos: nat, params: seq<Param>, i: nat, nparams: nat, u: Helpers)
    requires i <= |params| && i <= nparams
    ensures ParamsLoop(data, pos, params, i, nparams, u)
      == LoopOf(ParamStepAt(data, params, u), |data|, Bound(params, nparams), pos, i)
    decreases nparams - i
  {
    if !Stops(data, pos, params, i, nparams) {
      var p := ParamStep(data, pos, params[i], u);
      assert ParamStepAt(data, params, u)(pos, i) == p;
      if p.result.Ok? {
        ParamsLoopIsLoopOf(data, p.next, params, i + 1, nparams, u);
      }
    }
  }

  lemma {:induction false} WalkIsWalkOf(data: seq<byte>, pos: nat, params: seq<Param>, i: nat, nparams: nat,
                                        args: seq<Arg>, end: nat, u: Helpers)
    ensures Walk(data, pos, params, i, nparams, args, end, u)
      <==> WalkOf(ParamStepAt(data, params, u), |data|, Bound(params, nparams), pos, i, args, end)
    decreases |args|
  {
    if |args| > 0 {
      if i < |params| {
        var p := ParamStep(data, pos, params[i], u);
        assert ParamStepAt(data, params, u)(pos, i) == p;
        WalkIsWalkOf(data, p.next, params, i + 1, nparams, args[1..], end, u);
      }
    }
  }

  /** What the loop returns on success: the arguments of a walk that ends
      where the loop stops. */
  lemma ParamsLoopSound(data: seq<byte>, pos: nat, params: seq<Param>, i: nat, nparams: nat, u: Helpers)
    requires i <= |params| && i <= nparams
    ensures var s := ParamsLoop(data, pos, params, i, nparams, u);
      s.result.Ok? ==>
        Walk(data, pos, params, i, nparams, s.result.value, s.next, u)
        && Stops(data, s.next, params, i + |s.result.value|, nparams)
  {
    var s := ParamsLoop(data, pos, params, i, nparams, u);
    ParamsLoopIsLoopOf(data, pos, params, i, nparams, u);
    LoopOfSound(ParamStepAt(data, params, u), |data|, Bound(params, nparams), pos, i);
    if s.result.Ok? {
      WalkIsWalkOf(data, pos, params, i, nparams, s.result.value, s.next, u);
    }
  }

  /** How the loop fails: a walk reaches a parameter, the loop does not stop
      there, and that parameter's step fails with the loop's error. */
  lemma ParamsLoopFails(data: seq<byte>, pos: nat, params: seq<Param>, i: nat, nparams: nat, u: Helpers)
    requires i <= |params| && i <= nparams
    ensures var s := ParamsLoop(data, pos, params, i, nparams, u);
      s.result.Err? ==>
        exists args: seq<Arg>, end: nat ::
          && Walk(data, pos, params, i, nparams, args, end, u)
          && !Stops(data, end, params, i + |args|, nparams)
          && ParamStep(data, end, params[i + |args|], u).result == Err(s.result.error)
  {
    var s := ParamsLoop(data, pos, params, i, nparams, u);
    if s.result.Err? {
      var f := ParamStepAt(data, params, u);
      var n := Bound(params, nparams);
      ParamsLoopIsLoopOf(data, pos, params, i, nparams, u);
      var args, end := LoopOfFails(f, |data|, n, pos, i, s.result.error);
      WalkIsWalkOf(data, pos, params, i, nparams, args, end, u);
      var k := i + |args|;
      assert Walk(data, pos, params, i, nparams, args, end, u);
      assert !Stops(data, end, params, k, nparams);
      assert f(end, k) == ParamStep(data, end, params[k], u);
      assert ParamStep(data, end, params[k], u).result == Err(s.result.error);
    }
  }

  /** Conversely, a walk to a point where the loop stops is what the loop
      returns, and a walk to a parameter whose step fails makes the loop
      fail with that error. */
  lemma ParamsLoopOfWalk(data: seq<byte>, pos: nat, params: seq<Param>, i: nat, nparams: nat,
                         args: seq<Arg>, end: nat, u: Helpers)
    requires i <= |params| && i <= nparams
    requires Walk(data, pos, params, i, nparams, args, end, u)
    ensures Stops(data, end, params, i + |args|, nparams) ==>
      ParamsLoop(data, pos, params, i, nparams, u) == Step(Ok(args), end)
    ensures (!Stops(data, end, params, i + |args|, nparams)
             && ParamStep(data, end, params[i + |args|], u).result.Err?) ==>
      ParamsLoop(data, pos, params, i, nparams, u).result
        == Err(ParamStep(data, end, params[i + |args|], u).result.error)
  {
    var f := ParamStepAt(data, params, u);
    ParamsLoopIsLoopOf(data, pos, params, i, nparams, u);
    WalkIsWalkOf(data, pos, params, i, nparams, args, end, u);
    LoopOfWalk(f, |data|, Bound(params, nparams), pos, i, args, end);
    if !Stops(data, end, params, i + |args|, nparams) {
      assert f(end, i + |args|) == ParamStep(data, end, params[i + |args|], u);
    }
  }

  /** parseParams: an event without declared parameters is an error; otherwise
      the loop above from the first parameter. */
  function ParamsStep(data: seq<byte>, pos: nat, params: seq<Param>, nparams: nat, u: Helpers): (s: Step<seq<Arg>>)
    ensures |params| == 0 ==> s == Step(Err(NoParams), pos)
    ensures s.result.Ok? ==>
      |s.result.value| <= nparams && |s.result.value| <= |params| && FollowsParams(s.result.value, params, 0)
  {
    if |params| == 0 then Step(Err(NoParams), pos) else ParamsLoop(data, pos, params, 0, nparams, u)
  }

  /** parseParams succeeds with the arguments of a walk over the declared
      parameters that ends where the loop stops, and fails exactly when the
      event declares no parameters or a walk reaches a parameter, before
      the loop stops, whose step fails. */
  lemma ParamsStepCharacterised(data: seq<byte>, pos: nat, params: seq<Param>, nparams: nat, u: Helpers)
    ensures var s := ParamsStep(data, pos, params, nparams, u);
      s.result.Ok? ==>
        |params| > 0 && Walk(data, pos, params, 0, nparams, s.result.value, s.next, u)
        && Stops(data, s.next, params, |s.result.value|, nparams)
    ensures ParamsStep(data, pos, params, nparams, u).result.Err? <==>
      |params| == 0 ||
      exists args: seq<Arg>, end: nat ::
        && Walk(data, pos, params, 0, nparams, args, end, u)
        && !Stops(data, end, params, |args|, nparams)
        && ParamStep(data, end, params[|args|], u).result.Err?
  {
    if |params| > 0 {
      ParamsLoopSound(data, pos, params, 0, nparams, u);
      ParamsLoopFails(data, pos, params, 0, nparams, u);
      if exists args: seq<Arg>, end: nat ::
          && Walk(data, pos, params, 0, nparams, args, end, u)
          && !Stops(data, end, params, |args|, nparams)
          && ParamStep(data, end, params[|args|], u).result.Err? {
        var args: seq<Arg>, end: nat :|
          && Walk(data, pos, params, 0, nparams, args, end, u)
          && !Stops(data, end, params, |args|, nparams)
          && ParamStep(data, end, params[|args|], u).result.Err?;
        ParamsLoopOfWalk(data, pos, params, 0, nparams, args, end, u);
      }
    }
  }

  /** `args` put in front of the arguments of a step that succeeded. */
  function Prepend(args: seq<Arg>, s: Step<seq<Arg>>): Step<seq<Arg>>
  {
    match s.result
    case Ok(rest) => Step(Ok(args + rest), s.next)
    case Err(_) => s
  }

  lemma PrependNothing(s: Step<seq<Arg>>)
    ensures Prepend([], s) == s
  {
    if s.result.Ok? {
      assert [] + s.result.value == s.result.value;
    }
  }

  lemma PrependAppend(a: seq<Arg>, b: seq<Arg>, s: Step<seq<Arg>>)
    ensures Prepend(a, Prepend(b, s)) == Prepend(a + b, s)
  {
    if s.result.Ok? {
      assert a + (b + s.result.value) == (a + b) + s.result.value;
    }
  }

  // ---------------------------------------------------------------------
  // Facts about the reads

  /** The bytes `prefix`, the 16-bit length of `t`, `t`, then `suffix`: the
      length reads back at the end of the prefix and `t` follows it. */
  lemma LengthPrefixed(prefix: seq<byte>, t: seq<byte>, suffix: seq<byte>)
    requires |t| < 0x1_0000
    ensures var data := prefix + LeBytes(|t|, 2) + t + suffix;
      ReadUint(data, |prefix|, 2) == Ok(|t|)
      && |prefix| + 2 + |t| <= |data| && data[|prefix| + 2..|prefix| + 2 + |t|] == t
  {
    assert Pow256(2) == 0x1_0000 by { assert Pow256(1) == 256; }
    var data := prefix + LeBytes(|t|, 2) + t + suffix;
    assert data == prefix + LeBytes(|t|, 2) + (t + suffix);
    ReadUintOfWritten(prefix, |t|, 2, t + suffix);
    assert data[|prefix| + 2..|prefix| + 2 + |t|] == t;
  }

  /** A string written as its 16-bit length followed by its bytes is read
      back whole, and the stream moves just past it. */
  lemma StringFraming(prefix: seq<byte>, t: seq<byte>, suffix: seq<byte>, u: Helpers)
    requires |t| < 0x1_0000
    ensures var data := prefix + LeBytes(|t|, 2) + t + suffix;
      StringStep(data, |prefix|, u) == Step(Ok(u.toString(data, |prefix| + 2, |t|)), |prefix| + 2 + |t|)
  {
    LengthPrefixed(prefix, t, suffix);
  }

  /** A byte array written as its 16-bit length followed by its bytes is
      read back exactly. */
  lemma RawArrayRoundTrip(prefix: seq<byte>, b: seq<byte>, suffix: seq<byte>)
    requires |b| < 0x1_0000
    ensures RawArrayStep(prefix + LeBytes(|b|, 2) + b + suffix, |prefix|) == Step(Ok(b), |prefix| + 2 + |b|)
  {
    LengthPrefixed(prefix, b, suffix);
  }

  /** An IPv4 socket address written as the family byte, four address bytes
      and the port's two bytes is read back: the address is taken right
      after the family byte and the port is the one written, through ntohs. */
  lemma SockAddrInetRoundTrip(prefix: seq<byte>, addr: seq<byte>, port: nat, suffix: seq<byte>, u: Helpers)
    requires |addr| == 4 && port < 0x1_0000
    ensures var data := prefix + [AF_INET as byte] + addr + LeBytes(port, 2) + suffix;
      SockAddrStep(data, |prefix|, u)
        == Step(Ok(Str(InetText("AF_INET", u.ipv4(data, |prefix| + 1), u.ntohs(port)))), |prefix| + 7)
  {
    assert Pow256(2) == 0x1_0000 by { assert Pow256(1) == 256; }
    var head := prefix + [AF_INET as byte] + addr;
    var data := head + LeBytes(port, 2) + suffix;
    assert data[|prefix|] == AF_INET as byte;
    ReadUintOfWritten(head, port, 2, suffix);
  }

  /** The same for an IPv6 address of sixteen bytes. */
  lemma SockAddrInet6RoundTrip(prefix: seq<byte>, addr: seq<byte>, port: nat, suffix: seq<byte>, u: Helpers)
    requires |addr| == 16 && port < 0x1_0000
    ensures var data := prefix + [AF_INET6 as byte] + addr + LeBytes(port, 2) + suffix;
      SockAddrStep(data, |prefix|, u)
        == Step(Ok(Str(InetText("AF_INET6", u.ipv6(data, |prefix| + 1), u.ntohs(port)))), |prefix| + 19)
  {
    assert Pow256(2) == 0x1_0000 by { assert Pow256(1) == 256; }
    var head := prefix + [AF_INET6 as byte] + addr;
    var data := head + LeBytes(port, 2) + suffix;
    assert data[|prefix|] == AF_INET6 as byte;
    ReadUintOfWritten(head, port, 2, suffix);
  }

  /** A Unix socket address written as the family byte and a length-prefixed
      path is read back as that path, and the stream moves just past it. */
  lemma SockAddrUnixRoundTrip(prefix: seq<byte>, path: seq<byte>, suffix: seq<byte>, u: Helpers)
    requires |path| < 0x1_0000
    ensures var data := prefix + [AF_UNIX as byte] + LeBytes(|path|, 2) + path + suffix;
      SockAddrStep(data, |prefix|, u)
        == Step(Ok(Str(UnixText(u.toString(data, |prefix| + 3, |path|)))), |prefix| + 3 + |path|)
  {
    var head := prefix + [AF_UNIX as byte];
    var data := head + LeBytes(|path|, 2) + path + suffix;
    assert data[|prefix|] == AF_UNIX as byte;
    StringFraming(head, path, suffix, u);
  }

  /** A parameter of an unsigned type written as its little-endian bytes is
      read back as that number and handed to processValue. */
  lemma ParamStepOfUnsigned(prefix: seq<byte>, n: nat, w: nat, suffix: seq<byte>, p: Param, u: Helpers)
    requires (p.paramType == TDT_U8 && w == 1) || (p.paramType == TDT_U16 && w == 2)
             || (p.paramType == TDT_U32 && w == 4) || (p.paramType == TDT_U64 && w == 8)
    requires n < Pow256(w)
    ensures ParamStep(prefix + LeBytes(n, w) + suffix, |prefix|, p, u)
            == Step(ProcessValue(p, Uint(n, w), u), |prefix| + w)
  {
    ReadUintOfWritten(prefix, n, w, suffix);
  }

  /** A parameter of a signed type written as its two's-complement bytes is
      read back as that number and handed to processValue. */
  lemma ParamStepOfSigned(prefix: seq<byte>, i: int, w: nat, suffix: seq<byte>, p: Param, u: Helpers)
    requires (p.paramType == TDT_S8 && w == 1) || (p.paramType == TDT_S16 && w == 2)
             || (p.paramType == TDT_S32 && w == 4) || (p.paramType == TDT_S64 && w == 8)
    requires InSignedRange(i, w)
    ensures ParamStep(prefix + LeBytes(FromSigned(i, w), w) + suffix, |prefix|, p, u)
            == Step(ProcessValue(p, Int(i, w), u), |prefix| + w)
  {
    ToSignedOfFromSigned(i, w);
    ReadUintOfWritten(prefix, FromSigned(i, w), w, suffix);
  }

  /** The loop run from iteration i stops with i + (number of arguments)
      iterations done: if it made fewer than nparams iterations and did not
      fail, it either reached the end of the data or ran out of declared
      parameters. */
  lemma {:induction false} ParamsLoopStops(data: seq<byte>, pos: nat, params: seq<Param>, i: nat, nparams: nat, u: Helpers)
    requires i <= |params| && i <= nparams
    ensures var s := ParamsLoop(data, pos, params, i, nparams, u);
      s.result.Ok? && i + |s.result.value| < nparams ==>
        s.next >= |data| || i + |s.result.value| == |params|
    decreases nparams - i
  {
    if !(i >= nparams || pos >= |data| || i >= |params|) {
      var p := ParamStep(data, pos, params[i], u);
      if p.result.Ok? {
        ParamsLoopStops(data, p.next, params, i + 1, nparams, u);
      }
    }
  }

  /** The examples of the parser's unit tests. */
  lemma ParamStepExamples(u: Helpers)
    ensures ParamStep([1, 2, 3], 0, Param("test", TDT_U8, "uint8_t", None), u)
      == Step(Ok(Arg("test", "1", "TDT_U8", "uint8_t")), 1)
    ensures ParamStep([1, 2, 3], 0, Param("test", TDT_U16, "uint16_t", None), u)
      == Step(Ok(Arg("test", "513", "TDT_U16", "uint16_t")), 2)
  {
    var d: seq<byte> := [1, 2, 3];
    assert d[0..1] == [1] && d[0..2] == [1, 2];
    assert LeUint([1, 2]) == 1 + 256 * LeUint([2]);
    assert ReadUint(d, 0, 2) == Ok(513);
    assert Decimal(5) == "5" && Decimal(51) == "51";
    assert Decimal(513) == Decimal(51) + [DigitChar(3)] == "513";
  }

  lemma SockAddrExamples(u: Helpers)
    ensures SockAddrStep([], 0, u).result.Err?
    ensures SockAddrStep([0], 0, u) == Step(Ok(Nil), 1)
    ensures SockAddrStep([2, 8, 9, 0, 3, 1], 0, u).result.Err?
    ensures SockAddrStep([10, 8, 9, 0, 3, 1], 0, u).result.Err?
    ensures SockAddrStep([1, 8], 0, u).result.Err?
    ensures StringStep([1], 0, u).result.Err? && RawArrayStep([1], 0).result.Err?
  {
  }

  // ---------------------------------------------------------------------
  // The stream

  /** ByteStream: the bytes after the header, the read position and the
      parameter count taken from the header. */
  class ByteStream {
    const data: seq<byte>
    var position: nat
    const nparams: uint8

    /** NewByteStream */
    constructor (inputData: seq<byte>, n: uint8)
      ensures data == inputData && position == 0 && nparams == n
    {
      data := inputData;
      position := 0;
      nparams := n;
    }

    method ParseUint8() returns (r: Result<nat>)
      modifies this
      ensures r == ReadUint(data, old(position), 1) && position == old(position) + 1
    {
      r := ReadUint(data, position, 1);
      position := position + 1;
    }

    method ParseUint16() returns (r: Result<nat>)
      modifies this
      ensures r == ReadUint(data, old(position), 2) && position == old(position) + 2
    {
      r := ReadUint(data, position, 2);
      position := position + 2;
    }

    method ParseUint32() returns (r: Result<nat>)
      modifies this
      ensures r == ReadUint(data, old(position), 4) && position == old(position) + 4
    {
      r := ReadUint(data, position, 4);
      position := position + 4;
    }

    method ParseUint64() returns (r: Result<nat>)
      modifies this
      ensures r == ReadUint(data, old(position), 8) && position == old(position) + 8
    {
      r := ReadUint(data, position, 8);
      position := position + 8;
    }

    method ParseInt8() returns (r: Result<int>)
      modifies this
      ensures r == ReadInt(data, old(position), 1) && position == old(position) + 1
    {
      r := ReadInt(data, position, 1);
      position := position + 1;
    }

    method ParseInt16() returns (r: Result<int>)
      modifies this
      ensures r == ReadInt(data, old(position), 2) && position == old(position) + 2
    {
      r := ReadInt(data, position, 2);
      position := position + 2;
    }

    method ParseInt32() returns (r: Result<int>)
      modifies this
      ensures r == ReadInt(data, old(position), 4) && position == old(position) + 4
    {
      r := ReadInt(data, position, 4);
      position := position + 4;
    }

    method ParseInt64() returns (r: Result<int>)
      modifies this
      ensures r == ReadInt(data, old(position), 8) && position == old(position) + 8
    {
      r := ReadInt(data, position, 8);
      position := position + 8;
    }

    method ParseIpv4(u: Helpers) returns (addr: string)
      modifies this
      ensures addr == u.ipv4(data, old(position)) && position == old(position) + 4
    {
      addr := u.ipv4(data, position);
      position := position + 4;
    }

    method ParseIpv6(u: Helpers) returns (addr: string)
      modifies this
      ensures addr == u.ipv6(data, old(position)) && position == old(position) + 16
    {
      addr := u.ipv6(data, position);
      position := position + 16;
    }

    method ParseString(u: Helpers) returns (r: Result<string>)
      modifies this
      ensures Step(r, position) == StringStep(data, old(position), u)
    {
      var slen := ParseUint16();
      if slen.Err? {
        return Err(slen.error);
      }
      r := Ok(u.toString(data, position, slen.value));
      position := position + slen.value;
    }

    method ParseRawArray() returns (r: Result<seq<byte>>)
      modifies this
      ensures Step(r, position) == RawArrayStep(data, old(position))
    {
      var slen := ParseUint16();
      if slen.Err? {
        return Err(slen.error);
      }
      if position + slen.value > |data| {
        return Err(SliceOutOfRange(position, slen.value));
      }
      r := Ok(data[position..position + slen.value]);
      position := position + slen.value;
    }

    method ParseSocketAddress(u: Helpers) returns (r: Result<Value>)
      modifies this
      ensures Step(r, position) == SockAddrStep(data, old(position), u)
    {
      var family := ParseUint8();
      if family.Err? {
        return Err(family.error);
      }
      if family.value == AF_INET {
        var addr := ParseIpv4(u);
        var port := ParseUint16();
        if port.Err? {
          return Err(port.error);
        }
        r := Ok(Str(InetText("AF_INET", addr, u.ntohs(port.value))));
      } else if family.value == AF_INET6 {
        var addr := ParseIpv6(u);
        var port := ParseUint16();
        if port.Err? {
          return Err(port.error);
        }
        r := Ok(Str(InetText("AF_INET6", addr, u.ntohs(port.value))));
      } else if family.value == AF_UNIX {
        var path := ParseString(u);
        if path.Err? {
          return Err(path.error);
        }
        r := Ok(Str(UnixText(path.value)));
      } else {
        r := Ok(Nil);
      }
    }

    method ParseParam(p: Param, u: Helpers) returns (r: Result<Arg>)
      modifies this
      ensures Step(r, position) == ParamStep(data, old(position), p, u)
    {
      var v: Result<Value> := Ok(Nil);
      var t := p.paramType;
      if t == TDT_U8 {
        var x := ParseUint8();
        v := if x.Ok? then Ok(Uint(x.value, 1)) else Err(x.error);
      } else if t == TDT_U16 {
        var x := ParseUint16();
        v := if x.Ok? then Ok(Uint(x.value, 2)) else Err(x.error);
      } else if t == TDT_U32 {
        var x := ParseUint32();
        v := if x.Ok? then Ok(Uint(x.value, 4)) else Err(x.error);
      } else if t == TDT_U64 {
        var x := ParseUint64();
        v := if x.Ok? then Ok(Uint(x.value, 8)) else Err(x.error);
      } else if t == TDT_S8 {
        var x := ParseInt8();
        v := if x.Ok? then Ok(Int(x.value, 1)) else Err(x.error);
      } else if t == TDT_S16 {
        var x := ParseInt16();
        v := if x.Ok? then Ok(Int(x.value, 2)) else Err(x.error);
      } else if t == TDT_S32 {
        var x := ParseInt32();
        v := if x.Ok? then Ok(Int(x.value, 4)) else Err(x.error);
      } else if t == TDT_S64 {
        var x := ParseInt64();
        v := if x.Ok? then Ok(Int(x.value, 8)) else Err(x.error);
      } else if t == TDT_STR || t == TDT_STR_ARR {
        var x := ParseString(u);
        v := if x.Ok? then Ok(Str(x.value)) else Err(x.error);
      } else if t == TDT_BYTE_ARR {
        var x := ParseRawArray();
        v := if x.Ok? then Ok(Bytes(x.value)) else Err(x.error);
      } else if t == TDT_SOCKADDR {
        v := ParseSocketAddress(u);
      }
      if v.Err? {
        return Err(v.error);
      }
      r := ProcessValue(p, v.value, u);
    }

    method ParseParams(event: TarianEvent, u: Helpers) returns (r: Result<seq<Arg>>)
      modifies this
      ensures Step(r, position) == ParamsStep(data, old(position), event.params, nparams, u)
    {
      var params := event.params;
      if |params| <= 0 {
        return Err(NoParams);
      }
      ghost var start := position;
      var args: seq<Arg> := [];
      var i := 0;
      PrependNothing(ParamsLoop(data, start, params, 0, nparams, u));
      while i < nparams as int
        invariant 0 <= i <= nparams as int && i <= |params|
        invariant ParamsLoop(data, start, params, 0, nparams, u)
          == Prepend(args, ParamsLoop(data, position, params, i, nparams, u))
        decreases nparams as int - i
      {
        if position >= |data| {
          break;
        }
        if i >= |params| {
          break;
        }
        ghost var before := position;
        var ag := ParseParam(params[i], u);
        if ag.Err? {
          return Err(ag.error);
        }
        ghost var rest := ParamsLoop(data, position, params, i + 1, nparams, u);
        assert ParamsLoop(data, before, params, i, nparams, u) == Prepend([ag.value], rest);
        PrependAppend(args, [ag.value], rest);
        args := args + [ag.value];
        i := i + 1;
      }
      assert args + [] == args;
      return Ok(args);
    }
  }

  // ---------------------------------------------------------------------
  // The whole record

  /** initDetectorEvent: the record fields filled from the header; the
      event id, directory, executable and arguments are left empty. */
  function InitDetectorEvent(t: TarianMetaData, u: Helpers): TarianDetectorEvent
  {
    TarianDetectorEvent(
      "", t.Syscall(), t.Ts(), t.Processor(), t.StartTime(),
      t.HostPid(), t.HostTgid(), t.HostPpid(), t.Pid(), t.Tgid(), t.Ppid(),
      t.Uid(), t.Gid(), t.CgroupId(), t.MountNsId(), t.PidNsId(), t.ExecId(), t.ParentExecId(),
      t.Comm(u), "", "",
      HostDetails(t.Sysname(u), t.Nodename(u), t.Release(u), t.Version(u), t.Machine(u), t.Domainname(u)),
      [])
  }

  /** The header with its syscall id taken from the event table when the
      two differ. */
  function CorrectedHeader(t: TarianMetaData, event: TarianEvent): TarianMetaData
  {
    if t.Syscall() != Int32(event.syscallId) then t.SetSyscall(Int32(event.syscallId)) else t
  }

  /** ParseByteArray without a pod watcher, against the table `events`. */
  function ParseRecord(events: map<int, TarianEvent>, data: seq<byte>, u: Helpers): Result<TarianDetectorEvent>
  {
    match DecodeHeader(data)
    case Err(e) => Err(e)
    case Ok(header) =>
      match GetTarianEvent(events, header.Event())
      case Err(e) => Err(e)
      case Ok(event) =>
        var record := InitDetectorEvent(CorrectedHeader(header, event), u).(eventId := event.name);
        var body := data[HeaderSize..];
        var dir := StringStep(body, 0, u);
        match dir.result
        case Err(e) => Err(e)
        case Ok(directory) =>
          var exe := StringStep(body, dir.next, u);
          match exe.result
          case Err(e) => Err(e)
          case Ok(executable) =>
            var ps := ParamsStep(body, exe.next, event.params, header.Nparams(), u);
            match ps.result
            case Err(e) => Err(e)
            case Ok(args) => Ok(record.(directory := directory, executable := executable, context := args))
  }

  /** ParseByteArray (watcher nil). */
  method ParseByteArray(events: map<int, TarianEvent>, data: seq<byte>, u: Helpers)
    returns (r: Result<TarianDetectorEvent>)
    ensures r == ParseRecord(events, data, u)
  {
    var header := DecodeHeader(data);
    if header.Err? {
      return Err(header.error);
    }
    var metaData := header.value;
    var found := GetTarianEvent(events, metaData.Event());
    if found.Err? {
      return Err(found.error);
    }
    var event := found.value;
    if metaData.Syscall() != Int32(event.syscallId) {
      metaData := metaData.SetSyscall(Int32(event.syscallId));
    }
    var record := InitDetectorEvent(metaData, u);
    record := record.(eventId := event.name);
    var bs := new ByteStream(data[HeaderSize..], metaData.Nparams());
    var dir := bs.ParseString(u);
    if dir.Err? {
      return Err(dir.error);
    }
    record := record.(directory := dir.value);
    var exe := bs.ParseString(u);
    if exe.Err? {
      return Err(exe.error);
    }
    record := record.(executable := exe.value);
    var ps := bs.ParseParams(event, u);
    if ps.Err? {
      return Err(ps.error);
    }
    record := record.(context := ps.value);
    return Ok(record);
  }

  // ---------------------------------------------------------------------
  // Facts about ParseByteArray

  /** A record shorter than the header, or whose event id is not in the
      table, is refused with that reason. */
  lemma ParseRecordErrors(events: map<int, TarianEvent>, data: seq<byte>, u: Helpers)
    ensures |data| < HeaderSize ==> ParseRecord(events, data, u) == Err(ShortHeader(|data|))
    ensures |data| >= HeaderSize && DecodeHeader(data).value.Event() !in events ==>
      ParseRecord(events, data, u) == Err(MissingEvent(DecodeHeader(data).value.Event()))
  {
  }

  /** What a decoded record holds: the event's name, the table's syscall id,
      every header field, and one argument per declared parameter (never
      more than the header's count). */
  lemma ParseRecordFields(events: map<int, TarianEvent>, data: seq<byte>, u: Helpers)
    requires ParseRecord(events, data, u).Ok?
    ensures |data| >= HeaderSize
    ensures var h := DecodeHeader(data).value;
      var r := ParseRecord(events, data, u).value;
      && h.Event() in events
      && r.eventId == events[h.Event()].name
      && r.syscallId == Int32(events[h.Event()].syscallId)
      && r.timestamp == h.Ts() && r.processorId == h.Processor()
      && r.threadStartTime == h.StartTime()
      && r.hostProcessId == h.HostPid() && r.hostThreadId == h.HostTgid()
      && r.hostParentProcessId == h.HostPpid()
      && r.processId == h.Pid() && r.threadId == h.Tgid() && r.parentProcessId == h.Ppid()
      && r.userId == h.Uid() && r.groupId == h.Gid()
      && r.cgroupId == h.CgroupId() && r.mountNamespaceId == h.MountNsId()
      && r.pidNamespaceId == h.PidNsId() && r.execId == h.ExecId() && r.parentExecId == h.ParentExecId()
      && r.processName == h.Comm(u)
      && r.hostDetails == HostDetails(h.Sysname(u), h.Nodename(u), h.Release(u), h.Version(u), h.Machine(u), h.Domainname(u))
      && |r.context| <= h.Nparams()
      && FollowsParams(r.context, events[h.Event()].params, 0)
  {
    var h := DecodeHeader(data).value;
    var event := events[h.Event()];
    var c := CorrectedHeader(h, event);
    SetSyscallChangesOnlySyscall(h, Int32(event.syscallId), u);
  }

  /** The body after the header as the kernel writes it: the directory and
      executable strings, each after its 16-bit length, then the parameters. */
  function LayoutBody(dir: seq<byte>, exe: seq<byte>, rest: seq<byte>): seq<byte>
    requires |dir| < 0x1_0000 && |exe| < 0x1_0000
  {
    LeBytes(|dir|, 2) + dir + LeBytes(|exe|, 2) + exe + rest
  }

  /** In such a body the directory is read at offset 2, the executable at
      offset 4 + |dir|, and the parameters start just after it. */
  lemma LayoutBodyStrings(dir: seq<byte>, exe: seq<byte>, rest: seq<byte>, u: Helpers)
    requires |dir| < 0x1_0000 && |exe| < 0x1_0000
    ensures var body := LayoutBody(dir, exe, rest);
      && StringStep(body, 0, u) == Step(Ok(u.toString(body, 2, |dir|)), 2 + |dir|)
      && StringStep(body, 2 + |dir|, u) == Step(Ok(u.toString(body, 4 + |dir|, |exe|)), 4 + |dir| + |exe|)
  {
    var body := LayoutBody(dir, exe, rest);
    StringFraming([], dir, LeBytes(|exe|, 2) + exe + rest, u);
    assert [] + LeBytes(|dir|, 2) + dir + (LeBytes(|exe|, 2) + exe + rest) == body;
    var prefix := LeBytes(|dir|, 2) + dir;
    StringFraming(prefix, exe, rest, u);
    assert prefix + LeBytes(|exe|, 2) + exe + rest == body;
  }

  /** A record laid out as the kernel writes it, with no parameters, decodes
      to its header, the directory and executable strings read at the right
      offsets, and no arguments. */
  lemma ParseRecordOfLayout(events: map<int, TarianEvent>, t: TarianMetaData, dir: seq<byte>, exe: seq<byte>,
                            rest: seq<byte>, u: Helpers)
    requires t.Event() in events && |events[t.Event()].params| > 0 && t.Nparams() == 0
    requires |dir| < 0x1_0000 && |exe| < 0x1_0000
    ensures var body := LayoutBody(dir, exe, rest);
      ParseRecord(events, EncodeHeader(t) + body, u) == Ok(
        InitDetectorEvent(CorrectedHeader(t, events[t.Event()]), u).(
          eventId := events[t.Event()].name,
          directory := u.toString(body, 2, |dir|),
          executable := u.toString(body, 4 + |dir|, |exe|),
          context := []))
  {
    var body := LayoutBody(dir, exe, rest);
    var data := EncodeHeader(t) + body;
    HeaderRoundTrip(t, body);
    assert data[HeaderSize..] == body;
    LayoutBodyStrings(dir, exe, rest, u);
  }
}
