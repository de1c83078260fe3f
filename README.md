# tarian-detector: the event pipeline, modelled in Dafny

tarian-detector watches Linux system calls with eBPF. Kernel programs reserve a
record in a ring buffer, write a fixed 505-byte header into it (event id,
parameter count, syscall id, task and uts metadata), append the working
directory and executable, and then append the typed syscall parameters. The
Go side reads each record back. It decodes the header, looks up the event's
description in a table of 32 entries, and decodes the parameters one by one
with a moving cursor. The eBPF side is organised into modules of programs
that are attached to kernel hooks.

This project models that pipeline and proves properties of it:

| file | models |
|---|---|
| `results.dfy` | the failure kinds of the Go code (`Result`, `Option`) |
| `little_endian.dfy` | the fixed-width little-endian readers `utils.Uint8` … `utils.Int64` |
| `external.dfy` | the collaborators whose bodies are not modelled (`utils.ToString`, `utils.Ipv4`, `utils.Ipv6`, `utils.Ntohs`, the formatting callbacks), passed in as function values |
| `event_types.dfy` | `pkg/eventparser/types.go`: the header layout, its decoding and accessors, `SetSyscall`, the enum names |
| `probes.dfy` | `pkg/eventparser/probes.go`: the event table, its construction and lookup, `processValue` |
| `parser.dfy` | `pkg/eventparser/parser.go`: `ByteStream` and its readers, `parseParams`, `ParseByteArray` |
| `bind.dfy` | `pkg/eBPF/c/bpf/network_bind/bind.bpf.c`: the bind entry and exit probes |
| `filters.dfy` | `tarian/c/utils/filters.h`: the self-generated-event filter |
| `meta.dfy` | `tarian/c/utils/meta.h`: `new_event` and the header initialisation |
| `program.dfy` | `pkg/eBPF/program.go`: `ProgramInfo` |
| `module.dfy` | `pkg/eBPF/module.go`: `Module`, `Count`, `Attach`, `Prepare` |

State that the source updates in place is modelled with classes:
- the cursor of `ByteStream`;
- the event map filled by `GenerateTarianEvents`;
- the ring-buffer record of the bind probe (its addresses are arrays);
- `tarian_event_t`;
- `ProgramInfo`, `Module` and the handler.

Each method is proved against a specification function, or states its whole new state. The properties are proved as lemmas about those functions.

Nothing is executed. The model states what the code does, and the verifier proves the stated properties for all inputs.

## Model

| member | source | states |
|---|---|---|
| LittleEndian.ReadUint | pkg/eventparser/parser.go:163-195 | An unsigned read succeeds exactly when `width` bytes remain at the position. Otherwise it fails with `ShortBuffer(pos, width)`. A value read lies below 256^width. |
| LittleEndian.ReadInt | pkg/eventparser/parser.go:199-231 | A signed read succeeds exactly when `width` bytes remain. The value lies in the two's-complement range of the width. |
| LittleEndian.LeUintOfLeBytes | pkg/eventparser/parser.go:163-195 | Decoding the little-endian encoding of a value that fits gives the value back. |
| LittleEndian.LeBytesOfLeUint | pkg/eventparser/parser.go:163-195 | Encoding a decoded byte string gives the bytes back. |
| LittleEndian.ToSignedOfFromSigned | pkg/eventparser/parser.go:199-231 | The two's-complement reading inverts the two's-complement encoding on the signed range. |
| LittleEndian.ToSignedInRange | pkg/eventparser/parser.go:199-231 | Every w-byte pattern reads as a signed value in range. |
| LittleEndian.ReadUintOfWritten | pkg/eventparser/parser.go:163-195 | A value written at a position reads back whatever surrounds it. |
| LittleEndian.ReadExamples | pkg/eventparser/parser_test.go:159-290 | The test vectors hold: `[1 2 3]` reads 1 and 513, eight bytes read 578437695752307201, and one byte is too short for a 16-bit read. |
| EventTypes.Int32 | pkg/eventparser/parser.go:55-57 | Go's `int32(x)` is the identity on the int32 range and otherwise wraps modulo 2^32. |
| EventTypes.TarianMetaData.Event | pkg/eventparser/types.go:231-233 | The header's event id, as decoded by `DecodeHeader`. |
| EventTypes.TarianMetaData.Nparams | pkg/eventparser/types.go:236-238 | The header's parameter count, as decoded by `DecodeHeader`. |
| EventTypes.TarianMetaData.Syscall | pkg/eventparser/types.go:241-243 | The header's syscall id, as decoded by `DecodeHeader`. |
| EventTypes.TarianMetaData.Ts | pkg/eventparser/types.go:250-252 | The header's timestamp, as decoded by `DecodeHeader`. |
| EventTypes.TarianMetaData.Processor | pkg/eventparser/types.go:255-257 | The header's processor id, as decoded by `DecodeHeader`. |
| EventTypes.TarianMetaData.StartTime | pkg/eventparser/types.go:260-262 | The header's task start time, as decoded by `DecodeHeader`. |
| EventTypes.TarianMetaData.HostPid | pkg/eventparser/types.go:265-267 | The header's host pid, as decoded by `DecodeHeader`. |
| EventTypes.TarianMetaData.HostTgid | pkg/eventparser/types.go:270-272 | The header's host tgid, as decoded by `DecodeHeader`. |
| EventTypes.TarianMetaData.HostPpid | pkg/eventparser/types.go:275-277 | The header's host parent pid, as decoded by `DecodeHeader`. |
| EventTypes.TarianMetaData.Pid | pkg/eventparser/types.go:280-282 | The header's namespaced pid, as decoded by `DecodeHeader`. |
| EventTypes.TarianMetaData.Tgid | pkg/eventparser/types.go:285-287 | The header's namespaced tgid, as decoded by `DecodeHeader`. |
| EventTypes.TarianMetaData.Ppid | pkg/eventparser/types.go:290-292 | The header's namespaced parent pid, as decoded by `DecodeHeader`. |
| EventTypes.TarianMetaData.Uid | pkg/eventparser/types.go:295-297 | The header's user id, as decoded by `DecodeHeader`. |
| EventTypes.TarianMetaData.Gid | pkg/eventparser/types.go:300-302 | The header's group id, as decoded by `DecodeHeader`. |
| EventTypes.TarianMetaData.CgroupId | pkg/eventparser/types.go:305-307 | The header's cgroup id, as decoded by `DecodeHeader`. |
| EventTypes.TarianMetaData.MountNsId | pkg/eventparser/types.go:310-312 | The header's mount namespace id, as decoded by `DecodeHeader`. |
| EventTypes.TarianMetaData.PidNsId | pkg/eventparser/types.go:315-317 | The header's pid namespace id, as decoded by `DecodeHeader`. |
| EventTypes.TarianMetaData.ExecId | pkg/eventparser/types.go:320-322 | The header's exec id, as decoded by `DecodeHeader`. |
| EventTypes.TarianMetaData.ParentExecId | pkg/eventparser/types.go:325-327 | The header's parent exec id, as decoded by `DecodeHeader`. |
| EventTypes.TarianMetaData.Comm | pkg/eventparser/types.go:330-332 | The task name: the whole fixed array handed to `utils.ToString`. |
| EventTypes.TarianMetaData.Sysname | pkg/eventparser/types.go:335-337 | The system name: the whole fixed array handed to `utils.ToString`. |
| EventTypes.TarianMetaData.Nodename | pkg/eventparser/types.go:340-342 | The node name: the whole fixed array handed to `utils.ToString`. |
| EventTypes.TarianMetaData.Release | pkg/eventparser/types.go:345-347 | The kernel release: the whole fixed array handed to `utils.ToString`. |
| EventTypes.TarianMetaData.Version | pkg/eventparser/types.go:350-352 | The kernel version: the whole fixed array handed to `utils.ToString`. |
| EventTypes.TarianMetaData.Machine | pkg/eventparser/types.go:355-357 | The machine name: the whole fixed array handed to `utils.ToString`. |
| EventTypes.TarianMetaData.Domainname | pkg/eventparser/types.go:360-362 | The domain name: the whole fixed array handed to `utils.ToString`. |
| EventTypes.TarianMetaData.SetSyscall | pkg/eventparser/types.go:245-247 | The header with its syscall id replaced. `SetSyscallChangesOnlySyscall` states that only the syscall id changes. |
| EventTypes.SetSyscallChangesOnlySyscall | pkg/eventparser/types.go:245-247 | `SetSyscall(id)` makes `Syscall()` return `id` and leaves every other accessor unchanged. |
| EventTypes.HeaderSizeIsSumOfFields | pkg/eventparser/types.go:195-228 | The field widths add up to 19 bytes of event data, then to 115 with the task block, then to 505 with the six 65-byte uts names. |
| EventTypes.DecodeFields | pkg/eventparser/types.go:195-228 | Decoding a field list yields values of the declared widths and signedness. |
| EventTypes.FieldsRoundTrip | pkg/eventparser/types.go:195-228 | Decoding the packed little-endian encoding of conforming values gives them back, whatever follows. |
| EventTypes.EncodedFieldsRoundTrip | pkg/eventparser/types.go:195-228 | Decoding exactly the encoding of conforming values, with nothing after it, gives the values back. |
| EventTypes.TaskRoundTrip | pkg/eventparser/types.go:201-217 | The task block decodes back from the encoded header. |
| EventTypes.MetaRoundTrip | pkg/eventparser/types.go:196-218 | The event block decodes back from the encoded header. |
| EventTypes.SystemRoundTrip | pkg/eventparser/types.go:219-226 | The uts names decode back from the encoded header. |
| EventTypes.DecodeHeader | pkg/eventparser/parser.go:44-49 | `binary.Read` of the header succeeds exactly when at least 505 bytes are present. Otherwise it fails with `ShortHeader(len)`. |
| EventTypes.EncodeHeader | pkg/eventparser/types.go:195-228 | The encoded header is exactly 505 bytes. |
| EventTypes.HeaderRoundTrip | pkg/eventparser/parser.go:44-49 | Decoding an encoded header gives the header, whatever follows it. |
| EventTypes.HeaderLeadingFields | pkg/eventparser/types.go:196-199 | The event id is bytes 0..4 read as signed, the parameter count is byte 4, and the syscall id is bytes 5..9 read as signed. |
| EventTypes.Decimal | pkg/eventparser/types.go:419 | `%d` of a natural number is a non-empty string of digits. |
| EventTypes.DecimalValueOfDecimal | pkg/eventparser/types.go:419 | Reading the digits of `%d` back gives the number. |
| EventTypes.DecimalInjective | pkg/eventparser/types.go:419 | Different numbers print differently. |
| EventTypes.SignedDecimalValueOfSignedDecimal | pkg/eventparser/types.go:540 | Reading `%d` of any int back, with its minus sign, gives the int. |
| EventTypes.SignedDecimalInjective | pkg/eventparser/types.go:540 | `%d` of an int is injective, with negative numbers included. |
| EventTypes.ParamTypeName | pkg/eventparser/types.go:386-421 | `TarianParamType.String()`. `ParamTypeNameShape`, `ParamTypeOfNameInvertsParamTypeName` and `ParamTypeNameInjective` state its shape and that it loses nothing. |
| EventTypes.ParamTypeNameShape | pkg/eventparser/types.go:386-421 | Every declared parameter type is named `TDT_…`. Any other value prints as `unknown TarianParamType(n)`. |
| EventTypes.ParamTypeOfNameInvertsParamTypeName | pkg/eventparser/types.go:386-421 | The parameter type can be recovered from its name, declared or unknown. |
| EventTypes.ParamTypeNameInjective | pkg/eventparser/types.go:386-421 | No two parameter types share a name. |
| EventTypes.ParamTypeNameExamples | pkg/eventparser/types.go:367-421 | `TDT_U8` is named `TDT_U8`. The values 13 and 16, which are not declared, print as unknown. |
| EventTypes.EventName | pkg/eventparser/types.go:477-541 | `TarianEventsE.String()`. `EventNameShape`, `EventValueOfNameInvertsEventName` and `EventNameInjective` state its shape and that it loses nothing. |
| EventTypes.EventNameShape | pkg/eventparser/types.go:477-541 | Every event with a case is named `TDE_SYSCALL_…`. Any other value prints as `unknown TarianEventsE(n)`. |
| EventTypes.EventNameExamples | pkg/eventparser/types.go:426-541 | The bind event has its name. The constants 4 and 5 (execveat), which have no case, print as unknown, and so does -1. |
| EventTypes.EventOfNameInvertsEventName | pkg/eventparser/types.go:477-541 | The event value can be recovered from its name. |
| EventTypes.EventValueOfNameInvertsEventName | pkg/eventparser/types.go:477-541 | Any event value, with a case or printed as unknown, can be recovered from its name. |
| EventTypes.EventNameInjective | pkg/eventparser/types.go:477-541 | No two event values share a name. |
| Probes.NewTarianEvent | pkg/eventparser/probes.go:39-46 | The event holds the given id, name, size and parameters. |
| Probes.TarianEventMap.constructor | pkg/eventparser/probes.go:55 | `make(TarianEventMap)`: the map starts empty. |
| Probes.TarianEventMap.AddTarianEvent | pkg/eventparser/probes.go:34-36 | The map is updated at `idx` and nowhere else. |
| Probes.AddProcessEvents | pkg/eventparser/probes.go:56-105 | The execve, execveat, clone and close insertions extend the table from event 1 to event 9. |
| Probes.AddReadWriteEvents | pkg/eventparser/probes.go:107-153 | The read, write, open and readv insertions extend the table to event 17. |
| Probes.AddOpenEvents | pkg/eventparser/probes.go:155-204 | The writev, openat, openat2 and listen insertions extend the table to event 25. |
| Probes.AddNetworkEvents | pkg/eventparser/probes.go:206-252 | The socket, accept, bind and connect insertions extend the table to event 33. |
| Probes.GenerateTarianEvents | pkg/eventparser/probes.go:54-255 | The map built by the 32 insertions is exactly the event table. |
| Probes.EventTable | pkg/eventparser/probes.go:54-255 | The table's keys are exactly the event values 2..33. |
| Probes.EventEntryParams | pkg/eventparser/probes.go:54-255 | Every event declares at least one parameter. |
| Probes.EventPair | pkg/eventparser/probes.go:54-255 | Each exit event has a single parameter, `return`, with no callback, and carries the same syscall id as its entry event. |
| Probes.EventTableSyscallIds | pkg/eventparser/probes.go:55-61 | The syscall ids follow the table, for example 59 for execve, 322 for execveat and 49 for bind. |
| Probes.GetTarianEvent | pkg/eventparser/probes.go:257-264 | The lookup succeeds exactly for keys of the map and returns their entry. Otherwise it fails with `MissingEvent(idx)`. |
| Probes.GetTarianEventOfTable | pkg/eventparser/probes.go:257-264 | Against the generated table, the lookup succeeds exactly for the values 2..33. |
| Probes.ProcessValue | pkg/eventparser/probes.go:267-286 | The result is an error exactly when the parameter has a callback and the callback fails. Otherwise the argument carries the parameter's name, its Linux type and its type name. Its value is the callback's text, or `%v` of the value when there is no callback. |
| Parser.NumberStep | pkg/eventparser/parser.go:163-231 | A fixed-width read advances by its width, fails exactly when the bytes run out, and yields the little-endian value, signed or unsigned. |
| Parser.StringStep | pkg/eventparser/parser.go:253-263 | `parseString` fails only when the 16-bit length cannot be read. Otherwise it yields `ToString` of the `len` bytes after the length and moves past them. |
| Parser.RawArrayStep | pkg/eventparser/parser.go:267-277 | `parseRawArray` succeeds exactly when both the length and the bytes it announces are present. The result is exactly those bytes, and the cursor moves past them. |
| Parser.PortStep | pkg/eventparser/parser.go:301-308 | The port is a 16-bit read at the cursor, and the cursor moves by 2. It fails with a short read exactly when the two bytes are missing. Otherwise the text is the `%+v` of the family, the given address and `ntohs` of the little-endian port. |
| Parser.SockAddrStep | pkg/eventparser/parser.go:281-354 | The family byte selects the layout. AF_INET reads the address with `ipv4` right after the family byte and the port from the next two bytes, through `ntohs`, giving the `%+v` text; the cursor moves by 7 and a missing port is a short read. AF_INET6 does the same with `ipv6`, 16 address bytes and a move of 19. AF_UNIX gives the path text of `StringStep` after the family byte, with its cursor, and fails exactly when the path length is missing. Any other family gives nil after one byte, and an empty input fails. |
| Parser.ValueStep | pkg/eventparser/parser.go:128-152 | Each declared type uses its reader: the eight integer types read 1, 2, 4 or 8 bytes, unsigned or signed. The string types use `StringStep`, the byte array `RawArrayStep` and the socket address `SockAddrStep`, with their cursors and errors. Any other type reads nothing and gives nil. |
| Parser.ParamStep | pkg/eventparser/parser.go:124-159 | The cursor is that of the value read. The parameter fails exactly when the read fails (with its error) or the callback fails. Otherwise the argument is `processValue` of the decoded value, carrying the parameter's name, Linux type and type name. |
| Parser.ParamsLoop | pkg/eventparser/parser.go:99-118 | The loop yields at most `nparams - i` arguments, each built from the declared parameter at its index. |
| Parser.ParamsStep | pkg/eventparser/parser.go:93-121 | An event without declared parameters is the error `NoParams`. Otherwise there are at most `nparams` arguments, at most as many as declared, in declaration order. |
| Parser.ParamsLoopSound | pkg/eventparser/parser.go:99-120 | A successful loop returns exactly the arguments that successive `ParamStep`s decode, each read where the previous one ended, and it ends where the loop's stop condition holds. |
| Parser.ParamsLoopFails | pkg/eventparser/parser.go:112-115 | A failing loop reaches, through successful steps, a parameter before the stop condition, and that parameter's step fails with the loop's error. |
| Parser.ParamsLoopOfWalk | pkg/eventparser/parser.go:99-120 | Conversely, successful steps that reach the stop condition are what the loop returns, and successful steps that reach a failing parameter make the loop fail with its error. |
| Parser.ParamsStepCharacterised | pkg/eventparser/parser.go:93-121 | `parseParams` succeeds with the decoded arguments up to the stop condition. It fails exactly when the event has no parameters, or when a parameter reached before the stop condition fails. |
| Parser.ParamsLoopStops | pkg/eventparser/parser.go:101-110 | A loop that ends early without failing has reached the end of the data or the last declared parameter. |
| Parser.StringFraming | pkg/eventparser/parser.go:253-263 | A string written with its 16-bit length reads back as `ToString` of exactly its bytes, and the cursor ends just after it. |
| Parser.RawArrayRoundTrip | pkg/eventparser/parser.go:267-277 | A byte array written with its length reads back unchanged. |
| Parser.LengthPrefixed | pkg/eventparser/parser.go:267-277 | A 16-bit length written before a byte string reads back as that length, and the bytes after it are the string. |
| Parser.SockAddrInetRoundTrip | pkg/eventparser/parser.go:288-308 | An AF_INET address written as the family byte, four address bytes and a little-endian port reads back as the `%+v` text of `ipv4` at the address and `ntohs` of that port. The cursor ends just past it. |
| Parser.SockAddrInet6RoundTrip | pkg/eventparser/parser.go:309-329 | The same for AF_INET6, with sixteen address bytes read by `ipv6`. |
| Parser.SockAddrUnixRoundTrip | pkg/eventparser/parser.go:330-349 | An AF_UNIX address written as the family byte and a length-prefixed path reads back as the `%+v` text of that path, and the cursor ends just past it. |
| Parser.ParamStepOfUnsigned | pkg/eventparser/parser.go:129-137 | A number written in the width of its unsigned parameter type reads back as that number and goes to `processValue`. |
| Parser.ParamStepOfSigned | pkg/eventparser/parser.go:138-145 | A number written in two's complement, in the width of its signed parameter type, reads back as that number and goes to `processValue`. |
| Parser.ParamStepExamples | pkg/eventparser/parser_test.go:159-290 | The test vectors hold: `[1 2 3]` as u8 gives "1", and as u16 gives "513" with the test's type names. |
| Parser.SockAddrExamples | pkg/eventparser/parser_test.go:414-496 | Empty input and truncated INET, INET6 and UNIX addresses fail. Family 0 gives nil. |
| Parser.ByteStream.constructor | pkg/eventparser/parser.go:29-35 | The stream starts at position 0 with the given data and count. |
| Parser.ByteStream.ParseUint8 | pkg/eventparser/parser.go:163-168 | The result is the 1-byte read at the cursor, and the cursor moves by 1. |
| Parser.ByteStream.ParseUint16 | pkg/eventparser/parser.go:172-177 | The result is the 2-byte read, and the cursor moves by 2. |
| Parser.ByteStream.ParseUint32 | pkg/eventparser/parser.go:181-186 | The result is the 4-byte read, and the cursor moves by 4. |
| Parser.ByteStream.ParseUint64 | pkg/eventparser/parser.go:190-195 | The result is the 8-byte read, and the cursor moves by 8. |
| Parser.ByteStream.ParseInt8 | pkg/eventparser/parser.go:199-204 | The result is the signed 1-byte read, and the cursor moves by 1. |
| Parser.ByteStream.ParseInt16 | pkg/eventparser/parser.go:208-213 | The result is the signed 2-byte read, and the cursor moves by 2. |
| Parser.ByteStream.ParseInt32 | pkg/eventparser/parser.go:217-222 | The result is the signed 4-byte read, and the cursor moves by 4. |
| Parser.ByteStream.ParseInt64 | pkg/eventparser/parser.go:226-231 | The result is the signed 8-byte read, and the cursor moves by 8. |
| Parser.ByteStream.ParseIpv4 | pkg/eventparser/parser.go:235-240 | The result is `Ipv4` at the cursor, and the cursor moves by 4. |
| Parser.ByteStream.ParseIpv6 | pkg/eventparser/parser.go:244-249 | The result is `Ipv6` at the cursor, and the cursor moves by 16. |
| Parser.ByteStream.ParseString | pkg/eventparser/parser.go:253-263 | The result and the new cursor are those of `StringStep`. |
| Parser.ByteStream.ParseRawArray | pkg/eventparser/parser.go:267-277 | The result and the new cursor are those of `RawArrayStep`. |
| Parser.ByteStream.ParseSocketAddress | pkg/eventparser/parser.go:281-354 | The result and the new cursor are those of `SockAddrStep`. |
| Parser.ByteStream.ParseParam | pkg/eventparser/parser.go:124-159 | The result and the new cursor are those of `ParamStep`. |
| Parser.ByteStream.ParseParams | pkg/eventparser/parser.go:93-121 | The counted loop with its early exits computes `ParamsStep`. |
| Parser.InitDetectorEvent | pkg/eventparser/parser.go:357-386 | The record's fields are the header's accessors, with no event id, directory, executable or arguments yet. `ParseRecordFields` states what a parsed record holds. |
| Parser.ParseRecord | pkg/eventparser/parser.go:41-90 | The decoding `ParseByteArray` performs without a pod watcher. `ParseRecordErrors`, `ParseRecordFields` and `ParseRecordOfLayout` state its results. |
| Parser.ParseByteArray | pkg/eventparser/parser.go:41-90 | Without a pod watcher, the method computes `ParseRecord`. |
| Parser.ParseRecordErrors | pkg/eventparser/parser.go:44-54 | A record shorter than the header fails with `ShortHeader`. A record whose event id is not in the table fails with `MissingEvent`. |
| Parser.ParseRecordFields | pkg/eventparser/parser.go:51-90 | A decoded record carries the table's name and syscall id and every header field via `initDetectorEvent`. It has at most `nparams` arguments, in parameter order. |
| Parser.LayoutBodyStrings | pkg/eventparser/parser.go:65-73 | In a body laid out as the kernel writes it, the directory and the executable are read at their offsets. |
| Parser.ParseRecordOfLayout | pkg/eventparser/parser.go:41-90 | An encoded header followed by the two strings, with no parameters announced, decodes to the header's fields, the two strings and no arguments. |
| Bind.MyNtohs | pkg/eBPF/c/bpf/network_bind/bind.bpf.c:33 | `my_ntohs` exchanges the two bytes of the port: the new high byte is the old low byte, and the new low byte is the old high byte. |
| Bind.MyNtohsInvolution | pkg/eBPF/c/bpf/network_bind/bind.bpf.c:33 | Applying `my_ntohs` twice gives the port back. |
| Bind.Store32OfLoad32 | pkg/eBPF/c/bpf/network_bind/bind.bpf.c:72 | Storing the loaded `s_addr` writes the same four bytes, so the address is copied verbatim. |
| Bind.Load16Bytes | pkg/eBPF/c/bpf/network_bind/bind.bpf.c:65 | The `sa_family` loaded from memory has the first byte as its low byte. |
| Bind.NtohsOfLoaded | pkg/eBPF/c/bpf/network_bind/bind.bpf.c:73 | The port stored is the network-order (big-endian) reading of the two port bytes. |
| Bind.ProbeReadUser | pkg/eBPF/c/bpf/network_bind/bind.bpf.c:65 | A user read fills exactly `n` bytes. When `n` bytes are readable they are the first `n` bytes of user memory; otherwise the read faults and every byte is 0. |
| Bind.CopyBytes | pkg/eBPF/c/bpf/network_bind/bind.bpf.c:80-83 | After the byte-by-byte loop, the destination holds the source in order. |
| Bind.EventData.constructor | pkg/eBPF/c/bpf/network_bind/bind.bpf.c:9-29 | A reserved record holds whatever the slot held before. |
| Bind.RingBuffer.Reserve | pkg/eBPF/c/bpf/network_bind/bind.bpf.c:43-46 | When the buffer is full, the result is NULL and nothing changes. Otherwise the result is a fresh, uncleared slot and one place fewer is left. |
| Bind.RingBuffer.Submit | pkg/eBPF/c/bpf/network_bind/bind.bpf.c:95 | Submitting appends the record's contents to what user space sees. |
| Bind.EntryRecordHeader | pkg/eBPF/c/bpf/network_bind/bind.bpf.c:48-65 | An entry record has id 0, fd = `(int)args[0]` and addrlen = `(int)args[2]`. Its family is the first two user bytes. `ret` and padding are not written. |
| Bind.EntryInet | pkg/eBPF/c/bpf/network_bind/bind.bpf.c:69-74 | For AF_INET, bytes 4..8 are copied verbatim and the port is bytes 2..4 in network order. The IPv6 and UNIX fields are untouched. |
| Bind.EntryInet6 | pkg/eBPF/c/bpf/network_bind/bind.bpf.c:75-88 | For AF_INET6, the 16 address bytes (8..24) are copied in order and the port is bytes 2..4 in network order. The IPv4 and UNIX fields are untouched. |
| Bind.EntryUnix | pkg/eBPF/c/bpf/network_bind/bind.bpf.c:89-91 | For AF_UNIX, the whole `sockaddr_un` (110 bytes, tag included) lands in `unix_addr`. The port and the other addresses are untouched. |
| Bind.EntryOtherFamily | pkg/eBPF/c/bpf/network_bind/bind.bpf.c:68-93 | Any other family writes no address and no port. |
| Bind.EntryInetFault | pkg/eBPF/c/bpf/network_bind/bind.bpf.c:69-74 | When the AF_INET read faults, the zero-filled copy makes the address and the port 0. |
| Bind.EntryRecordSized | pkg/eBPF/c/bpf/network_bind/bind.bpf.c:9-29 | An entry record keeps the record's array sizes. |
| Bind.ExitRecordFields | pkg/eBPF/c/bpf/network_bind/bind.bpf.c:111-117 | An exit record has id 1 and ret = `(int)rc`, which equals rc when it fits. Nothing else is written. |
| Bind.EntryRecord | pkg/eBPF/c/bpf/network_bind/bind.bpf.c:48-93 | The record the entry probe fills in, from the stale slot, the context, the arguments and user memory. Its fields are stated by `EntryRecordHeader`, `EntryInet`, `EntryInet6`, `EntryUnix`, `EntryOtherFamily` and `EntryInetFault`. |
| Bind.ExitRecord | pkg/eBPF/c/bpf/network_bind/bind.bpf.c:111-117 | The record the exit probe fills in. Its fields are stated by `ExitRecordFields`. |
| Bind.KprobeBindEntry | pkg/eBPF/c/bpf/network_bind/bind.bpf.c:39-98 | A failed reservation returns -1 and publishes nothing. Otherwise exactly one record, the entry record, is submitted and 0 is returned. |
| Bind.KretprobeBindExit | pkg/eBPF/c/bpf/network_bind/bind.bpf.c:102-123 | A failed reservation returns -1 and publishes nothing. Otherwise exactly one exit record is submitted and 0 is returned. |
| Filters.JoinOfSplit | tarian/c/utils/filters.h:21 | The upper and lower halves of a 64-bit helper word determine it. |
| Filters.SplitOfJoin | tarian/c/utils/filters.h:21 | Splitting a joined word gives its halves back. |
| Filters.HasSamePid | tarian/c/utils/filters.h:20-24 | The result is true exactly when `pid` is the upper half of pid_tgid. |
| Filters.HasSamePpid | tarian/c/utils/filters.h:26-31 | True exactly when the parent pid, taken modulo 2^32 (its conversion to `uint32_t`), equals `ppid`; negative pids included. |
| Filters.HasSamePpidIff | tarian/c/utils/filters.h:26-31 | For a non-negative parent pid, the converted comparison is plain equality. |
| Filters.HasSamePpidInjective | tarian/c/utils/filters.h:26-31 | Two tasks matched by the same ppid have the same parent pid. |
| Filters.IsSelfGenerated | tarian/c/utils/filters.h:46-51 | With the sentinel application pid 0xFFFFFFFF, no event is self-generated. Otherwise an event is self-generated exactly when the upper half of pid_tgid is the application pid. |
| Filters.CanProceedIff | tarian/c/utils/filters.h:11-18 | An event is dropped exactly when a pid is configured and the current process id equals it. |
| Filters.CanProceed | tarian/c/utils/filters.h:11-18 | The negation of `IsSelfGenerated`. `CanProceedIff` states when it is false. |
| Filters.CanProceedIgnoresThread | tarian/c/utils/filters.h:20-24 | The thread id plays no part in the decision. |
| Filters.CommBound | tarian/c/utils/filters.h:37-38 | The loop compares at most TASK_COMM_LEN bytes. |
| Filters.HasSameComm | tarian/c/utils/filters.h:33-44 | The result is true exactly when the first `len` bytes match (all 16 when `len` is outside 0..16), so `len` = 0 gives true. |
| Meta.MaskLenIsMod | tarian/c/utils/meta.h:117 | `len & (MAX_TARIAN_PATH-1)` is len modulo the bound. It lies below the bound and wraps rather than saturating. |
| Meta.MaskLen | tarian/c/utils/meta.h:117 | The mask `len & (MAX_TARIAN_PATH - 1)` on a uint32_t. `MaskLenIsMod` states its value. |
| Meta.TaskOf | tarian/c/utils/meta.h:67-106 | The task block built from what the helpers report. `TaskOfFields` states its fields. |
| Meta.MetaOf | tarian/c/utils/meta.h:50-65 | The event block. `HeaderOfFields` states its fields. |
| Meta.HeaderOf | tarian/c/utils/meta.h:40-48 | The full header. `HeaderOfFields` and `HeaderOfDecodes` state what it holds and that the decoder reads it back. |
| Meta.NewEventOutcome | tarian/c/utils/meta.h:13-38 | The status `new_event` returns and the reservation state it leaves. `NewEventSuccessIff`, `NewEventFiltered` and `NewEventLeavesReservationOpen` state its cases. |
| Meta.TaskOfFields | tarian/c/utils/meta.h:67-106 | The task block loses nothing of pid_tgid or uid_gid. Host pid and uid are the upper and lower halves; pid and tgid take the namespace tgid and pid; the exec ids come from the host pid and ppid. |
| Meta.HeaderOfFields | tarian/c/utils/meta.h:50-65 | A fresh header has the event, 0 parameters, the syscall id, the timestamp, the uts names, and the processor when it fits 16 bits. |
| Meta.HeaderOfDecodes | tarian/c/utils/meta.h:40-48 | The header the kernel writes is the header the Go decoder reads back, with 0 parameters. |
| Meta.NewEventSuccessIff | tarian/c/utils/meta.h:13-38 | `new_event` succeeds exactly when the event passes the filter and the reservation, flush and scratch space all succeed. The reservation is then open. |
| Meta.NewEventFiltered | tarian/c/utils/meta.h:16 | A self-generated event returns `TDCE_FILTER_IGNORE` and reserves nothing. |
| Meta.NewEventLeavesReservationOpen | tarian/c/utils/meta.h:31-35 | As written, a missing scratch space returns a failure while the reservation stays open. |
| Meta.CorrectedNewEventNeverLeaks | tarian/c/utils/meta.h:13-38 | With the discard added, the reservation is left open exactly on success. |
| Meta.CorrectedDiffersOnlyOnScratch | tarian/c/utils/meta.h:31-35 | The corrected flow differs from the written one only when the scratch space is missing. |
| Meta.Stats.AddTrigger | tarian/c/utils/meta.h:14 | The trigger counter goes up by one. |
| Meta.TarianEventT.InitTaskMetaData | tarian/c/utils/meta.h:67-106 | The task block becomes `TaskOf` of the kernel values and nothing else changes. The status is success. |
| Meta.TarianEventT.InitEventMetaData | tarian/c/utils/meta.h:50-65 | The event block becomes `MetaOf(event, kernel)`, with `processor = (u16)cpu` and no parameters. |
| Meta.TarianEventT.InitTarianMetaData | tarian/c/utils/meta.h:40-48 | The header becomes `HeaderOf(event, kernel)` and the buffer position is the header size. |
| Meta.TarianEventT.InitCwdAndExe | tarian/c/utils/meta.h:108-127 | Without scratch space, the result is `TDCE_SCRATCH_SPACE_ALLOCATION` and nothing is written. Otherwise the cwd and the executable are requested with masked lengths, in that order. |
| Meta.TarianEventT.NewEvent | tarian/c/utils/meta.h:13-38 | The trigger is always counted, and the status and reservation state are those of `NewEventOutcome`. A filtered event changes nothing else. After a reserve or flush failure the header, write position and path requests are unchanged. Once the flush succeeds, the header is `HeaderOf` and the write position follows it, even when the scratch space then fails; in that case no path is requested. On success both path requests are added. |
| Meta.TarianEventT.CorrectedNewEvent | tarian/c/utils/meta.h:13-38 | The same flow and the same new state on every path, but the status and reservation are those of `CorrectedNewEventOutcome`: every failure after the reservation discards it. |
| Meta.TarianEventT.TdfReserveSpace | tarian/c/utils/meta.h:22-23 | The reservation is open exactly when the reservation helper succeeds. |
| Meta.ReadNodeInfoInto | tarian/c/utils/meta.h:129-137 | NULL gives `TDCE_NULL_POINTER`. Otherwise the uts names are copied. |
| Programs.ProgramInfo.NewProgram | pkg/eBPF/program.go:14-20 | The program stores its name and hook and is to be attached. |
| Programs.ProgramInfo.Enable | pkg/eBPF/program.go:22-26 | `shouldAttach` becomes true, so calling it twice gives the same state. The name and hook are kept, and the receiver is returned. |
| Programs.ProgramInfo.Disable | pkg/eBPF/program.go:28-32 | `shouldAttach` becomes false, and the call is idempotent. The name and hook are kept, and the receiver is returned. |
| Programs.ProgramInfo.GetHook | pkg/eBPF/program.go:34-36 | The hook the program is attached to. |
| Programs.ProgramInfo.GetName | pkg/eBPF/program.go:38-40 | The program handle. |
| Programs.ProgramInfo.GetShouldAttach | pkg/eBPF/program.go:42-44 | Whether the program is to be attached. `Enable` and `Disable` set it. |
| Modules.Handler.constructor | pkg/eBPF/module.go:49 | A new handler has the given name, no map readers, no probe links and a program count of 0. |
| Modules.Handler.AddMapReaders | pkg/eBPF/module.go:59 | The readers are appended, and the other fields are kept. |
| Modules.Handler.AddProbeLink | pkg/eBPF/module.go:81 | The link is appended and nothing else in the handler changes. |
| Modules.Enabled | pkg/eBPF/module.go:90-99 | The enabled programs are a sub-list of the programs. |
| Modules.EnabledMembers | pkg/eBPF/module.go:90-99 | A program is enabled exactly when it is in the list and set to be attached. |
| Modules.EnabledAll | pkg/eBPF/module.go:90-99 | With no program disabled, every program counts. |
| Modules.AttachRunBounded | pkg/eBPF/module.go:67-85 | A run never makes more links than there are enabled programs. |
| Modules.AttachRunStep | pkg/eBPF/module.go:69-82 | One more program either is skipped, or adds its link, or ends the run with its error. |
| Modules.AttachRunFailsIff | pkg/eBPF/module.go:67-85 | `Attach` fails exactly when some enabled program fails to attach. |
| Modules.AttachRunSucceeds | pkg/eBPF/module.go:67-99 | A successful `Attach` makes exactly `Count()` links. |
| Modules.AttachRunStopsAtFailure | pkg/eBPF/module.go:76-79 | After the first failure, the later programs change nothing. The links made before it remain. |
| Modules.Module.NewModule | pkg/eBPF/module.go:26-32 | A new module has the given name, no programs and no map. |
| Modules.Module.AddProgram | pkg/eBPF/module.go:35-37 | The program is appended at the end and the earlier programs keep their order. |
| Modules.Module.Map | pkg/eBPF/module.go:40-42 | Only the map is set. |
| Modules.Module.Count | pkg/eBPF/module.go:90-99 | The counting loop gives the number of enabled programs. |
| Modules.Module.Prepare | pkg/eBPF/module.go:47-64 | Readers are created only when there is a map, and a failure to create them is returned as the error. On success, the handler is named after the module, has no links and has `countPrograms = Count()`. |
| Modules.Module.Attach | pkg/eBPF/module.go:67-85 | The handler gains exactly the links of `AttachRun`, in program order. The method fails exactly when the run fails, and links added before the failure remain. |

## Left out

- The Kubernetes watcher branch of `ParseByteArray` and the enricher: `ParseByteArray` is modelled with a nil watcher.
- The `String()` methods of `Arg`, `HostDetails`, `Kubernetes` and `TarianDetectorEvent` are left out. They are `fmt` formatting only.
- `utils.ToString`, `utils.Ipv4`, `utils.Ipv6`, `utils.Ntohs` and the formatting callbacks (`parseOpenFlags` etc.) are function values. Their bodies are not part of this model, so every result holds whatever they compute.
- Parser.ByteStream.ParseIpv4 and ParseIpv6: like the source, they do not check that the bytes are present. What happens when they are missing depends on `utils.Ipv4` and `utils.Ipv6`.
- Parser.RawArrayStep: a Go slice that ends past the record's length but within the capacity of the underlying array (the stream's data is `data[lenMetaData:]`) returns the bytes beyond the record without an error, and one that ends past the capacity panics. The model has no capacity and reports both as the error `SliceOutOfRange`.
- Error messages: the model keeps the kind of each failure, not the text of `Throwf`.
- `GetTarianEvent` reads the package-level `Events` map. The model passes the map in, and `GetTarianEventOfTable` instantiates it with the generated table.
- EventTypes.TarianMetaData.SetSyscall: the pointer update of a local header is modelled as a value update that the decoder reassigns. `SetSyscallChangesOnlySyscall` states that nothing else changes.
- The comment on `TarianMetaData` gives a size of 755 bytes. The declared fields, which `binary.Size` packs, add up to 505. The model follows the fields.
- Kernel helpers whose bodies are not shown are inputs: the `bpf_*` helpers, `BPF_CORE_READ*`, `init_context`, `read_sys_args_into`, `get_syscall_id`, the task getters, `getExecId` and `getParentExecId`, and `get__d_path`. The exec ids are only claimed to be functions of their arguments.
- `tdf_reserve_space` and `flush` are given by their returned status. `tdf_discard_event` sets the reservation to discarded.
- `write_str` is recorded as a request (which path, which length). The bytes it copies and its update of `buf.pos` are not modelled.
- The status codes `TDC_SUCCESS` and `TDCE_*` are symbolic, because their numeric values are defined in a header that is not part of this model.
- `MAX_TARIAN_PATH` is taken to be 4096, because its defining header is not part of this model. The masking proof relies on it being a power of two.
- `MAX_UNIX_PATH` is not part of this model. `unix_addr` is given room for the 110 bytes of `sockaddr_un` that the probe copies, so a copy that would spill past a shorter field is not modelled.
- Bind.ProbeReadUser: user memory is the bytes readable from the pointer. A read past them is treated as a fault that zero-fills the destination. Other fault causes are not distinguished.
- `event_context_t` is passed through as an opaque value.
- The ring buffer is used by one probe at a time. Concurrent reservations from several CPUs are not modelled.
- The fields the bind probe does not write keep the slot's previous contents. The model makes no claim that they are zero.
- The namespaced header fields (`tarian` pointing into `buf.data`) are modelled as a separate header object, not as bytes of the buffer. `HeaderOfDecodes` connects the two views through the encoder.

## Findings

| source | as written | input that shows it | evidently intended | confidence | as-written member | corrected member |
|---|---|---|---|---|---|---|
| tarian/c/utils/meta.h:31-35 | When `init_tarian_meta_data_t` or `init_cwd_and_exe` fails after a successful reservation and flush, `new_event` returns the failure without calling `tdf_discard_event`. | No application pid configured, reservation and flush succeed, and `get__scratch_space()` returns NULL. The result is `TDCE_SCRATCH_SPACE_ALLOCATION` and the reservation stays open. The caller sees a failure, so it neither submits nor discards the reservation. | Discard the reservation on every failure after it, as the flush failure path at lines 25-29 does. | not executed | Meta.NewEventLeavesReservationOpen | Meta.CorrectedNewEventNeverLeaks |
