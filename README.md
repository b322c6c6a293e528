# Port-manager C boundary, modelled in Dafny

This project models the C-callable facade of the CNI port manager
(`src/ffi/network/cni/port.rs`): the four extern entry points
`port_manager_new`, `port_manager_destroy`, `port_manager_add` and
`port_manager_remove`, the opaque handles they hand out and take back, the
`#[repr(C)]` records `PortMapping` and `PortMappings`, the `Manager`
interface with its default (test-double) bodies, and the thread's
last-error slot that every entry point sets or clears.

Files:

- `ffi_types.dfy` (module `FfiTypes`): raw pointers as `Option`, C strings
  as `CStr` (the bytes before the NUL), `u16`, the caller's records, the
  native mapping the builder assembles, the foreign behaviour the boundary
  relies on (`Env`: `CStr::to_str`, the `SocketAddr` and `IpNetwork`
  parsers, the builder's acceptance), the error kinds and the message each
  leaves in the error slot.
- `decimal.dfy` (module `Decimal`): the decimal rendering of a port and the
  address text `"<host_ip>:<host_port>"` handed to the socket-address parser.
- `marshal.dfy` (module `Marshal`): the per-record conversion, its batch
  version as a specification function, and the loop of
  `port_manager_add_res` as a method proved equal to it.
- `port_ffi.dfy` (module `PortFfi`): what each entry point checks before it
  reaches a manager (`PlanNew`, `PlanAdd`, `PlanRemove`), and the class
  `Facade` holding the error slot, the live handles with the manager each
  owns, and a ghost log of the calls that reached a manager.
- `port_ffi_scenarios.dfy` (module `PortFfiScenarios`): the source's unit
  tests as client methods proved from the facade's contracts.

Evaluation order and details of the code the model follows:

- Per record, both null checks (host IP, then protocol) come before any
  text conversion; then the host IP is converted, the address text parsed,
  the protocol converted and the mapping built (port.rs:160-190).
- The records are converted before the container network text; the
  runtime is created before the ID is converted and before the network is
  parsed, because the receiver `Runtime::new()?` is evaluated before the
  arguments of `block_on` (port.rs:193-210). The same holds in
  `port_manager_new_res`, where the runtime is created before the storage
  path is converted (port.rs:97-103) and in `port_manager_remove_res`
  (port.rs:232-242).
- The error length counts a trailing NUL, as `ffi.h` documents
  (src/ffi/ffi.h:44-49), so a set slot never reports length 0.
- `.context("retrieve port manager")` cannot fire: the handle was checked
  non-null before, and `as_mut` fails only on null. The model has no such
  error.

## Model

| member | source | states |
|---|---|---|
| FfiTypes.Message | src/ffi/network/cni/port.rs:178-180 | a socket-address parse failure reports "parse socket address " followed by the offending text, and a network parse failure "parse container network " followed by its text |
| FfiTypes.MessageIdentifiesError | src/ffi/network/cni/port.rs:137-215 | apart from a runtime failure, no two distinct errors leave the same message, so the slot names the stage that failed |
| Decimal.Render | src/ffi/network/cni/port.rs:168-174 | the `{}` rendering of a port is non-empty, all digits, and has no leading zero unless the port is 0 |
| Decimal.ValueOfRender | src/ffi/network/cni/port.rs:168-174 | reading the rendered digits back gives the port |
| Decimal.RenderInjective | src/ffi/network/cni/port.rs:168-174 | distinct ports render to distinct texts |
| Decimal.AddressText | src/ffi/network/cni/port.rs:168-174 | the address text is the host IP text, then ':', then the decimal port, in that order and nothing else |
| Decimal.AddressTextInjective | src/ffi/network/cni/port.rs:168-180 | the address text determines the host IP text and the port, even when the IP text holds colons |
| Marshal.ConvertRecord | src/ffi/network/cni/port.rs:160-190 | a record converts exactly when both pointers are non-null, the host IP is text, its address text parses, the protocol is text and the builder accepts; the stages fail in the order null host IP, null protocol, host IP text, address parse (reporting that very text), protocol text, build, each with its own error (a builder rejection is "build port mapping"); a converted record was parsed from its own address text, carries its converted protocol, and copies its container port |
| Marshal.ConvertAll | src/ffi/network/cni/port.rs:156-191 | the batch converts exactly when every record does, and then yields one mapping per record, same length, same order |
| Marshal.FirstFailureAborts | src/ffi/network/cni/port.rs:160-191 | the first record that fails decides the batch's error, whatever the later records are |
| Marshal.MarshalMappings | src/ffi/network/cni/port.rs:158-191 | the push loop with its early returns computes exactly the batch conversion |
| PortFfi.Answers | src/ffi/network/cni/port.rs:15-29 | the trait's default `add_impl`/`remove_impl` bodies always return Ok; the native manager answers as it reports |
| PortFfi.PlanNew | src/ffi/network/cni/port.rs:93-105 | a null storage path is the error whatever else holds; with a path, a failed runtime, then a non-text path ("convert storage path string"), then a manager that does not open ("create port manager") decide the error; creation proceeds exactly when the path is non-null, the runtime starts, the path is text and the manager opens there |
| PortFfi.PlanAdd | src/ffi/network/cni/port.rs:137-215 | null checks in the order handle, ID, network, descriptor decide the error; once every record converts, a non-text network, then a failed runtime, then a non-text ID, then an unparsable network (reporting its text) decide it; a call is planned exactly when all four are non-null, every record converts, the network is text, the runtime starts, the ID is text and the network parses; a planned call carries the converted ID, the parsed network and one mapping per record in input order with each container port unchanged |
| PortFfi.InvalidRecordBlocksAdd | src/ffi/network/cni/port.rs:156-215 | with non-null arguments, the first invalid record's error is the outcome of the whole add, so no call is planned |
| PortFfi.SubmittedHostParsedFromAddressText | src/ffi/network/cni/port.rs:168-190 | each submitted host address is what the parser returned for the record's host IP text, ':' and its decimal port |
| PortFfi.PlanRemove | src/ffi/network/cni/port.rs:224-246 | null handle, then null ID, then a failed runtime, then a non-text ID decide the error; a call is planned exactly when both are non-null, the runtime starts and the ID is text, and it names the converted ID |
| PortFfi.Facade.LastErrorLength | src/ffi/ffi.h:44-49 | the length is 0 exactly when no error is set, and otherwise the message length plus the trailing NUL |
| PortFfi.Facade.UpdateLastError | src/ffi/network/cni/port.rs:82-85 | the slot holds the error's message |
| PortFfi.Facade.RemoveLastError | src/ffi/network/cni/port.rs:86-89 | the slot is cleared |
| PortFfi.Facade.UpdateLastErrIfRequired | src/ffi/network/cni/port.rs:129-134 | success clears the slot, failure stores the error's message |
| PortFfi.Facade.Allocate | src/ffi/network/cni/port.rs:97-105 | boxing a manager yields a non-null address no live handle holds, now live and owning that manager |
| PortFfi.Facade.NewRes | src/ffi/network/cni/port.rs:93-106 | a handle is produced exactly when creation is planned, it is fresh and owns the native manager at the converted path; on error nothing is allocated |
| PortFfi.Facade.New | src/ffi/network/cni/port.rs:80-91 | non-null result exactly when creation succeeded, then fresh, live and slot cleared; otherwise null result, live handles unchanged, slot set |
| PortFfi.Facade.NewMock | src/ffi/network/cni/port.rs:288-292 | the test double gets a fresh live handle |
| PortFfi.Facade.Destroy | src/ffi/network/cni/port.rs:111-118 | a null handle sets the slot and frees nothing; a live handle is removed from the live set and the slot cleared |
| PortFfi.Facade.AddRes | src/ffi/network/cni/port.rs:137-215 | when any check fails the error is returned and no manager is called; otherwise `add_impl` is called exactly once with the planned call, and its answer decides Ok or "add port mappings" |
| PortFfi.Facade.Add | src/ffi/network/cni/port.rs:123-135 | the manager is called at most once and only when every check passed; the slot is cleared exactly when the call was made and answered Ok |
| PortFfi.Facade.RemoveRes | src/ffi/network/cni/port.rs:224-246 | when a check fails no manager is called; otherwise `remove_impl` is called exactly once and its answer decides Ok or "remove port mappings" |
| PortFfi.Facade.Remove | src/ffi/network/cni/port.rs:220-222 | the slot is cleared exactly when `remove_impl` was called and returned Ok |
| PortFfiScenarios.CreateThenDestroy | src/ffi/network/cni/port.rs:255-263 | create at a usable path then destroy: slot clear after each step, live handles as before |
| PortFfiScenarios.CreateFails | src/ffi/network/cni/port.rs:265-277 | a null or unusable storage path gives a null handle, a non-empty error and no allocation |
| PortFfiScenarios.DestroyNullFails | src/ffi/network/cni/port.rs:279-283 | destroying null sets a non-empty error |
| PortFfiScenarios.AddTwoMappingsThroughMock | src/ffi/network/cni/port.rs:297-330 | two valid records reach the double in one call, in order, with container ports 8080 and 8081; error length 0 after add and after destroy |
| PortFfiScenarios.AddWithNullArgumentFails | src/ffi/network/cni/port.rs:332-404 | any null argument of add gives a non-empty error and no manager call; destroying a live handle afterwards leaves error length 0 |
| PortFfiScenarios.AddWithNullRecordFieldFails | src/ffi/network/cni/port.rs:406-458 | a record with a null host IP or protocol fails the add with that record's message and no manager call; destroying the handle afterwards leaves error length 0 |
| PortFfiScenarios.RemoveThroughMock | src/ffi/network/cni/port.rs:460-469 | removing through the double is one call and leaves error length 0, also after destroy |
| PortFfiScenarios.RemoveWithNullArgumentFails | src/ffi/network/cni/port.rs:471-489 | a null handle or ID gives a non-empty error and no manager call; destroying a live handle afterwards leaves error length 0 |
| PortFfiScenarios.AddWithMalformedAddressFails | src/ffi/network/cni/port.rs:175-180 | after valid records, one whose address text does not parse fails the whole add with no manager call, and the slot reads "parse socket address " followed by that text |
| PortFfiScenarios.AddThenRemoveThroughMock | src/ffi/network/cni/port.rs:137-246 | adding any number of valid records and then removing the same ID both succeed through the double, each with one call |

## Left out

- `src/ffi/log.rs` (`log_init`): it sets the process environment variable `RUST_LOG` and initialises a global logger, whose outcome depends on process-wide state outside this model.
- `last_error_message` (src/ffi/ffi.h:51-64): its implementation (`ffi/error.rs`) is not part of this model; only the slot and its length are.
- The tokio runtime and `block_on`: each call's `Runtime::new()` is a parameter (`RuntimeStatus`) that may fail with an operating-system message; the asynchronous execution itself is not modelled.
- The native `PortManager` (`network::cni::port`) is not part of this model: whether it opens at a storage path and whether its `add`/`remove` succeed are per-call parameters, and its stored mappings, firewall and NAT effects are not modelled.
- The grammars of UTF-8, `SocketAddr` and `IpNetwork`, and the checks of `PortMappingBuilder::build`, are uninterpreted functions of `Env`; the builder is taken to assemble exactly the host, container port and protocol it was given.
- PortFfi.Facade.LastErrorLength: counts the characters of the message rather than its UTF-8 bytes; the two agree for the fixed ASCII messages but not for parse messages quoting non-ASCII caller text.
- FfiTypes.Message: the slot holds the outermost message of the error (the `bail!` text or the last `context`); how `ffi/error.rs` renders the context chain is not part of this model.
- PortFfi.Facade.Allocate: the model hands out addresses that were never used before; a real allocator may reuse a freed address, and the contract only promises an address no live handle holds.
- Raw-pointer memory safety (`slice::from_raw_parts`, `CStr::from_ptr`, `Box::from_raw`): the descriptor is read as the records it covers, and use of a destroyed handle or a double destroy is excluded by the precondition `Attached`, since the boundary cannot detect it.
- Thread-locality of the error slot: one `Facade` object is one calling thread's view; concurrent calls are not modelled.
- The log of manager calls is ghost state: it records what reached `add_impl`/`remove_impl`, which the source does not keep.
