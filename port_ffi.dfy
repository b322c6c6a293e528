/** The C boundary of the port manager: `port_manager_new`,
    `port_manager_destroy`, `port_manager_add` and `port_manager_remove`,
    the handles they hand out and take back, and the last-error slot every
    one of them writes. */
module PortFfi {
  import opened FfiTypes
  import opened Decimal
  import opened Marshal

  /** What a handle owns: the native `PortManager` opened at a storage path,
      or the test double whose `Manager` methods keep the trait's default
      bodies. */
  datatype Manager = Native(storagePath: string) | Mock

  /** One call into `Manager::add_impl` or `Manager::remove_impl`. */
  datatype ServiceCall =
    | AddCall(handle: Handle, id: string, network: IpNetwork, mappings: seq<NativeMapping>)
    | RemoveCall(handle: Handle, id: string)

  /** Whether the manager's `add_impl` or `remove_impl` returns `Ok(())`: the
      default bodies always do; the native manager answers as it reports
      (`nativeOk`). */
  function Answers(m: Manager, nativeOk: bool): (ok: bool)
    ensures m.Mock? ==> ok
    ensures m.Native? ==> ok == nativeOk
  {
    m.Mock? || nativeOk
  }

  /** `port_manager_new_res` up to the boxing of the new manager: the
      storage path text the native manager is opened at, or the error. The
      runtime is created before the path is converted, and `opens` is
      whether `PortManager::new` succeeds at that path. */
  function PlanNew(env: Env, storagePath: Option<CStr>, runtime: RuntimeStatus, opens: bool): (r: Result<string>)
    ensures storagePath.None? ==> r == Err(NullStoragePath)
    ensures storagePath.Some? && runtime.Unavailable? ==> r == Err(RuntimeFailed(runtime.reason))
    ensures storagePath.Some? && runtime.Started? && env.toStr(storagePath.value).None? ==>
      r == Err(NotText(StoragePath))
    ensures storagePath.Some? && runtime.Started? && env.toStr(storagePath.value).Some? && !opens ==>
      r == Err(StorageFailed)
    ensures r.Ok? <==>
      storagePath.Some? && runtime.Started? && env.toStr(storagePath.value).Some? && opens
    ensures r.Ok? ==> env.toStr(storagePath.value) == Some(r.value)
  {
    if storagePath.None? then Err(NullStoragePath)
    else if runtime.Unavailable? then Err(RuntimeFailed(runtime.reason))
    else
      match env.toStr(storagePath.value)
      case None => Err(NotText(StoragePath))
      case Some(path) => if opens then Ok(path) else Err(StorageFailed)
  }

  /** Every check of `port_manager_add_res` before `add_impl` runs: the
      call it then makes, or the error of the first check that fails. */
  function PlanAdd(
    env: Env, portManager: Option<Handle>, id: Option<CStr>, containerNetwork: Option<CStr>,
    portMappings: Option<PortMappings>, runtime: RuntimeStatus): (r: Result<ServiceCall>)
    ensures portManager.None? ==> r == Err(NullPortManager)
    ensures portManager.Some? && id.None? ==> r == Err(NullId)
    ensures portManager.Some? && id.Some? && containerNetwork.None? ==> r == Err(NullContainerNetwork)
    ensures portManager.Some? && id.Some? && containerNetwork.Some? && portMappings.None? ==>
      r == Err(NullPortMappings)
    ensures (&& portManager.Some? && id.Some? && containerNetwork.Some? && portMappings.Some?
             && AllConvert(env, portMappings.value.records)) ==>
      && (env.toStr(containerNetwork.value).None? ==> r == Err(NotText(ContainerNetwork)))
      && (env.toStr(containerNetwork.value).Some? && runtime.Unavailable? ==>
            r == Err(RuntimeFailed(runtime.reason)))
      && (env.toStr(containerNetwork.value).Some? && runtime.Started? && env.toStr(id.value).None? ==>
            r == Err(NotText(Id)))
      && ((&& env.toStr(containerNetwork.value).Some? && runtime.Started? && env.toStr(id.value).Some?
           && env.parseNetwork(env.toStr(containerNetwork.value).value).None?) ==>
            r == Err(BadContainerNetwork(env.toStr(containerNetwork.value).value)))
    ensures r.Ok? ==>
      && portManager.Some? && id.Some? && containerNetwork.Some? && portMappings.Some?
      && runtime.Started?
      && r.value.AddCall?
      && r.value.handle == portManager.value
      && env.toStr(id.value) == Some(r.value.id)
      && env.toStr(containerNetwork.value).Some?
      && env.parseNetwork(env.toStr(containerNetwork.value).value) == Some(r.value.network)
    ensures r.Ok? <==>
      && portManager.Some? && id.Some? && containerNetwork.Some? && portMappings.Some?
      && AllConvert(env, portMappings.value.records)
      && env.toStr(containerNetwork.value).Some?
      && runtime.Started?
      && env.toStr(id.value).Some?
      && env.parseNetwork(env.toStr(containerNetwork.value).value).Some?
    ensures r.Ok? ==>
      var records := portMappings.value.records;
      && |r.value.mappings| == |records|
      && forall i :: 0 <= i < |records| ==>
           && ConvertRecord(env, records[i]) == Ok(r.value.mappings[i])
           && r.value.mappings[i].containerPort == records[i].containerPort
  {
    if portManager.None? then Err(NullPortManager)
    else if id.None? then Err(NullId)
    else if containerNetwork.None? then Err(NullContainerNetwork)
    else if portMappings.None? then Err(NullPortMappings)
    else
      match ConvertAll(env, portMappings.value.records)
      case Err(e) => Err(e)
      case Ok(mappings) =>
        match env.toStr(containerNetwork.value)
        case None => Err(NotText(ContainerNetwork))
        case Some(networkText) =>
          if runtime.Unavailable? then Err(RuntimeFailed(runtime.reason))
          else
            match env.toStr(id.value)
            case None => Err(NotText(Id))
            case Some(idText) =>
              match env.parseNetwork(networkText)
              case None => Err(BadContainerNetwork(networkText))
              case Some(network) => Ok(AddCall(portManager.value, idText, network, mappings))
  }

  /** Once the four pointers are non-null, the first invalid record decides
      the outcome: its error is reported whatever the later records, the
      network text, the runtime or the ID would have given. */
  lemma InvalidRecordBlocksAdd(
    env: Env, portManager: Handle, id: CStr, containerNetwork: CStr,
    records: seq<PortMapping>, runtime: RuntimeStatus, k: nat)
    requires k < |records|
    requires AllConvert(env, records[..k])
    requires ConvertRecord(env, records[k]).Err?
    ensures PlanAdd(env, Some(portManager), Some(id), Some(containerNetwork), Some(PortMappings(records)), runtime)
         == Err(ConvertRecord(env, records[k]).error)
  {
    FirstFailureAborts(env, records, k);
  }

  /** The single host address text `port_manager_add` builds for a record
      that gets past its null checks. */
  lemma SubmittedHostParsedFromAddressText(
    env: Env, portManager: Option<Handle>, id: Option<CStr>, containerNetwork: Option<CStr>,
    portMappings: Option<PortMappings>, runtime: RuntimeStatus, i: nat)
    requires PlanAdd(env, portManager, id, containerNetwork, portMappings, runtime).Ok?
    requires portMappings.Some? && i < |portMappings.value.records|
    ensures var m := portMappings.value.records[i];
      && m.hostIp.Some? && env.toStr(m.hostIp.value).Some?
      && env.parseSocketAddr(env.toStr(m.hostIp.value).value + ":" + Render(m.hostPort as nat))
         == Some(PlanAdd(env, portManager, id, containerNetwork, portMappings, runtime).value.mappings[i].host)
  {
  }

  /** Every check of `port_manager_remove_res` before `remove_impl` runs. */
  function PlanRemove(env: Env, portManager: Option<Handle>, id: Option<CStr>, runtime: RuntimeStatus): (r: Result<ServiceCall>)
    ensures portManager.None? ==> r == Err(NullPortManager)
    ensures portManager.Some? && id.None? ==> r == Err(NullId)
    ensures portManager.Some? && id.Some? && runtime.Unavailable? ==> r == Err(RuntimeFailed(runtime.reason))
    ensures portManager.Some? && id.Some? && runtime.Started? && env.toStr(id.value).None? ==>
      r == Err(NotText(Id))
    ensures r.Ok? <==>
      portManager.Some? && id.Some? && runtime.Started? && env.toStr(id.value).Some?
    ensures r.Ok? ==>
      r.value == RemoveCall(portManager.value, env.toStr(id.value).value)
  {
    if portManager.None? then Err(NullPortManager)
    else if id.None? then Err(NullId)
    else if runtime.Unavailable? then Err(RuntimeFailed(runtime.reason))
    else
      match env.toStr(id.value)
      case None => Err(NotText(Id))
      case Some(idText) => Ok(RemoveCall(portManager.value, idText))
  }

  /** The boundary as one calling thread sees it: its last-error slot, the
      live handles and what each owns, and the log of calls that reached a
      manager. */
  class Facade {
    const env: Env
    var lastError: Option<string>
    var managers: map<Handle, Manager>
    var nextAddress: Handle
    ghost var calls: seq<ServiceCall>

    /** Every live handle lies strictly between null and the next address
        the allocator hands out. */
    ghost predicate Valid()
      reads this
    {
      0 < nextAddress && forall a :: a in managers ==> 0 < a < nextAddress
    }

    /** A non-null handle passed in must be live: use after destroy is
        undefined behaviour the boundary cannot detect. */
    predicate Attached(h: Option<Handle>)
      reads this
    {
      h.Some? ==> h.value in managers
    }

    constructor (env: Env)
      ensures Valid()
      ensures this.env == env && lastError == None && managers == map[] && calls == []
    {
      this.env := env;
      lastError := None;
      managers := map[];
      nextAddress := 1;
      calls := [];
    }

    /** `last_error_length`: the message length counting its trailing NUL,
        so a set slot is never reported as empty. */
    function LastErrorLength(): (n: nat)
      reads this
      ensures n == 0 <==> lastError.None?
      ensures lastError.Some? ==> n == |lastError.value| + 1
    {
      match lastError
      case None => 0
      case Some(m) => |m| + 1
    }

    /** `update_last_error`. */
    method UpdateLastError(e: Error)
      modifies this`lastError
      ensures lastError == Some(Message(e))
    {
      lastError := Some(Message(e));
    }

    /** `remove_last_error`. */
    method RemoveLastError()
      modifies this`lastError
      ensures lastError == None
    {
      lastError := None;
    }

    /** `update_last_err_if_required`: clear the slot on success, set it on
        failure. */
    method UpdateLastErrIfRequired(r: Result<()>)
      modifies this`lastError
      ensures lastError == if r.Ok? then None else Some(Message(r.error))
    {
      if r.Ok? {
        RemoveLastError();
      } else {
        UpdateLastError(r.error);
      }
    }

    /** `Box::into_raw`: a non-null address that no live handle holds. */
    method Allocate(m: Manager) returns (h: Handle)
      requires Valid()
      modifies this`managers, this`nextAddress
      ensures Valid()
      ensures 0 < h && h !in old(managers) && managers == old(managers)[h := m]
    {
      h := nextAddress;
      managers := managers[h := m];
      nextAddress := nextAddress + 1;
    }

    /** `port_manager_new_res`. */
    method NewRes(storagePath: Option<CStr>, runtime: RuntimeStatus, opens: bool) returns (r: Result<Handle>)
      requires Valid()
      modifies this`managers, this`nextAddress
      ensures Valid()
      ensures var plan := PlanNew(env, storagePath, runtime, opens);
        && (r.Ok? <==> plan.Ok?)
        && (r.Err? ==> r.error == plan.error && managers == old(managers))
        && (r.Ok? ==> r.value !in old(managers) && managers == old(managers)[r.value := Native(plan.value)])
    {
      if storagePath.None? {
        return Err(NullStoragePath);
      }
      if runtime.Unavailable? {
        return Err(RuntimeFailed(runtime.reason));
      }
      var path := env.toStr(storagePath.value);
      if path.None? {
        return Err(NotText(StoragePath));
      }
      if !opens {
        return Err(StorageFailed);
      }
      var h := Allocate(Native(path.value));
      return Ok(h);
    }

    /** `port_manager_new`: a fresh live handle and a cleared slot, or a
        null handle, no allocation and a set slot. */
    method New(storagePath: Option<CStr>, runtime: RuntimeStatus, opens: bool) returns (h: Option<Handle>)
      requires Valid()
      modifies this`managers, this`nextAddress, this`lastError
      ensures Valid()
      ensures var plan := PlanNew(env, storagePath, runtime, opens);
        && (h.Some? <==> plan.Ok?)
        && (h.None? ==> managers == old(managers) && lastError == Some(Message(plan.error)))
        && (h.Some? ==>
              && h.value !in old(managers)
              && managers == old(managers)[h.value := Native(plan.value)]
              && lastError == None)
    {
      var r := NewRes(storagePath, runtime, opens);
      if r.Err? {
        UpdateLastError(r.error);
        h := None;
      } else {
        RemoveLastError();
        h := Some(r.value);
      }
    }

    /** `PortManagerMock::new` of the tests: a live handle owning the test
        double. */
    method NewMock() returns (h: Handle)
      requires Valid()
      modifies this`managers, this`nextAddress
      ensures Valid()
      ensures h !in old(managers) && managers == old(managers)[h := Mock]
    {
      h := Allocate(Mock);
    }

    /** `port_manager_destroy`: a null handle sets the slot and frees
        nothing; a live handle is released and the slot cleared. */
    method Destroy(portManager: Option<Handle>)
      requires Valid() && Attached(portManager)
      modifies this`managers, this`lastError
      ensures Valid()
      ensures portManager.None? ==>
        managers == old(managers) && lastError == Some(Message(NullPortManager))
      ensures portManager.Some? ==>
        managers == old(managers) - {portManager.value} && lastError == None
    {
      if portManager.None? {
        UpdateLastError(NullPortManager);
      } else {
        managers := managers - {portManager.value};
        RemoveLastError();
      }
    }

    /** `port_manager_add_res`: checks everything, then calls `add_impl`
        exactly once, or fails without calling it. */
    method AddRes(
      portManager: Option<Handle>, id: Option<CStr>, containerNetwork: Option<CStr>,
      portMappings: Option<PortMappings>, runtime: RuntimeStatus, nativeOk: bool) returns (r: Result<()>)
      requires Attached(portManager)
      modifies this`calls
      ensures var plan := PlanAdd(env, portManager, id, containerNetwork, portMappings, runtime);
        && (plan.Err? ==> r == Err(plan.error) && calls == old(calls))
        && (plan.Ok? ==>
              && calls == old(calls) + [plan.value]
              && r == if Answers(managers[plan.value.handle], nativeOk) then Ok(()) else Err(AddFailed))
    {
      if portManager.None? {
        return Err(NullPortManager);
      }
      if id.None? {
        return Err(NullId);
      }
      if containerNetwork.None? {
        return Err(NullContainerNetwork);
      }
      if portMappings.None? {
        return Err(NullPortMappings);
      }
      var mappings := MarshalMappings(env, portMappings.value.records);
      if mappings.Err? {
        return Err(mappings.error);
      }
      var networkText := env.toStr(containerNetwork.value);
      if networkText.None? {
        return Err(NotText(ContainerNetwork));
      }
      if runtime.Unavailable? {
        return Err(RuntimeFailed(runtime.reason));
      }
      var manager := managers[portManager.value];
      var idText := env.toStr(id.value);
      if idText.None? {
        return Err(NotText(Id));
      }
      var network := env.parseNetwork(networkText.value);
      if network.None? {
        return Err(BadContainerNetwork(networkText.value));
      }
      calls := calls + [AddCall(portManager.value, idText.value, network.value, mappings.value)];
      r := if Answers(manager, nativeOk) then Ok(()) else Err(AddFailed);
    }

    /** `port_manager_add`. */
    method Add(
      portManager: Option<Handle>, id: Option<CStr>, containerNetwork: Option<CStr>,
      portMappings: Option<PortMappings>, runtime: RuntimeStatus, nativeOk: bool)
      requires Attached(portManager)
      modifies this`calls, this`lastError
      ensures var plan := PlanAdd(env, portManager, id, containerNetwork, portMappings, runtime);
        && (plan.Err? ==> calls == old(calls) && lastError == Some(Message(plan.error)))
        && (plan.Ok? ==>
              && calls == old(calls) + [plan.value]
              && lastError == if Answers(managers[plan.value.handle], nativeOk) then None else Some(Message(AddFailed)))
    {
      var r := AddRes(portManager, id, containerNetwork, portMappings, runtime, nativeOk);
      UpdateLastErrIfRequired(r);
    }

    /** `port_manager_remove_res`. */
    method RemoveRes(portManager: Option<Handle>, id: Option<CStr>, runtime: RuntimeStatus, nativeOk: bool)
      returns (r: Result<()>)
      requires Attached(portManager)
      modifies this`calls
      ensures var plan := PlanRemove(env, portManager, id, runtime);
        && (plan.Err? ==> r == Err(plan.error) && calls == old(calls))
        && (plan.Ok? ==>
              && calls == old(calls) + [plan.value]
              && r == if Answers(managers[plan.value.handle], nativeOk) then Ok(()) else Err(RemoveFailed))
    {
      if portManager.None? {
        return Err(NullPortManager);
      }
      if id.None? {
        return Err(NullId);
      }
      if runtime.Unavailable? {
        return Err(RuntimeFailed(runtime.reason));
      }
      var manager := managers[portManager.value];
      var idText := env.toStr(id.value);
      if idText.None? {
        return Err(NotText(Id));
      }
      calls := calls + [RemoveCall(portManager.value, idText.value)];
      r := if Answers(manager, nativeOk) then Ok(()) else Err(RemoveFailed);
    }

    /** `port_manager_remove`. */
    method Remove(portManager: Option<Handle>, id: Option<CStr>, runtime: RuntimeStatus, nativeOk: bool)
      requires Attached(portManager)
      modifies this`calls, this`lastError
      ensures var plan := PlanRemove(env, portManager, id, runtime);
        && (plan.Err? ==> calls == old(calls) && lastError == Some(Message(plan.error)))
        && (plan.Ok? ==>
              && calls == old(calls) + [plan.value]
              && lastError == if Answers(managers[plan.value.handle], nativeOk) then None else Some(Message(RemoveFailed)))
    {
      var r := RemoveRes(portManager, id, runtime, nativeOk);
      UpdateLastErrIfRequired(r);
    }
  }
}
