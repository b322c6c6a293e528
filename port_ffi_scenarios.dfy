/** The unit tests of the port-manager boundary, as client methods whose
    postconditions follow from the facade's contracts alone. The tests'
    literal C strings ("127.0.0.1", "tcp", "id", "127.0.0.1/8") are
    parameters here; what the foreign parsers make of them is stated as a
    precondition. */
module PortFfiScenarios {
  import opened FfiTypes
  import opened Decimal
  import opened Marshal
  import opened PortFfi

  /** `new_port_manager_success`: creating at a usable path and destroying
      the handle leaves the slot clear after each step and the live handles
      as they were. */
  method CreateThenDestroy(f: Facade, path: CStr)
    requires f.Valid()
    requires f.env.toStr(path).Some?
    modifies f
    ensures f.Valid()
    ensures f.managers == old(f.managers) && f.LastErrorLength() == 0
  {
    var h := f.New(Some(path), Started, true);
    assert f.LastErrorLength() == 0;
    f.Destroy(h);
  }

  /** `new_port_manager_failure_wrong_storage_path` and
      `new_port_manager_failure_null`: a null handle, a set slot, nothing
      allocated. */
  method CreateFails(f: Facade, path: Option<CStr>, opens: bool) returns (h: Option<Handle>)
    requires f.Valid()
    requires path.None? || !opens
    modifies f
    ensures f.Valid()
    ensures h.None? && f.LastErrorLength() > 0 && f.managers == old(f.managers)
  {
    h := f.New(path, Started, opens);
  }

  /** `destroy_port_manager_failure`. */
  method DestroyNullFails(f: Facade)
    requires f.Valid()
    modifies f
    ensures f.Valid()
    ensures f.LastErrorLength() > 0 && f.managers == old(f.managers)
  {
    f.Destroy(None);
  }

  /** The host address text for `ip` and `port` parses, and the builder
      accepts the mapping from it to the same container port. */
  predicate Buildable(env: Env, ip: string, port: u16, protocol: string)
  {
    && env.parseSocketAddr(AddressText(ip, port as nat)).Some?
    && env.builds(env.parseSocketAddr(AddressText(ip, port as nat)).value, port, protocol)
  }

  /** `add_port_mappings_success`: two records added through the test
      double reach `add_impl` in one call, in order, with their container
      ports; destroying the double then clears the slot again. */
  method AddTwoMappingsThroughMock(f: Facade, ip: CStr, tcp: CStr, id: CStr, network: CStr)
    requires f.Valid()
    requires f.env.toStr(ip).Some? && f.env.toStr(tcp).Some?
    requires f.env.toStr(id).Some? && f.env.toStr(network).Some?
    requires f.env.parseNetwork(f.env.toStr(network).value).Some?
    requires Buildable(f.env, f.env.toStr(ip).value, 8080, f.env.toStr(tcp).value)
    requires Buildable(f.env, f.env.toStr(ip).value, 8081, f.env.toStr(tcp).value)
    modifies f
    ensures f.Valid()
    ensures f.managers == old(f.managers) && f.LastErrorLength() == 0
    ensures |f.calls| == |old(f.calls)| + 1
    ensures var call := f.calls[|f.calls| - 1];
      && call.AddCall? && call.id == f.env.toStr(id).value
      && |call.mappings| == 2
      && call.mappings[0].containerPort == 8080 && call.mappings[1].containerPort == 8081
  {
    var h := f.NewMock();
    var records := [PortMapping(Some(ip), 8080, 8080, Some(tcp)), PortMapping(Some(ip), 8081, 8081, Some(tcp))];
    assert ConvertRecord(f.env, records[0]).Ok? && ConvertRecord(f.env, records[1]).Ok?;
    f.Add(Some(h), Some(id), Some(network), Some(PortMappings(records)), Started, false);
    assert f.LastErrorLength() == 0;
    f.Destroy(Some(h));
  }

  /** `add_port_mappings_failure_port_manager_null`, `..._id_null`,
      `..._container_network_null` and `..._port_mappings_null`: any null
      argument sets the slot and no manager is called; when the handle was
      live, destroying it afterwards clears the slot again. */
  method AddWithNullArgumentFails(
    f: Facade, h: Option<Handle>, id: Option<CStr>, network: Option<CStr>, mappings: Option<PortMappings>)
    requires f.Valid() && f.Attached(h)
    requires h.None? || id.None? || network.None? || mappings.None?
    modifies f
    ensures f.Valid() && f.calls == old(f.calls)
    ensures h.None? ==> f.LastErrorLength() > 0 && f.managers == old(f.managers)
    ensures h.Some? ==> f.LastErrorLength() == 0 && f.managers == old(f.managers) - {h.value}
  {
    f.Add(h, id, network, mappings, Started, true);
    assert f.LastErrorLength() > 0;
    if h.Some? {
      f.Destroy(h);
    }
  }

  /** `add_port_mappings_failure_port_mapping_host_ip_null` and
      `..._protocol_null`: a record with a null host IP or a null protocol
      fails the whole batch before any manager is called, leaving that
      record's message in the slot (returned as `afterAdd`); destroying the
      handle afterwards clears the slot again. */
  method AddWithNullRecordFieldFails(
    f: Facade, h: Handle, id: CStr, network: CStr, m: PortMapping) returns (afterAdd: Option<string>)
    requires f.Valid() && h in f.managers
    requires m.hostIp.None? || m.protocol.None?
    modifies f
    ensures afterAdd == Some(Message(if m.hostIp.None? then NullHostIp else NullProtocol))
    ensures f.Valid() && f.calls == old(f.calls)
    ensures f.managers == old(f.managers) - {h} && f.LastErrorLength() == 0
  {
    InvalidRecordBlocksAdd(f.env, h, id, network, [m], Started, 0);
    f.Add(Some(h), Some(id), Some(network), Some(PortMappings([m])), Started, true);
    afterAdd := f.lastError;
    f.Destroy(Some(h));
  }

  /** A record whose address text does not parse as a socket address fails
      the whole batch: no manager is called, and the slot names the parse
      stage and quotes the text `"<host_ip>:<host_port>"`. */
  method AddWithMalformedAddressFails(
    f: Facade, h: Handle, id: CStr, network: CStr, records: seq<PortMapping>, k: nat)
    requires h in f.managers
    requires k < |records| && AllConvert(f.env, records[..k])
    requires records[k].hostIp.Some? && records[k].protocol.Some?
    requires f.env.toStr(records[k].hostIp.value).Some?
    requires f.env.parseSocketAddr(
      AddressText(f.env.toStr(records[k].hostIp.value).value, records[k].hostPort as nat)).None?
    modifies f
    ensures f.calls == old(f.calls)
    ensures f.lastError == Some("parse socket address " +
      AddressText(f.env.toStr(records[k].hostIp.value).value, records[k].hostPort as nat))
  {
    InvalidRecordBlocksAdd(f.env, h, id, network, records, Started, k);
    f.Add(Some(h), Some(id), Some(network), Some(PortMappings(records)), Started, true);
  }

  /** `remove_port_mappings_success`: the test double removes without
      error, and destroying it clears the slot. */
  method RemoveThroughMock(f: Facade, id: CStr)
    requires f.Valid()
    requires f.env.toStr(id).Some?
    modifies f
    ensures f.Valid()
    ensures f.managers == old(f.managers) && f.LastErrorLength() == 0
    ensures |f.calls| == |old(f.calls)| + 1 && f.calls[|f.calls| - 1].RemoveCall?
  {
    var h := f.NewMock();
    f.Remove(Some(h), Some(id), Started, false);
    assert f.LastErrorLength() == 0;
    f.Destroy(Some(h));
  }

  /** `remove_port_mappings_failure_port_manager_null` and
      `..._id_null`: a null argument sets the slot and no manager is
      called; when the handle was live, destroying it afterwards clears the
      slot again. */
  method RemoveWithNullArgumentFails(f: Facade, h: Option<Handle>, id: Option<CStr>)
    requires f.Valid() && f.Attached(h)
    requires h.None? || id.None?
    modifies f
    ensures f.Valid() && f.calls == old(f.calls)
    ensures h.None? ==> f.LastErrorLength() > 0 && f.managers == old(f.managers)
    ensures h.Some? ==> f.LastErrorLength() == 0 && f.managers == old(f.managers) - {h.value}
  {
    f.Remove(h, id, Started, true);
    assert f.LastErrorLength() > 0;
    if h.Some? {
      f.Destroy(h);
    }
  }

  /** Adding a batch of any number of valid records through the test double
      and then removing the same container ID both succeed, each reaching
      the double exactly once. */
  method AddThenRemoveThroughMock(f: Facade, h: Handle, id: CStr, network: CStr, records: seq<PortMapping>)
    requires h in f.managers && f.managers[h] == Mock
    requires AllConvert(f.env, records)
    requires f.env.toStr(id).Some? && f.env.toStr(network).Some?
    requires f.env.parseNetwork(f.env.toStr(network).value).Some?
    modifies f
    ensures f.LastErrorLength() == 0
    ensures |f.calls| == |old(f.calls)| + 2
    ensures f.calls[|f.calls| - 2].AddCall? && |f.calls[|f.calls| - 2].mappings| == |records|
    ensures f.calls[|f.calls| - 1] == RemoveCall(h, f.env.toStr(id).value)
  {
    f.Add(Some(h), Some(id), Some(network), Some(PortMappings(records)), Started, false);
    assert f.LastErrorLength() == 0;
    f.Remove(Some(h), Some(id), Started, false);
  }
}
