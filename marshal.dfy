/** Conversion of the caller's `PortMapping` records into native port
    mappings, as the loop of `port_manager_add_res` does it. */
module Marshal {
  import opened FfiTypes
  import opened Decimal

  /** One pass of the loop body for record `m`: reject a null host IP, then
      a null protocol; convert the host IP text, parse it with the port as a
      socket address, convert the protocol text, and let the builder accept
      the three fields. */
  function ConvertRecord(env: Env, m: PortMapping): (r: Result<NativeMapping>)
    ensures m.hostIp.None? ==> r == Err(NullHostIp)
    ensures m.hostIp.Some? && m.protocol.None? ==> r == Err(NullProtocol)
    ensures r.Ok? ==>
      && m.hostIp.Some? && m.protocol.Some?
      && env.toStr(m.hostIp.value).Some?
      && env.parseSocketAddr(AddressText(env.toStr(m.hostIp.value).value, m.hostPort as nat)) == Some(r.value.host)
      && env.toStr(m.protocol.value) == Some(r.value.protocol)
      && r.value.containerPort == m.containerPort
    ensures r.Ok? <==>
      && m.hostIp.Some? && m.protocol.Some?
      && env.toStr(m.hostIp.value).Some?
      && env.parseSocketAddr(AddressText(env.toStr(m.hostIp.value).value, m.hostPort as nat)).Some?
      && env.toStr(m.protocol.value).Some?
      && env.builds(env.parseSocketAddr(AddressText(env.toStr(m.hostIp.value).value, m.hostPort as nat)).value,
                    m.containerPort, env.toStr(m.protocol.value).value)
    ensures m.hostIp.Some? && m.protocol.Some? && env.toStr(m.hostIp.value).None? ==>
      r == Err(NotText(HostIp))
    ensures (&& m.hostIp.Some? && m.protocol.Some? && env.toStr(m.hostIp.value).Some?
             && env.parseSocketAddr(AddressText(env.toStr(m.hostIp.value).value, m.hostPort as nat)).None?) ==>
      r == Err(BadSocketAddress(AddressText(env.toStr(m.hostIp.value).value, m.hostPort as nat)))
    ensures (&& m.hostIp.Some? && m.protocol.Some? && env.toStr(m.hostIp.value).Some?
             && env.parseSocketAddr(AddressText(env.toStr(m.hostIp.value).value, m.hostPort as nat)).Some?
             && env.toStr(m.protocol.value).None?) ==>
      r == Err(NotText(Protocol))
    ensures (&& m.hostIp.Some? && m.protocol.Some? && env.toStr(m.hostIp.value).Some?
             && env.parseSocketAddr(AddressText(env.toStr(m.hostIp.value).value, m.hostPort as nat)).Some?
             && env.toStr(m.protocol.value).Some?
             && !env.builds(env.parseSocketAddr(AddressText(env.toStr(m.hostIp.value).value, m.hostPort as nat)).value,
                            m.containerPort, env.toStr(m.protocol.value).value)) ==>
      r == Err(MappingRejected)
    ensures r.Err? && r.error == MappingRejected ==>
      && m.hostIp.Some? && m.protocol.Some?
      && env.toStr(m.hostIp.value).Some? && env.toStr(m.protocol.value).Some?
      && env.parseSocketAddr(AddressText(env.toStr(m.hostIp.value).value, m.hostPort as nat)).Some?
  {
    if m.hostIp.None? then Err(NullHostIp)
    else if m.protocol.None? then Err(NullProtocol)
    else
      match env.toStr(m.hostIp.value)
      case None => Err(NotText(HostIp))
      case Some(ip) =>
        var text := AddressText(ip, m.hostPort as nat);
        match env.parseSocketAddr(text)
        case None => Err(BadSocketAddress(text))
        case Some(host) =>
          match env.toStr(m.protocol.value)
          case None => Err(NotText(Protocol))
          case Some(protocol) =>
            if env.builds(host, m.containerPort, protocol)
            then Ok(NativeMapping(host, m.containerPort, protocol))
            else Err(MappingRejected)
  }

  predicate AllConvert(env: Env, records: seq<PortMapping>)
  {
    forall i :: 0 <= i < |records| ==> ConvertRecord(env, records[i]).Ok?
  }

  /** The whole batch: every record converted, in order, or the error of the
      first record that fails. */
  function ConvertAll(env: Env, records: seq<PortMapping>): (r: Result<seq<NativeMapping>>)
    ensures r.Ok? <==> AllConvert(env, records)
    ensures r.Ok? ==>
      && |r.value| == |records|
      && forall i :: 0 <= i < |records| ==> ConvertRecord(env, records[i]) == Ok(r.value[i])
    decreases |records|
  {
    if records == [] then Ok([])
    else
      var last := |records| - 1;
      match ConvertAll(env, records[..last])
      case Err(e) => Err(e)
      case Ok(done) =>
        match ConvertRecord(env, records[last])
        case Err(e) => Err(e)
        case Ok(m) => Ok(done + [m])
  }

  /** All-or-nothing: the first record that fails decides the error of the
      whole batch, whatever follows it. */
  lemma {:induction false} FirstFailureAborts(env: Env, records: seq<PortMapping>, k: nat)
    requires k < |records|
    requires AllConvert(env, records[..k])
    requires ConvertRecord(env, records[k]).Err?
    ensures ConvertAll(env, records) == Err(ConvertRecord(env, records[k]).error)
    decreases |records|
  {
    var last := |records| - 1;
    if k < last {
      assert records[..last][..k] == records[..k];
      FirstFailureAborts(env, records[..last], k);
    } else {
      assert records[..k] == records[..last];
    }
  }

  /** The loop of `port_manager_add_res` over the record array: it pushes
      one native mapping per record and returns at the first invalid one. */
  method MarshalMappings(env: Env, records: seq<PortMapping>) returns (r: Result<seq<NativeMapping>>)
    ensures r == ConvertAll(env, records)
  {
    var mappings: seq<NativeMapping> := [];
    var i := 0;
    while i < |records|
      invariant i <= |records|
      invariant ConvertAll(env, records[..i]) == Ok(mappings)
    {
      var m := records[i];
      if m.hostIp.None? {
        FirstFailureAborts(env, records, i);
        return Err(NullHostIp);
      }
      if m.protocol.None? {
        FirstFailureAborts(env, records, i);
        return Err(NullProtocol);
      }
      var ip := env.toStr(m.hostIp.value);
      if ip.None? {
        FirstFailureAborts(env, records, i);
        return Err(NotText(HostIp));
      }
      var text := AddressText(ip.value, m.hostPort as nat);
      var host := env.parseSocketAddr(text);
      if host.None? {
        FirstFailureAborts(env, records, i);
        return Err(BadSocketAddress(text));
      }
      var protocol := env.toStr(m.protocol.value);
      if protocol.None? {
        FirstFailureAborts(env, records, i);
        return Err(NotText(Protocol));
      }
      if !env.builds(host.value, m.containerPort, protocol.value) {
        FirstFailureAborts(env, records, i);
        return Err(MappingRejected);
      }
      assert records[..i + 1][..i] == records[..i];
      mappings := mappings + [NativeMapping(host.value, m.containerPort, protocol.value)];
      i := i + 1;
    }
    assert records[..i] == records;
    return Ok(mappings);
  }
}
