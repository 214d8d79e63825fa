/**
 * The gateway object: its three id-indexed maps and the cookies attached to
 * tenants, updated in place by the six request handlers. Each handler checks
 * in the same order as the Java `NBISystem`, returns early on the first problem,
 * and is proved to answer and update exactly as its specification in
 * `Handlers` says.
 */
module Gateway {
  import opened Results
  import opened Json
  import opened Errors
  import opened Cookies
  import opened FieldDecoder
  import opened Requests
  import opened Handlers

  class NBISystem {
    var tenants: map<int64, Tenant>
    var vms: map<int64, Vm>
    var flows: map<int64, Flow>
    /** The cookie component attached to each tenant's entity, by tenant id. */
    var cookies: map<int64, Cookie>

    function State(): Registry
      reads this
    {
      Registry(tenants, vms, flows, cookies)
    }

    predicate Valid()
      reads this
    {
      State().Valid()
    }

    constructor ()
      ensures Valid() && State() == EmptyRegistry
    {
      tenants := map[];
      vms := map[];
      flows := map[];
      cookies := map[];
    }

    /**
     * POST /newTenant. `backend` is what the tenant manager answers,
     * `random` the value drawn for the cookie.
     */
    method NewTenant(body: Body, backend: Backend<int64>, random: int32) returns (r: Result<Response, Error>)
      requires Valid()
      modifies this
      ensures r == NewTenantSpec(old(State()), body, backend, random).result
      ensures State() == NewTenantSpec(old(State()), body, backend, random).after
      ensures Valid()
    {
      var name :- DecodeNewTenant(body);
      if backend.Refused? {
        return Failure(BackendRejected(backend.reason));
      }
      var id := backend.grant;
      var cookie := Issue(random);
      cookies := cookies[id := cookie];
      tenants := tenants[id := Tenant(id, name)];
      return Success(TenantCreated(id, cookie.GetCookie()));
    }

    /** POST /newVM. `backend` is what the VM manager answers. */
    method NewVm(body: Body, backend: Backend<VmGrant>) returns (r: Result<Response, Error>)
      requires Valid()
      modifies this
      ensures r == NewVmSpec(old(State()), body, backend).result
      ensures State() == NewVmSpec(old(State()), body, backend).after
      ensures Valid()
    {
      var request :- DecodeNewVm(body);
      if request.tenantId !in tenants {
        return Failure(InvalidId(TenantKind));
      }
      if cookies[request.tenantId].GetCookie() != request.cookie {
        return Failure(InvalidCookie);
      }
      var tenant := tenants[request.tenantId];
      if backend.Refused? {
        return Failure(BackendRejected(backend.reason));
      }
      var grant := backend.grant;
      vms := vms[grant.id := Vm(grant.id, request.name, tenant.id, grant.management)];
      return Success(VmCreated(grant.id, ManagementText(grant.management)));
    }

    /**
     * POST /newFlow. `resolve` parses an IP address string; `backend` is what
     * the flow manager answers. The shape stage reads the payload; the rest
     * works on what it decoded.
     */
    method NewFlow(body: Body, resolve: string -> Option<InetAddress>, backend: Backend<int64>) returns (r: Result<Response, Error>)
      requires Valid()
      modifies this
      ensures r == NewFlowSpec(old(State()), DecodeFlowHeader(body, resolve), backend).result
      ensures State() == NewFlowSpec(old(State()), DecodeFlowHeader(body, resolve), backend).after
      ensures Valid()
    {
      r := CreateFlow(DecodeFlowHeader(body, resolve), backend);
    }

    /** newFlow after its shape stage: authorization, the late checks, the backend, the update. */
    method CreateFlow(header: Result<FlowHeader, Error>, backend: Backend<int64>) returns (r: Result<Response, Error>)
      requires Valid()
      modifies this
      ensures r == NewFlowSpec(old(State()), header, backend).result
      ensures State() == NewFlowSpec(old(State()), header, backend).after
      ensures Valid()
    {
      var params :- ValidateFlow(header);
      if backend.Refused? {
        return Failure(BackendRejected(backend.reason));
      }
      var id := backend.grant;
      flows := flows[id := Flow(id, params)];
      return Success(FlowCreated(id));
    }

    /**
     * newFlow's checks between the shape stage and the backend call: the
     * tenant and its cookie, then the endpoints. Changes nothing.
     */
    method ValidateFlow(header: Result<FlowHeader, Error>) returns (r: Result<FlowParams, Error>)
      requires Valid()
      ensures r == CheckNewFlow(State(), header)
    {
      var h :- header;
      if h.tenantId !in tenants {
        return Failure(InvalidId(TenantKind));
      }
      if cookies[h.tenantId].GetCookie() != h.cookie {
        return Failure(InvalidCookie);
      }
      r := FlowEndpoints(h);
    }

    /**
     * The checks newFlow makes once the caller is authorized: source and
     * destination must be VMs of the caller's tenant, then rate, burst and
     * latency are cast. Changes nothing.
     */
    method FlowEndpoints(h: FlowHeader) returns (r: Result<FlowParams, Error>)
      requires Valid() && State().Authorizes(h.tenantId, h.cookie)
      ensures r == CheckFlowEndpoints(State(), h)
    {
      var sourceId :- AsLong(SourceKey, h.source);
      if sourceId !in vms || vms[sourceId].tenantId != h.tenantId {
        return Failure(InvalidId(SourceVm));
      }
      var destinationId :- AsLong(DestinationKey, h.destination);
      if destinationId !in vms || vms[destinationId].tenantId != h.tenantId {
        return Failure(InvalidId(DestinationVm));
      }
      var rate :- RateByBurstKind(h.rate, h.burst);
      var burst :- AsLong(BurstKey, h.burst);
      var latency :- AsNumber(LatencyKey, h.latency);
      return Success(FlowParams(
        h.name, vms[sourceId], vms[destinationId], h.srcIp, h.dstIp, h.srcPort, h.dstPort, h.protocol,
        rate, burst, latency));
    }

    /** POST /removeFlow: the cookie must be that of the flow's source VM's tenant. */
    method RemoveFlow(body: Body) returns (r: Result<Response, Error>)
      requires Valid()
      modifies this
      ensures r == RemoveFlowSpec(old(State()), body).result
      ensures State() == RemoveFlowSpec(old(State()), body).after
      ensures Valid()
    {
      var request :- DecodeRemoval(body, FlowIdKey);
      if request.id !in flows {
        return Failure(InvalidId(FlowKind));
      }
      var owner := flows[request.id].params.source.tenantId;
      if cookies[owner].GetCookie() != request.cookie {
        return Failure(InvalidCookie);
      }
      flows := flows - {request.id};
      return Success(Removed);
    }

    /** POST /removeVM: the cookie must be that of the VM's tenant. */
    method RemoveVm(body: Body) returns (r: Result<Response, Error>)
      requires Valid()
      modifies this
      ensures r == RemoveVmSpec(old(State()), body).result
      ensures State() == RemoveVmSpec(old(State()), body).after
      ensures Valid()
    {
      var request :- DecodeRemoval(body, VmIdKey);
      if request.id !in vms {
        return Failure(InvalidId(VmKind));
      }
      var owner := vms[request.id].tenantId;
      if cookies[owner].GetCookie() != request.cookie {
        return Failure(InvalidCookie);
      }
      vms := vms - {request.id};
      return Success(Removed);
    }

    /** POST /removeTenant: the cookie must be the tenant's own. */
    method RemoveTenant(body: Body) returns (r: Result<Response, Error>)
      requires Valid()
      modifies this
      ensures r == RemoveTenantSpec(old(State()), body).result
      ensures State() == RemoveTenantSpec(old(State()), body).after
      ensures Valid()
    {
      var request :- DecodeRemoval(body, TenantIdKey);
      if request.id !in tenants {
        return Failure(InvalidId(TenantKind));
      }
      if cookies[request.id].GetCookie() != request.cookie {
        return Failure(InvalidCookie);
      }
      tenants := tenants - {request.id};
      return Success(Removed);
    }
  }
}
