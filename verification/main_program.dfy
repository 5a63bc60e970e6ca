/** Two pieces of main.go beside the pipeline: the fixed "hello-world" job
    builder and `getJobUri`, an alternative address resolver that goes
    through the first running allocation and the node it was placed on.

    The allocation list, the allocation's details and the node's details are
    Nomad queries; they come in as inputs. `getJobUri` dereferences the
    node's `Resources` and the allocation's `AllocatedResources` without a
    nil check; those paths end in `Panics`. */
module MainProgram {
  import opened GoTypes
  import opened NomadApi
  import opened JobSpec
  import Fmt

  const HelloWorld := "hello-world"
  const RunningStatus := "running"

  /** The index page of the fixed job, a Nomad template over task
      environment variables. */
  const HelloTemplate :=
    "<h1>Hello, Nomad!</h1>\n<ul>\n"
    + "  <li>Task: {{env \"NOMAD_TASK_NAME\"}}</li>\n"
    + "  <li>Group: {{env \"NOMAD_GROUP_NAME\"}}</li>\n"
    + "  <li>Job: {{env \"NOMAD_JOB_NAME\"}}</li>\n"
    + "  <li>Metadata value for foo: {{env \"NOMAD_META_foo\"}}</li>\n"
    + "  <li>Currently running on port: {{env \"NOMAD_PORT_www\"}}</li>\n"
    + "</ul>"

  /** `createServiceJob()`: the fixed job, ID and name "hello-world", wired
      to "www" like the pipeline's job. */
  function CreateServiceJob(): (job: Job)
    ensures job.id == HelloWorld && job.name == HelloWorld
    ensures job.meta == map["foo" := "bar"]
    ensures EmbedsOnWww(job, HelloTemplate)
  {
    ServiceJob(HelloWorld, HelloWorld, map["foo" := "bar"], HelloTemplate)
  }

  /** The index of the first stub at or after `k` whose client status is
      "running". */
  function FirstRunning(stubs: seq<AllocationListStub>, k: nat): (r: Option<nat>)
    requires k <= |stubs|
    ensures r.Some? ==> k <= r.value < |stubs| && stubs[r.value].clientStatus == RunningStatus
    ensures r.Some? ==> forall m | k <= m < r.value :: stubs[m].clientStatus != RunningStatus
    ensures r.None? ==> forall m | k <= m < |stubs| :: stubs[m].clientStatus != RunningStatus
    decreases |stubs| - k
  {
    if k == |stubs| then None
    else if stubs[k].clientStatus == RunningStatus then Some(k)
    else FirstRunning(stubs, k + 1)
  }

  /** The value the first-iteration `break` loops leave behind: the first
      network's IP, or "" when the node lists no network. */
  function FirstNetworkIP(nets: seq<NetworkResource>): string {
    if |nets| > 0 then nets[0].ip else ""
  }

  /** The first shared port's value, or 0 when there is none. */
  function FirstPortValue(ports: seq<PortMapping>): int {
    if |ports| > 0 then ports[0].value else 0
  }

  /** A successful `getJobUri` result: stub `k` is the first running one,
      its details and its node's details were read, and the URI is built from
      the node's first network IP and the allocation's first shared port,
      neither of which is empty or zero. */
  ghost predicate ResolvedThrough(stubs: seq<AllocationListStub>, k: int,
                                  allocationInfo: string -> QueryResult<Allocation>,
                                  nodeInfo: string -> QueryResult<Node>, uri: string) {
    && 0 <= k < |stubs|
    && stubs[k].clientStatus == RunningStatus
    && (forall m | 0 <= m < k :: stubs[m].clientStatus != RunningStatus)
    && allocationInfo(stubs[k].id).QueryOk?
    && var alloc := allocationInfo(stubs[k].id).value;
       && nodeInfo(alloc.nodeID).QueryOk?
       && var node := nodeInfo(alloc.nodeID).value;
          && node.resources.Some?
          && |node.resources.value.networks| > 0
          && node.resources.value.networks[0].ip != ""
          && alloc.allocatedResources.Some?
          && |alloc.allocatedResources.value.shared.ports| > 0
          && alloc.allocatedResources.value.shared.ports[0].value != 0
          && uri == UriScheme + Fmt.HostPort(node.resources.value.networks[0].ip,
                                             alloc.allocatedResources.value.shared.ports[0].value)
  }

  /** The two nil dereferences of `getJobUri`: the first running
      allocation and its node were read, and either the node carries no
      `Resources`, or its first network has an IP and the allocation carries
      no `AllocatedResources`. */
  predicate DereferencesNil(allocations: QueryResult<seq<AllocationListStub>>,
                            allocationInfo: string -> QueryResult<Allocation>,
                            nodeInfo: string -> QueryResult<Node>) {
    && allocations.QueryOk?
    && FirstRunning(allocations.value, 0).Some?
    && var stub := allocations.value[FirstRunning(allocations.value, 0).value];
       && allocationInfo(stub.id).QueryOk?
       && var alloc := allocationInfo(stub.id).value;
          && nodeInfo(alloc.nodeID).QueryOk?
          && var node := nodeInfo(alloc.nodeID).value;
             || node.resources.None?
             || (FirstNetworkIP(node.resources.value.networks) != "" && alloc.allocatedResources.None?)
  }

  /** `getJobUri(client, jobId)`: it succeeds exactly when the first running
      allocation resolves, with the URI it resolves to, and it panics exactly
      at the two nil dereferences. */
  function GetJobUri(jobId: string, allocations: QueryResult<seq<AllocationListStub>>,
                     allocationInfo: string -> QueryResult<Allocation>,
                     nodeInfo: string -> QueryResult<Node>): (r: Exit<string>)
    ensures !r.StillPolling?
    ensures r.Returns? && !r.ret.Ok() ==> r.ret.value == ""
    ensures r.Returns? && r.ret.Ok() ==>
      allocations.QueryOk? && exists k :: ResolvedThrough(allocations.value, k, allocationInfo, nodeInfo, r.ret.value)
    ensures allocations.QueryOk? ==>
      forall k, u | ResolvedThrough(allocations.value, k, allocationInfo, nodeInfo, u) ::
        FirstRunning(allocations.value, 0) == Some(k) && r == Returns(Ret(u, None))
    ensures r.Panics? <==> DereferencesNil(allocations, allocationInfo, nodeInfo)
  {
    match allocations
    case QueryErr(cause) =>
      Returns(Fail("", "failed to get allocations for job " + jobId + ": " + cause))
    case QueryOk(stubs) =>
      var k := FirstRunning(stubs, 0);
      if k.None? then
        Returns(Fail("", "no running allocations found for job " + jobId))
      else
        var stub := stubs[k.value];
        match allocationInfo(stub.id)
        case QueryErr(cause) =>
          Returns(Fail("", "failed to get allocation info for ID " + stub.id + ": " + cause))
        case QueryOk(alloc) =>
          match nodeInfo(alloc.nodeID)
          case QueryErr(cause) =>
            Returns(Fail("", "failed to get node info for node " + alloc.nodeID + ": " + cause))
          case QueryOk(node) =>
            if node.resources.None? then
              Panics
            else
              var nodeIP := FirstNetworkIP(node.resources.value.networks);
              if nodeIP == "" then
                Returns(Fail("", "no IP address found for node " + alloc.nodeID))
              else if alloc.allocatedResources.None? then
                Panics
              else
                var port := FirstPortValue(alloc.allocatedResources.value.shared.ports);
                if port == 0 then
                  Returns(Fail("", "no allocated ports found for allocation " + alloc.id))
                else
                  assert ResolvedThrough(stubs, k.value, allocationInfo, nodeInfo, UriScheme + Fmt.HostPort(nodeIP, port));
                  Returns(Ret(UriScheme + Fmt.HostPort(nodeIP, port), None))
  }

  /** Each missing piece has its own error: the allocation list query, no
      running stub, the allocation query, the node query, an empty IP on the
      node's first network (later networks are never looked at), and a zero
      first port value (also when there is no port). */
  lemma EachMissingPieceHasItsError(jobId: string, allocations: QueryResult<seq<AllocationListStub>>,
                                    allocationInfo: string -> QueryResult<Allocation>,
                                    nodeInfo: string -> QueryResult<Node>)
    ensures var r := GetJobUri(jobId, allocations, allocationInfo, nodeInfo);
      && (allocations.QueryErr? ==>
            r == Returns(Fail("", "failed to get allocations for job " + jobId + ": " + allocations.cause)))
      && (allocations.QueryOk? && (forall m | 0 <= m < |allocations.value| :: allocations.value[m].clientStatus != RunningStatus) ==>
            r == Returns(Fail("", "no running allocations found for job " + jobId)))
      && (allocations.QueryOk? && FirstRunning(allocations.value, 0).Some? ==>
            var stub := allocations.value[FirstRunning(allocations.value, 0).value];
            && (allocationInfo(stub.id).QueryErr? ==>
                  r == Returns(Fail("", "failed to get allocation info for ID " + stub.id + ": " + allocationInfo(stub.id).cause)))
            && (allocationInfo(stub.id).QueryOk? ==>
                  var alloc := allocationInfo(stub.id).value;
                  && (nodeInfo(alloc.nodeID).QueryErr? ==>
                        r == Returns(Fail("", "failed to get node info for node " + alloc.nodeID + ": " + nodeInfo(alloc.nodeID).cause)))
                  && (nodeInfo(alloc.nodeID).QueryOk? && nodeInfo(alloc.nodeID).value.resources.Some? ==>
                        var nets := nodeInfo(alloc.nodeID).value.resources.value.networks;
                        && ((|nets| == 0 || nets[0].ip == "") ==>
                              r == Returns(Fail("", "no IP address found for node " + alloc.nodeID)))
                        && (|nets| > 0 && nets[0].ip != "" && alloc.allocatedResources.Some?
                            && FirstPortValue(alloc.allocatedResources.value.shared.ports) == 0 ==>
                              r == Returns(Fail("", "no allocated ports found for allocation " + alloc.id))))))
  {
  }

  /** A successful URI reads back as "http://", a non-empty IP, ':' and a
      non-zero port in decimal. */
  lemma JobUriReadsBack(jobId: string, allocations: QueryResult<seq<AllocationListStub>>,
                        allocationInfo: string -> QueryResult<Allocation>,
                        nodeInfo: string -> QueryResult<Node>)
    ensures var r := GetJobUri(jobId, allocations, allocationInfo, nodeInfo);
      r.Returns? && r.ret.Ok() ==>
        && StartsWith(r.ret.value, UriScheme)
        && exists ip, port :: ip != "" && port != 0 && r.ret.value == UriScheme + Fmt.HostPort(ip, port)
             && Fmt.ParseInt(r.ret.value[|UriScheme| + |ip| + 1..]) == Some(port)
  {
    var r := GetJobUri(jobId, allocations, allocationInfo, nodeInfo);
    if r.Returns? && r.ret.Ok() {
      var k :| ResolvedThrough(allocations.value, k, allocationInfo, nodeInfo, r.ret.value);
      var alloc := allocationInfo(allocations.value[k].id).value;
      var ip := nodeInfo(alloc.nodeID).value.resources.value.networks[0].ip;
      var port := alloc.allocatedResources.value.shared.ports[0].value;
      StartsWithConcat(UriScheme, Fmt.HostPort(ip, port));
      assert r.ret.value[|UriScheme| + |ip| + 1..] == Fmt.HostPort(ip, port)[|ip| + 1..];
    }
  }
}
