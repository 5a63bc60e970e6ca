/** The provisioning pipeline of nomad/nomad.go: build the service job around
    the fetched content, register it, poll for its first allocation, read
    that allocation and search its networks for the "www" binding.

    Every call into the Nomad client is an input: `Cluster` holds what client
    creation, `Register`, the successive `Allocations` queries and `Info`
    answer. The polling loop has no bound in the program; here it runs over
    the finite sequence of answers it is given and ends in `StillPolling`
    when they are all empty. */
module Nomad {
  import opened GoTypes
  import opened NomadApi
  import opened JobSpec
  import Fmt
  import ReadUri

  const ClientErrorPrefix := "failed to create Nomad client: "
  const JobCreationPrefix := "error during service job creation: "
  const RegistrationPrefix := "failed to register job / retrieve allocation ID: "
  const AllocationInfoPrefix := "failed to retrieve allocation info: "
  const RegisterErrorPrefix := "failed to register job: "
  const AllocationsErrorPrefix := "failed to retrieve allocations: "
  const PayloadReadError := "error during remote read payload"
  const NoUriError := "no URI found for service www"

  /** The two values the job builder draws from outside: `uuid.New()` for the
      job ID and `time.Now()` for the creation stamp. */
  datatype Generated = Generated(jobId: string, createdAt: string)

  /** What the Nomad client answers during one provisioning run. */
  datatype Cluster = Cluster(
    clientError: Option<string>,
    register: Job -> Option<string>,
    allocationPolls: seq<QueryResult<seq<AllocationListStub>>>,
    allocationInfo: string -> QueryResult<Allocation>)

  // ---------------------------------------------------------------------
  // createServiceJob

  /** `createServiceJob(jobName, uri, script)`: the service job around the
      payload read from `uri`, or no job when the read fails; the read's own
      error is replaced by a fixed message. */
  function CreateServiceJob(jobName: string, uri: string, script: bool, generated: Generated,
                            get: string -> ReadUri.HttpOutcome, shell: string -> ReadUri.ExecOutcome): (r: Ret<Option<Job>>)
    ensures r.Ok() <==> ReadUri.ReadRemoteUriPayload(uri, script, get, shell).Ok()
    ensures !r.Ok() ==> r.value.None? && r.err == Some(PayloadReadError)
    ensures r.Ok() ==> r.value.Some?
    ensures r.Ok() ==>
      var job := r.value.value;
      && job.id == generated.jobId
      && job.name == jobName
      && job.meta == map["CreatedAt" := generated.createdAt]
      && EmbedsOnWww(job, ReadUri.ReadRemoteUriPayload(uri, script, get, shell).value)
  {
    var payload := ReadUri.ReadRemoteUriPayload(uri, script, get, shell);
    if !payload.Ok() then
      Ret(None, Some(PayloadReadError))
    else
      Ret(Some(ServiceJob(generated.jobId, jobName, map["CreatedAt" := generated.createdAt], payload.value)), None)
  }

  /** In static mode the job embeds the fetched body unchanged as its
      template source; in script mode it embeds the script's combined output.
      Nomad renders that source before the task serves it. */
  lemma JobEmbedsFetchedContent(jobName: string, uri: string, script: bool, generated: Generated,
                                 get: string -> ReadUri.HttpOutcome, shell: string -> ReadUri.ExecOutcome)
    requires CreateServiceJob(jobName, uri, script, generated, get, shell).Ok()
    ensures var job := CreateServiceJob(jobName, uri, script, generated, get, shell).value.value;
      && ReadUri.ReadSucceeds(get(uri))
      && (!script ==> EmbeddedContent(job) == Some(get(uri).body.content))
      && (script ==> EmbeddedContent(job) == Some(shell(get(uri).body.content).output))
  {
  }

  // ---------------------------------------------------------------------
  // The "www" address search (CreateAJobAndGetUri, after the Info query)

  /** Port `j` of network `i` is a "www" port on a network whose IP is known. */
  predicate Qualifies(nets: seq<NetworkResource>, i: int, j: int) {
    && 0 <= i < |nets|
    && 0 <= j < |nets[i].dynamicPorts|
    && nets[i].dynamicPorts[j].portLabel == WwwLabel
    && nets[i].ip != ""
  }

  /** Network order first, then port order. */
  predicate Precedes(i': int, j': int, i: int, j: int) {
    i' < i || (i' == i && j' < j)
  }

  /** `(i, j)` is the first qualifying port at or after network `k`. */
  ghost predicate FirstQualifyingFrom(nets: seq<NetworkResource>, k: int, i: int, j: int) {
    && k <= i
    && Qualifies(nets, i, j)
    && forall i', j' | k <= i' && Precedes(i', j', i, j) :: !Qualifies(nets, i', j')
  }

  /** The index of the first port labelled "www" at or after `j`. */
  function FirstWwwPort(ports: seq<Port>, j: nat): (r: Option<nat>)
    requires j <= |ports|
    ensures r.Some? ==> j <= r.value < |ports| && ports[r.value].portLabel == WwwLabel
    ensures r.Some? ==> forall m | j <= m < r.value :: ports[m].portLabel != WwwLabel
    ensures r.None? ==> forall m | j <= m < |ports| :: ports[m].portLabel != WwwLabel
    decreases |ports| - j
  {
    if j == |ports| then None
    else if ports[j].portLabel == WwwLabel then Some(j)
    else FirstWwwPort(ports, j + 1)
  }

  /** The address of the first "www" port, at or after network `k`, whose
      network has an IP; the empty string when there is none. */
  function WwwUriFrom(nets: seq<NetworkResource>, k: nat): string
    requires k <= |nets|
    decreases |nets| - k
  {
    if k == |nets| then ""
    else
      var p := FirstWwwPort(nets[k].dynamicPorts, 0);
      if nets[k].ip != "" && p.Some? then Fmt.HostPort(nets[k].ip, nets[k].dynamicPorts[p.value].value)
      else WwwUriFrom(nets, k + 1)
  }

  /** The URI the search computes for an allocation: nothing when the
      allocation carries no allocated resources. */
  function AllocationUri(alloc: Allocation): string {
    if alloc.allocatedResources.None? then ""
    else WwwUriFrom(alloc.allocatedResources.value.shared.networks, 0)
  }

  /** A network the search skips holds no qualifying port. */
  lemma SkippedNetworkHasNone(nets: seq<NetworkResource>, k: nat)
    requires k < |nets|
    requires !(nets[k].ip != "" && FirstWwwPort(nets[k].dynamicPorts, 0).Some?)
    ensures forall j :: !Qualifies(nets, k, j)
  {
  }

  /** The search finds no address exactly when no network at or after `k`
      has both an IP and a "www" port. */
  lemma {:induction false} WwwUriFromEmpty(nets: seq<NetworkResource>, k: nat)
    requires k <= |nets|
    ensures WwwUriFrom(nets, k) == "" <==> forall i, j | k <= i :: !Qualifies(nets, i, j)
    decreases |nets| - k
  {
    if k < |nets| {
      var p := FirstWwwPort(nets[k].dynamicPorts, 0);
      if nets[k].ip != "" && p.Some? {
        assert Qualifies(nets, k, p.value);
      } else {
        WwwUriFromEmpty(nets, k + 1);
        SkippedNetworkHasNone(nets, k);
      }
    }
  }

  /** An address the search finds is formed from the first port, in network
      then port order, at or after network `k`, that qualifies. */
  lemma {:induction false} WwwUriFromWitness(nets: seq<NetworkResource>, k: nat)
    requires k <= |nets|
    ensures WwwUriFrom(nets, k) != "" ==>
      exists i, j :: FirstQualifyingFrom(nets, k, i, j)
        && WwwUriFrom(nets, k) == Fmt.HostPort(nets[i].ip, nets[i].dynamicPorts[j].value)
    decreases |nets| - k
  {
    if k < |nets| {
      var p := FirstWwwPort(nets[k].dynamicPorts, 0);
      if nets[k].ip != "" && p.Some? {
        assert FirstQualifyingFrom(nets, k, k, p.value);
      } else if WwwUriFrom(nets, k + 1) != "" {
        WwwUriFromWitness(nets, k + 1);
        SkippedNetworkHasNone(nets, k);
        var i, j :| FirstQualifyingFrom(nets, k + 1, i, j)
          && WwwUriFrom(nets, k + 1) == Fmt.HostPort(nets[i].ip, nets[i].dynamicPorts[j].value);
        assert FirstQualifyingFrom(nets, k, i, j);
      }
    }
  }

  /** The allocation's networks record a binding the search reports: a
      network with an IP and a "www" port, the first such in network then
      port order, written as `IP:port`. */
  ghost predicate Observed(alloc: Allocation, uri: string) {
    && alloc.allocatedResources.Some?
    && var nets := alloc.allocatedResources.value.shared.networks;
       exists i, j :: FirstQualifyingFrom(nets, 0, i, j)
         && uri == Fmt.HostPort(nets[i].ip, nets[i].dynamicPorts[j].value)
  }

  /** A non-empty URI is witnessed by the first qualifying binding, and its
      host part is never empty. */
  lemma AddressWitness(alloc: Allocation)
    ensures AllocationUri(alloc) != "" ==> Observed(alloc, AllocationUri(alloc))
  {
    if alloc.allocatedResources.Some? {
      WwwUriFromWitness(alloc.allocatedResources.value.shared.networks, 0);
    }
  }

  /** No URI exactly when the allocation has no allocated resources or none
      of its networks has both an IP and a "www" port; a "www" port on a
      network without an IP never counts. */
  lemma NoAddressIffNoQualifyingPort(alloc: Allocation)
    ensures AllocationUri(alloc) == "" <==>
      || alloc.allocatedResources.None?
      || forall i, j :: !Qualifies(alloc.allocatedResources.value.shared.networks, i, j)
  {
    if alloc.allocatedResources.Some? {
      WwwUriFromEmpty(alloc.allocatedResources.value.shared.networks, 0);
    }
  }

  /** The nested loop as the program writes it: the inner `break` leaves the
      port loop at the first "www" port of a network with an IP, the outer one
      stops once the URI is set. A "www" port on a network without an IP only
      makes the program sleep; the allocation is not read again, so the loop
      just moves on. */
  method SearchWwwUri(alloc: Allocation) returns (uri: string)
    ensures uri == AllocationUri(alloc)
  {
    uri := "";
    if alloc.allocatedResources.Some? {
      var nets := alloc.allocatedResources.value.shared.networks;
      var i := 0;
      while i < |nets|
        invariant 0 <= i <= |nets|
        invariant uri == ""
        invariant WwwUriFrom(nets, 0) == WwwUriFrom(nets, i)
      {
        var network := nets[i];
        var ports := network.dynamicPorts;
        var j := 0;
        while j < |ports|
          invariant 0 <= j <= |ports|
          invariant uri == ""
          invariant network.ip == "" || FirstWwwPort(ports, 0) == FirstWwwPort(ports, j)
        {
          if ports[j].portLabel == WwwLabel {
            if network.ip != "" {
              uri := Fmt.HostPort(network.ip, ports[j].value);
              break;
            }
            // the program sleeps here and carries on with the same record
          }
          j := j + 1;
        }
        if uri != "" {
          assert uri == WwwUriFrom(nets, i);
          break;
        }
        assert WwwUriFrom(nets, i) == WwwUriFrom(nets, i + 1);
        i := i + 1;
      }
    }
  }

  /** The job's group, once the scheduler has given its network an IP and a
      value to its one port, resolves to that IP and value: the label the
      builder requests is the label the search looks for. */
  lemma WiredGroupResolves(g: TaskGroup, ip: string, port: int)
    requires WiredToWww(g) && ip != ""
    ensures WwwUriFrom(Place(g, ip, [[port]]), 0) == Fmt.HostPort(ip, port)
  {
  }

  // ---------------------------------------------------------------------
  // registerJobAndGetAllocationID

  predicate EmptyList(p: QueryResult<seq<AllocationListStub>>) {
    p.QueryOk? && |p.value| == 0
  }

  /** Every answer from `k` up to `m` listed no allocation. */
  predicate EmptyBetween(polls: seq<QueryResult<seq<AllocationListStub>>>, k: int, m: int)
    requires 0 <= k && m <= |polls|
  {
    forall n | k <= n < m :: EmptyList(polls[n])
  }

  datatype PollOutcome = AllocationFound(id: string) | QueryFailed(cause: string) | NoAllocationYet

  /** The polling loop from answer `k` on: the first allocation of the first
      non-empty list, or the first query error, whichever comes first. */
  function FirstAllocationFrom(polls: seq<QueryResult<seq<AllocationListStub>>>, k: nat): (r: PollOutcome)
    requires k <= |polls|
    ensures r.AllocationFound? ==>
      exists m :: k <= m < |polls| && polls[m].QueryOk? && |polls[m].value| > 0
        && polls[m].value[0].id == r.id && EmptyBetween(polls, k, m)
    ensures r.QueryFailed? ==>
      exists m :: k <= m < |polls| && polls[m] == QueryErr(r.cause) && EmptyBetween(polls, k, m)
    ensures r.NoAllocationYet? <==> EmptyBetween(polls, k, |polls|)
    decreases |polls| - k
  {
    if k == |polls| then NoAllocationYet
    else match polls[k]
      case QueryErr(cause) => QueryFailed(cause)
      case QueryOk(stubs) =>
        if |stubs| > 0 then AllocationFound(stubs[0].id) else FirstAllocationFrom(polls, k + 1)
  }

  /** `registerJobAndGetAllocationID(client, job)`: register, then poll until
      some answer lists an allocation and return that list's first ID; a
      registration or query error ends it at once. */
  function RegisterJobAndGetAllocationID(job: Job, register: Job -> Option<string>,
                                         polls: seq<QueryResult<seq<AllocationListStub>>>): (r: Exit<string>)
    ensures !r.Panics?
    ensures r.Returns? && !r.ret.Ok() ==> r.ret.value == ""
    ensures register(job).Some? ==> r == Returns(Fail("", RegisterErrorPrefix + register(job).value))
    ensures r.StillPolling? <==> register(job).None? && EmptyBetween(polls, 0, |polls|)
    ensures r.Returns? && r.ret.Ok() ==>
      && register(job).None?
      && exists m :: 0 <= m < |polls| && polls[m].QueryOk? && |polls[m].value| > 0
           && polls[m].value[0].id == r.ret.value && EmptyBetween(polls, 0, m)
    ensures r.Returns? && !r.ret.Ok() && register(job).None? ==>
      exists m :: 0 <= m < |polls| && polls[m].QueryErr? && EmptyBetween(polls, 0, m)
        && r.ret.err == Some(AllocationsErrorPrefix + polls[m].cause)
  {
    match register(job)
    case Some(cause) => Returns(Fail("", RegisterErrorPrefix + cause))
    case None =>
      match FirstAllocationFrom(polls, 0)
      case AllocationFound(id) => Returns(Ret(id, None))
      case QueryFailed(cause) => Returns(Fail("", AllocationsErrorPrefix + cause))
      case NoAllocationYet => StillPolling
  }

  // ---------------------------------------------------------------------
  // CreateAJobAndGetUri

  /** `CreateAJobAndGetUri(jobName, uri, script)`: the stages in order,
      stopping at the first that fails and prefixing its error with the
      stage's name; on success, the "www" address of the allocation. */
  function CreateAJobAndGetUri(jobName: string, uri: string, script: bool, generated: Generated,
                               get: string -> ReadUri.HttpOutcome, shell: string -> ReadUri.ExecOutcome,
                               cluster: Cluster): (r: Exit<string>)
    ensures !r.Panics?
    ensures r.Returns? ==> (r.ret.Ok() <==> r.ret.value != "")
    ensures r.StillPolling? ==>
      && cluster.clientError.None?
      && ReadUri.ReadRemoteUriPayload(uri, script, get, shell).Ok()
      && EmptyBetween(cluster.allocationPolls, 0, |cluster.allocationPolls|)
  {
    if cluster.clientError.Some? then
      Returns(Fail("", ClientErrorPrefix + cluster.clientError.value))
    else
      var job := CreateServiceJob(jobName, uri, script, generated, get, shell);
      if !job.Ok() then
        Returns(Fail("", JobCreationPrefix + job.err.value))
      else
        var reg := RegisterJobAndGetAllocationID(job.value.value, cluster.register, cluster.allocationPolls);
        if !reg.Returns? then
          StillPolling
        else if !reg.ret.Ok() then
          Returns(Fail("", RegistrationPrefix + reg.ret.err.value))
        else
          match cluster.allocationInfo(reg.ret.value)
          case QueryErr(cause) => Returns(Fail("", AllocationInfoPrefix + cause))
          case QueryOk(alloc) =>
            var found := AllocationUri(alloc);
            if found == "" then Returns(Fail("", NoUriError)) else Returns(Ret(found, None))
  }

  /** The allocation the run reads: the first one listed by the first
      non-empty answer, as the Info query returns it. */
  ghost predicate ReadAllocation(cluster: Cluster, alloc: Allocation) {
    exists m :: 0 <= m < |cluster.allocationPolls|
      && cluster.allocationPolls[m].QueryOk? && |cluster.allocationPolls[m].value| > 0
      && EmptyBetween(cluster.allocationPolls, 0, m)
      && cluster.allocationInfo(cluster.allocationPolls[m].value[0].id) == QueryOk(alloc)
  }

  /** No address without a witness: a successful run returns the `IP:port`
      of the first qualifying "www" binding of the allocation it read. */
  lemma ProvisionedAddressIsObserved(jobName: string, uri: string, script: bool, generated: Generated,
                                     get: string -> ReadUri.HttpOutcome, shell: string -> ReadUri.ExecOutcome,
                                     cluster: Cluster)
    requires var r := CreateAJobAndGetUri(jobName, uri, script, generated, get, shell, cluster); r.Returns? && r.ret.Ok()
    ensures exists alloc ::
      (ReadAllocation(cluster, alloc)
       && Observed(alloc, CreateAJobAndGetUri(jobName, uri, script, generated, get, shell, cluster).ret.value))
  {
    var job := CreateServiceJob(jobName, uri, script, generated, get, shell).value.value;
    var id := RegisterJobAndGetAllocationID(job, cluster.register, cluster.allocationPolls).ret.value;
    var alloc := cluster.allocationInfo(id).value;
    AddressWitness(alloc);
    assert ReadAllocation(cluster, alloc);
  }

  /** The error of a failed run names the first stage that failed, with that
      stage's own message after the prefix. */
  lemma FirstFailingStageIsReported(jobName: string, uri: string, script: bool, generated: Generated,
                                    get: string -> ReadUri.HttpOutcome, shell: string -> ReadUri.ExecOutcome,
                                    cluster: Cluster)
    ensures var r := CreateAJobAndGetUri(jobName, uri, script, generated, get, shell, cluster);
      var payload := ReadUri.ReadRemoteUriPayload(uri, script, get, shell);
      && (cluster.clientError.Some? ==>
            r == Returns(Fail("", ClientErrorPrefix + cluster.clientError.value)))
      && (cluster.clientError.None? && !payload.Ok() ==>
            r == Returns(Fail("", JobCreationPrefix + PayloadReadError)))
      && (cluster.clientError.None? && payload.Ok() ==>
            var job := ServiceJob(generated.jobId, jobName, map["CreatedAt" := generated.createdAt], payload.value);
            && (cluster.register(job).Some? ==>
                  r == Returns(Fail("", RegistrationPrefix + (RegisterErrorPrefix + cluster.register(job).value))))
            && (cluster.register(job).None? ==>
                  match FirstAllocationFrom(cluster.allocationPolls, 0)
                  case QueryFailed(cause) =>
                    r == Returns(Fail("", RegistrationPrefix + (AllocationsErrorPrefix + cause)))
                  case NoAllocationYet => r == StillPolling
                  case AllocationFound(id) =>
                    match cluster.allocationInfo(id)
                    case QueryErr(cause) => r == Returns(Fail("", AllocationInfoPrefix + cause))
                    case QueryOk(alloc) =>
                      r == Returns(if AllocationUri(alloc) == "" then Fail("", NoUriError)
                                   else Ret(AllocationUri(alloc), None))))
  {
  }
}
