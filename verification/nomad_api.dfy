/** The records of the Nomad HTTP API that the provisioning code builds or
    reads. Only the fields the code touches are kept; a Go pointer that the
    code tests against nil, or that it dereferences and could be nil, is an
    `Option`. */
module NomadApi {
  import opened GoTypes

  /** The answer to one query against the scheduler: the decoded value, or
      the client's error text. */
  datatype QueryResult<+T> = QueryOk(value: T) | QueryErr(cause: string)

  /** `api.Port`: a port request in a job, or a port bound at placement. */
  datatype Port = Port(portLabel: string, value: int)

  /** `api.PortMapping`, the element of an allocation's shared `Ports`. */
  datatype PortMapping = PortMapping(portLabel: string, value: int, hostIP: string)

  /** `api.NetworkResource`, used both in a job's request and in an
      allocation's or a node's assigned resources. */
  datatype NetworkResource = NetworkResource(ip: string, dynamicPorts: seq<Port>)

  datatype AllocatedSharedResources =
    AllocatedSharedResources(networks: seq<NetworkResource>, ports: seq<PortMapping>)

  datatype AllocatedResources = AllocatedResources(shared: AllocatedSharedResources)

  /** `api.Allocation`; `allocatedResources` is a pointer in the API. */
  datatype Allocation =
    Allocation(id: string, nodeID: string, allocatedResources: Option<AllocatedResources>)

  /** `api.AllocationListStub`, an element of a job's allocation list. */
  datatype AllocationListStub = AllocationListStub(id: string, clientStatus: string)

  datatype NodeResources = NodeResources(networks: seq<NetworkResource>)

  /** `api.Node`; `resources` is a pointer in the API. */
  datatype Node = Node(id: string, resources: Option<NodeResources>)

  datatype Service = Service(provider: string, portLabel: string)

  /** The `Config` map of a docker task, with its four keys as fields. */
  datatype TaskConfig = TaskConfig(image: string, command: string, args: seq<string>, ports: seq<string>)

  datatype Template = Template(embeddedTmpl: string, destPath: string)

  datatype Resources = Resources(cpu: int, memoryMB: int)

  datatype Task = Task(
    name: string,
    driver: string,
    config: TaskConfig,
    templates: seq<Template>,
    resources: Resources)

  datatype TaskGroup = TaskGroup(
    name: string,
    count: int,
    networks: seq<NetworkResource>,
    services: seq<Service>,
    tasks: seq<Task>)

  datatype Job = Job(
    id: string,
    name: string,
    jobType: string,
    datacenters: seq<string>,
    meta: map<string, string>,
    taskGroups: seq<TaskGroup>)
}
