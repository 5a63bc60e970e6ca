/** The service job both builders submit: one group "servers" with one
    instance, one dynamic port labelled "www", a Nomad service registered on
    that label, and one busybox `httpd` task that serves an embedded template
    as `local/index.html` on the same label. The two builders in the program
    differ only in the job's ID, name, metadata and template text. */
module JobSpec {
  import opened GoTypes
  import opened NomadApi

  /** The port label shared by the job's network, its service and its task;
      the address search looks for the same label. */
  const WwwLabel := "www"
  const IndexPath := "local/index.html"
  const ServiceType := "service"
  const WebCpuMhz := 50
  const WebMemoryMB := 64

  function WebTask(content: string): Task {
    Task(
      "web",
      "docker",
      TaskConfig("busybox:1", "httpd", ["-v", "-f", "-p", "${NOMAD_PORT_" + WwwLabel + "}", "-h", "/local"], [WwwLabel]),
      [Template(content, IndexPath)],
      Resources(WebCpuMhz, WebMemoryMB))
  }

  function ServersGroup(content: string): TaskGroup {
    TaskGroup(
      "servers",
      1,
      [NetworkResource("", [Port(WwwLabel, 0)])],
      [Service("nomad", WwwLabel)],
      [WebTask(content)])
  }

  function ServiceJob(id: string, name: string, meta: map<string, string>, content: string): Job {
    Job(id, name, ServiceType, ["*"], meta, [ServersGroup(content)])
  }

  /** The label agreement the address search relies on: the group runs one
      instance, requests exactly one dynamic port, and that port's label is
      the one the service registers and the one the task maps and listens on. */
  predicate WiredToWww(g: TaskGroup) {
    && g.count == 1
    && |g.networks| == 1
    && |g.networks[0].dynamicPorts| == 1
    && g.networks[0].dynamicPorts[0].portLabel == WwwLabel
    && |g.services| == 1
    && g.services[0].portLabel == WwwLabel
    && |g.tasks| == 1
    && g.tasks[0].config.ports == [WwwLabel]
    && "${NOMAD_PORT_" + WwwLabel + "}" in g.tasks[0].config.args
  }

  /** `job` is a one-group service job wired to "www" whose only task embeds
      `content` as the template source of its index page, within 50 MHz and
      64 MB. */
  predicate EmbedsOnWww(job: Job, content: string) {
    && job.jobType == ServiceType
    && |job.taskGroups| == 1
    && WiredToWww(job.taskGroups[0])
    && job.taskGroups[0].tasks[0].templates == [Template(content, IndexPath)]
    && job.taskGroups[0].tasks[0].resources == Resources(WebCpuMhz, WebMemoryMB)
  }

  /** The template source of the job's first task, read back out of the
      record. */
  function EmbeddedContent(job: Job): Option<string> {
    if |job.taskGroups| > 0 && |job.taskGroups[0].tasks| > 0 && |job.taskGroups[0].tasks[0].templates| > 0
    then Some(job.taskGroups[0].tasks[0].templates[0].embeddedTmpl)
    else None
  }

  /** Reading the template back out of a job that embeds `content` gives
      `content`. */
  lemma EmbeddedContentOfWebJob(job: Job, content: string)
    requires EmbedsOnWww(job, content)
    ensures EmbeddedContent(job) == Some(content)
  {
  }

  /** An assumption about the scheduler, not part of the program: the
      networks it reports for an allocation of a group are the group's
      network requests with a host address filled in and each requested
      dynamic port bound to a value, labels kept. */
  function Place(g: TaskGroup, ip: string, values: seq<seq<int>>): seq<NetworkResource>
    requires |values| == |g.networks|
    requires forall i | 0 <= i < |values| :: |values[i]| == |g.networks[i].dynamicPorts|
  {
    seq(|g.networks|, i requires 0 <= i < |g.networks| =>
      NetworkResource(ip, seq(|g.networks[i].dynamicPorts|, j requires 0 <= j < |g.networks[i].dynamicPorts| =>
        Port(g.networks[i].dynamicPorts[j].portLabel, values[i][j]))))
  }
}
