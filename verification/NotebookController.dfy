/** The notebook controller: what it generates from a notebook, how it repairs drift, and what repeated
    passes do to the cluster.

    In memory a pod spec's containers are a slice, so the generated stateful set
    shares them with the notebook it was generated from; what the API server
    stores are values.
*/
module NotebookController {
  import opened ApiCalls
  import opened Wrappers
  import opened Text

  const DEFAULT_CONTAINER_PORT := 8888
  const DEFAULT_FS_GROUP := 100
  const SET_LABEL := "statefulset"

  type Labels = map<string, string>

  datatype Port = Port(containerPort: int, name: string, protocol: string)

  datatype EnvVar = EnvVar(name: string, value: string)

  /** A nil port list (None) is not an empty one. */
  datatype Container = Container(workingDir: string, ports: Option<seq<Port>>, env: seq<EnvVar>, rest: string)

  datatype SecurityContext = SecurityContext(fsGroup: Option<int>, rest: string)

  datatype PodSpec = PodSpec(containers: seq<Container>, securityContext: Option<SecurityContext>, rest: string)

  datatype ServicePort = ServicePort(port: int, targetPort: int, protocol: string)

  datatype Status = Status(conditions: seq<string>, readyReplicas: int, containerState: string)

  // Objects as the API server stores them.
  datatype Notebook = Notebook(name: string, namespace: string, spec: PodSpec, status: Status)

  datatype StatefulSet = StatefulSet(labels: Labels, annotations: Labels, selector: Labels, podLabels: Labels,
                                     podSpec: PodSpec, readyReplicas: int)

  datatype Service = Service(labels: Labels, annotations: Labels, selector: Labels, ports: seq<ServicePort>,
                             clusterIP: string)

  datatype Pod = Pod(containerStates: seq<string>)

  // Objects in memory; `containers` may be shared.
  class NotebookObject {
    const name: string
    const namespace: string
    const containers: array<Container>
    const securityContext: Option<SecurityContext>
    const rest: string
    var status: Status

    constructor (nb: Notebook)
      ensures name == nb.name && namespace == nb.namespace && status == nb.status
      ensures fresh(containers) && Spec() == nb.spec
    {
      var cs := nb.spec.containers;
      name, namespace, status := nb.name, nb.namespace, nb.status;
      securityContext, rest := nb.spec.securityContext, nb.spec.rest;
      containers := new Container[|cs|](i requires 0 <= i < |cs| => cs[i]);
      new;
      assert containers[..] == cs;
    }

    function Spec(): PodSpec
      reads containers
    {
      PodSpec(containers[..], securityContext, rest)
    }
  }

  class StatefulSetObject {
    var labels: Labels
    var annotations: Labels
    var selector: Labels
    var podLabels: Labels
    var containers: array<Container>
    var securityContext: Option<SecurityContext>
    var rest: string
    var readyReplicas: int

    constructor (ss: StatefulSet)
      ensures fresh(containers) && Value() == ss
    {
      var cs := ss.podSpec.containers;
      labels, annotations, selector, podLabels := ss.labels, ss.annotations, ss.selector, ss.podLabels;
      securityContext, rest, readyReplicas := ss.podSpec.securityContext, ss.podSpec.rest, ss.readyReplicas;
      containers := new Container[|cs|](i requires 0 <= i < |cs| => cs[i]);
      new;
      assert containers[..] == cs;
    }

    constructor Sharing(labels: Labels, annotations: Labels, selector: Labels, podLabels: Labels,
                        containers: array<Container>, securityContext: Option<SecurityContext>, rest: string)
      ensures this.labels == labels && this.annotations == annotations
      ensures this.selector == selector && this.podLabels == podLabels
      ensures this.containers == containers && this.securityContext == securityContext && this.rest == rest
      ensures readyReplicas == 0
    {
      this.labels, this.annotations, this.selector, this.podLabels := labels, annotations, selector, podLabels;
      this.containers, this.securityContext, this.rest, this.readyReplicas := containers, securityContext, rest, 0;
    }

    function Spec(): PodSpec
      reads this, containers
    {
      PodSpec(containers[..], securityContext, rest)
    }

    function Value(): StatefulSet
      reads this, containers
    {
      StatefulSet(labels, annotations, selector, podLabels, Spec(), readyReplicas)
    }
  }

  // ---------- POD_LABELS

  /** The labels a POD_LABELS entry list adds; malformed entries are skipped and later ones win. */
  function WithEntries(labels: Labels, entries: seq<string>): Labels
    decreases |entries|
  {
    if entries == [] then labels
    else
      var before := WithEntries(labels, entries[..|entries| - 1]);
      var s := Split(entries[|entries| - 1], '=');
      if |s| == 2 then before[s[0] := s[1]] else before
  }

  /** Entry i is well formed, sets the key, and no later well-formed entry does. */
  ghost predicate LastSets(entries: seq<string>, i: int, key: string) {
    && 0 <= i < |entries|
    && |Split(entries[i], '=')| == 2 && Split(entries[i], '=')[0] == key
    && forall j | i < j < |entries| :: |Split(entries[j], '=')| != 2 || Split(entries[j], '=')[0] != key
  }

  ghost predicate Sets(entries: seq<string>, key: string) {
    exists i :: LastSets(entries, i, key)
  }

  lemma {:induction false} WithEntriesAt(labels: Labels, entries: seq<string>, key: string)
    ensures !Sets(entries, key) ==> (key in WithEntries(labels, entries) <==> key in labels)
    ensures !Sets(entries, key) && key in labels ==> WithEntries(labels, entries)[key] == labels[key]
    ensures forall i | LastSets(entries, i, key) ::
              key in WithEntries(labels, entries) && WithEntries(labels, entries)[key] == Split(entries[i], '=')[1]
    decreases |entries|
  {
    if entries != [] {
      var n := |entries| - 1;
      var front := entries[..n];
      WithEntriesAt(labels, front, key);
      var s := Split(entries[n], '=');
      if |s| == 2 && s[0] == key {
        assert LastSets(entries, n, key);
      } else {
        forall i ensures LastSets(entries, i, key) <==> LastSets(front, i, key) {
          if LastSets(front, i, key) {
            assert forall j | i < j < n :: front[j] == entries[j];
          }
          if LastSets(entries, i, key) {
            assert i != n;
            assert forall j | i < j < n :: front[j] == entries[j];
          }
        }
      }
    }
  }

  // ---------- what is generated

  function Prefix(namespace: string, name: string): EnvVar {
    EnvVar("NB_PREFIX", "/notebook/" + namespace + "/" + name)
  }

  function DefaultPorts(): seq<Port> {
    [Port(DEFAULT_CONTAINER_PORT, "notebook-port", "TCP")]
  }

  function Injected(c: Container, prefix: EnvVar): Container {
    Container(if c.workingDir == "" then "/home/jovyan" else c.workingDir,
              Some(c.ports.GetOr(DefaultPorts())), c.env + [prefix], c.rest)
  }

  function DefaultSecurityContext(): SecurityContext {
    SecurityContext(Some(DEFAULT_FS_GROUP), "")
  }

  function GeneratedSpec(spec: PodSpec, prefix: EnvVar): PodSpec
    requires spec.containers != []
  {
    PodSpec([Injected(spec.containers[0], prefix)] + spec.containers[1..],
            if spec.securityContext.Some? then spec.securityContext else Some(DefaultSecurityContext()), spec.rest)
  }

  function GeneratedSet(nb: Notebook, podLabelsEnv: string): StatefulSet
    requires nb.spec.containers != []
  {
    StatefulSet(map[], map[], map[SET_LABEL := nb.name],
                WithEntries(map[SET_LABEL := nb.name, "notebook-name" := nb.name], Split(podLabelsEnv, ',')),
                GeneratedSpec(nb.spec, Prefix(nb.namespace, nb.name)), 0)
  }

  /** The Ambassador mapping, one annotation. */
  function Mapping(namespace: string, name: string): Labels {
    map["getambassador.io/config" := Join(MappingLines(namespace, name), '\n')]
  }

  function MappingLines(namespace: string, name: string): seq<string> {
    ["---",
     "apiVersion: ambassador/v0",
     "kind:  Mapping",
     "name: notebook_" + namespace + "_" + name + "_mapping",
     "prefix: /notebook/" + namespace + "/" + name,
     "rewrite: /notebook/" + namespace + "/" + name,
     "timeout_ms: 300000",
     "service: " + name + "." + namespace,
     "use_websocket: true"]
  }

  function GeneratedService(namespace: string, name: string, targetPort: int): Service {
    Service(map[], Mapping(namespace, name), map[SET_LABEL := name], [ServicePort(80, targetPort, "TCP")], "")
  }

  /** Generation indexes the first container, and the first port of a non-nil port list. */
  predicate Generable(spec: PodSpec) {
    spec.containers != [] && spec.containers[0].ports != Some([])
  }

  function TargetPort(spec: PodSpec): int
    requires Generable(spec)
  {
    spec.containers[0].ports.GetOr(DefaultPorts())[0].containerPort
  }

  /** generateStatefulSet.  Fails (an index panic) without containers; otherwise edits the notebook's own
      first container through the shared slice. */
  method GenerateStatefulSet(instance: NotebookObject, nb: Notebook, podLabelsEnv: string)
    returns (r: Option<StatefulSetObject>)
    requires instance.name == nb.name && instance.namespace == nb.namespace && instance.Spec() == nb.spec
    modifies instance.containers
    ensures r.None? <==> nb.spec.containers == []
    ensures r.None? ==> instance.Spec() == nb.spec
    ensures r.Some? ==> fresh(r.value) && r.value.containers == instance.containers
    ensures r.Some? ==> r.value.Value() == GeneratedSet(nb, podLabelsEnv)
  {
    var podLabels := map[SET_LABEL := instance.name, "notebook-name" := instance.name];
    if podLabelsEnv != "" {
      podLabels := AddPodLabels(podLabels, podLabelsEnv);
    } else {
      assert Split("", ',') == [""] && Split("", '=') == [""];
      assert [""][..0] == [];
    }
    var ss := new StatefulSetObject.Sharing(map[], map[], map[SET_LABEL := instance.name], podLabels,
                                            instance.containers, instance.securityContext, instance.rest);
    if ss.containers.Length == 0 {
      return None;
    }
    InjectInto(ss.containers, Prefix(instance.namespace, instance.name));
    if ss.securityContext == None {
      ss.securityContext := Some(DefaultSecurityContext());
    }
    r := Some(ss);
  }

  method InjectInto(containers: array<Container>, prefix: EnvVar)
    requires containers.Length > 0
    modifies containers
    ensures containers[..] == [Injected(old(containers[0]), prefix)] + old(containers[..])[1..]
  {
    if containers[0].workingDir == "" {
      containers[0] := containers[0].(workingDir := "/home/jovyan");
    }
    if containers[0].ports == None {
      containers[0] := containers[0].(ports := Some(DefaultPorts()));
    }
    containers[0] := containers[0].(env := containers[0].env + [prefix]);
  }

  method AddPodLabels(base: Labels, podLabelsEnv: string) returns (labels: Labels)
    ensures labels == WithEntries(base, Split(podLabelsEnv, ','))
  {
    labels := base;
    var labelList := Split(podLabelsEnv, ',');
    for k := 0 to |labelList|
      invariant labels == WithEntries(base, labelList[..k])
    {
      assert labelList[..k + 1][..k] == labelList[..k];
      var s := Split(labelList[k], '=');
      if |s| == 2 {
        labels := labels[s[0] := s[1]];
      }
    }
    assert labelList[..|labelList|] == labelList;
  }

  /** generateService, run on the notebook as generateStatefulSet left it.  Fails on an empty,
      non-nil port list. */
  method GenerateService(instance: NotebookObject) returns (r: Option<Service>)
    requires instance.containers.Length > 0
    ensures r.None? <==> instance.containers[0].ports == Some([])
    ensures r.Some? ==> r.value == GeneratedService(instance.namespace, instance.name, TargetPort(instance.Spec()))
  {
    var port := DEFAULT_CONTAINER_PORT;
    var containerPorts := instance.containers[0].ports;
    if containerPorts != None {
      if containerPorts.value == [] {
        return None;
      }
      port := containerPorts.value[0].containerPort;
    }
    r := Some(GeneratedService(instance.namespace, instance.name, port));
  }

  // ---------- repairing drift

  function Value(labels: Labels, key: string): string {
    if key in labels then labels[key] else ""
  }

  /** What the copy functions compare: every key of the stored map, with a missing key read as "". */
  ghost predicate LooksLike(to: Labels, from: Labels) {
    forall k | k in to :: Value(from, k) == to[k]
  }

  method Differs(to: Labels, from: Labels) returns (differs: bool)
    ensures differs <==> !LooksLike(to, from)
  {
    differs := false;
    var todo := to.Keys;
    while todo != {}
      invariant todo <= to.Keys
      invariant differs <==> exists k | k in to && k !in todo :: Value(from, k) != to[k]
    {
      var k :| k in todo;
      if Value(from, k) != to[k] {
        differs := true;
      }
      todo := todo - {k};
    }
  }

  method CopyStatefulSetFields(from: StatefulSetObject, to: StatefulSetObject) returns (requireUpdate: bool)
    requires from != to
    modifies to
    ensures requireUpdate <==> !SetLooksLike(old(to.Value()), from.Value())
    ensures to.containers == from.containers
    ensures to.Value() == RepairedSet(old(to.Value()), from.Value())
  {
    requireUpdate := false;
    var differs := Differs(to.labels, from.labels);
    if differs {
      requireUpdate := true;
    }
    to.labels := from.labels;
    differs := Differs(to.annotations, from.annotations);
    if differs {
      requireUpdate := true;
    }
    to.annotations := from.annotations;
    if to.Spec() != from.Spec() {
      requireUpdate := true;
    }
    to.containers, to.securityContext, to.rest := from.containers, from.securityContext, from.rest;
  }

  ghost predicate SetLooksLike(to: StatefulSet, from: StatefulSet) {
    LooksLike(to.labels, from.labels) && LooksLike(to.annotations, from.annotations) && to.podSpec == from.podSpec
  }

  function RepairedSet(to: StatefulSet, from: StatefulSet): StatefulSet {
    to.(labels := from.labels, annotations := from.annotations, podSpec := from.podSpec)
  }

  class ServiceObject {
    var value: Service
    constructor (value: Service)
      ensures this.value == value
    {
      this.value := value;
    }
  }

  method CopyServiceFields(from: Service, to: ServiceObject) returns (requireUpdate: bool)
    modifies to
    ensures requireUpdate <==> !ServiceLooksLike(old(to.value), from)
    ensures to.value == RepairedService(old(to.value), from)
  {
    requireUpdate := false;
    var differs := Differs(to.value.labels, from.labels);
    if differs {
      requireUpdate := true;
    }
    to.value := to.value.(labels := from.labels);
    differs := Differs(to.value.annotations, from.annotations);
    if differs {
      requireUpdate := true;
    }
    to.value := to.value.(annotations := from.annotations);
    if to.value.selector != from.selector {
      requireUpdate := true;
    }
    to.value := to.value.(selector := from.selector);
    if to.value.ports != from.ports {
      requireUpdate := true;
    }
    to.value := to.value.(ports := from.ports);
  }

  ghost predicate ServiceLooksLike(to: Service, from: Service) {
    && LooksLike(to.labels, from.labels) && LooksLike(to.annotations, from.annotations)
    && to.selector == from.selector && to.ports == from.ports
  }

  function RepairedService(to: Service, from: Service): Service {
    to.(labels := from.labels, annotations := from.annotations, selector := from.selector, ports := from.ports)
  }

  // ---------- one pass

  datatype Plan = Plan(getNotebook: Call, getSet: Call, createSet: Call, updateSet: Call,
                       getService: Call, createService: Call, updateService: Call,
                       updateReady: Call, updateReplicas: Call, getPod: Call, updateState: Call)

  const ALL_CLEAN := Plan(Clean, Clean, Clean, Clean, Clean, Clean, Clean, Clean, Clean, Clean, Clean)

  /** One notebook and the objects named after it. */
  datatype World = World(notebook: Option<Notebook>, set': Option<StatefulSet>, service: Option<Service>,
      pod: Option<Pod>)

  datatype Outcome = Done | Error | Panic

  class Server {
    var world: World

    constructor (world: World)
      ensures this.world == world
    {
      this.world := world;
    }

    method SendSet(ss: StatefulSetObject, call: Call) returns (err: bool)
      modifies this
      ensures err <==> call != Clean
      ensures world == old(world).(set' := if call == Failed then old(world.set') else Some(ss.Value()))
    {
      if call != Failed {
        world := world.(set' := Some(ss.Value()));
      }
      err := call != Clean;
    }

    method SendService(service: Service, call: Call) returns (err: bool)
      modifies this
      ensures err <==> call != Clean
      ensures world == old(world).(service := if call == Failed then old(world.service) else Some(service))
    {
      if call != Failed {
        world := world.(service := Some(service));
      }
      err := call != Clean;
    }

    /** The status subresource: of the object sent, only the status is stored. */
    method UpdateStatus(instance: NotebookObject, call: Call) returns (err: bool)
      requires world.notebook.Some?
      modifies this
      ensures err <==> call != Clean
      ensures world == if call == Failed then old(world) else WithStatus(old(world), instance.status)
    {
      if call != Failed {
        world := WithStatus(world, instance.status);
      }
      err := call != Clean;
    }
  }

  function WithStatus(w: World, status: Status): World
    requires w.notebook.Some?
  {
    w.(notebook := Some(w.notebook.value.(status := status)))
  }

  /** The value stored after `sent` was sent. */
  function Sent<T>(stored: T, sent: T, call: Call): T {
    if call == Failed then stored else sent
  }

  datatype Stage = Stage(world: World, outcome: Outcome)

  function WantedService(nb: Notebook): Service
    requires Generable(nb.spec)
  {
    GeneratedService(nb.namespace, nb.name, TargetPort(nb.spec))
  }

  /** Create what is missing, send the repaired object if it looks different, else leave it. */
  function Upsert<T>(have: Option<T>, want: T, repaired: Option<T>, alike: bool, get: Call, create: Call, update: Call)
    : (Option<T>, Outcome)
  {
    if get != Clean then (have, Error)
    else if have.None? then (Sent(None, Some(want), create), if create == Clean then Done else Error)
    else if alike then (have, Done)
    else (Sent(have, repaired, update), if update == Clean then Done else Error)
  }

  ghost function UpsertSet(have: Option<StatefulSet>, want: StatefulSet, plan: Plan): (Option<StatefulSet>, Outcome) {
    Upsert(have, want, if have.Some? then Some(RepairedSet(have.value, want)) else None,
           have.Some? && SetLooksLike(have.value, want), plan.getSet, plan.createSet, plan.updateSet)
  }

  ghost function UpsertService(have: Option<Service>, want: Service, plan: Plan): (Option<Service>, Outcome) {
    Upsert(have, want, if have.Some? then Some(RepairedService(have.value, want)) else None,
           have.Some? && ServiceLooksLike(have.value, want), plan.getService, plan.createService, plan.updateService)
  }

  ghost function SetStage(w: World, env: string, plan: Plan): Stage
    requires w.notebook.Some?
  {
    if w.notebook.value.spec.containers == [] then Stage(w, Panic)
    else
      var next := UpsertSet(w.set', GeneratedSet(w.notebook.value, env), plan);
      Stage(w.(set' := next.0), next.1)
  }

  ghost function ServiceStage(w: World, plan: Plan): Stage
    requires w.notebook.Some? && w.notebook.value.spec.containers != []
  {
    if !Generable(w.notebook.value.spec) then Stage(w, Panic)
    else
      var next := UpsertService(w.service, WantedService(w.notebook.value), plan);
      Stage(w.(service := next.0), next.1)
  }

  function StatusWrite(w: World, want: Status, needed: bool, call: Call): Stage
    requires w.notebook.Some?
  {
    if !needed || call == Clean then Stage(if needed then WithStatus(w, want) else w, Done)
    else Stage(Sent(w, WithStatus(w, want), call), Error)
  }

  function NotReady(status: Status): bool {
    status.conditions == [] || status.conditions[0] != "Ready"
  }

  /** Container states hold pointers and Go compares them by address, so two states from different reads
      are equal only when both are empty. */
  function StatesDiffer(a: string, b: string): bool {
    a != "" || b != ""
  }

  function ReadyStage(w: World, plan: Plan): Stage
    requires w.notebook.Some?
  {
    var status := w.notebook.value.status;
    StatusWrite(w, status.(conditions := ["Ready"] + status.conditions), NotReady(status), plan.updateReady)
  }

  function ReplicasStage(w: World, found: int, plan: Plan): Stage
    requires w.notebook.Some?
  {
    var status := w.notebook.value.status;
    StatusWrite(w, status.(readyReplicas := found), found != status.readyReplicas, plan.updateReplicas)
  }

  function PodStage(w: World, plan: Plan): Stage
    requires w.notebook.Some?
  {
    if plan.getPod != Clean then Stage(w, Error)
    else if w.pod.None? || w.pod.value.containerStates == [] then Stage(w, Done)
    else
      var status, state := w.notebook.value.status, w.pod.value.containerStates[0];
      StatusWrite(w, status.(containerState := state), StatesDiffer(state, status.containerState), plan.updateState)
  }

  function StatusStage(w: World, found: int, plan: Plan): Stage
    requires w.notebook.Some?
  {
    var ready := ReadyStage(w, plan);
    if ready.outcome != Done then ready
    else
      var replicas := ReplicasStage(ready.world, found, plan);
      if replicas.outcome != Done then replicas else PodStage(replicas.world, plan)
  }

  function FoundReplicas(w: World): int {
    if w.set'.Some? then w.set'.value.readyReplicas else 0
  }

  /** One pass of Reconcile under a fault plan. */
  ghost function Pass(w: World, env: string, plan: Plan): Stage {
    if plan.getNotebook != Clean then Stage(w, Error)
    else if w.notebook.None? then Stage(w, Done)
    else
      var ss := SetStage(w, env, plan);
      if ss.outcome != Done then ss
      else
        var service := ServiceStage(ss.world, plan);
        if service.outcome != Done then service else StatusStage(service.world, FoundReplicas(w), plan)
  }

  method Reconcile(server: Server, env: string, plan: Plan) returns (r: Outcome)
    modifies server
    ensures Stage(server.world, r) == Pass(old(server.world), env, plan)
  {
    if plan.getNotebook != Clean {
      return Error;
    }
    if server.world.notebook.None? {
      return Done;
    }
    ghost var found := FoundReplicas(server.world);
    var instance := new NotebookObject(server.world.notebook.value);
    var readyReplicas;
    r, readyReplicas := ReconcileSet(server, instance, env, plan);
    if r != Done {
      return;
    }
    r := ReconcileService(server, instance, plan);
    if r != Done {
      return;
    }
    r := ReconcileStatus(server, instance, readyReplicas, plan);
  }

  method ReconcileSet(server: Server, instance: NotebookObject, env: string, plan: Plan)
    returns (r: Outcome, readyReplicas: int)
    requires server.world.notebook.Some?
    requires var nb := server.world.notebook.value;
             instance.name == nb.name && instance.namespace == nb.namespace && instance.Spec() == nb.spec
    modifies server, instance.containers
    ensures Stage(server.world, r) == SetStage(old(server.world), env, plan)
    ensures readyReplicas == FoundReplicas(old(server.world)) || r != Done
    ensures r == Done ==> old(server.world.notebook.value.spec.containers) != []
    ensures r == Done ==>
              instance.containers[..] == GeneratedSet(old(server.world.notebook.value), env).podSpec.containers
  {
    readyReplicas := 0;
    var generated := GenerateStatefulSet(instance, server.world.notebook.value, env);
    if generated.None? {
      return Panic, readyReplicas;
    }
    var ss := generated.value;
    if plan.getSet != Clean {
      return Error, readyReplicas;
    }
    var err := false;
    if server.world.set'.None? {
      err := server.SendSet(ss, plan.createSet);
    } else {
      var foundStateful := new StatefulSetObject(server.world.set'.value);
      readyReplicas := foundStateful.readyReplicas;
      var requireUpdate := CopyStatefulSetFields(ss, foundStateful);
      if requireUpdate {
        err := server.SendSet(foundStateful, plan.updateSet);
      }
    }
    r := if err then Error else Done;
  }

  method ReconcileService(server: Server, instance: NotebookObject, plan: Plan) returns (r: Outcome)
    requires server.world.notebook.Some? && server.world.notebook.value.spec.containers != []
    requires var nb := server.world.notebook.value;
             && instance.name == nb.name && instance.namespace == nb.namespace
             && instance.containers[..] == GeneratedSpec(nb.spec, Prefix(nb.namespace, nb.name)).containers
    modifies server
    ensures Stage(server.world, r) == ServiceStage(old(server.world), plan)
  {
    var generated := GenerateService(instance);
    if generated.None? {
      return Panic;
    }
    if plan.getService != Clean {
      return Error;
    }
    var err := false;
    if server.world.service.None? {
      err := server.SendService(generated.value, plan.createService);
    } else {
      var foundService := new ServiceObject(server.world.service.value);
      var requireUpdate := CopyServiceFields(generated.value, foundService);
      if requireUpdate {
        err := server.SendService(foundService.value, plan.updateService);
      }
    }
    r := if err then Error else Done;
  }

  method ReconcileStatus(server: Server, instance: NotebookObject, readyReplicas: int, plan: Plan) returns (r: Outcome)
    requires server.world.notebook.Some? && instance.status == server.world.notebook.value.status
    modifies server, instance
    ensures Stage(server.world, r) == StatusStage(old(server.world), readyReplicas, plan)
  {
    var err := false;
    var oldConditions := instance.status.conditions;
    if |oldConditions| == 0 || oldConditions[0] != "Ready" {
      instance.status := instance.status.(conditions := ["Ready"] + oldConditions);
      err := server.UpdateStatus(instance, plan.updateReady);
      if err {
        return Error;
      }
    }
    if readyReplicas != instance.status.readyReplicas {
      instance.status := instance.status.(readyReplicas := readyReplicas);
      err := server.UpdateStatus(instance, plan.updateReplicas);
      if err {
        return Error;
      }
    }
    if plan.getPod != Clean {
      return Error;
    }
    if server.world.pod.Some? {
      var states := server.world.pod.value.containerStates;
      if |states| > 0 && StatesDiffer(states[0], instance.status.containerState) {
        instance.status := instance.status.(containerState := states[0]);
        err := server.UpdateStatus(instance, plan.updateState);
        if err {
          return Error;
        }
      }
    }
    r := Done;
  }

  // ---------- guarantees

  /** What the copy functions cannot see: keys deleted from the stored map, and extra keys with empty values. */
  lemma UnseenDrift(to: Labels, from: Labels)
    ensures LooksLike(to, from) <==> forall k | k in to :: if k in from then to[k] == from[k] else to[k] == ""
    ensures LooksLike(to, from) && to != from ==>
              exists k :: (k in from && k !in to) || (k in to && k !in from && to[k] == "")
  {
    if LooksLike(to, from) && to != from {
      if to.Keys == from.Keys {
        assert forall k | k in to :: to[k] == from[k];
      }
    }
  }

  /** Same notebook up to its status, same pod. */
  ghost predicate OnlyStatusChanged(w: World, w': World) {
    && w.notebook.Some? && w'.notebook.Some?
    && w'.notebook.value == w.notebook.value.(status := w'.notebook.value.status)
    && w'.pod == w.pod
  }

  lemma StatusStageKeeps(w: World, found: int, plan: Plan)
    requires w.notebook.Some?
    ensures var w' := StatusStage(w, found, plan).world;
            OnlyStatusChanged(w, w') && w'.set' == w.set' && w'.service == w.service
  {
    var ready := ReadyStage(w, plan);
    assert OnlyStatusChanged(w, ready.world);
    if ready.outcome == Done {
      var replicas := ReplicasStage(ready.world, found, plan);
      assert OnlyStatusChanged(w, replicas.world);
    }
  }

  /** Under any faults, a pass writes nothing of the notebook but its status: the injected variable, working
      directory and ports stay out of the stored spec although the generated set shares its containers. */
  lemma StoredSpecNeverChanges(w: World, env: string, plan: Plan)
    requires w.notebook.Some?
    ensures OnlyStatusChanged(w, Pass(w, env, plan).world)
  {
    if plan.getNotebook == Clean {
      var ss := SetStage(w, env, plan);
      assert ss.world == w.(set' := ss.world.set');
      if ss.outcome == Done {
        var service := ServiceStage(ss.world, plan);
        assert service.world == ss.world.(service := service.world.service);
        if service.outcome == Done {
          StatusStageKeeps(service.world, FoundReplicas(w), plan);
        }
      }
    }
  }

  ghost predicate SetConverged(nb: Notebook, set': Option<StatefulSet>)
    requires nb.spec.containers != []
  {
    && set'.Some?
    && set'.value.podSpec == GeneratedSpec(nb.spec, Prefix(nb.namespace, nb.name))
    && LooksLike(set'.value.labels, map[]) && LooksLike(set'.value.annotations, map[])
  }

  ghost predicate ServiceConverged(nb: Notebook, service: Option<Service>)
    requires Generable(nb.spec)
  {
    service.Some? && ServiceLooksLike(service.value, WantedService(nb))
  }

  ghost predicate Converged(w: World) {
    && w.notebook.Some? && Generable(w.notebook.value.spec)
    && SetConverged(w.notebook.value, w.set') && ServiceConverged(w.notebook.value, w.service)
  }

  lemma CleanSetStage(w: World, env: string)
    requires w.notebook.Some? && w.notebook.value.spec.containers != []
    ensures var stage := SetStage(w, env, ALL_CLEAN);
            && stage.outcome == Done && stage.world == w.(set' := stage.world.set')
            && SetConverged(w.notebook.value, stage.world.set')
            && (stage.world.set' == w.set'
                || (stage.world.set'.value.labels == map[] && stage.world.set'.value.annotations == map[]))
            && FoundReplicas(stage.world) == FoundReplicas(w)
            && (SetConverged(w.notebook.value, w.set') ==> stage.world == w)
  {
  }

  lemma CleanUpsertService(have: Option<Service>, want: Service)
    ensures var next := UpsertService(have, want, ALL_CLEAN);
            && next.1 == Done && next.0.Some? && ServiceLooksLike(next.0.value, want)
            && (next.0 == have || (next.0.value.labels == want.labels && next.0.value.annotations == want.annotations))
            && (have.Some? && ServiceLooksLike(have.value, want) ==> next.0 == have)
  {
  }

  lemma CleanServiceStage(w: World)
    requires w.notebook.Some? && Generable(w.notebook.value.spec)
    ensures var stage, want := ServiceStage(w, ALL_CLEAN), WantedService(w.notebook.value);
            && stage.outcome == Done && stage.world == w.(service := stage.world.service)
            && ServiceConverged(w.notebook.value, stage.world.service)
            && (stage.world.service == w.service
                || (stage.world.service.value.labels == want.labels
                    && stage.world.service.value.annotations == want.annotations))
            && (ServiceConverged(w.notebook.value, w.service) ==> stage.world == w)
  {
    CleanUpsertService(w.service, WantedService(w.notebook.value));
  }

  /** A status that a clean pass has nothing to add to. */
  ghost predicate StatusSettled(w: World, found: int) {
    && w.notebook.Some?
    && var status := w.notebook.value.status;
       && !NotReady(status) && status.readyReplicas == found
       && (w.pod.Some? && w.pod.value.containerStates != [] ==> status.containerState == w.pod.value.containerStates[0])
  }

  lemma CleanStatusStage(w: World, found: int)
    requires w.notebook.Some?
    ensures var stage := StatusStage(w, found, ALL_CLEAN);
            && stage.outcome == Done
            && StatusSettled(stage.world, found)
            && (StatusSettled(w, found) ==> stage.world == w)
  {
    var ready := ReadyStage(w, ALL_CLEAN);
    var replicas := ReplicasStage(ready.world, found, ALL_CLEAN);
    assert replicas.world.notebook.value.status.readyReplicas == found
        && !NotReady(replicas.world.notebook.value.status);
  }

  /** A clean pass from any drift fails only by an index panic, which happens exactly when the notebook has
      no containers or an empty port list; otherwise everything generated is in place, and a label or
      annotation map is exactly the generated one wherever anything was seen to differ. */
  lemma CleanPassConverges(w: World, env: string)
    requires w.notebook.Some?
    ensures var pass, nb := Pass(w, env, ALL_CLEAN), w.notebook.value;
            && (pass.outcome == Done <==> Generable(nb.spec))
            && (pass.outcome == Panic <==> !Generable(nb.spec))
            && (pass.outcome == Done ==>
                  && Converged(pass.world) && StatusSettled(pass.world, FoundReplicas(pass.world))
                  && (pass.world.set' == w.set'
                      || (pass.world.set'.value.labels == map[] && pass.world.set'.value.annotations == map[]))
                  && (pass.world.service == w.service
                      || (pass.world.service.value.labels == map[]
                          && pass.world.service.value.annotations == WantedService(nb).annotations)))
  {
    if w.notebook.value.spec.containers != [] {
      CleanSetStage(w, env);
      var ss := SetStage(w, env, ALL_CLEAN).world;
      if Generable(w.notebook.value.spec) {
        CleanServiceStage(ss);
        var service := ServiceStage(ss, ALL_CLEAN).world;
        StatusStageKeeps(service, FoundReplicas(w), ALL_CLEAN);
        CleanStatusStage(service, FoundReplicas(w));
      }
    }
  }

  /** A notebook whose port list is empty and not nil: the first pass creates the set and panics on the service,
      and so does every pass after it. */
  lemma EmptyPortListPanics(container: Container, name: string, env: string)
    requires container.ports == Some([])
    ensures var nb := Notebook(name, name, PodSpec([container], None, ""), Status([], 0, ""));
            var pass := Pass(World(Some(nb), None, None, None), env, ALL_CLEAN);
            && pass.outcome == Panic && pass.world.set'.Some? && pass.world.service.None?
            && Pass(pass.world, env, ALL_CLEAN) == pass
  {
    var nb := Notebook(name, name, PodSpec([container], None, ""), Status([], 0, ""));
    var w := World(Some(nb), None, None, None);
    CleanSetStage(w, env);
    CleanSetStage(SetStage(w, env, ALL_CLEAN).world, env);
  }

  /** A pass over an existing notebook that reports no error has converged, whatever its calls met: no failed call is
      passed over in silence. */
  lemma DoneMeansConverged(w: World, env: string, plan: Plan)
    requires w.notebook.Some? && Pass(w, env, plan).outcome == Done
    ensures Converged(Pass(w, env, plan).world) && StatusSettled(Pass(w, env, plan).world, FoundReplicas(w))
  {
    var ss := SetStage(w, env, plan);
    DoneSetStage(w, env, plan);
    DoneServiceStage(ss.world, plan);
    var service := ServiceStage(ss.world, plan);
    StatusStageKeeps(service.world, FoundReplicas(w), plan);
    DoneStatusStage(service.world, FoundReplicas(w), plan);
  }

  lemma DoneSetStage(w: World, env: string, plan: Plan)
    requires w.notebook.Some? && SetStage(w, env, plan).outcome == Done
    ensures w.notebook.value.spec.containers != []
    ensures var after := SetStage(w, env, plan).world;
            after == w.(set' := after.set') && SetConverged(w.notebook.value, after.set')
  {
  }

  lemma DoneServiceStage(w: World, plan: Plan)
    requires w.notebook.Some? && w.notebook.value.spec.containers != [] && ServiceStage(w, plan).outcome == Done
    ensures Generable(w.notebook.value.spec)
    ensures var after := ServiceStage(w, plan).world;
            after == w.(service := after.service) && ServiceConverged(w.notebook.value, after.service)
  {
  }

  lemma DoneStatusStage(w: World, found: int, plan: Plan)
    requires w.notebook.Some? && StatusStage(w, found, plan).outcome == Done
    ensures StatusSettled(StatusStage(w, found, plan).world, found)
  {
    var ready := ReadyStage(w, plan);
    var replicas := ReplicasStage(ready.world, found, plan);
    assert replicas.world.notebook.value.status.readyReplicas == found
        && !NotReady(replicas.world.notebook.value.status);
  }

  /** A second clean pass leaves the whole cluster as the first left it. */
  lemma SecondPassChangesNothing(w: World, env: string)
    requires w.notebook.Some? && Generable(w.notebook.value.spec)
    ensures var w' := Pass(w, env, ALL_CLEAN).world;
            Pass(w', env, ALL_CLEAN) == Stage(w', Done)
  {
    CleanPassConverges(w, env);
    ConvergedPassChangesNothing(Pass(w, env, ALL_CLEAN).world, env);
  }

  lemma ConvergedPassChangesNothing(w: World, env: string)
    requires Converged(w) && StatusSettled(w, FoundReplicas(w))
    ensures Pass(w, env, ALL_CLEAN) == Stage(w, Done)
  {
    CleanSetStage(w, env);
    CleanServiceStage(w);
    CleanStatusStage(w, FoundReplicas(w));
  }

  ghost function RunPasses(w: World, env: string, plans: seq<Plan>): World
    decreases plans
  {
    if plans == [] then w else RunPasses(Pass(w, env, plans[0]).world, env, plans[1..])
  }

  /** The pod spec keeps what the user wrote, fills in what is missing, and gains one variable at the end. */
  ghost predicate FilledIn(spec: PodSpec, written: PodSpec, variable: EnvVar)
    requires written.containers != []
  {
    && |spec.containers| == |written.containers| && spec.containers[1..] == written.containers[1..]
    && spec.rest == written.rest
    && var first, user := spec.containers[0], written.containers[0];
       && first.env == user.env + [variable] && first.rest == user.rest
       && first.workingDir == (if user.workingDir != "" then user.workingDir else "/home/jovyan")
       && first.ports == (if user.ports.Some? then user.ports else Some([Port(8888, "notebook-port", "TCP")]))
       && spec.securityContext
          == if written.securityContext.Some? then written.securityContext else Some(SecurityContext(Some(100), ""))
  }

  lemma ConvergedSetIsFilledIn(nb: Notebook, set': Option<StatefulSet>)
    requires nb.spec.containers != [] && SetConverged(nb, set')
    ensures FilledIn(set'.value.podSpec, nb.spec, EnvVar("NB_PREFIX", "/notebook/" + nb.namespace + "/" + nb.name))
  {
  }

  /** The service of a converged notebook forwards port 80 to the first container port of the converged set, and
      selects by the notebook's name. */
  lemma ConvergedServiceForwards(w: World)
    requires Converged(w)
    ensures var nb := w.notebook.value;
            && w.set'.value.podSpec.containers != [] && w.set'.value.podSpec.containers[0].ports.GetOr([]) != []
            && w.service.value.selector == map["statefulset" := nb.name]
            && w.service.value.ports
               == [ServicePort(80, w.set'.value.podSpec.containers[0].ports.value[0].containerPort, "TCP")]
  {
    assert SET_LABEL == "statefulset";
  }

  /** Read line by line, the mapping is a websocket mapping to the notebook's service, and routes and rewrites the
      very path that the notebook is told as its prefix. */
  lemma MappingRoutesThePrefix(namespace: string, name: string)
    requires '\n' !in namespace && '\n' !in name
    ensures var lines := Split(Mapping(namespace, name)["getambassador.io/config"], '\n');
            var prefix := Prefix(namespace, name).value;
            && |lines| == 9
            && lines[0] == "---" && lines[1] == "apiVersion: ambassador/v0" && lines[2] == "kind:  Mapping"
            && lines[3] == "name: notebook_" + namespace + "_" + name + "_mapping"
            && lines[4] == "prefix: " + prefix && lines[5] == "rewrite: " + prefix
            && lines[6] == "timeout_ms: 300000"
            && lines[7] == "service: " + name + "." + namespace
            && lines[8] == "use_websocket: true"
    ensures Mapping(namespace, name).Keys == {"getambassador.io/config"}
  {
    var lines := MappingLines(namespace, name);
    LinesAreWhole(namespace, name);
    JoinSplit(lines, '\n');
    assert "prefix: /notebook/" == "prefix: " + "/notebook/" && "rewrite: /notebook/" == "rewrite: " + "/notebook/";
  }

  lemma LinesAreWhole(namespace: string, name: string)
    requires '\n' !in namespace && '\n' !in name
    ensures forall line | line in MappingLines(namespace, name) :: '\n' !in line
  {
  }

  /** What a clean pass makes of the status. */
  lemma StatusAfterCleanPass(w: World, env: string)
    requires w.notebook.Some? && Generable(w.notebook.value.spec)
    ensures var before, after := w.notebook.value.status, Pass(w, env, ALL_CLEAN).world.notebook.value.status;
            && after.conditions == (if before.conditions != [] && before.conditions[0] == "Ready" then before.conditions
                                    else ["Ready"] + before.conditions)
            && after.readyReplicas == (if w.set'.Some? then w.set'.value.readyReplicas else 0)
            && after.containerState == if w.pod.Some? && w.pod.value.containerStates != []
                                       then w.pod.value.containerStates[0] else before.containerState
  {
    CleanSetStage(w, env);
    CleanServiceStage(SetStage(w, env, ALL_CLEAN).world);
  }

  /** Under any faults, what was missing appears as generated, and what was there keeps what the controller does not
      own: selector, pod labels and replicas of the set, and the cluster address of the service. */
  lemma ObjectsKeepWhatIsNotOwned(w: World, env: string, plan: Plan)
    requires w.notebook.Some? && Generable(w.notebook.value.spec)
    ensures var w', nb := Pass(w, env, plan).world, w.notebook.value;
            && (w.set'.Some? ==>
                  && w'.set'.Some? && w'.set'.value.selector == w.set'.value.selector
                  && w'.set'.value.podLabels == w.set'.value.podLabels
                  && w'.set'.value.readyReplicas == w.set'.value.readyReplicas)
            && (w.set'.None? && w'.set'.Some? ==>
                  && w'.set'.value.selector == map["statefulset" := nb.name]
                  && w'.set'.value.labels == w'.set'.value.annotations == map[]
                  && w'.set'.value.podLabels
                     == WithEntries(map["statefulset" := nb.name, "notebook-name" := nb.name], Split(env, ',')))
            && (w.service.Some? ==> w'.service.Some? && w'.service.value.clusterIP == w.service.value.clusterIP)
  {
    assert SET_LABEL == "statefulset";
    if plan.getNotebook == Clean {
      var ss := SetStage(w, env, plan);
      if ss.outcome == Done {
        var service := ServiceStage(ss.world, plan);
        if service.outcome == Done {
          StatusStageKeeps(service.world, FoundReplicas(w), plan);
        }
      }
    }
  }

  /** Whatever passes and faults came before, one clean pass brings the cluster to what the original notebook spec
      generates: what the user wrote is kept, what is missing is filled in, and the prefix is injected once. */
  lemma {:induction false} ConvergesAfterFaults(w: World, env: string, plans: seq<Plan>)
    requires w.notebook.Some? && Generable(w.notebook.value.spec)
    ensures var nb, w' := w.notebook.value, Pass(RunPasses(w, env, plans), env, ALL_CLEAN).world;
            && Converged(w')
            && w'.notebook.value == nb.(status := w'.notebook.value.status)
            && FilledIn(w'.set'.value.podSpec, nb.spec,
                        EnvVar("NB_PREFIX", "/notebook/" + nb.namespace + "/" + nb.name))
            && w'.set'.value.podSpec.containers[0].env
               == nb.spec.containers[0].env + [EnvVar("NB_PREFIX", "/notebook/" + nb.namespace + "/" + nb.name)]
    decreases plans
  {
    if plans == [] {
      CleanPassConverges(w, env);
      StoredSpecNeverChanges(w, env, ALL_CLEAN);
      ConvergedSetIsFilledIn(w.notebook.value, Pass(w, env, ALL_CLEAN).world.set');
    } else {
      StoredSpecNeverChanges(w, env, plans[0]);
      ConvergesAfterFaults(Pass(w, env, plans[0]).world, env, plans[1..]);
    }
  }

  ghost predicate Selects(selector: Labels, labels: Labels) {
    forall k | k in selector :: k in labels && labels[k] == selector[k]
  }

  /** No well-formed entry finally gives the key another value. */
  ghost predicate NeverOverrides(entries: seq<string>, key: string, value: string) {
    forall i | LastSets(entries, i, key) :: Split(entries[i], '=')[1] == value
  }

  /** The generated pair fits: the service targets the set's first container port, both use one selector,
      and it selects the set's pods exactly when POD_LABELS does not finally give the `statefulset` label
      another value. */
  lemma GeneratedPairAgrees(nb: Notebook, env: string)
    requires Generable(nb.spec)
    ensures var ss, service := GeneratedSet(nb, env), WantedService(nb);
            && service.ports[0].targetPort == ss.podSpec.containers[0].ports.value[0].containerPort
            && service.selector == ss.selector
    ensures Selects(WantedService(nb).selector, GeneratedSet(nb, env).podLabels)
       <==> NeverOverrides(Split(env, ','), SET_LABEL, nb.name)
  {
    assert SET_LABEL[0] == 's' && "notebook-name"[0] == 'n';
    var base, entries := map[SET_LABEL := nb.name, "notebook-name" := nb.name], Split(env, ',');
    SelectsUnlessOverridden(base, entries, SET_LABEL, nb.name);
    assert WantedService(nb).selector == map[SET_LABEL := nb.name];
    assert GeneratedSet(nb, env).podLabels == WithEntries(base, entries);
  }

  lemma SelectsUnlessOverridden(labels: Labels, entries: seq<string>, key: string, value: string)
    requires key in labels && labels[key] == value
    ensures Selects(map[key := value], WithEntries(labels, entries)) <==> NeverOverrides(entries, key, value)
  {
    WithEntriesAt(labels, entries, key);
    assert key in map[key := value];
    if i :| LastSets(entries, i, key) {
      assert WithEntries(labels, entries)[key] == Split(entries[i], '=')[1];
    }
  }
}
