/** The profile controller: one pass of Reconcile against a small API server, and what repeated
    passes reach.

    A pass makes at most nine calls; a fault plan says what happens to each.  A
    failed call has no effect; a lost acknowledgement takes effect and reports an
    error.  The server rejects the update of an object without a name.
*/
module ProfileController {
  import opened ApiCalls

  datatype Rule = Rule(apiGroups: seq<string>, resources: seq<string>, verbs: seq<string>)

  datatype Access = Access(roleKind: string, roleName: string, subjects: seq<string>)

  /** A namespaced object: the part the controller owns and the part it leaves alone. */
  datatype Object<T> = Object(namespace: string, name: string, spec: T, rest: string)

  datatype Plan = Plan(getProfile: Call, getNamespace: Call, createNamespace: Call,
                       getRole: Call, createRole: Call, updateRole: Call,
                       getBinding: Call, createBinding: Call, updateBinding: Call)

  const ALL_CLEAN := Plan(Clean, Clean, Clean, Clean, Clean, Clean, Clean, Clean, Clean)

  /** Everything the controller reads or writes, keyed by profile name: the role "edit" and the role
      binding "default" of a profile live in the namespace of the profile's name. */
  datatype World = World(
    owners: map<string, string>,
    namespaces: set<string>,
    roles: map<string, Object<seq<Rule>>>,
    accesses: map<string, Object<Access>>)

  datatype Lookup<T> = Found(value: T) | NotFound | Unreadable

  function WantedAccess(owner: string): Access {
    Access("Role", "edit", [owner])
  }

  // ---------- the API server

  class Server {
    var world: World
    var writes: nat  // write requests received

    constructor (world: World)
      ensures this.world == world && writes == 0
    {
      this.world := world;
      writes := 0;
    }

    method GetProfile(name: string, call: Call) returns (r: Lookup<string>)
      ensures r == if call != Clean then Unreadable
                   else if name in world.owners then Found(world.owners[name]) else NotFound
    {
      if call != Clean {
        return Unreadable;
      }
      r := if name in world.owners then Found(world.owners[name]) else NotFound;
    }

    method GetNamespace(name: string, call: Call) returns (r: Lookup<()>)
      ensures r == if call != Clean then Unreadable else if name in world.namespaces then Found(()) else NotFound
    {
      if call != Clean {
        return Unreadable;
      }
      r := if name in world.namespaces then Found(()) else NotFound;
    }

    method CreateNamespace(name: string, call: Call) returns (err: bool)
      modifies this
      ensures err <==> call != Clean
      ensures world == if call == Failed then old(world)
                       else old(world).(namespaces := old(world.namespaces) + {name})
      ensures writes == old(writes) + 1
    {
      writes := writes + 1;
      if call != Failed {
        world := world.(namespaces := world.namespaces + {name});
      }
      err := call != Clean;
    }

    method GetRole(namespace: string, call: Call) returns (r: Lookup<Object<seq<Rule>>>)
      ensures r == LookUp(world.roles, namespace, call)
    {
      r := LookUp(world.roles, namespace, call);
    }

    method GetAccess(namespace: string, call: Call) returns (r: Lookup<Object<Access>>)
      ensures r == LookUp(world.accesses, namespace, call)
    {
      r := LookUp(world.accesses, namespace, call);
    }

    method CreateRole(role: Object<seq<Rule>>, call: Call) returns (err: bool)
      requires role.namespace in world.namespaces && role.namespace !in world.roles
      modifies this
      ensures err <==> call != Clean
      ensures world == if call == Failed then old(world)
                       else old(world).(roles := old(world.roles)[role.namespace := role])
      ensures writes == old(writes) + 1
    {
      writes := writes + 1;
      if call != Failed {
        world := world.(roles := world.roles[role.namespace := role]);
      }
      err := call != Clean;
    }

    method UpdateRole(role: Object<seq<Rule>>, call: Call) returns (err: bool)
      modifies this
      ensures err <==> call != Clean || role.name == "" || role.namespace !in old(world.roles)
      ensures world == if call == Failed || role.name == "" || role.namespace !in old(world.roles) then old(world)
                       else old(world).(roles := old(world.roles)[role.namespace := role])
      ensures writes == old(writes) + 1
    {
      writes := writes + 1;
      if role.name == "" || role.namespace !in world.roles {
        return true;
      }
      if call != Failed {
        world := world.(roles := world.roles[role.namespace := role]);
      }
      err := call != Clean;
    }

    method CreateAccess(access: Object<Access>, call: Call) returns (err: bool)
      requires access.namespace in world.namespaces && access.namespace !in world.accesses
      modifies this
      ensures err <==> call != Clean
      ensures world == if call == Failed then old(world)
                       else old(world).(accesses := old(world.accesses)[access.namespace := access])
      ensures writes == old(writes) + 1
    {
      writes := writes + 1;
      if call != Failed {
        world := world.(accesses := world.accesses[access.namespace := access]);
      }
      err := call != Clean;
    }

    method UpdateAccess(access: Object<Access>, call: Call) returns (err: bool)
      modifies this
      ensures err <==> call != Clean || access.name == "" || access.namespace !in old(world.accesses)
      ensures world == if call == Failed || access.name == "" || access.namespace !in old(world.accesses)
                       then old(world)
                       else old(world).(accesses := old(world.accesses)[access.namespace := access])
      ensures writes == old(writes) + 1
    {
      writes := writes + 1;
      if access.name == "" || access.namespace !in world.accesses {
        return true;
      }
      if call != Failed {
        world := world.(accesses := world.accesses[access.namespace := access]);
      }
      err := call != Clean;
    }
  }

  function LookUp<T>(objects: map<string, T>, key: string, call: Call): Lookup<T> {
    if call != Clean then Unreadable else if key in objects then Found(objects[key]) else NotFound
  }

  // ---------- one pass, as a function of the world and the plan

  /** Where a stage leaves its objects, whether the pass ends there, and the writes it sent. */
  datatype Stage<T> = Stage(objects: T, stops: bool, writes: nat)

  function NamespaceStage(namespaces: set<string>, name: string, plan: Plan): Stage<set<string>> {
    if plan.getNamespace != Clean then Stage(namespaces, true, 0)
    else if name in namespaces then Stage(namespaces, false, 0)
    else if plan.createNamespace == Failed then Stage(namespaces, true, 1)
    else Stage(namespaces + {name}, plan.createNamespace == LostAck, 1)
  }

  /** The common course of roles and role bindings.  A creation that succeeds is followed by the
      update of an object without a name, so the pass ends there too. */
  function ObjectStage<T(==)>(objects: map<string, Object<T>>, key: string, name: string, want: T,
                              get: Call, create: Call, update: Call): Stage<map<string, Object<T>>> {
    if get != Clean then Stage(objects, true, 0)
    else if key !in objects then
      (if create == Failed then Stage(objects, true, 1)
       else Stage(objects[key := Object(key, name, want, "")], true, if create == Clean then 2 else 1))
    else if objects[key].spec == want then Stage(objects, false, 0)
    else if update == Failed then Stage(objects, true, 1)
    else Stage(objects[key := objects[key].(spec := want)], update == LostAck, 1)
  }

  datatype Outcome = Outcome(world: World, err: bool, writes: nat)

  function Pass(w: World, name: string, rules: seq<Rule>, plan: Plan): Outcome {
    if plan.getProfile != Clean then Outcome(w, true, 0)
    else if name !in w.owners then Outcome(w, false, 0)
    else
      var ns := NamespaceStage(w.namespaces, name, plan);
      var w1 := w.(namespaces := ns.objects);
      if ns.stops then Outcome(w1, true, ns.writes)
      else
        var role := ObjectStage(w1.roles, name, "edit", rules, plan.getRole, plan.createRole, plan.updateRole);
        var w2 := w1.(roles := role.objects);
        if role.stops then Outcome(w2, true, ns.writes + role.writes)
        else
          var access := ObjectStage(w2.accesses, name, "default", WantedAccess(w.owners[name]),
                                    plan.getBinding, plan.createBinding, plan.updateBinding);
          Outcome(w2.(accesses := access.objects), access.stops, ns.writes + role.writes + access.writes)
  }

  /** Objects are stored under their own namespace and carry a name. */
  ghost predicate Stored(w: World) {
    && (forall k | k in w.roles :: w.roles[k].namespace == k && w.roles[k].name != "")
    && (forall k | k in w.accesses :: w.accesses[k].namespace == k && w.accesses[k].name != "")
  }

  /** Reconcile.  Its three sections are the three methods below. */
  method Reconcile(server: Server, name: string, rules: seq<Rule>, plan: Plan) returns (err: bool)
    requires Stored(server.world)
    requires rules != []
    modifies server
    ensures Stored(server.world)
    ensures var pass := Pass(old(server.world), name, rules, plan);
            server.world == pass.world && err == pass.err && server.writes == old(server.writes) + pass.writes
  {
    var instance := server.GetProfile(name, plan.getProfile);
    if !instance.Found? {
      return instance.Unreadable?;
    }
    err := ReconcileNamespace(server, name, plan);
    if err {
      return;
    }
    err := ReconcileRole(server, name, rules, plan);
    if err {
      return;
    }
    err := ReconcileRoleBinding(server, name, instance.value, plan);
  }

  method ReconcileNamespace(server: Server, name: string, plan: Plan) returns (err: bool)
    modifies server
    ensures var stage := NamespaceStage(old(server.world.namespaces), name, plan);
            && server.world == old(server.world).(namespaces := stage.objects)
            && err == stage.stops && server.writes == old(server.writes) + stage.writes
  {
    var foundNs := server.GetNamespace(name, plan.getNamespace);
    if foundNs.NotFound? {
      err := server.CreateNamespace(name, plan.createNamespace);
      if err {
        return;
      }
    } else if foundNs.Unreadable? {
      return true;
    }
    err := false;
  }

  method ReconcileRole(server: Server, name: string, rules: seq<Rule>, plan: Plan) returns (err: bool)
    requires name in server.world.namespaces && rules != []
    requires name in server.world.roles ==>
               server.world.roles[name].namespace == name && server.world.roles[name].name != ""
    modifies server
    ensures var stage := ObjectStage(old(server.world.roles), name, "edit", rules,
                                     plan.getRole, plan.createRole, plan.updateRole);
            && server.world == old(server.world).(roles := stage.objects)
            && err == stage.stops && server.writes == old(server.writes) + stage.writes
  {
    var role := Object(name, "edit", rules, "");
    var foundRole := Object("", "", [], "");
    var got := server.GetRole(name, plan.getRole);
    if got.NotFound? {
      err := server.CreateRole(role, plan.createRole);
      if err {
        return;
      }
    } else if got.Unreadable? {
      return true;
    } else {
      foundRole := got.value;
    }
    if role.spec != foundRole.spec {
      foundRole := foundRole.(spec := role.spec);
      err := server.UpdateRole(foundRole, plan.updateRole);
      if err {
        return;
      }
    }
    err := false;
  }

  method ReconcileRoleBinding(server: Server, name: string, owner: string, plan: Plan) returns (err: bool)
    requires name in server.world.namespaces
    requires name in server.world.accesses ==>
               server.world.accesses[name].namespace == name && server.world.accesses[name].name != ""
    modifies server
    ensures var stage := ObjectStage(old(server.world.accesses), name, "default", WantedAccess(owner),
                                     plan.getBinding, plan.createBinding, plan.updateBinding);
            && server.world == old(server.world).(accesses := stage.objects)
            && err == stage.stops && server.writes == old(server.writes) + stage.writes
  {
    var roleBinding := Object(name, "default", WantedAccess(owner), "");
    var found := Object("", "", Access("", "", []), "");
    var got := server.GetAccess(name, plan.getBinding);
    if got.NotFound? {
      err := server.CreateAccess(roleBinding, plan.createBinding);
      if err {
        return;
      }
    } else if got.Unreadable? {
      return true;
    } else {
      found := got.value;
    }
    if roleBinding.spec != found.spec {
      found := found.(spec := roleBinding.spec);
      err := server.UpdateAccess(found, plan.updateBinding);
      if err {
        return;
      }
    }
    err := false;
  }

  // ---------- what is still wrong

  predicate RoleGood(w: World, name: string, rules: seq<Rule>) {
    name in w.roles && w.roles[name].spec == rules
  }

  predicate AccessGood(w: World, name: string) {
    name in w.owners && name in w.accesses && w.accesses[name].spec == WantedAccess(w.owners[name])
  }

  /** How many of namespace, role and role binding are missing or differ from the profile's. */
  function Deficit(w: World, name: string, rules: seq<Rule>): nat {
    (if name in w.namespaces then 0 else 1)
    + (if RoleGood(w, name, rules) then 0 else 1)
    + (if AccessGood(w, name) then 0 else 1)
  }

  /** How many of role and role binding do not exist: the passes that must still fail. */
  function Missing(w: World, name: string): nat {
    (if name in w.roles then 0 else 1) + (if name in w.accesses then 0 else 1)
  }

  function RunPasses(w: World, name: string, rules: seq<Rule>, plans: seq<Plan>): World
    decreases plans
  {
    if plans == [] then w else RunPasses(Pass(w, name, rules, plans[0]).world, name, rules, plans[1..])
  }

  function CleanPlans(n: nat): (plans: seq<Plan>) {
    seq(n, _ => ALL_CLEAN)
  }

  // ---------- guarantees of one pass

  /** Under any faults a pass makes nothing worse, touches no other profile's objects, and changes
      neither the profiles nor what it does not own. */
  lemma PassNeverHarms(w: World, name: string, rules: seq<Rule>, plan: Plan)
    ensures var w' := Pass(w, name, rules, plan).world;
            && Deficit(w', name, rules) <= Deficit(w, name, rules)
            && Missing(w', name) <= Missing(w, name)
            && w'.owners == w.owners
            && w'.namespaces - {name} == w.namespaces - {name}
            && w'.roles - {name} == w.roles - {name}
            && w'.accesses - {name} == w.accesses - {name}
            && (name in w.roles ==> name in w'.roles && w'.roles[name].rest == w.roles[name].rest)
            && (name in w.accesses ==> name in w'.accesses && w'.accesses[name].rest == w.accesses[name].rest)
  {
  }

  /** A pass over an existing profile that reports no error has put everything right; and it wrote
      nothing exactly when nothing was wrong before it. */
  lemma NilMeansConverged(w: World, name: string, rules: seq<Rule>, plan: Plan)
    requires name in w.owners
    requires !Pass(w, name, rules, plan).err
    ensures Deficit(Pass(w, name, rules, plan).world, name, rules) == 0
    ensures Pass(w, name, rules, plan).writes == 0 <==> Deficit(w, name, rules) == 0
  {
  }

  /** A pass over an existing profile that reports no error leaves its owner, and nobody else, with access to its
      namespace through the role of this controller. */
  lemma NilGivesTheOwnerAccess(w: World, name: string, rules: seq<Rule>, plan: Plan)
    requires name in w.owners && !Pass(w, name, rules, plan).err
    ensures var w' := Pass(w, name, rules, plan).world;
            && name in w'.namespaces
            && name in w'.roles && w'.roles[name].spec == rules
            && name in w'.accesses && w'.accesses[name].spec.subjects == [w.owners[name]]
            && w'.accesses[name].spec.roleKind == "Role" && w'.accesses[name].spec.roleName == "edit"
  {
  }

  /** Under any faults, an object that was missing and is now there has the name and the contents it needs, the role
      under the name that the binding refers to; one that was there keeps its name and has its former contents or
      those. */
  lemma ObjectsAreTheWantedOnes(w: World, name: string, rules: seq<Rule>, plan: Plan)
    ensures var w' := Pass(w, name, rules, plan).world;
            && (name in w'.roles ==>
                  var role := w'.roles[name];
                  if name in w.roles then
                    && role.(spec := w.roles[name].spec) == w.roles[name]
                    && (role == w.roles[name] || role.spec == rules)
                  else role == Object(name, "edit", rules, ""))
            && (name in w'.accesses ==>
                  var binding := w'.accesses[name];
                  if name in w.accesses then
                    && binding.(spec := w.accesses[name].spec) == w.accesses[name]
                    && (binding == w.accesses[name]
                        || (name in w.owners && binding.spec == Access("Role", "edit", [w.owners[name]])))
                  else name in w.owners && binding == Object(name, "default", Access("Role", "edit",
                      [w.owners[name]]), ""))
  {
  }

  /** A converged profile is left alone; so is a deleted one, in any condition. */
  lemma ConvergedPassIsQuiet(w: World, name: string, rules: seq<Rule>)
    requires Deficit(w, name, rules) == 0 || name !in w.owners
    ensures Pass(w, name, rules, ALL_CLEAN) == Outcome(w, false, 0)
  {
  }

  /** Each clean pass creates one missing object at most, and fails exactly when it had to. */
  lemma CleanPassProgress(w: World, name: string, rules: seq<Rule>)
    requires name in w.owners
    ensures var pass := Pass(w, name, rules, ALL_CLEAN);
            && (pass.err <==> Missing(w, name) > 0)
            && (Missing(w, name) > 0 ==> Missing(pass.world, name) == Missing(w, name) - 1)
  {
  }

  // ---------- convergence

  lemma {:induction false} RunPassesNeverHarms(w: World, name: string, rules: seq<Rule>, plans: seq<Plan>)
    ensures Deficit(RunPasses(w, name, rules, plans), name, rules) <= Deficit(w, name, rules)
    ensures Missing(RunPasses(w, name, rules, plans), name) <= Missing(w, name)
    ensures RunPasses(w, name, rules, plans).owners == w.owners
    decreases plans
  {
    if plans != [] {
      PassNeverHarms(w, name, rules, plans[0]);
      RunPassesNeverHarms(Pass(w, name, rules, plans[0]).world, name, rules, plans[1..]);
    }
  }

  /** Clean passes fail exactly as many times as objects are missing; the next one succeeds. */
  lemma {:induction false} CleanPassesNeeded(w: World, name: string, rules: seq<Rule>, n: nat)
    requires name in w.owners
    ensures var w' := RunPasses(w, name, rules, CleanPlans(n));
            && w'.owners == w.owners
            && (Pass(w', name, rules, ALL_CLEAN).err <==> n < Missing(w, name))
            && (n > Missing(w, name) ==> Deficit(w', name, rules) == 0)
    decreases n
  {
    CleanPassProgress(w, name, rules);
    if n > 0 {
      var w1 := Pass(w, name, rules, ALL_CLEAN).world;
      PassNeverHarms(w, name, rules, ALL_CLEAN);
      assert CleanPlans(n)[1..] == CleanPlans(n - 1);
      CleanPassesNeeded(w1, name, rules, n - 1);
      if Missing(w, name) == 0 {
        NilMeansConverged(w, name, rules, ALL_CLEAN);
        RunPassesNeverHarms(w1, name, rules, CleanPlans(n - 1));
      }
    }
  }

  lemma {:induction false} RunPassesAppend(w: World, name: string, rules: seq<Rule>, first: seq<Plan>,
      second: seq<Plan>)
    ensures RunPasses(w, name, rules, first + second)
         == RunPasses(RunPasses(w, name, rules, first), name, rules, second)
    decreases first
  {
    if first == [] {
      assert first + second == second;
    } else {
      assert (first + second)[1..] == first[1..] + second;
      RunPassesAppend(Pass(w, name, rules, first[0]).world, name, rules, first[1..], second);
    }
  }

  /** From any cluster and after any finite series of faulty passes, the third clean pass at the
      latest reports no error, and once a clean pass has reported none every later one is silent. */
  lemma ProfileConverges(w: World, name: string, rules: seq<Rule>, faulty: seq<Plan>, n: nat)
    requires name in w.owners
    ensures var before := RunPasses(w, name, rules, faulty);
            var after := RunPasses(w, name, rules, faulty + CleanPlans(n));
            && Deficit(before, name, rules) <= Deficit(w, name, rules)
            && (Pass(after, name, rules, ALL_CLEAN).err <==> n < Missing(before, name))
            && (n >= 2 ==> !Pass(after, name, rules, ALL_CLEAN).err)
            && (n > Missing(before, name) ==> Pass(after, name, rules, ALL_CLEAN) == Outcome(after, false, 0))
  {
    RunPassesAppend(w, name, rules, faulty, CleanPlans(n));
    RunPassesNeverHarms(w, name, rules, faulty);
    var before := RunPasses(w, name, rules, faulty);
    CleanPassesNeeded(before, name, rules, n);
    if n > Missing(before, name) {
      ConvergedPassIsQuiet(RunPasses(before, name, rules, CleanPlans(n)), name, rules);
    }
  }

  /** Three passes are needed from nothing: the first two fail, and the third finds nothing to do. */
  lemma FreshProfileTakesThreePasses(name: string, owner: string, rules: seq<Rule>)
    ensures var w := World(map[name := owner], {}, map[], map[]);
            var w1 := Pass(w, name, rules, ALL_CLEAN);
            var w2 := Pass(w1.world, name, rules, ALL_CLEAN);
            && w1.err && w2.err && w1.writes == 3 && w2.writes == 2
            && Pass(w2.world, name, rules, ALL_CLEAN) == Outcome(w2.world, false, 0)
  {
    var w := World(map[name := owner], {}, map[], map[]);
    CleanPassProgress(w, name, rules);
    var w1 := Pass(w, name, rules, ALL_CLEAN).world;
    CleanPassProgress(w1, name, rules);
    var w2 := Pass(w1, name, rules, ALL_CLEAN).world;
    ConvergedPassIsQuiet(w2, name, rules);
  }
}
