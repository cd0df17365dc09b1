/** The three implementations that edit a project's IAM policy: the deployment
    server (gcpUtils.go), the kfctl library (iamutils.go and gcp.go) and the
    patch script (iam_patch.py).  Each loop is proved against the grant sets of
    IamPolicy, and the implementations are compared through those sets.
*/
module IamRewrite {
  import opened IamPolicy
  import opened Sequences
  import opened Wrappers

  // ---------- accounts

  function ServiceAccountEmail(name: string, suffix: string, project: string): string {
    name + "-" + suffix + "@" + project + ".iam.gserviceaccount.com"
  }

  /** The three members a deployment owns. */
  function ServiceAccounts(name: string, project: string): set<string> {
    {"serviceAccount:" + ServiceAccountEmail(name, "admin", project),
     "serviceAccount:" + ServiceAccountEmail(name, "user", project),
     "serviceAccount:" + ServiceAccountEmail(name, "vm", project)}
  }

  /** The accounts written out: exactly these three members belong to a deployment. */
  lemma AccountsWrittenOut(name: string, project: string, m: string)
    ensures m in ServiceAccounts(name, project) <==>
              || m == "serviceAccount:" + name + "-admin@" + project + ".iam.gserviceaccount.com"
              || m == "serviceAccount:" + name + "-user@" + project + ".iam.gserviceaccount.com"
              || m == "serviceAccount:" + name + "-vm@" + project + ".iam.gserviceaccount.com"
  {
    AccountWrittenOut(name, "admin", project);
    AccountWrittenOut(name, "user", project);
    AccountWrittenOut(name, "vm", project);
    assert "-" + "admin" + "@" == "-admin@" && "-" + "user" + "@" == "-user@" && "-" + "vm" + "@" == "-vm@";
  }

  lemma AccountWrittenOut(name: string, suffix: string, project: string)
    ensures "serviceAccount:" + ServiceAccountEmail(name, suffix, project)
         == "serviceAccount:" + name + ("-" + suffix + "@") + project + ".iam.gserviceaccount.com"
  {
  }

  predicate OccursAt(s: string, sub: string, i: int) {
    0 <= i <= |s| - |sub| && s[i..i + |sub|] == sub
  }

  predicate Contains(s: string, sub: string) {
    exists i | 0 <= i <= |s| - |sub| :: OccursAt(s, sub, i)
  }

  function PrepareAccount(account: string): string {
    if Contains(account, "iam.gserviceaccount.com") then "serviceAccount:" + account
    else if Contains(account, "google-kubeflow-support") then "group:" + account
    else "user:" + account
  }

  function IapAccount(email: string): string {
    if !Contains(email, "iam.gserviceaccount.com") then "user:" + email else "serviceAccount:" + email
  }

  /** E-mails that both sides classify alike. */
  predicate ClassifiedAlike(email: string) {
    Contains(email, "iam.gserviceaccount.com") || !Contains(email, "google-kubeflow-support")
  }

  type Mapping = map<string, string>

  datatype ApplyIamRequest = ApplyIamRequest(project: string, cluster: string, email: string, action: string)

  function ServerMapping(req: ApplyIamRequest): Mapping {
    map["set-kubeflow-admin-service-account" := PrepareAccount(ServiceAccountEmail(req.cluster, "admin", req.project)),
        "set-kubeflow-user-service-account" := PrepareAccount(ServiceAccountEmail(req.cluster, "user", req.project)),
        "set-kubeflow-vm-service-account" := PrepareAccount(ServiceAccountEmail(req.cluster, "vm", req.project)),
        "set-kubeflow-iap-account" := PrepareAccount(req.email)]
  }

  function KfctlMapping(name: string, project: string, email: string): Mapping {
    map["set-kubeflow-admin-service-account" := "serviceAccount:" + ServiceAccountEmail(name, "admin", project),
        "set-kubeflow-user-service-account" := "serviceAccount:" + ServiceAccountEmail(name, "user", project),
        "set-kubeflow-vm-service-account" := "serviceAccount:" + ServiceAccountEmail(name, "vm", project),
        "set-kubeflow-iap-account" := IapAccount(email)]
  }

  lemma ServiceAccountEmailIsServiceAccount(name: string, suffix: string, project: string)
    ensures Contains(ServiceAccountEmail(name, suffix, project), "iam.gserviceaccount.com")
  {
    var head, tail := name + "-" + suffix + "@" + project + ".", "iam.gserviceaccount.com";
    var email := ServiceAccountEmail(name, suffix, project);
    assert email == head + tail;
    assert OccursAt(email, tail, |head|);
  }

  /** The two placeholder tables coincide exactly when the e-mail is classified alike. */
  lemma MappingsAgree(req: ApplyIamRequest)
    ensures ServerMapping(req) == KfctlMapping(req.cluster, req.project, req.email) <==> ClassifiedAlike(req.email)
  {
    ServiceAccountEmailIsServiceAccount(req.cluster, "admin", req.project);
    ServiceAccountEmailIsServiceAccount(req.cluster, "user", req.project);
    ServiceAccountEmailIsServiceAccount(req.cluster, "vm", req.project);
    var key := "set-kubeflow-iap-account";
    var server, kfctl := ServerMapping(req), KfctlMapping(req.cluster, req.project, req.email);
    assert server[key] == PrepareAccount(req.email) && kfctl[key] == IapAccount(req.email);
    assert ("group:" + req.email)[0] == 'g' && ("user:" + req.email)[0] == 'u';
    if ClassifiedAlike(req.email) {
      assert server.Keys == kfctl.Keys;
      assert forall k | k in server :: server[k] == kfctl[k];
    }
  }

  function Actual(mapping: Mapping, member: string): string {
    if member in mapping then mapping[member] else member
  }

  function Substitute(t: seq<TemplateBinding>, mapping: Mapping): (r: seq<TemplateBinding>)
    ensures |r| == |t|
  {
    seq(|t|, i requires 0 <= i < |t| =>
      TemplateBinding(seq(|t[i].members|, j requires 0 <= j < |t[i].members| => Actual(mapping, t[i].members[j])),
                      t[i].roles))
  }

  /** What the placeholder of the IAP account becomes, by what the e-mail contains. */
  lemma EmailsClassified(req: ApplyIamRequest, before: string, after: string)
    ensures req.email == before + "iam.gserviceaccount.com" + after ==>
              && ServerMapping(req)["set-kubeflow-iap-account"] == "serviceAccount:" + req.email
              && KfctlMapping(req.cluster, req.project, req.email)["set-kubeflow-iap-account"]
                 == "serviceAccount:" + req.email
    ensures (forall b: string, a: string :: req.email != b + "iam.gserviceaccount.com" + a) ==>
              && KfctlMapping(req.cluster, req.project, req.email)["set-kubeflow-iap-account"] == "user:" + req.email
              && (req.email == before + "google-kubeflow-support" + after ==>
                    ServerMapping(req)["set-kubeflow-iap-account"] == "group:" + req.email)
              && ((forall b: string, a: string :: req.email != b + "google-kubeflow-support" + a) ==>
                    ServerMapping(req)["set-kubeflow-iap-account"] == "user:" + req.email)
  {
    ContainsWrittenOut(req.email, "iam.gserviceaccount.com", before, after);
    ContainsWrittenOut(req.email, "google-kubeflow-support", before, after);
  }

  lemma ContainsWrittenOut(s: string, sub: string, before: string, after: string)
    ensures s == before + sub + after ==> Contains(s, sub)
    ensures Contains(s, sub) ==> exists b: string, a: string :: s == b + sub + a
  {
    if s == before + sub + after {
      assert OccursAt(s, sub, |before|);
    }
    if Contains(s, sub) {
      var i :| 0 <= i <= |s| - |sub| && OccursAt(s, sub, i);
      assert s == s[..i] + sub + s[i + |sub|..];
    }
  }

  /** Substitution keeps roles, and replaces exactly the members that the table knows. */
  lemma SubstitutedGrants(t: seq<TemplateBinding>, mapping: Mapping, g: Grant)
    ensures g in TemplateGrants(Substitute(t, mapping)) <==>
              exists m :: Grant(g.role, m) in TemplateGrants(t) && g.member == if m in mapping then mapping[m] else m
  {
    var u := Substitute(t, mapping);
    if g in TemplateGrants(u) {
      var i :| 0 <= i < |u| && g.role in u[i].roles && g.member in u[i].members;
      var j :| 0 <= j < |u[i].members| && u[i].members[j] == g.member;
      assert t[i] in t && Grant(g.role, t[i].members[j]) in TemplateGrants(t);
    }
    if m :| Grant(g.role, m) in TemplateGrants(t) && g.member == if m in mapping then mapping[m] else m {
      var i :| 0 <= i < |t| && g.role in t[i].roles && m in t[i].members;
      var j :| 0 <= j < |t[i].members| && t[i].members[j] == m;
      assert u[i] in u && u[i].members[j] == g.member;
    }
  }

  // ---------- clearing a deployment's service accounts

  /** Deletes the deployment's service accounts from every binding, building new bindings. */
  method ClearIamPolicy(currentPolicy: Policy, deployName: string, project: string)
    modifies currentPolicy
    ensures currentPolicy.bindings
         == ClearedBindings(old(currentPolicy.bindings), ServiceAccounts(deployName, project))
  {
    var serviceAccounts := ServiceAccounts(deployName, project);
    var newBindings := [];
    for k := 0 to |currentPolicy.bindings|
      invariant currentPolicy.bindings == old(currentPolicy.bindings)
      invariant newBindings == ClearedBindings(currentPolicy.bindings, serviceAccounts)[..k]
    {
      var members := WithoutMembers(currentPolicy.bindings[k].members, serviceAccounts);
      newBindings := newBindings + [Binding(currentPolicy.bindings[k].role, members)];
    }
    currentPolicy.bindings := newBindings;
  }

  /** Delete's variant: rewrites the member list of each binding in place. */
  method RemoveServiceAccounts(policy: Policy, name: string, project: string)
    modifies policy
    ensures policy.bindings == ClearedBindings(old(policy.bindings), ServiceAccounts(name, project))
  {
    var saSet := ServiceAccounts(name, project);
    ghost var cleared := ClearedBindings(policy.bindings, saSet);
    for idx := 0 to |policy.bindings|
      invariant |policy.bindings| == |old(policy.bindings)|
      invariant forall k | 0 <= k < idx :: policy.bindings[k] == cleared[k]
      invariant forall k | idx <= k < |policy.bindings| :: policy.bindings[k] == old(policy.bindings)[k]
    {
      var cleanedMembers := WithoutMembers(policy.bindings[idx].members, saSet);
      policy.bindings := policy.bindings[idx := policy.bindings[idx].(members := cleanedMembers)];
    }
  }

  method WithoutMembers(members: seq<string>, drop: set<string>) returns (kept: seq<string>)
    ensures kept == Without(members, drop)
  {
    kept := [];
    for j := 0 to |members|
      invariant kept == Without(members[..j], drop)
    {
      assert members[..j + 1] == members[..j] + [members[j]];
      WithoutSnoc(members[..j], members[j], drop);
      if members[j] !in drop {
        kept := kept + [members[j]];
      }
    }
    assert members[..|members|] == members;
  }

  // ---------- role-keyed maps

  /** Go's map[string]map[string]bool; a member marked false is not a grant. */
  type PolicyMap = map<string, map<string, bool>>

  ghost function MapGrants(pm: PolicyMap): set<Grant> {
    set r, m | r in pm && m in pm[r] && pm[r][m] :: Grant(r, m)
  }

  function Mark(pm: PolicyMap, role: string, member: string, exists': bool): PolicyMap {
    pm[role := (if role in pm then pm[role] else map[])[member := exists']]
  }

  lemma MarkGrants(pm: PolicyMap, role: string, member: string, exists': bool)
    ensures MapGrants(Mark(pm, role, member, exists'))
         == if exists' then MapGrants(pm) + {Grant(role, member)} else MapGrants(pm) - {Grant(role, member)}
  {
  }

  /** The indexing loop: a repeated role starts over, so its last binding wins. */
  method IndexByRole(bindings: seq<Binding>) returns (policyMap: PolicyMap)
    ensures MapGrants(policyMap) == LastGrants(bindings)
  {
    policyMap := map[];
    for k := 0 to |bindings|
      invariant MapGrants(policyMap) == LastGrants(bindings[..k])
    {
      var binding := bindings[k];
      ghost var before := policyMap;
      policyMap := policyMap[binding.role := map[]];
      for j := 0 to |binding.members|
        invariant binding.role in policyMap
        invariant policyMap == before[binding.role := policyMap[binding.role]]
        invariant forall m :: m in policyMap[binding.role] <==> m in binding.members[..j]
        invariant forall m | m in policyMap[binding.role] :: policyMap[binding.role][m]
      {
        policyMap := policyMap[binding.role := policyMap[binding.role][binding.members[j] := true]];
      }
      LastGrantsSnoc(bindings[..k], binding);
      assert bindings[..k + 1] == bindings[..k] + [binding];
    }
    assert bindings[..|bindings|] == bindings;
  }

  /** Writes a role-keyed map back as bindings, in an order Go does not fix. */
  method EmitBindings(policyMap: PolicyMap) returns (newBindings: seq<Binding>)
    ensures Canonical(newBindings)
    ensures Grants(newBindings) == MapGrants(policyMap)
    ensures Roles(newBindings) == policyMap.Keys
  {
    newBindings := [];
    var todo := policyMap.Keys;
    while todo != {}
      invariant todo <= policyMap.Keys
      invariant Canonical(newBindings)
      invariant Roles(newBindings) == policyMap.Keys - todo
      invariant forall g :: g in Grants(newBindings) <==> g in MapGrants(policyMap) && g.role !in todo
    {
      var role :| role in todo;
      var members := EmitMembers(policyMap[role]);
      ghost var before := newBindings;
      newBindings := newBindings + [Binding(role, members)];
      todo := todo - {role};
      assert Roles(newBindings) == Roles(before) + {role};
      assert forall b | b in before :: b.role in Roles(before);
      assert Grants(newBindings) == Grants(before) + set m | m in members :: Grant(role, m);
    }
  }

  method EmitMembers(flags: map<string, bool>) returns (members: seq<string>)
    ensures Distinct(members)
    ensures forall m :: m in members <==> m in flags && flags[m]
  {
    members := [];
    var todo := flags.Keys;
    while todo != {}
      invariant todo <= flags.Keys
      invariant Distinct(members)
      invariant forall m :: m in members <==> m in flags && m !in todo && flags[m]
    {
      var member :| member in todo;
      if flags[member] {
        members := members + [member];
      }
      todo := todo - {member};
    }
  }

  // ---------- kfctl: RewriteIamPolicy

  method RewriteIamPolicy(currentPolicy: Policy, adding: Policy)
    modifies currentPolicy
    ensures Edited(old(currentPolicy.bindings), Grants(old(adding.bindings)), true, currentPolicy.bindings)
  {
    var policyMap := IndexByRole(currentPolicy.bindings);
    ghost var base := MapGrants(policyMap);
    var extra := adding.bindings;
    for k := 0 to |extra|
      invariant MapGrants(policyMap) == base + Grants(extra[..k])
    {
      var binding := extra[k];
      ghost var before := MapGrants(policyMap);
      for j := 0 to |binding.members|
        invariant MapGrants(policyMap) == before + set m | m in binding.members[..j] :: Grant(binding.role, m)
      {
        MarkGrants(policyMap, binding.role, binding.members[j], true);
        policyMap := Mark(policyMap, binding.role, binding.members[j], true);
        assert binding.members[..j + 1] == binding.members[..j] + [binding.members[j]];
      }
      assert binding.members[..|binding.members|] == binding.members;
      assert extra[..k + 1] == extra[..k] + [binding];
      assert Grants(extra[..k + 1]) == Grants(extra[..k]) + set m | m in binding.members :: Grant(binding.role, m);
    }
    assert extra[..|extra|] == extra;
    var newBindings := EmitBindings(policyMap);
    currentPolicy.bindings := newBindings;
  }

  // ---------- server: UpdatePolicy

  method UpdatePolicy(currentPolicy: Policy, iamConf: seq<TemplateBinding>, req: ApplyIamRequest)
    modifies currentPolicy
    ensures Edited(old(currentPolicy.bindings), TemplateGrants(Substitute(iamConf, ServerMapping(req))),
                   req.action == "add", currentPolicy.bindings)
  {
    var policyMap := IndexByRole(currentPolicy.bindings);
    var saMapping := ServerMapping(req);
    var adding := req.action == "add";
    ghost var base := MapGrants(policyMap);
    ghost var actual := Substitute(iamConf, saMapping);
    for k := 0 to |iamConf|
      invariant MapGrants(policyMap) == Patched(base, TemplateGrants(actual[..k]), adding)
    {
      policyMap := MarkEntry(policyMap, iamConf[k], actual[k].members, saMapping, adding);
      TemplateGrantsSnoc(actual[..k], actual[k]);
      assert actual[..k + 1] == actual[..k] + [actual[k]];
    }
    assert actual[..|iamConf|] == actual;
    var newBindings := EmitBindings(policyMap);
    currentPolicy.bindings := newBindings;
  }

  /** The middle loop: one entry of the template, every member of it. */
  method MarkEntry(policyMap: PolicyMap, binding: TemplateBinding, ghost actual: seq<string>, saMapping: Mapping,
                   adding: bool)
      returns (marked: PolicyMap)
    requires |actual| == |binding.members|
    requires forall j | 0 <= j < |actual| :: actual[j] == Actual(saMapping, binding.members[j])
    ensures MapGrants(marked) == Patched(MapGrants(policyMap), BindingGrants(binding.roles, actual), adding)
  {
    marked := policyMap;
    for j := 0 to |binding.members|
      invariant MapGrants(marked) == Patched(MapGrants(policyMap), BindingGrants(binding.roles, actual[..j]), adding)
    {
      marked := MarkRoles(marked, binding.roles, Actual(saMapping, binding.members[j]), adding);
      assert actual[..j + 1] == actual[..j] + [actual[j]];
    }
    assert actual[..|actual|] == actual;
  }

  /** The innermost loop: one member, every role of the entry. */
  method MarkRoles(policyMap: PolicyMap, roles: seq<string>, member: string, adding: bool) returns (marked: PolicyMap)
    ensures MapGrants(marked) == Patched(MapGrants(policyMap), BindingGrants(roles, [member]), adding)
  {
    marked := policyMap;
    for i := 0 to |roles|
      invariant MapGrants(marked) == Patched(MapGrants(policyMap), BindingGrants(roles[..i], [member]), adding)
    {
      MarkGrants(marked, roles[i], member, adding);
      marked := Mark(marked, roles[i], member, adding);
      assert roles[..i + 1] == roles[..i] + [roles[i]];
    }
    assert roles[..|roles|] == roles;
  }

  ghost function BindingGrants(roles: seq<string>, members: seq<string>): set<Grant> {
    set r, m | r in roles && m in members :: Grant(r, m)
  }

  lemma TemplateGrantsSnoc(t: seq<TemplateBinding>, b: TemplateBinding)
    ensures TemplateGrants(t + [b]) == TemplateGrants(t) + BindingGrants(b.roles, b.members)
  {
  }

  // ---------- kfctl: filling in and reading the template

  datatype RawBinding = RawBinding(members: Option<seq<string>>, roles: seq<string>)

  datatype TemplateError = NoBindingsEntry | NoMembersEntry

  ghost predicate Complete(data: Option<seq<RawBinding>>) {
    data.Some? && forall b | b in data.value :: b.members.Some?
  }

  function WellFormed(data: seq<RawBinding>): seq<TemplateBinding>
    requires forall b | b in data :: b.members.Some?
  {
    seq(|data|, i requires 0 <= i < |data| => TemplateBinding(data[i].members.value, data[i].roles))
  }

  /** writeIamBindingsFile between parsing and printing: placeholders are replaced by accounts. */
  method WriteIamBindings(data: Option<seq<RawBinding>>, roles: Mapping)
    returns (r: Result<seq<TemplateBinding>, TemplateError>)
    ensures r.Ok? <==> Complete(data)
    ensures r.Ok? ==> r.value == Substitute(WellFormed(data.value), roles)
    ensures data.None? <==> r == Err(NoBindingsEntry)
  {
    if data.None? {
      return Err(NoBindingsEntry);
    }
    var bindings: seq<TemplateBinding> := [];
    for idx := 0 to |data.value|
      invariant |bindings| == idx
      invariant forall i | 0 <= i < idx :: data.value[i].members.Some? && bindings[i].roles == data.value[i].roles
      invariant forall i | 0 <= i < idx :: |bindings[i].members| == |data.value[i].members.value|
      invariant forall i, j | 0 <= i < idx && 0 <= j < |bindings[i].members| ::
                  bindings[i].members[j] == Actual(roles, data.value[i].members.value[j])
    {
      if data.value[idx].members.None? {
        return Err(NoMembersEntry);
      }
      var members := data.value[idx].members.value;
      var newMembers: seq<string> := [];
      for j := 0 to |members|
        invariant |newMembers| == j
        invariant forall i | 0 <= i < j :: newMembers[i] == Actual(roles, members[i])
      {
        newMembers := newMembers + [Actual(roles, members[j])];
      }
      bindings := bindings + [TemplateBinding(newMembers, data.value[idx].roles)];
    }
    ghost var want := Substitute(WellFormed(data.value), roles);
    assert forall i | 0 <= i < |bindings| :: bindings[i].members == want[i].members;
    assert bindings == want;
    r := Ok(bindings);
  }

  /** ReadIamBindingsYAML after parsing.  The result of the set union is dropped, so a role keeps
      the members of the first entry that lists it. */
  method ReadIamBindings(bindings: seq<TemplateBinding>) returns (policy: Policy)
    ensures fresh(policy)
    ensures Canonical(policy.bindings)
    ensures Grants(policy.bindings) == FirstGrants(bindings)
  {
    var entries: map<string, set<string>> := map[];
    for k := 0 to |bindings|
      invariant forall r :: r in entries <==> exists i | 0 <= i < k :: r in bindings[i].roles
      invariant forall i, r | 0 <= i < k && FirstListing(bindings, i, r) ::
                  entries[r] == set m | m in bindings[i].members
    {
      entries := EnterRoles(entries, bindings[k].roles, set m | m in bindings[k].members);
      forall i, r | 0 <= i < k + 1 && FirstListing(bindings, i, r)
        ensures entries[r] == set m | m in bindings[i].members
      {
        assert r in entries;
      }
    }
    var newBindings := EmitEntries(entries);
    forall g: Grant | g.role in entries && g.member in entries[g.role] ensures g in FirstGrants(bindings) {
      var i0 :| 0 <= i0 < |bindings| && g.role in bindings[i0].roles;
      var i := FirstListingOf(bindings, i0, g.role);
    }
    policy := new Policy(newBindings);
  }

  /** The inner loop: the roles of one template binding. */
  method EnterRoles(entries: map<string, set<string>>, roles: seq<string>, membersSet: set<string>)
      returns (out: map<string, set<string>>)
    ensures forall r :: r in out <==> r in entries || r in roles
    ensures forall r | r in out :: out[r] == if r in entries then entries[r] else membersSet
  {
    out := entries;
    for j := 0 to |roles|
      invariant forall r :: r in out <==> r in entries || r in roles[..j]
      invariant forall r | r in out :: out[r] == if r in entries then entries[r] else membersSet
    {
      var role := roles[j];
      if role in out {
        var _ := out[role] + membersSet;  // the union is computed and not stored
      } else {
        out := out[role := membersSet];
      }
    }
    assert roles[..|roles|] == roles;
  }

  method EmitEntries(entries: map<string, set<string>>) returns (newBindings: seq<Binding>)
    ensures Canonical(newBindings)
    ensures forall g :: g in Grants(newBindings) <==> g.role in entries && g.member in entries[g.role]
    ensures Roles(newBindings) == entries.Keys
  {
    var policyMap := map r | r in entries :: map m | m in entries[r] :: true;
    newBindings := EmitBindings(policyMap);
  }

  // ---------- patch script

  /** The dictionary from role to member set that the script edits in place. */
  class RoleDict {
    var roles: map<string, set<string>>

    constructor ()
      ensures roles == map[]
    {
      roles := map[];
    }
  }

  ghost function DictGrants(d: map<string, set<string>>): set<Grant> {
    set r, m | r in d && m in d[r] :: Grant(r, m)
  }

  method PolicyToDict(bindings: seq<Binding>) returns (d: RoleDict)
    ensures fresh(d)
    ensures DictGrants(d.roles) == LastGrants(bindings)
  {
    d := new RoleDict();
    for k := 0 to |bindings|
      invariant fresh(d)
      invariant DictGrants(d.roles) == LastGrants(bindings[..k])
    {
      d.roles := d.roles[bindings[k].role := set m | m in bindings[k].members];
      LastGrantsSnoc(bindings[..k], bindings[k]);
      assert bindings[..k + 1] == bindings[..k] + [bindings[k]];
    }
    assert bindings[..|bindings|] == bindings;
  }

  lemma DictPatchGrants(d: map<string, set<string>>, role: string, members: seq<string>, adding: bool)
    ensures DictGrants(PatchedDict(d, role, (set m | m in members), adding))
         == Patched(DictGrants(d), BindingGrants([role], members), adding)
  {
  }

  function PatchedDict(d: map<string, set<string>>, role: string, members: set<string>, adding: bool)
    : map<string, set<string>>
  {
    var held := if role in d then d[role] else {};
    d[role := if adding then held + members else held - members]
  }

  method ApplyIamBindingsPatch(current: RoleDict, patch: seq<TemplateBinding>, action: string)
    modifies current
    ensures DictGrants(current.roles)
         == Patched(old(DictGrants(current.roles)), TemplateGrants(patch), action == "add")
  {
    ghost var base, adding := DictGrants(current.roles), action == "add";
    for k := 0 to |patch|
      invariant DictGrants(current.roles) == Patched(base, TemplateGrants(patch[..k]), adding)
    {
      PatchEntry(current, patch[k], action);
      TemplateGrantsSnoc(patch[..k], patch[k]);
      assert patch[..k + 1] == patch[..k] + [patch[k]];
    }
    assert patch[..|patch|] == patch;
  }

  /** The inner loop: the roles of one entry. */
  method PatchEntry(current: RoleDict, entry: TemplateBinding, action: string)
    modifies current
    ensures DictGrants(current.roles)
         == Patched(old(DictGrants(current.roles)), BindingGrants(entry.roles, entry.members), action == "add")
  {
    ghost var before, adding := DictGrants(current.roles), action == "add";
    var roles := entry.roles;
    for j := 0 to |roles|
      invariant DictGrants(current.roles) == Patched(before, BindingGrants(roles[..j], entry.members), adding)
    {
      var role, members := roles[j], (set m | m in entry.members);
      DictPatchGrants(current.roles, role, entry.members, adding);
      current.roles := PatchedDict(current.roles, role, members, action == "add");
      assert roles[..j + 1] == roles[..j] + [role];
    }
    assert roles[..|roles|] == roles;
  }

  method DictToPolicy(d: RoleDict) returns (bindings: seq<Binding>)
    ensures Canonical(bindings)
    ensures Grants(bindings) == DictGrants(d.roles)
  {
    bindings := EmitEntries(d.roles);
  }

  /** The script's three steps in a row. */
  method PatchPolicy(bindings: seq<Binding>, patch: seq<TemplateBinding>, action: string)
      returns (patched: seq<Binding>)
    ensures Edited(bindings, TemplateGrants(patch), action == "add", patched)
  {
    var current := PolicyToDict(bindings);
    ApplyIamBindingsPatch(current, patch, action);
    patched := DictToPolicy(current);
  }

  // ---------- the implementations compared

  lemma SubstituteKeepsRoles(t: seq<TemplateBinding>, mapping: Mapping)
    ensures NoRoleTwice(Substitute(t, mapping)) <==> NoRoleTwice(t)
  {
    assert forall i {:trigger t[i]} | 0 <= i < |t| :: Substitute(t, mapping)[i].roles == t[i].roles;
  }

  /** One template applied to one policy by all three paths, as their postconditions state it.  The server and the
      script, on the file kfctl writes, grant the same exactly when the grants on which their substitutions differ
      make no difference to the policy; they differ on none when the e-mail is classified alike.  kfctl, which only
      adds, grants what the script grants exactly when every grant its reader dropped is already held. */
  lemma ImplementationsAgree(cur: seq<Binding>, t: seq<TemplateBinding>, req: ApplyIamRequest,
                             kfctl: seq<Binding>, server: seq<Binding>, script: seq<Binding>)
    requires Edited(cur, FirstGrants(KfctlFile(t, req)), true, kfctl)
    requires Edited(cur, TemplateGrants(KfctlFile(t, req)), req.action == "add", script)
    requires Edited(cur, TemplateGrants(Substitute(t, ServerMapping(req))), req.action == "add", server)
    ensures var s, k := TemplateGrants(Substitute(t, ServerMapping(req))), TemplateGrants(KfctlFile(t, req));
            var differ := (s - k) + (k - s);
            && (Grants(server) == Grants(script) <==>
                  if req.action == "add" then differ <= LastGrants(cur) else differ !! LastGrants(cur))
            && (ClassifiedAlike(req.email) ==> differ == {})
    ensures req.action == "add" ==>
              (Grants(kfctl) == Grants(script)
               <==> TemplateGrants(KfctlFile(t, req)) - FirstGrants(KfctlFile(t, req)) <= LastGrants(cur))
    ensures req.action == "add" && NoRoleTwice(t) ==> Grants(kfctl) == Grants(script)
    ensures ClassifiedAlike(req.email) ==> Grants(server) == Grants(script)
  {
    MappingsAgree(req);
    SubstituteKeepsRoles(t, KfctlMapping(req.cluster, req.project, req.email));
    FirstGrantsExact(KfctlFile(t, req));
    PatchesCompared(LastGrants(cur), TemplateGrants(Substitute(t, ServerMapping(req))),
                    TemplateGrants(KfctlFile(t, req)), req.action == "add");
    PatchesCompared(LastGrants(cur), FirstGrants(KfctlFile(t, req)), TemplateGrants(KfctlFile(t, req)), true);
  }

  lemma PatchesCompared(base: set<Grant>, x: set<Grant>, y: set<Grant>, adding: bool)
    ensures var differ := (x - y) + (y - x);
            Patched(base, x, adding) == Patched(base, y, adding)
            <==> if adding then differ <= base else differ !! base
  {
    var differ := (x - y) + (y - x);
    forall g | g in differ
      ensures (g in Patched(base, x, adding) <==> g in Patched(base, y, adding)) <==>
          if adding then g in base else g !in base
    {
    }
    if if adding then differ <= base else differ !! base {
      forall g ensures g in Patched(base, x, adding) <==> g in Patched(base, y, adding) {
        assert g in differ ==> if adding then g in base else g !in base;
      }
    }
  }

  lemma SupportGroupIsClassifiedDifferently()
    ensures !ClassifiedAlike("google-kubeflow-support")
  {
    var email, domain := "google-kubeflow-support", "iam.gserviceaccount.com";
    assert OccursAt(email, email, 0);
    assert |email| == |domain| && email[0] == 'g' && domain[0] == 'i';
  }

  /** The e-mail of a support group: the server grants IAP access to the group, kfctl and the script to a user of
      that name. */
  lemma SupportGroupIsGrantedDifferently(req: ApplyIamRequest)
    requires !ClassifiedAlike(req.email)
    ensures var iap := "roles/iap.httpsResourceAccessor";
            && Grant(iap, "group:" + req.email) in
                 TemplateGrants(Substitute(SHIPPED_TEMPLATE, ServerMapping(req)))
                 - TemplateGrants(KfctlFile(SHIPPED_TEMPLATE, req))
            && Grant(iap, "user:" + req.email) in
                 TemplateGrants(KfctlFile(SHIPPED_TEMPLATE, req))
                 - TemplateGrants(Substitute(SHIPPED_TEMPLATE, ServerMapping(req)))
  {
    var server, kfctl := ServerMapping(req), KfctlMapping(req.cluster, req.project, req.email);
    assert server["set-kubeflow-iap-account"] == "group:" + req.email;
    assert kfctl["set-kubeflow-iap-account"] == "user:" + req.email;
    assert ("group:" + req.email)[0] == 'g' && ("user:" + req.email)[0] == 'u';
    IapGrantsOfShippedTemplate(server, "group:" + req.email);
    IapGrantsOfShippedTemplate(server, "user:" + req.email);
    IapGrantsOfShippedTemplate(kfctl, "group:" + req.email);
    IapGrantsOfShippedTemplate(kfctl, "user:" + req.email);
  }

  /** On a project without a policy the two results then differ by both grants. */
  lemma SupportGroupBreaksAgreement(req: ApplyIamRequest, server: seq<Binding>, script: seq<Binding>)
    requires !ClassifiedAlike(req.email) && req.action == "add"
    requires Edited([], TemplateGrants(KfctlFile(SHIPPED_TEMPLATE, req)), true, script)
    requires Edited([], TemplateGrants(Substitute(SHIPPED_TEMPLATE, ServerMapping(req))), true, server)
    ensures Grant("roles/iap.httpsResourceAccessor", "group:" + req.email) in Grants(server) - Grants(script)
    ensures Grant("roles/iap.httpsResourceAccessor", "user:" + req.email) in Grants(script) - Grants(server)
  {
    SupportGroupIsGrantedDifferently(req);
    assert LastGrants([]) == {};
  }

  /** Only the last entry of the shipped template is about IAP access. */
  lemma IapGrantsOfShippedTemplate(mapping: Mapping, member: string)
    requires "set-kubeflow-iap-account" in mapping
    ensures Grant("roles/iap.httpsResourceAccessor", member) in TemplateGrants(Substitute(SHIPPED_TEMPLATE, mapping))
       <==> member == mapping["set-kubeflow-iap-account"]
  {
    var t := Substitute(SHIPPED_TEMPLATE, mapping);
    var role := "roles/iap.httpsResourceAccessor";
    assert forall i | 0 <= i < |SHIPPED_TEMPLATE| - 1 :: role !in SHIPPED_TEMPLATE[i].roles;
    assert forall i | 0 <= i < |t| :: t[i].roles == SHIPPED_TEMPLATE[i].roles;
    assert t[3].roles[0] == role && t[3].members == [mapping["set-kubeflow-iap-account"]];
    OnlyListing(t, 3, Grant(role, member));
  }

  lemma OnlyListing(t: seq<TemplateBinding>, i: nat, g: Grant)
    requires i < |t| && g.role in t[i].roles
    requires forall j | 0 <= j < |t| && j != i :: g.role !in t[j].roles
    ensures g in TemplateGrants(t) <==> g.member in t[i].members
  {
    assert t[i] in t;
  }

  function KfctlFile(t: seq<TemplateBinding>, req: ApplyIamRequest): seq<TemplateBinding> {
    Substitute(t, KfctlMapping(req.cluster, req.project, req.email))
  }

  /** The bindings template shipped with the deployment configuration. */
  const SHIPPED_TEMPLATE := [
    TemplateBinding(["set-kubeflow-admin-service-account"],
                    ["roles/source.admin", "roles/servicemanagement.admin", "roles/compute.networkAdmin"]),
    TemplateBinding(["set-kubeflow-user-service-account"],
                    ["roles/cloudbuild.builds.editor", "roles/viewer", "roles/source.admin", "roles/storage.admin",
                     "roles/bigquery.admin", "roles/dataflow.admin", "roles/ml.admin", "roles/dataproc.editor",
                     "roles/cloudsql.admin"]),
    TemplateBinding(["set-kubeflow-vm-service-account"],
                    ["roles/logging.logWriter", "roles/monitoring.metricWriter", "roles/storage.objectViewer"]),
    TemplateBinding(["set-kubeflow-iap-account"], ["roles/iap.httpsResourceAccessor"])
  ]

  lemma RepeatedRoleLoses(t: seq<TemplateBinding>, i: int, j: int, lost: Grant)
    requires FirstListing(t, i, lost.role) && lost.member !in t[i].members
    requires 0 <= j < |t| && lost.role in t[j].roles && lost.member in t[j].members
    ensures lost in TemplateGrants(t) && lost !in FirstGrants(t)
  {
    assert t[j] in t;
  }

  /** The file kfctl writes from the shipped template lists one role twice, and the reader loses the second
      listing's grant, whatever the deployment. */
  lemma ShippedTemplateLosesAGrant(name: string, project: string, email: string)
    ensures var file := Substitute(SHIPPED_TEMPLATE, KfctlMapping(name, project, email));
            Grant("roles/source.admin", "serviceAccount:" + ServiceAccountEmail(name, "user", project))
              in TemplateGrants(file) - FirstGrants(file)
  {
    var mapping := KfctlMapping(name, project, email);
    var file := Substitute(SHIPPED_TEMPLATE, mapping);
    var admin, user := "serviceAccount:" + ServiceAccountEmail(name, "admin", project),
                       "serviceAccount:" + ServiceAccountEmail(name, "user", project);
    AdminIsNotUser(name, project);
    PlaceholdersOf(ApplyIamRequest(project, name, email, "add"));
    assert file[0].members == [admin] && file[1].members == [user];
    assert file[1].members[0] == user;
    var lost := Grant("roles/source.admin", user);
    assert file[0].roles[0] == lost.role && file[1].roles[2] == lost.role;
    RepeatedRoleLoses(file, 0, 1, lost);
  }

  /** Both tables send each of the three placeholders to its own account. */
  lemma PlaceholdersWrittenOut(req: ApplyIamRequest)
    ensures var admin := "serviceAccount:" + req.cluster + "-admin@" + req.project + ".iam.gserviceaccount.com";
            var user := "serviceAccount:" + req.cluster + "-user@" + req.project + ".iam.gserviceaccount.com";
            var vm := "serviceAccount:" + req.cluster + "-vm@" + req.project + ".iam.gserviceaccount.com";
            forall mapping | mapping in {ServerMapping(req), KfctlMapping(req.cluster, req.project, req.email)} ::
              && Actual(mapping, "set-kubeflow-admin-service-account") == admin
              && Actual(mapping, "set-kubeflow-user-service-account") == user
              && Actual(mapping, "set-kubeflow-vm-service-account") == vm
  {
    AccountWrittenOut(req.cluster, "admin", req.project);
    AccountWrittenOut(req.cluster, "user", req.project);
    AccountWrittenOut(req.cluster, "vm", req.project);
    assert "-" + "admin" + "@" == "-admin@" && "-" + "user" + "@" == "-user@" && "-" + "vm" + "@" == "-vm@";
    PlaceholdersOf(req);
  }

  lemma PlaceholdersOf(req: ApplyIamRequest)
    ensures forall mapping | mapping in {ServerMapping(req), KfctlMapping(req.cluster, req.project, req.email)} ::
              && Actual(mapping, "set-kubeflow-admin-service-account")
                 == "serviceAccount:" + ServiceAccountEmail(req.cluster, "admin", req.project)
              && Actual(mapping, "set-kubeflow-user-service-account")
                 == "serviceAccount:" + ServiceAccountEmail(req.cluster, "user", req.project)
              && Actual(mapping, "set-kubeflow-vm-service-account")
                 == "serviceAccount:" + ServiceAccountEmail(req.cluster, "vm", req.project)
  {
    ServiceAccountEmailIsServiceAccount(req.cluster, "admin", req.project);
    ServiceAccountEmailIsServiceAccount(req.cluster, "user", req.project);
    ServiceAccountEmailIsServiceAccount(req.cluster, "vm", req.project);
    var admin, user := "set-kubeflow-admin-service-account", "set-kubeflow-user-service-account";
    assert admin[13] == 'a' && user[13] == 'u';
    assert "set-kubeflow-vm-service-account"[13] == 'v' && "set-kubeflow-iap-account"[13] == 'i';
  }

  lemma AdminIsNotUser(name: string, project: string)
    ensures "serviceAccount:" + ServiceAccountEmail(name, "admin", project)
         != "serviceAccount:" + ServiceAccountEmail(name, "user", project)
  {
    var admin, user := ServiceAccountEmail(name, "admin", project), ServiceAccountEmail(name, "user", project);
    assert admin[|name| + 1] == 'a' && user[|name| + 1] == 'u';
    assert ("serviceAccount:" + admin)[15..] == admin && ("serviceAccount:" + user)[15..] == user;
  }

  const IAM_ADMIN_ROLE := "roles/resourcemanager.projectIamAdmin"

  /** BindRole's edit: one more binding at the end, whether or not the role already has one. */
  function RoleBound(bindings: seq<Binding>, serviceAccount: string): seq<Binding> {
    bindings + [AdminBinding(serviceAccount)]
  }

  function AdminBinding(serviceAccount: string): Binding {
    Binding(IAM_ADMIN_ROLE, ["serviceAccount:" + serviceAccount])
  }

  /** BindRole adds exactly its grant.  The next indexing keeps every grant the policy had exactly when no one else
      was an IAM admin and no other role was shadowed already; and it loses none that the former indexing would
      have kept exactly when no one else was an IAM admin. */
  lemma BindRoleShadowsAdmins(bindings: seq<Binding>, serviceAccount: string)
    ensures Grants(RoleBound(bindings, serviceAccount))
         == Grants(bindings) + {Grant(IAM_ADMIN_ROLE, "serviceAccount:" + serviceAccount)}
    ensures Grants(bindings) <= LastGrants(RoleBound(bindings, serviceAccount))
       <==> forall g | g in Grants(bindings) ::
              if g.role == IAM_ADMIN_ROLE then g.member == "serviceAccount:" + serviceAccount
              else g in LastGrants(bindings)
    ensures LastGrants(bindings) <= LastGrants(RoleBound(bindings, serviceAccount))
       <==> forall g | g in LastGrants(bindings) && g.role == IAM_ADMIN_ROLE ::
              g.member == "serviceAccount:" + serviceAccount
  {
    var b := Binding(IAM_ADMIN_ROLE, ["serviceAccount:" + serviceAccount]);
    LastGrantsSnoc(bindings, b);
    assert Grants(bindings + [b]) == Grants(bindings) + Grants([b]);
    assert b.members[0] in b.members;
  }
}
