/** The end-to-end IAM protocol of an apply and of a delete against a policy store whose calls can fail.

    Both phases of an apply repeat "get the policy, edit it, set it" until one
    set is acknowledged or the retry budget is spent.  A schedule lists what
    happens to each attempt of one phase; a set can take effect and still report
    failure.  All results hold for every schedule.
*/
module IamApply {
  import opened IamPolicy
  import opened IamRewrite
  import opened Wrappers

  datatype Attempt = GetFailed | SetRefused | SetLostAck | Acked

  /** Whether some set of the schedule reached the store. */
  ghost predicate Landed(schedule: seq<Attempt>) {
    SetLostAck in schedule || Acked in schedule
  }

  lemma LandedSnoc(schedule: seq<Attempt>, i: nat)
    requires i < |schedule|
    ensures Landed(schedule[..i + 1]) <==> Landed(schedule[..i]) || schedule[i] in {SetLostAck, Acked}
    ensures Acked in schedule[..i + 1] <==> Acked in schedule[..i] || schedule[i] == Acked
  {
    assert schedule[..i + 1] == schedule[..i] + [schedule[i]];
  }

  class Store {
    var bindings: seq<Binding>

    constructor (bindings: seq<Binding>)
      ensures this.bindings == bindings
    {
      this.bindings := bindings;
    }

    /** Reads the stored policy into a fresh object. */
    method Get() returns (policy: Policy)
      ensures fresh(policy) && policy.bindings == bindings
    {
      policy := new Policy(bindings);
    }

    /** Offers a policy to the store; it is kept unless the attempt is refused. */
    method Set(policy: Policy, attempt: Attempt) returns (err: bool)
      modifies this
      ensures err <==> attempt != Acked
      ensures bindings == if attempt in {SetLostAck, Acked} then policy.bindings else old(bindings)
    {
      if attempt in {SetLostAck, Acked} {
        bindings := policy.bindings;
      }
      err := attempt != Acked;
    }
  }

  // ---------- what one phase leaves behind

  ghost predicate ClearPhase(pre: seq<Binding>, schedule: seq<Attempt>, drop: set<string>, post: seq<Binding>) {
    post == if Landed(schedule) then ClearedBindings(pre, drop) else pre
  }

  ghost predicate EditPhase(pre: seq<Binding>, schedule: seq<Attempt>, patch: set<Grant>, adding: bool,
                            post: seq<Binding>) {
    if Landed(schedule) then Edited(pre, patch, adding, post) else post == pre
  }

  method ClearOnce(store: Store, attempt: Attempt, name: string, project: string) returns (err: bool)
    modifies store
    ensures err <==> attempt != Acked
    ensures store.bindings == if attempt in {SetLostAck, Acked}
                              then ClearedBindings(old(store.bindings), ServiceAccounts(name, project))
                              else old(store.bindings)
  {
    if attempt == GetFailed {
      return true;
    }
    var policy := store.Get();
    ClearIamPolicy(policy, name, project);
    err := store.Set(policy, attempt);
  }

  lemma ClearPhaseStep(pre: seq<Binding>, schedule: seq<Attempt>, i: nat, drop: set<string>, mid: seq<Binding>,
                       post: seq<Binding>)
    requires i < |schedule| && ClearPhase(pre, schedule[..i], drop, mid)
    requires post == if schedule[i] in {SetLostAck, Acked} then ClearedBindings(mid, drop) else mid
    ensures ClearPhase(pre, schedule[..i + 1], drop, post)
  {
    LandedSnoc(schedule, i);
    ClearedGrants(pre, drop);
  }

  /** First phase: repeat get, clear, set. */
  method ClearWithRetry(store: Store, schedule: seq<Attempt>, name: string, project: string) returns (err: bool)
    modifies store
    ensures err <==> Acked !in schedule
    ensures ClearPhase(old(store.bindings), schedule, ServiceAccounts(name, project), store.bindings)
  {
    ghost var pre, drop := store.bindings, ServiceAccounts(name, project);
    err := true;
    var i := 0;
    while i < |schedule| && err
      invariant 0 <= i <= |schedule|
      invariant err <==> Acked !in schedule[..i]
      invariant ClearPhase(pre, schedule[..i], drop, store.bindings)
    {
      ghost var mid := store.bindings;
      err := ClearOnce(store, schedule[i], name, project);
      ClearPhaseStep(pre, schedule, i, drop, mid, store.bindings);
      LandedSnoc(schedule, i);
      i := i + 1;
    }
    assert schedule[..|schedule|] == schedule;
  }

  /** Second phase: repeat get, rewrite, set. */
  method RewriteWithRetry(store: Store, schedule: seq<Attempt>, adding: Policy) returns (err: bool)
    modifies store
    ensures err <==> Acked !in schedule
    ensures EditPhase(old(store.bindings), schedule, Grants(adding.bindings), true, store.bindings)
  {
    ghost var pre, added := store.bindings, Grants(adding.bindings);
    err := true;
    var i := 0;
    while i < |schedule| && err
      invariant 0 <= i <= |schedule|
      invariant err ==> Acked !in schedule[..i]
      invariant !err ==> Acked in schedule[..i]
      invariant EditPhase(pre, schedule[..i], added, true, store.bindings)
    {
      if schedule[i] != GetFailed {
        ghost var before := store.bindings;
        var policy := store.Get();
        RewriteIamPolicy(policy, adding);
        ghost var after := policy.bindings;
        err := store.Set(policy, schedule[i]);
        if Landed(schedule[..i]) {
          EditedAgain(pre, added, true, before, after);
        }
      }
      LandedSnoc(schedule, i);
      i := i + 1;
    }
    assert schedule[..|schedule|] == schedule;
  }

  datatype Outcome = Succeeded | DeploymentFailed | ClearFailed | ReadFailed | RewriteFailed | ConfigFailed

  /** What surrounds the two phases: whether the deployments update, whether the bindings file reads,
      and whether everything after the IAM steps works. */
  datatype Surroundings = Surroundings(deploymentsUpdate: bool, file: seq<TemplateBinding>, fileReads: bool,
      restWorks: bool)

  /** updateDM as far as the project policy is concerned. */
  method UpdateDM(store: Store, name: string, project: string, env: Surroundings,
                  clear: seq<Attempt>, rewrite: seq<Attempt>) returns (r: Outcome)
    modifies store
    ensures r == if !env.deploymentsUpdate then DeploymentFailed
                 else if Acked !in clear then ClearFailed
                 else if !env.fileReads then ReadFailed
                 else if Acked !in rewrite then RewriteFailed
                 else if !env.restWorks then ConfigFailed
                 else Succeeded
    ensures r == DeploymentFailed ==> store.bindings == old(store.bindings)
    ensures r in {ClearFailed, ReadFailed} ==>
              ClearPhase(old(store.bindings), clear, ServiceAccounts(name, project), store.bindings)
    ensures r in {RewriteFailed, ConfigFailed, Succeeded} ==>
              EditPhase(ClearedBindings(old(store.bindings), ServiceAccounts(name, project)), rewrite,
                        FirstGrants(env.file), true, store.bindings)
  {
    if !env.deploymentsUpdate {
      return DeploymentFailed;
    }
    var err := ClearWithRetry(store, clear, name, project);
    if err {
      return ClearFailed;
    }
    if !env.fileReads {
      return ReadFailed;
    }
    var iamPolicy := ReadIamBindings(env.file);
    err := RewriteWithRetry(store, rewrite, iamPolicy);
    if err {
      return RewriteFailed;
    }
    r := if env.restWorks then Succeeded else ConfigFailed;
  }

  /** Delete's IAM step: one get and one set, no retry. */
  method DeleteIamStep(store: Store, name: string, project: string, attempt: Attempt) returns (err: bool)
    modifies store
    ensures err <==> attempt != Acked
    ensures ClearPhase(old(store.bindings), [attempt], ServiceAccounts(name, project), store.bindings)
  {
    if attempt == GetFailed {
      return true;
    }
    var policy := store.Get();
    RemoveServiceAccounts(policy, name, project);
    err := store.Set(policy, attempt);
  }

  /** The server's ApplyIamPolicy.  Without the template or a client it fails before it takes the lock; the second
      retry's error is overwritten by nil. */
  method ApplyIamPolicy(store: Store, template: Option<seq<TemplateBinding>>, clientMade: bool, req: ApplyIamRequest,
                        clear: seq<Attempt>, update: seq<Attempt>) returns (err: bool)
    modifies store
    ensures err <==> template.None? || !clientMade || Acked !in clear
    ensures template.None? || !clientMade ==> store.bindings == old(store.bindings)
    ensures err && template.Some? && clientMade ==>
              ClearPhase(old(store.bindings), clear, ServiceAccounts(req.cluster, req.project), store.bindings)
    ensures !err ==>
              EditPhase(ClearedBindings(old(store.bindings), ServiceAccounts(req.cluster, req.project)), update,
                        TemplateGrants(Substitute(template.value, ServerMapping(req))), req.action == "add",
                        store.bindings)
  {
    if template.None? {
      return true;
    }
    if !clientMade {
      return true;
    }
    var iamConf := template.value;
    err := ClearWithRetry(store, clear, req.cluster, req.project);
    if err {
      return;
    }
    ghost var adding := req.action == "add";
    ghost var pre, patch := store.bindings, TemplateGrants(Substitute(iamConf, ServerMapping(req)));
    var done := false;
    var i := 0;
    while i < |update| && !done
      invariant 0 <= i <= |update|
      invariant done ==> Acked in update[..i]
      invariant EditPhase(pre, update[..i], patch, adding, store.bindings)
    {
      if update[i] != GetFailed {
        ghost var before := store.bindings;
        var policy := store.Get();
        UpdatePolicy(policy, iamConf, req);
        ghost var after := policy.bindings;
        var failed := store.Set(policy, update[i]);
        done := !failed;
        if Landed(update[..i]) {
          EditedAgain(pre, patch, adding, before, after);
        }
      }
      LandedSnoc(update, i);
      i := i + 1;
    }
    assert update[..|update|] == update;
  }

  // ---------- the protocol's guarantees

  /** Grants that indexing the policy by role would lose, and that the apply does not restore itself. */
  ghost function LostByApply(pre: seq<Binding>, drop: set<string>, added: set<Grant>): set<Grant> {
    Outside(Grants(pre) - LastGrants(pre), drop) - added
  }

  /** A successful apply ends with the old grants less the deployment's own, plus the template's:
      exactly, unless some binding of a repeated role was shadowed. */
  lemma {:induction false} ApplyExact(pre: seq<Binding>, drop: set<string>, rewrite: seq<Attempt>, added: set<Grant>,
      post: seq<Binding>)
    requires Acked in rewrite
    requires EditPhase(ClearedBindings(pre, drop), rewrite, added, true, post)
    ensures Canonical(post)
    ensures Grants(post) == Outside(LastGrants(pre), drop) + added
    ensures Grants(post) == Outside(Grants(pre), drop) + added <==> LostByApply(pre, drop, added) == {}
    ensures OneBindingPerRole(pre) ==> LostByApply(pre, drop, added) == {}
  {
    ClearedGrants(pre, drop);
    LastGrantsExact(pre);
    var want := Outside(Grants(pre), drop) + added;
    if Grants(post) == want {
      assert forall g | g in LostByApply(pre, drop, added) :: g in want;
    }
    if LostByApply(pre, drop, added) == {} {
      forall g | g in want ensures g in Grants(post) {
        assert g !in LostByApply(pre, drop, added);
      }
    }
  }

  /** Wherever the apply stops, only template grants are gained.  Stopped before its second phase has landed, it has
      taken no grant from anyone outside the deployment; after that, it has taken none exactly when no shadowed
      binding held a grant that the template does not restore. */
  lemma {:induction false} OthersKeepTheirGrantsUnlessShadowed(pre: seq<Binding>, drop: set<string>,
      clear: seq<Attempt>, rewrite: seq<Attempt>, added: set<Grant>, post: seq<Binding>)
    ensures post == pre || ClearPhase(pre, clear, drop, post) ==>
              Outside(Grants(pre), drop) <= Grants(post) <= Grants(pre)
    ensures EditPhase(ClearedBindings(pre, drop), rewrite, added, true, post) ==>
              && Grants(post) <= Grants(pre) + added
              && (Outside(Grants(pre), drop) <= Grants(post) <==>
                  !Landed(rewrite) || LostByApply(pre, drop, added) == {})
  {
    ClearedGrants(pre, drop);
    LastGrantsExact(pre);
    if Outside(Grants(pre), drop) <= Grants(post) && Landed(rewrite) {
      assert forall g | g in LostByApply(pre, drop, added) :: g in Outside(Grants(pre), drop);
    }
    if LostByApply(pre, drop, added) == {} {
      forall g | g in Outside(Grants(pre), drop) ensures g in Outside(LastGrants(pre), drop) + added {
        assert g !in LostByApply(pre, drop, added);
      }
    }
  }

  /** A second successful apply changes no grant, and a later delete leaves what was granted or templated for
      everyone but the deployment's own accounts; what counts as granted before is what the last binding of
      every role grants. */
  lemma {:induction false} ApplyAgainThenDelete(pre: seq<Binding>, drop: set<string>, added: set<Grant>,
                             first: seq<Attempt>, once: seq<Binding>, second: seq<Attempt>, twice: seq<Binding>,
                             delete: Attempt, final: seq<Binding>)
    requires Acked in first && EditPhase(ClearedBindings(pre, drop), first, added, true, once)
    requires Acked in second && EditPhase(ClearedBindings(once, drop), second, added, true, twice)
    requires delete == Acked && ClearPhase(twice, [delete], drop, final)
    ensures Grants(once) == Outside(LastGrants(pre), drop) + added
    ensures Grants(twice) == Grants(once)
    ensures Grants(final) == Outside(LastGrants(pre) + added, drop)
    ensures NothingShadowed(pre) <==> LastGrants(pre) == Grants(pre)
  {
    LastGrantsExact(pre);
    ApplyExact(pre, drop, first, added, once);
    LastGrantsExact(once);
    ApplyExact(once, drop, second, added, twice);
    ClearedGrants(twice, drop);
    OutsideAgain(LastGrants(pre), added, drop);
  }

  lemma OutsideAgain(held: set<Grant>, added: set<Grant>, drop: set<string>)
    ensures Outside(Outside(held, drop) + added, drop) == Outside(held + added, drop)
    ensures Outside(Outside(held, drop) + added, drop) + added == Outside(held, drop) + added
  {
  }

  lemma OutsideDifference(held: set<Grant>, last: set<Grant>, drop: set<string>)
    requires last <= held
    ensures Outside(held - last, drop) == Outside(held, drop) - Outside(last, drop)
    ensures Outside(last, drop) <= Outside(held, drop)
  {
  }

  /** After an acknowledged delete, or clearing, none of the deployment's three accounts holds a grant, and everyone
      else holds what they held. */
  lemma AcknowledgedDeleteFreesTheAccounts(pre: seq<Binding>, name: string, project: string, post: seq<Binding>,
      g: Grant)
    requires ClearPhase(pre, [Acked], ServiceAccounts(name, project), post)
    ensures g in Grants(post) <==>
              && g in Grants(pre)
              && g.member != "serviceAccount:" + name + "-admin@" + project + ".iam.gserviceaccount.com"
              && g.member != "serviceAccount:" + name + "-user@" + project + ".iam.gserviceaccount.com"
              && g.member != "serviceAccount:" + name + "-vm@" + project + ".iam.gserviceaccount.com"
  {
    ClearedGrants(pre, ServiceAccounts(name, project));
    AccountsWrittenOut(name, project, g.member);
  }

  /** BindRole, then a successful apply of a deployment whose bindings file does not restore it: an administrator
      that held the role before, and is none of the deployment's accounts, has lost it. */
  lemma BindRoleThenApplyTakesARole(name: string, project: string, file: seq<TemplateBinding>, account: string,
      rewrite: seq<Attempt>, post: seq<Binding>)
    requires account != "a" && Acked in rewrite
    requires Grant(IAM_ADMIN_ROLE, "serviceAccount:a") !in FirstGrants(file)
    requires EditPhase(ClearedBindings(RoleBound([FORMER], account), ServiceAccounts(name, project)), rewrite,
                       FirstGrants(file), true, post)
    ensures "serviceAccount:a" !in ServiceAccounts(name, project)
    ensures Grant(IAM_ADMIN_ROLE, "serviceAccount:a") in Grants(RoleBound([FORMER], account)) - Grants(post)
  {
    var pre := RoleBound([FORMER], account);
    ApplyExact(pre, ServiceAccounts(name, project), rewrite, FirstGrants(file), post);
    LastGrantsSnoc([FORMER], AdminBinding(account));
    assert FORMER in pre && FORMER.members[0] == "serviceAccount:a";
    AccountNamesDiffer(account);
    ShortNameIsNoDeploymentAccount(name, project);
  }

  const FORMER := Binding(IAM_ADMIN_ROLE, ["serviceAccount:a"])

  lemma ShortNameIsNoDeploymentAccount(name: string, project: string)
    ensures "serviceAccount:a" !in ServiceAccounts(name, project)
  {
    assert |"serviceAccount:a"| == 16 && |"serviceAccount:"| == 15 && |".iam.gserviceaccount.com"| > 1;
  }

  /** The run itself, with the shipped template. */
  method AdministratorLosesTheRole(name: string, project: string, email: string, account: string)
      returns (r: Outcome, left: seq<Binding>)
    requires account != "a"
    ensures r == Succeeded
    ensures Grant(IAM_ADMIN_ROLE, "serviceAccount:a") in Grants(RoleBound([FORMER], account)) - Grants(left)
  {
    var store := new Store(RoleBound([FORMER], account));
    var file := Substitute(SHIPPED_TEMPLATE, KfctlMapping(name, project, email));
    r := UpdateDM(store, name, project, Surroundings(true, file, true, true), [Acked], [Acked]);
    left := store.bindings;
    ShippedTemplateNamesNoAdministrator(KfctlMapping(name, project, email), "serviceAccount:a");
    BindRoleThenApplyTakesARole(name, project, file, account, [Acked], left);
  }

  lemma ShippedTemplateNamesNoAdministrator(mapping: Mapping, member: string)
    ensures Grant(IAM_ADMIN_ROLE, member) !in FirstGrants(Substitute(SHIPPED_TEMPLATE, mapping))
  {
    assert forall i | 0 <= i < |SHIPPED_TEMPLATE| :: IAM_ADMIN_ROLE !in SHIPPED_TEMPLATE[i].roles;
  }

  lemma AccountNamesDiffer(account: string)
    requires account != "a"
    ensures "serviceAccount:" + account != "serviceAccount:a"
  {
    assert ("serviceAccount:" + account)[15..] == account && "serviceAccount:a"[15..] == "a";
  }

  /** What the server's apply reports and what it leaves, for either action.  It reports an error exactly when it
      never started or the clearing was never acknowledged.  When it reports none, the policy is the intended one
      exactly if an update landed and shadowing lost nothing, or no update landed and none was needed: the report
      does not tell. */
  lemma {:induction false} ServerReportsSuccessTooEarly(pre: seq<Binding>, drop: set<string>, started: bool,
      clear: seq<Attempt>, update: seq<Attempt>, patch: set<Grant>, adding: bool, err: bool, post: seq<Binding>)
    requires err <==> !started || Acked !in clear
    requires !started ==> post == pre
    requires err && started ==> ClearPhase(pre, clear, drop, post)
    requires !err ==> EditPhase(ClearedBindings(pre, drop), update, patch, adding, post)
    ensures var kept := Outside(Grants(pre), drop);
            !err ==>
              (Grants(post) == Patched(kept, patch, adding)
               <==> if Landed(update) then LostByApply(pre, drop, patch) == {}
                    else if adding then patch <= kept else patch !! kept)
    ensures err ==> Grants(post) == if started && Landed(clear) then Outside(Grants(pre), drop) else Grants(pre)
  {
    ClearedGrants(pre, drop);
    LastGrantsExact(pre);
    var kept := Outside(Grants(pre), drop);
    if !err {
      if Landed(update) {
        OutsideDifference(Grants(pre), LastGrants(pre), drop);
        LastPatched(kept, Outside(LastGrants(pre), drop), patch, adding);
      } else {
        Unpatched(kept, patch, adding);
      }
    }
  }

  lemma LastPatched(kept: set<Grant>, last: set<Grant>, patch: set<Grant>, adding: bool)
    requires last <= kept
    ensures Patched(last, patch, adding) == Patched(kept, patch, adding) <==> kept - last - patch == {}
  {
    forall g | g in kept - last - patch
      ensures g in Patched(kept, patch, adding) && g !in Patched(last, patch, adding)
    {
    }
    if kept - last - patch == {} {
      forall g | g in kept && g !in patch ensures g in last {
        assert g !in kept - last - patch;
      }
    }
  }

  lemma Unpatched(kept: set<Grant>, patch: set<Grant>, adding: bool)
    ensures kept == Patched(kept, patch, adding) <==> if adding then patch <= kept else patch !! kept
  {
    if kept == Patched(kept, patch, adding) {
      forall g | g in patch ensures g in kept <==> adding {
        assert g in kept <==> g in Patched(kept, patch, adding);
      }
    }
  }

  /** The failing run: the clearing is acknowledged, the only update is refused, and the call reports no error. */
  method RefusedUpdateIsReportedAsSuccess(bindings: seq<Binding>, iamConf: seq<TemplateBinding>, req: ApplyIamRequest)
      returns (err: bool, left: seq<Binding>)
    ensures !err && left == ClearedBindings(bindings, ServiceAccounts(req.cluster, req.project))
  {
    var store := new Store(bindings);
    err := ApplyIamPolicy(store, Some(iamConf), true, req, [Acked], [SetRefused]);
    left := store.bindings;
  }
}
