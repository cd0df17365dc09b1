/** The deployment server's locking, as interleaved steps of any number of requests.

    Every request that edits a project's cloud state fetches the project's mutex
    from a registry guarded by the server mutex, locks it, works, and unlocks it.
    IAM requests read the policy, edit their copy and offer it back; the store
    takes a policy only if no other edit of that project came in between (the
    policy carries the version it was read at).  People outside the server may
    edit a policy at any moment.
*/
module ServerLocks {
  import opened Wrappers
  import opened IamPolicy
  import opened IamRewrite
  import opened Sequences
  import opened IamApply

  /** A request, reduced to what it does to its project: which accounts it clears and which grants it
      patches, which binding it appends, which registries it visits. */
  datatype Work =
    | ApplyIam(project: string, drop: set<string>, patch: set<Grant>, adding: bool, retries: nat)
    | BindRole(project: string, binding: Binding)
    | InsertKey(project: string)
    | CreateApp(project: string, remote: seq<bool>)  // per registry: fetched under the server mutex?

  ghost function ApplyRequest(conf: seq<TemplateBinding>, req: ApplyIamRequest, retries: nat): Work {
    ApplyIam(req.project, ServiceAccounts(req.cluster, req.project),
             TemplateGrants(Substitute(conf, ServerMapping(req))), req.action == "add", retries)
  }

  function BindRequest(project: string, account: string): Work {
    BindRole(project, AdminBinding(account))
  }

  datatype Edit =
    | ClearEdit(drop: set<string>)
    | PatchEdit(patch: set<Grant>, adding: bool)
    | BindEdit(binding: Binding)
    | OutsideEdit

  datatype Pc =
    | Start                          // about to fetch the project mutex
    | InRegistry                     // holds the server mutex, looking the project up
    | Waiting(mutex: nat)            // about to lock the project mutex
    | Locked(mutex: nat, step: Step) // holds the project mutex
    | Finished

  datatype Step =
    | Reading(edit: Edit, tries: nat)
    | Writing(edit: Edit, tries: nat, seen: nat, base: seq<Binding>, next: seq<Binding>)
    | Preparing                      // application or key work before any registry is fetched
    | Fetching(registry: nat)
    | Downloading(registry: nat)     // holds the server mutex as well
    | Leaving

  datatype Thread = Thread(work: Work, pc: Pc)

  datatype Commit = Commit(project: string, edit: Edit, pre: seq<Binding>, post: seq<Binding>)

  datatype State = State(
    threads: seq<Thread>,
    serverMux: Option<nat>,          // the thread holding the server mutex
    projectLocks: map<string, nat>,  // the registry of project mutexes
    mutexes: nat,                    // how many project mutexes were created
    holders: map<nat, nat>,          // locked project mutexes and their holders
    store: map<string, seq<Binding>>,
    log: seq<Commit>)

  datatype Move =
    | EnterRegistry
    | LeaveRegistry
    | LockProject
    | Proceed(step: Step)            // no shared effect
    | Submit(step: Step)             // the store takes the edited copy
    | TakeServerMux(step: Step)
    | ReleaseServerMux(step: Step)
    | UnlockProject

  datatype Actor = ByThread(thread: nat, move: Move) | ByOutsider(project: string, next: seq<Binding>)

  // ---------- what requests do

  function Registries(work: Work): seq<bool> {
    if work.CreateApp? then work.remote else []
  }

  function FirstStep(work: Work): Step {
    match work
    case ApplyIam(_, drop, _, _, retries) => Reading(ClearEdit(drop), retries)
    case BindRole(_, binding) => Reading(BindEdit(binding), 0)
    case InsertKey(_) => Preparing
    case CreateApp(_, _) => Preparing
  }

  function AfterSuccess(work: Work, edit: Edit): Step {
    if work.ApplyIam? && edit.ClearEdit? then Reading(PatchEdit(work.patch, work.adding), work.retries) else Leaving
  }

  function AfterFailure(edit: Edit, tries: nat): Step {
    if tries > 0 then Reading(edit, tries - 1) else Leaving
  }

  ghost predicate Effect(edit: Edit, pre: seq<Binding>, post: seq<Binding>) {
    match edit
    case ClearEdit(drop) => post == ClearedBindings(pre, drop)
    case PatchEdit(patch, adding) => Edited(pre, patch, adding, post)
    case BindEdit(binding) => post == pre + [binding]
    case OutsideEdit => true
  }

  function Stored(store: map<string, seq<Binding>>, project: string): seq<Binding> {
    if project in store then store[project] else []
  }

  ghost predicate Stale(log: seq<Commit>, seen: nat, project: string) {
    exists i | seen <= i < |log| :: log[i].project == project
  }

  // ---------- steps

  function Goto(s: State, t: nat, pc: Pc): State
    requires t < |s.threads|
  {
    s.(threads := s.threads[t := s.threads[t].(pc := pc)])
  }

  function Committed(s: State, project: string, edit: Edit, next: seq<Binding>): State {
    s.(store := s.store[project := next],
       log := s.log + [Commit(project, edit, Stored(s.store, project), next)])
  }

  /** What a request may do while it holds its project's lock. */
  ghost predicate StepAllows(s: State, work: Work, step: Step, move: Move) {
    match step
    case Reading(edit, tries) =>
      && move.Proceed?
      && (|| move.step == AfterFailure(edit, tries)
          || (&& move.step.Writing? && move.step.edit == edit && move.step.tries == tries
              && move.step.seen == |s.log| && move.step.base == Stored(s.store, work.project)
              && Effect(edit, move.step.base, move.step.next)))
    case Writing(edit, tries, seen, _, _) =>
      || move == Proceed(AfterFailure(edit, tries))
      || (&& move.Submit? && !Stale(s.log, seen, work.project)
          && (move.step == AfterFailure(edit, tries) || move.step == AfterSuccess(work, edit)))
    case Preparing =>
      move == Proceed(Leaving) || move == Proceed(Fetching(0))
    case Fetching(k) =>
      if k >= |Registries(work)| then move == Proceed(Leaving)
      else if Registries(work)[k] then s.serverMux.None? && move == TakeServerMux(Downloading(k))
      else move == Proceed(Leaving) || move == Proceed(Fetching(k + 1))
    case Downloading(k) =>
      move == ReleaseServerMux(Leaving) || move == ReleaseServerMux(Fetching(k + 1))
    case Leaving =>
      move == UnlockProject
  }

  ghost predicate Allowed(s: State, t: nat, move: Move) {
    && t < |s.threads|
    && match s.threads[t].pc
       case Start => s.serverMux.None? && move == EnterRegistry
       case InRegistry => move == LeaveRegistry
       case Waiting(mutex) => mutex !in s.holders && move == LockProject
       case Locked(_, step) => StepAllows(s, s.threads[t].work, step, move)
       case Finished => false
  }

  ghost function After(s: State, t: nat, move: Move): State
    requires Allowed(s, t, move)
  {
    var Thread(work, pc) := s.threads[t];
    match move
    case EnterRegistry => Goto(s, t, InRegistry).(serverMux := Some(t))
    case LeaveRegistry =>
      if work.project in s.projectLocks then
        Goto(s, t, Waiting(s.projectLocks[work.project])).(serverMux := None)
      else
        Goto(s, t, Waiting(s.mutexes)).(serverMux := None, mutexes := s.mutexes + 1,
                                        projectLocks := s.projectLocks[work.project := s.mutexes])
    case LockProject =>
      Goto(s, t, Locked(pc.mutex, FirstStep(work))).(holders := s.holders[pc.mutex := t])
    case Proceed(step) => Goto(s, t, Locked(pc.mutex, step))
    case Submit(step) =>
      Goto(Committed(s, work.project, pc.step.edit, pc.step.next), t, Locked(pc.mutex, step))
    case TakeServerMux(step) => Goto(s, t, Locked(pc.mutex, step)).(serverMux := Some(t))
    case ReleaseServerMux(step) => Goto(s, t, Locked(pc.mutex, step)).(serverMux := None)
    case UnlockProject => Goto(s, t, Finished).(holders := s.holders - {pc.mutex})
  }

  ghost predicate Next(s: State, actor: Actor, s': State) {
    match actor
    case ByThread(t, move) => Allowed(s, t, move) && s' == After(s, t, move)
    case ByOutsider(project, next) => s' == Committed(s, project, OutsideEdit, next)
  }

  ghost predicate Initial(s: State) {
    && (forall t | 0 <= t < |s.threads| :: s.threads[t].pc.Start?)
    && s.serverMux.None? && s.projectLocks == map[] && s.mutexes == 0 && s.holders == map[] && s.log == []
  }

  ghost predicate Run(states: seq<State>, actors: seq<Actor>) {
    && |states| == |actors| + 1
    && Initial(states[0])
    && forall i | 0 <= i < |actors| :: Next(states[i], actors[i], states[i + 1])
  }

  // ---------- the invariant

  predicate HoldsServerMux(pc: Pc) {
    pc.InRegistry? || (pc.Locked? && pc.step.Downloading?)
  }

  /** The policy a project has after the edits of a log, starting from `init`. */
  function Current(init: map<string, seq<Binding>>, log: seq<Commit>, project: string): seq<Binding> {
    if log == [] then Stored(init, project)
    else if log[|log| - 1].project == project then log[|log| - 1].post
    else Current(init, log[..|log| - 1], project)
  }

  /** Every edit of the log was computed from the policy the edits before it had left. */
  ghost predicate Serial(init: map<string, seq<Binding>>, log: seq<Commit>) {
    forall i | 0 <= i < |log| ::
      && log[i].pre == Current(init, log[..i], log[i].project)
      && Effect(log[i].edit, log[i].pre, log[i].post)
  }

  ghost predicate StepOk(init: map<string, seq<Binding>>, log: seq<Commit>, work: Work, step: Step) {
    match step
    case Writing(edit, _, seen, base, next) =>
      && seen <= |log|
      && base == Current(init, log[..seen], work.project)
      && Effect(edit, base, next)
      && forall i | seen <= i < |log| && log[i].project == work.project :: log[i].edit.OutsideEdit?
    case Fetching(k) => k <= |Registries(work)|
    case Downloading(k) => k < |Registries(work)|
    case _ => true
  }

  ghost predicate LocksOk(s: State) {
    && (s.serverMux.Some? ==> s.serverMux.value < |s.threads|)
    && (forall t | 0 <= t < |s.threads| :: HoldsServerMux(s.threads[t].pc) <==> s.serverMux == Some(t))
    && (forall p | p in s.projectLocks :: s.projectLocks[p] < s.mutexes)
    && (forall p, q | p in s.projectLocks && q in s.projectLocks && s.projectLocks[p] == s.projectLocks[q] :: p == q)
    && (forall m | m in s.holders :: s.holders[m] < |s.threads|)
    && (forall t | 0 <= t < |s.threads| && (s.threads[t].pc.Waiting? || s.threads[t].pc.Locked?) ::
          && s.threads[t].work.project in s.projectLocks
          && s.projectLocks[s.threads[t].work.project] == s.threads[t].pc.mutex)
    && (forall t, m | 0 <= t < |s.threads| && m in s.holders && s.holders[m] == t ::
          s.threads[t].pc.Locked? && s.threads[t].pc.mutex == m)
    && (forall t | 0 <= t < |s.threads| && s.threads[t].pc.Locked? ::
          s.threads[t].pc.mutex in s.holders && s.holders[s.threads[t].pc.mutex] == t)
  }

  ghost predicate PoliciesOk(init: map<string, seq<Binding>>, s: State) {
    && Serial(init, s.log)
    && (forall p :: Stored(s.store, p) == Current(init, s.log, p))
    && (forall t | 0 <= t < |s.threads| && s.threads[t].pc.Locked? ::
          StepOk(init, s.log, s.threads[t].work, s.threads[t].pc.step))
  }

  ghost predicate Inv(init: map<string, seq<Binding>>, s: State) {
    LocksOk(s) && PoliciesOk(init, s)
  }

  lemma EnteringKeepsLocks(s: State, t: nat)
    requires LocksOk(s) && t < |s.threads| && s.threads[t].pc.Start? && s.serverMux.None?
    ensures LocksOk(Goto(s, t, InRegistry).(serverMux := Some(t)))
  {
  }

  lemma FindingKeepsLocks(s: State, t: nat)
    requires LocksOk(s) && t < |s.threads| && s.threads[t].pc.InRegistry?
    requires s.threads[t].work.project in s.projectLocks
    ensures LocksOk(Goto(s, t, Waiting(s.projectLocks[s.threads[t].work.project])).(serverMux := None))
  {
  }

  lemma CreatingKeepsLocks(s: State, t: nat)
    requires LocksOk(s) && t < |s.threads| && s.threads[t].pc.InRegistry?
    requires s.threads[t].work.project !in s.projectLocks
    ensures LocksOk(Goto(s, t, Waiting(s.mutexes)).(serverMux := None, mutexes := s.mutexes + 1,
                      projectLocks := s.projectLocks[s.threads[t].work.project := s.mutexes]))
  {
  }

  lemma LockingKeepsLocks(s: State, t: nat, step: Step)
    requires LocksOk(s) && t < |s.threads| && s.threads[t].pc.Waiting? && !step.Downloading?
    requires s.threads[t].pc.mutex !in s.holders
    ensures LocksOk(Goto(s, t, Locked(s.threads[t].pc.mutex, step)).(holders := s.holders[s.threads[t].pc.mutex := t]))
  {
  }

  lemma WorkingKeepsLocks(s: State, t: nat, step: Step, s': State)
    requires LocksOk(s) && t < |s.threads| && s.threads[t].pc.Locked?
    requires s' == Goto(s, t, Locked(s.threads[t].pc.mutex, step))
                   .(serverMux := s'.serverMux, store := s'.store, log := s'.log)
    requires step.Downloading? ==> s'.serverMux == Some(t) && (s.serverMux.None? || s.serverMux == Some(t))
    requires !step.Downloading? ==> s'.serverMux == if s.serverMux == Some(t) then None else s.serverMux
    ensures LocksOk(s')
  {
  }

  lemma UnlockingKeepsLocks(s: State, t: nat)
    requires LocksOk(s) && t < |s.threads| && s.threads[t].pc.Locked? && !s.threads[t].pc.step.Downloading?
    ensures LocksOk(Goto(s, t, Finished).(holders := s.holders - {s.threads[t].pc.mutex}))
  {
  }

  lemma WorkMoveKeepsLocks(s: State, t: nat, move: Move)
    requires LocksOk(s) && Allowed(s, t, move) && s.threads[t].pc.Locked? && move != UnlockProject
    ensures LocksOk(After(s, t, move))
  {
    WorkingKeepsLocks(s, t, move.step, After(s, t, move));
  }

  lemma RegistryMoveKeepsLocks(s: State, t: nat, move: Move)
    requires LocksOk(s) && Allowed(s, t, move) && !s.threads[t].pc.Locked?
    ensures LocksOk(After(s, t, move))
  {
    match s.threads[t].pc
    case Start => EnteringKeepsLocks(s, t);
    case InRegistry =>
      if s.threads[t].work.project in s.projectLocks {
        FindingKeepsLocks(s, t);
      } else {
        CreatingKeepsLocks(s, t);
      }
    case Waiting(_) => LockingKeepsLocks(s, t, FirstStep(s.threads[t].work));
  }

  lemma LocksKept(s: State, actor: Actor, s': State)
    requires LocksOk(s) && Next(s, actor, s')
    ensures LocksOk(s')
  {
    if actor.ByThread? {
      if !s.threads[actor.thread].pc.Locked? {
        RegistryMoveKeepsLocks(s, actor.thread, actor.move);
      } else if actor.move == UnlockProject {
        UnlockingKeepsLocks(s, actor.thread);
      } else {
        WorkMoveKeepsLocks(s, actor.thread, actor.move);
      }
    }
  }

  lemma {:induction false} CurrentUnchanged(init: map<string, seq<Binding>>, log: seq<Commit>, seen: nat,
      project: string)
    requires seen <= |log| && !Stale(log, seen, project)
    ensures Current(init, log, project) == Current(init, log[..seen], project)
    decreases |log|
  {
    if seen < |log| {
      var front := log[..|log| - 1];
      assert log[|log| - 1].project != project;
      assert !Stale(front, seen, project);
      CurrentUnchanged(init, front, seen, project);
      assert front[..seen] == log[..seen];
    } else {
      assert log[..seen] == log;
    }
  }

  lemma {:induction false} SerialSnoc(init: map<string, seq<Binding>>, log: seq<Commit>, commit: Commit)
    requires Serial(init, log)
    requires commit.pre == Current(init, log, commit.project) && Effect(commit.edit, commit.pre, commit.post)
    ensures Serial(init, log + [commit])
  {
    var log' := log + [commit];
    assert log'[..|log|] == log;
    forall i | 0 <= i < |log'|
      ensures log'[i].pre == Current(init, log'[..i], log'[i].project)
      ensures Effect(log'[i].edit, log'[i].pre, log'[i].post)
    {
      if i < |log| { assert log'[..i] == log[..i] && log'[i] == log[i]; }
    }
  }

  /** An edit computed from the current policy extends the serial history. */
  lemma {:induction false} CommitKeepsHistory(init: map<string, seq<Binding>>, s: State, project: string, edit: Edit,
                                              next: seq<Binding>)
    requires Serial(init, s.log) && forall p :: Stored(s.store, p) == Current(init, s.log, p)
    requires Effect(edit, Stored(s.store, project), next)
    ensures Serial(init, Committed(s, project, edit, next).log)
    ensures forall p :: Stored(Committed(s, project, edit, next).store, p)
                     == Current(init, Committed(s, project, edit, next).log, p)
  {
    var commit := Commit(project, edit, Stored(s.store, project), next);
    SerialSnoc(init, s.log, commit);
    forall p ensures Stored(s.store[project := next], p) == Current(init, s.log + [commit], p) {
      CurrentSnoc(init, s.log, commit, p);
    }
  }

  lemma CurrentSnoc(init: map<string, seq<Binding>>, log: seq<Commit>, commit: Commit, project: string)
    ensures Current(init, log + [commit], project)
         == if commit.project == project then commit.post else Current(init, log, project)
  {
    assert (log + [commit])[..|log|] == log;
  }

  /** A commit disturbs no other thread's copy, unless it comes from outside the server. */
  lemma CommitKeepsSteps(init: map<string, seq<Binding>>, s: State, work: Work, step: Step, commit: Commit)
    requires StepOk(init, s.log, work, step)
    requires commit.project == work.project ==> commit.edit.OutsideEdit? || !step.Writing?
    ensures StepOk(init, s.log + [commit], work, step)
  {
    if step.Writing? {
      assert (s.log + [commit])[..step.seen] == s.log[..step.seen];
    }
  }

  lemma PoliciesKept(init: map<string, seq<Binding>>, s: State, actor: Actor, s': State)
    requires Inv(init, s) && Next(s, actor, s')
    ensures PoliciesOk(init, s')
  {
    match actor
    case ByOutsider(project, next) =>
      CommitKeepsHistory(init, s, project, OutsideEdit, next);
      forall t | 0 <= t < |s.threads| && s.threads[t].pc.Locked?
        ensures StepOk(init, s'.log, s.threads[t].work, s.threads[t].pc.step)
      {
        CommitKeepsSteps(init, s, s.threads[t].work, s.threads[t].pc.step, s'.log[|s.log|]);
      }
    case ByThread(t, move) =>
      if move.Submit? {
        SubmitKeepsPolicies(init, s, t, s');
      } else {
        if s'.threads[t].pc.Locked? {
          NextStepOk(init, s, t, move);
        }
        QuietMoveKeepsPolicies(init, s, t, s'.threads[t], s');
      }
  }

  lemma NextStepOk(init: map<string, seq<Binding>>, s: State, t: nat, move: Move)
    requires Inv(init, s) && Allowed(s, t, move) && !move.Submit? && After(s, t, move).threads[t].pc.Locked?
    ensures StepOk(init, s.log, s.threads[t].work, After(s, t, move).threads[t].pc.step)
  {
    assert s.log[..|s.log|] == s.log;
  }

  lemma QuietMoveKeepsPolicies(init: map<string, seq<Binding>>, s: State, t: nat, thread: Thread, s': State)
    requires PoliciesOk(init, s) && t < |s.threads|
    requires s'.threads == s.threads[t := thread] && s'.store == s.store && s'.log == s.log
    requires thread.pc.Locked? ==> StepOk(init, s.log, thread.work, thread.pc.step)
    ensures PoliciesOk(init, s')
  {
  }

  lemma SubmitKeepsPolicies(init: map<string, seq<Binding>>, s: State, t: nat, s': State)
    requires Inv(init, s) && exists step :: Next(s, ByThread(t, Submit(step)), s')
    ensures PoliciesOk(init, s')
  {
    var Thread(work, Locked(mutex, step)) := s.threads[t];
    CurrentUnchanged(init, s.log, step.seen, work.project);
    CommitKeepsHistory(init, s, work.project, step.edit, step.next);
    forall u | 0 <= u < |s'.threads| && s'.threads[u].pc.Locked?
      ensures StepOk(init, s'.log, s'.threads[u].work, s'.threads[u].pc.step)
    {
      if u != t {
        CommitKeepsSteps(init, s, s.threads[u].work, s.threads[u].pc.step, s'.log[|s.log|]);
      }
    }
  }

  // ---------- safety over whole runs

  lemma {:induction false} RunInv(states: seq<State>, actors: seq<Actor>, i: nat)
    requires Run(states, actors) && i < |states|
    ensures Inv(states[0].store, states[i])
  {
    if i > 0 {
      RunInv(states, actors, i - 1);
      LocksKept(states[i - 1], actors[i - 1], states[i]);
      PoliciesKept(states[0].store, states[i - 1], actors[i - 1], states[i]);
    }
  }

  /** In every interleaving: two requests for one project never both hold its lock, so at most one is
      between its read and its write; and the stored policies are those of the accepted edits run one
      after another, each computed from the policy the ones before it left. */
  lemma NoLostUpdate(states: seq<State>, actors: seq<Actor>, i: nat)
    requires Run(states, actors) && i < |states|
    ensures forall t, u | 0 <= t < u < |states[i].threads|
                       && states[i].threads[t].pc.Locked? && states[i].threads[u].pc.Locked? ::
              states[i].threads[t].work.project != states[i].threads[u].work.project
    ensures Serial(states[0].store, states[i].log)
    ensures forall p :: Stored(states[i].store, p) == Current(states[0].store, states[i].log, p)
  {
    RunInv(states, actors, i);
  }

  /** With no outside edit since the read, the lock alone keeps the copy current: the write is never
      refused as stale, and what it stores is its edit of the stored policy. */
  lemma OnlyOutsidersMakeAWriteStale(states: seq<State>, actors: seq<Actor>, i: nat, t: nat)
    requires Run(states, actors) && i < |states| && t < |states[i].threads|
    requires states[i].threads[t].pc.Locked? && states[i].threads[t].pc.step.Writing?
    ensures var step, project := states[i].threads[t].pc.step, states[i].threads[t].work.project;
            && (Stale(states[i].log, step.seen, project) <==>
                exists k | step.seen <= k < |states[i].log| ::
                  states[i].log[k].project == project && states[i].log[k].edit.OutsideEdit?)
            && (!Stale(states[i].log, step.seen, project) ==>
                  Effect(step.edit, Stored(states[i].store, project), step.next))
  {
    RunInv(states, actors, i);
    var step, project := states[i].threads[t].pc.step, states[i].threads[t].work.project;
    if !Stale(states[i].log, step.seen, project) {
      CurrentUnchanged(states[0].store, states[i].log, step.seen, project);
    }
  }

  // ---------- a request as a whole

  function EditOf(step: Step): Option<Edit> {
    match step
    case Reading(edit, _) => Some(edit)
    case Writing(edit, _, _, _, _) => Some(edit)
    case _ => None
  }

  /** How far a request has brought its project's policy, by the step it has reached. */
  ghost predicate Progress(work: Work, pre: seq<Binding>, step: Step, now: seq<Binding>) {
    match work
    case ApplyIam(_, drop, patch, adding, _) =>
      var cleared := ClearedBindings(pre, drop);
      if EditOf(step) == Some(ClearEdit(drop)) then now == pre || now == cleared
      else if EditOf(step) == Some(PatchEdit(patch, adding)) then now == cleared || Edited(cleared, patch, adding, now)
      else step.Leaving? && (now == pre || now == cleared || Edited(cleared, patch, adding, now))
    case BindRole(_, binding) =>
      if EditOf(step) == Some(BindEdit(binding)) then step.tries == 0 && now == pre
      else step.Leaving? && (now == pre || now == pre + [binding])
    case _ => EditOf(step).None? && now == pre
  }

  lemma SubmitMakesProgress(s: State, work: Work, step: Step, move: Move, pre: seq<Binding>, now: seq<Binding>)
    requires Progress(work, pre, step, now) && StepAllows(s, work, step, move) && move.Submit?
    requires Effect(step.edit, now, step.next)
    ensures Progress(work, pre, move.step, step.next)
  {
    if work.ApplyIam? {
      var cleared := ClearedBindings(pre, work.drop);
      ClearedGrants(pre, work.drop);
      if step.edit == PatchEdit(work.patch, work.adding) && now != cleared {
        EditedAgain(cleared, work.patch, work.adding, now, step.next);
      }
    }
  }

  lemma OtherMovesKeepProgress(s: State, work: Work, step: Step, move: Move, pre: seq<Binding>, now: seq<Binding>)
    requires Progress(work, pre, step, now) && StepAllows(s, work, step, move)
    requires move.Proceed? || move.TakeServerMux? || move.ReleaseServerMux?
    ensures Progress(work, pre, move.step, now)
  {
  }

  lemma OwnMoveMakesProgress(init: map<string, seq<Binding>>, s: State, t: nat, move: Move, pre: seq<Binding>)
    requires Inv(init, s) && Allowed(s, t, move) && s.threads[t].pc.Locked? && After(s, t, move).threads[t].pc.Locked?
    requires var thread := s.threads[t];
             Progress(thread.work, pre, thread.pc.step, Stored(s.store, thread.work.project))
    ensures var s', thread := After(s, t, move), s.threads[t];
            && s'.threads[t].work == thread.work
            && Progress(thread.work, pre, s'.threads[t].pc.step, Stored(s'.store, thread.work.project))
  {
    var work, step := s.threads[t].work, s.threads[t].pc.step;
    if move.Submit? {
      CurrentUnchanged(init, s.log, step.seen, work.project);
      SubmitMakesProgress(s, work, step, move, pre, Stored(s.store, work.project));
    } else {
      OtherMovesKeepProgress(s, work, step, move, pre, Stored(s.store, work.project));
    }
  }

  lemma MoveTouchesOneThread(s: State, t: nat, move: Move)
    requires Allowed(s, t, move)
    ensures After(s, t, move).threads == s.threads[t := After(s, t, move).threads[t]]
    ensures After(s, t, move).store
         == if move.Submit? then s.store[s.threads[t].work.project := s.threads[t].pc.step.next] else s.store
    ensures move.Submit? ==> s.threads[t].pc.Locked?
  {
  }

  /** Nobody else moves the policy of a locked project, but people outside the server. */
  lemma OthersLeaveLockedProjectsAlone(s: State, t: nat, u: nat, move: Move)
    requires LocksOk(s) && Allowed(s, u, move) && t < |s.threads| && u != t && s.threads[t].pc.Locked?
    ensures |After(s, u, move).threads| == |s.threads| && After(s, u, move).threads[t] == s.threads[t]
    ensures Stored(After(s, u, move).store, s.threads[t].work.project) == Stored(s.store, s.threads[t].work.project)
  {
    MoveTouchesOneThread(s, u, move);
  }

  lemma StepKeepsProgress(init: map<string, seq<Binding>>, s: State, actor: Actor, s': State, t: nat, pre: seq<Binding>)
    requires Inv(init, s) && Next(s, actor, s') && t < |s.threads| && t < |s'.threads|
    requires s.threads[t].pc.Locked? && s'.threads[t].pc.Locked?
    requires actor.ByOutsider? ==> actor.project != s.threads[t].work.project
    requires var thread := s.threads[t];
             Progress(thread.work, pre, thread.pc.step, Stored(s.store, thread.work.project))
    ensures var thread := s'.threads[t];
            && thread.work == s.threads[t].work
            && Progress(thread.work, pre, thread.pc.step, Stored(s'.store, thread.work.project))
  {
    match actor
    case ByOutsider(_, _) =>
    case ByThread(u, move) =>
      if u == t {
        OwnMoveMakesProgress(init, s, t, move, pre);
      } else {
        OthersLeaveLockedProjectsAlone(s, t, u, move);
      }
  }

  ghost predicate ProgressAt(s: State, t: nat, work: Work, pre: seq<Binding>) {
    && t < |s.threads| && s.threads[t].work == work && s.threads[t].pc.Locked?
    && Progress(work, pre, s.threads[t].pc.step, Stored(s.store, work.project))
  }

  lemma {:induction false} StepOfRunKeepsProgress(states: seq<State>, actors: seq<Actor>, k: nat, t: nat, work: Work,
                                                  pre: seq<Binding>)
    requires Run(states, actors) && k < |actors| && ProgressAt(states[k], t, work, pre)
    requires t < |states[k + 1].threads| && states[k + 1].threads[t].pc.Locked?
    requires actors[k].ByOutsider? ==> actors[k].project != work.project
    ensures ProgressAt(states[k + 1], t, work, pre)
  {
    RunInv(states, actors, k);
    StepKeepsProgress(states[0].store, states[k], actors[k], states[k + 1], t, pre);
  }

  /** Thread t holds its project's lock from state i to state j, and no one outside the server writes the project
      meanwhile.  In state i it has only just taken the lock. */
  ghost predicate HoldsUndisturbed(states: seq<State>, actors: seq<Actor>, i: nat, j: nat, t: nat) {
    && i <= j < |states| && |states| == |actors| + 1
    && (forall k | i <= k <= j :: t < |states[k].threads| && states[k].threads[t].pc.Locked?)
    && states[i].threads[t].pc.step == FirstStep(states[i].threads[t].work)
    && (forall k | i <= k < j && actors[k].ByOutsider? :: actors[k].project != states[i].threads[t].work.project)
  }

  /** While a request holds its project's lock and nobody outside the server writes that policy, the policy is what
      it was when the lock was taken, edited by this request alone as far as the step it has reached. */
  lemma {:induction false} RequestsActAlone(states: seq<State>, actors: seq<Actor>, i: nat, j: nat, t: nat)
    requires Run(states, actors) && HoldsUndisturbed(states, actors, i, j, t)
    ensures var work := states[i].threads[t].work;
            ProgressAt(states[j], t, work, Stored(states[i].store, work.project))
    decreases j
  {
    if i < j {
      RequestsActAlone(states, actors, i, j - 1, t);
      var work := states[i].threads[t].work;
      StepOfRunKeepsProgress(states, actors, j - 1, t, work, Stored(states[i].store, work.project));
    }
  }

  // ---------- no request gives up early

  /** How many attempts at an edit thread t began between states i and j: each begins with one look at the policy. */
  function Attempts(states: seq<State>, actors: seq<Actor>, i: nat, j: nat, t: nat, edit: Edit): nat
    requires i <= j < |states| && |states| == |actors| + 1
    decreases j
  {
    if i == j then 0
    else Attempts(states, actors, i, j - 1, t, edit) + Begun(states[j - 1], actors[j - 1], t, edit)
  }

  function Begun(s: State, actor: Actor, t: nat, edit: Edit): nat {
    if && actor.ByThread? && actor.thread == t && t < |s.threads| && s.threads[t].pc.Locked?
       && s.threads[t].pc.step.Reading? && s.threads[t].pc.step.edit == edit
    then 1 else 0
  }

  /** The attempts begun so far, against the tries that are left. */
  ghost predicate Budget(work: Work, pre: seq<Binding>, step: Step, now: seq<Binding>, clears: nat, patches: nat)
    requires work.ApplyIam?
  {
    match step
    case Reading(ClearEdit(_), tries) => clears + tries == work.retries && patches == 0
    case Writing(ClearEdit(_), tries, _, _, _) => clears + tries == work.retries + 1 && patches == 0
    case Reading(PatchEdit(_, _), tries) => clears <= work.retries + 1 && patches + tries == work.retries
    case Writing(PatchEdit(_, _), tries, _, _, _) => clears <= work.retries + 1 && patches + tries == work.retries + 1
    case Leaving =>
      || (clears == work.retries + 1 && patches == 0)
      || (clears <= work.retries + 1 && patches == work.retries + 1)
      || (clears <= work.retries + 1 && patches <= work.retries + 1
          && Edited(ClearedBindings(pre, work.drop), work.patch, work.adding, now))
    case _ => false
  }

  lemma OwnMoveKeepsBudget(s: State, work: Work, step: Step, move: Move, pre: seq<Binding>, now: seq<Binding>,
                           next: seq<Binding>, clears: nat, patches: nat)
    requires work.ApplyIam? && Progress(work, pre, step, now) && Budget(work, pre, step, now, clears, patches)
    requires StepAllows(s, work, step, move) && move != UnlockProject && Progress(work, pre, move.step, next)
    requires if move.Submit? then next == step.next && Effect(step.edit, now, next) else next == now
    ensures Budget(work, pre, move.step, next,
                   clears + (if step == Reading(ClearEdit(work.drop), step.tries) then 1 else 0),
                   patches + if step == Reading(PatchEdit(work.patch, work.adding), step.tries) then 1 else 0)
  {
  }

  ghost predicate BudgetAt(s: State, t: nat, work: Work, pre: seq<Binding>, clears: nat, patches: nat)
    requires work.ApplyIam?
  {
    && ProgressAt(s, t, work, pre)
    && Budget(work, pre, s.threads[t].pc.step, Stored(s.store, work.project), clears, patches)
  }

  // The same step as for progress, with the attempts counted.
  lemma {:induction false} StepOfRunKeepsBudget(states: seq<State>, actors: seq<Actor>, k: nat, t: nat, work: Work,
                                                pre: seq<Binding>, clears: nat, patches: nat)
    requires Run(states, actors) && k < |actors| && work.ApplyIam? && BudgetAt(states[k], t, work, pre, clears, patches)
    requires t < |states[k + 1].threads| && states[k + 1].threads[t].pc.Locked?
    requires actors[k].ByOutsider? ==> actors[k].project != work.project
    ensures BudgetAt(states[k + 1], t, work, pre,
                     clears + Begun(states[k], actors[k], t, ClearEdit(work.drop)),
                     patches + Begun(states[k], actors[k], t, PatchEdit(work.patch, work.adding)))
  {
    RunInv(states, actors, k);
    StepOfRunKeepsProgress(states, actors, k, t, work, pre);
    StepKeepsBudget(states[0].store, states[k], actors[k], states[k + 1], t, work, pre, clears, patches);
  }

  lemma StepKeepsBudget(init: map<string, seq<Binding>>, s: State, actor: Actor, s': State, t: nat, work: Work,
                        pre: seq<Binding>, clears: nat, patches: nat)
    requires Inv(init, s) && Next(s, actor, s') && work.ApplyIam? && BudgetAt(s, t, work, pre, clears, patches)
    requires ProgressAt(s', t, work, pre)
    requires actor.ByOutsider? ==> actor.project != work.project
    ensures BudgetAt(s', t, work, pre, clears + Begun(s, actor, t, ClearEdit(work.drop)),
                     patches + Begun(s, actor, t, PatchEdit(work.patch, work.adding)))
  {
    match actor
    case ByOutsider(_, _) =>
    case ByThread(u, move) =>
      if u == t {
        var step, now := s.threads[t].pc.step, Stored(s.store, work.project);
        LockedMove(s, t, move);
        MoveTouchesOneThread(s, t, move);
        if move.Submit? {
          CurrentUnchanged(init, s.log, step.seen, work.project);
        }
        OwnMoveKeepsBudget(s, work, step, move, pre, now, Stored(s'.store, work.project), clears, patches);
      } else {
        OthersLeaveLockedProjectsAlone(s, t, u, move);
      }
  }

  /** No apply request gives up early.  While it holds its lock undisturbed it begins at most one attempt more than
      its retries in each phase,
          none at the second once the first has used up all of its own; and when it is about to leave, the
      policy is the cleared one with the patch applied, or one of the phases has used up all its attempts. */
  lemma {:induction false} NoApplyGivesUpEarly(states: seq<State>, actors: seq<Actor>, i: nat, j: nat, t: nat)
    requires Run(states, actors) && HoldsUndisturbed(states, actors, i, j, t) && states[i].threads[t].work.ApplyIam?
    ensures t < |states[j].threads| && states[j].threads[t].pc.Locked?
    ensures var work := states[i].threads[t].work;
            var pre, now := Stored(states[i].store, work.project), Stored(states[j].store, work.project);
            var clears := Attempts(states, actors, i, j, t, ClearEdit(work.drop));
            var patches := Attempts(states, actors, i, j, t, PatchEdit(work.patch, work.adding));
            && clears <= work.retries + 1 && patches <= work.retries + 1
            && (states[j].threads[t].pc.step.Leaving? ==>
                  || Edited(ClearedBindings(pre, work.drop), work.patch, work.adding, now)
                  || (clears == work.retries + 1 && patches == 0)
                  || patches == work.retries + 1)
  {
    AttemptsAreBudgeted(states, actors, i, j, t);
  }

  lemma {:induction false} AttemptsAreBudgeted(states: seq<State>, actors: seq<Actor>, i: nat, j: nat, t: nat)
    requires Run(states, actors) && HoldsUndisturbed(states, actors, i, j, t) && states[i].threads[t].work.ApplyIam?
    ensures var work := states[i].threads[t].work;
            BudgetAt(states[j], t, work, Stored(states[i].store, work.project),
                     Attempts(states, actors, i, j, t, ClearEdit(work.drop)),
                     Attempts(states, actors, i, j, t, PatchEdit(work.patch, work.adding)))
  {
    var work := states[i].threads[t].work;
    var pre := Stored(states[i].store, work.project);
    forall k: nat | i <= k < j ensures KeepsBudget(states[k], actors[k], states[k + 1], t, work, pre) {
      forall clears: nat, patches: nat | BudgetAt(states[k], t, work, pre, clears, patches)
        ensures BudgetAt(states[k + 1], t, work, pre,
                         clears + Begun(states[k], actors[k], t, ClearEdit(work.drop)),
                         patches + Begun(states[k], actors[k], t, PatchEdit(work.patch, work.adding)))
      {
        StepOfRunKeepsBudget(states, actors, k, t, work, pre, clears, patches);
      }
    }
    FreshBudget(states[i], t);
    BudgetsAddUp(states, actors, i, j, t, work, pre);
  }

  ghost predicate KeepsBudget(s: State, actor: Actor, s': State, t: nat, work: Work, pre: seq<Binding>)
    requires work.ApplyIam?
  {
    forall clears: nat, patches: nat | BudgetAt(s, t, work, pre, clears, patches) ::
      BudgetAt(s', t, work, pre, clears + Begun(s, actor, t, ClearEdit(work.drop)),
               patches + Begun(s, actor, t, PatchEdit(work.patch, work.adding)))
  }

  lemma {:induction false} BudgetsAddUp(states: seq<State>, actors: seq<Actor>, i: nat, j: nat, t: nat, work: Work,
                                        pre: seq<Binding>)
    requires i <= j < |states| && |states| == |actors| + 1 && work.ApplyIam?
    requires forall k: nat | i <= k < j :: KeepsBudget(states[k], actors[k], states[k + 1], t, work, pre)
    requires BudgetAt(states[i], t, work, pre, 0, 0)
    ensures BudgetAt(states[j], t, work, pre, Attempts(states, actors, i, j, t, ClearEdit(work.drop)),
                     Attempts(states, actors, i, j, t, PatchEdit(work.patch, work.adding)))
    decreases j
  {
    if i < j {
      BudgetsAddUp(states, actors, i, j - 1, t, work, pre);
      assert KeepsBudget(states[j - 1], actors[j - 1], states[j - 1 + 1], t, work, pre);
    }
  }

  lemma FreshBudget(s: State, t: nat)
    requires t < |s.threads| && s.threads[t].pc.Locked? && s.threads[t].work.ApplyIam?
    requires s.threads[t].pc.step == FirstStep(s.threads[t].work)
    ensures var work := s.threads[t].work; BudgetAt(s, t, work, Stored(s.store, work.project), 0, 0)
  {
  }

  /** Moves of one thread, one after the other. */
  ghost predicate Moves(s: State, t: nat, moves: seq<Move>, end: State)
    decreases |moves|
  {
    if moves == [] then s == end
    else Allowed(s, t, moves[0]) && Moves(After(s, t, moves[0]), t, moves[1..], end)
  }

  /** A request whose calls are all answered brings its edits to the store: two reads and two writes for an apply,
      one of each for a bind.  Then it is about to leave. */
  lemma AnsweredRequestsAreWhole(s: State, t: nat, next: seq<Binding>) returns (moves: seq<Move>, end: State)
    requires t < |s.threads| && s.threads[t].pc.Locked? && s.threads[t].pc.step == FirstStep(s.threads[t].work)
    requires var work, pre := s.threads[t].work, Stored(s.store, s.threads[t].work.project);
             || (work.ApplyIam? && Edited(ClearedBindings(pre, work.drop), work.patch, work.adding, next))
             || (work.BindRole? && next == pre + [work.binding])
    ensures Moves(s, t, moves, end) && |moves| <= 4
    ensures |end.threads| == |s.threads| && end.threads[t].pc == Locked(s.threads[t].pc.mutex, Leaving)
    ensures Stored(end.store, s.threads[t].work.project) == next
  {
    var work, pre := s.threads[t].work, Stored(s.store, s.threads[t].work.project);
    var edit := s.threads[t].pc.step.edit;
    if work.BindRole? {
      moves, end := OneAttempt(s, t, edit, next, Leaving);
    } else {
      var patch := PatchEdit(work.patch, work.adding);
      var first, mid := OneAttempt(s, t, edit, ClearedBindings(pre, work.drop), Reading(patch, work.retries));
      var second, last := OneAttempt(mid, t, patch, next, Leaving);
      MovesConcat(s, t, first, mid, second, last);
      moves, end := first + second, last;
    }
  }

  lemma OneAttempt(s: State, t: nat, edit: Edit, next: seq<Binding>, then': Step) returns (moves: seq<Move>, end: State)
    requires t < |s.threads| && s.threads[t].pc.Locked? && s.threads[t].pc.step.Reading?
    requires s.threads[t].pc.step.edit == edit && Effect(edit, Stored(s.store, s.threads[t].work.project), next)
    requires then' == AfterSuccess(s.threads[t].work, edit)
    ensures |moves| == 2 && Moves(s, t, moves, end) && |end.threads| == |s.threads|
    ensures end.threads[t] == s.threads[t].(pc := Locked(s.threads[t].pc.mutex, then'))
    ensures Stored(end.store, s.threads[t].work.project) == next
  {
    var work, tries := s.threads[t].work, s.threads[t].pc.step.tries;
    var read := Proceed(Writing(edit, tries, |s.log|, Stored(s.store, work.project), next));
    var mid := After(s, t, read);
    end := After(mid, t, Submit(then'));
    moves := [read, Submit(then')];
    assert moves[1..] == [Submit(then')] && moves[1..][1..] == [];
  }

  lemma {:induction false} MovesConcat(s: State, t: nat, first: seq<Move>, mid: State, second: seq<Move>, end: State)
    requires Moves(s, t, first, mid) && Moves(mid, t, second, end)
    ensures Moves(s, t, first + second, end)
    decreases |first|
  {
    if first == [] {
      assert first + second == second;
    } else {
      MovesConcat(After(s, t, first[0]), t, first[1..], mid, second, end);
      assert (first + second)[1..] == first[1..] + second;
    }
  }

  /** A create request whose work succeeds visits every registry in turn and then leaves, taking the server mutex once
      for each remote one; nobody else need move. */
  lemma AnsweredCreatesVisitEveryRegistry(s: State, t: nat) returns (moves: seq<Move>, end: State)
    requires t < |s.threads| && s.threads[t].pc.Locked? && s.threads[t].work.CreateApp? && s.serverMux.None?
    requires s.threads[t].pc.step == FirstStep(s.threads[t].work)
    ensures Moves(s, t, moves, end) && |end.threads| == |s.threads| && end.serverMux.None?
    ensures end.threads[t].pc == Locked(s.threads[t].pc.mutex, Leaving)
    ensures Taken(moves) == Remote(s.threads[t].work.remote)
  {
    var start := After(s, t, Proceed(Fetching(0)));
    var rest;
    rest, end := VisitFrom(start, t, 0);
    moves := [Proceed(Fetching(0))] + rest;
    assert moves[1..] == rest;
    assert s.threads[t].work.remote[0..] == s.threads[t].work.remote;
  }

  lemma {:induction false} VisitFrom(s: State, t: nat, k: nat) returns (moves: seq<Move>, end: State)
    requires t < |s.threads| && s.threads[t].pc.Locked? && s.threads[t].work.CreateApp? && s.serverMux.None?
    requires s.threads[t].pc.step == Fetching(k) && k <= |s.threads[t].work.remote|
    ensures Moves(s, t, moves, end) && |end.threads| == |s.threads| && end.serverMux.None?
    ensures end.threads[t].pc == Locked(s.threads[t].pc.mutex, Leaving)
    ensures Taken(moves) == Remote(s.threads[t].work.remote[k..])
    decreases |s.threads[t].work.remote| - k
  {
    var remote := s.threads[t].work.remote;
    if k == |remote| {
      moves, end := [Proceed(Leaving)], After(s, t, Proceed(Leaving));
      assert moves[1..] == [];
    } else {
      var rest;
      assert remote[k..][1..] == remote[k + 1..];
      if remote[k] {
        var mid := After(s, t, TakeServerMux(Downloading(k)));
        rest, end := VisitFrom(After(mid, t, ReleaseServerMux(Fetching(k + 1))), t, k + 1);
        moves := [TakeServerMux(Downloading(k)), ReleaseServerMux(Fetching(k + 1))] + rest;
        assert moves[1..][1..] == rest;
        assert moves[1..] == [ReleaseServerMux(Fetching(k + 1))] + rest;
      } else {
        rest, end := VisitFrom(After(s, t, Proceed(Fetching(k + 1))), t, k + 1);
        moves := [Proceed(Fetching(k + 1))] + rest;
        assert moves[1..] == rest;
      }
    }
  }

  function Taken(moves: seq<Move>): nat {
    if moves == [] then 0 else (if moves[0].TakeServerMux? then 1 else 0) + Taken(moves[1..])
  }

  function Remote(remote: seq<bool>): nat {
    if remote == [] then 0 else (if remote[0] then 1 else 0) + Remote(remote[1..])
  }

  /** A remote registry is only fetched under the server mutex, and while it is, the thread holds that mutex. */
  lemma RemoteRegistriesNeedTheServerMutex(s: State, t: nat, move: Move, k: nat)
    requires LocksOk(s) && Allowed(s, t, move) && s.threads[t].pc.Locked? && s.threads[t].work.CreateApp?
    requires k < |s.threads[t].work.remote| && s.threads[t].work.remote[k]
    ensures s.threads[t].pc.step == Fetching(k) ==>
              s.serverMux.None? && After(s, t, move).threads[t].pc.step == Downloading(k)
              && After(s, t, move).serverMux == Some(t)
    ensures s.threads[t].pc.step == Downloading(k) ==>
              s.serverMux == Some(t) && After(s, t, move).serverMux == None
              && After(s, t, move).threads[t].pc.step in {Leaving, Fetching(k + 1)}
  {
  }

  /** What the server's apply can leave of a policy, under some schedules of its two phases. */
  ghost predicate ApplyLeaves(conf: seq<TemplateBinding>, req: ApplyIamRequest, pre: seq<Binding>,
                              clear: seq<Attempt>, update: seq<Attempt>, now: seq<Binding>) {
    var drop := ServiceAccounts(req.cluster, req.project);
    if Acked !in clear then ClearPhase(pre, clear, drop, now)
    else EditPhase(ClearedBindings(pre, drop), update, TemplateGrants(Substitute(conf, ServerMapping(req))),
                   req.action == "add", now)
  }

  /** So in any interleaving without outsiders, an apply request leaves what its code leaves when it runs alone, with
      no more attempts in a phase than it has tries, and with its clearing unacknowledged during the first phase and
      acknowledged during the second; a bind request leaves the policy or the policy with its binding. */
  lemma InterleavedRequestsMatchTheirCode(states: seq<State>, actors: seq<Actor>, i: nat, j: nat, t: nat,
                                          conf: seq<TemplateBinding>, req: ApplyIamRequest, retries: nat,
                                          account: string)
    requires Run(states, actors) && HoldsUndisturbed(states, actors, i, j, t)
    ensures var work, step := states[i].threads[t].work, states[j].threads[t].pc.step;
            var pre, now := Stored(states[i].store, work.project), Stored(states[j].store, work.project);
            && (work == ApplyRequest(conf, req, retries) ==>
                  exists clear, update ::
                    && ApplyLeaves(conf, req, pre, clear, update, now)
                    && |clear| <= retries + 1 && |update| <= retries + 1
                    && (EditOf(step) == Some(ClearEdit(work.drop)) ==> Acked !in clear)
                    && (EditOf(step) == Some(PatchEdit(work.patch, work.adding)) ==> Acked in clear))
            && (work == BindRequest(req.project, account) ==> now == pre || now == RoleBound(pre, account))
  {
    RequestsActAlone(states, actors, i, j, t);
    var work, step := states[i].threads[t].work, states[j].threads[t].pc.step;
    var pre, now := Stored(states[i].store, work.project), Stored(states[j].store, work.project);
    if work == ApplyRequest(conf, req, retries) {
      if EditOf(step) == Some(PatchEdit(work.patch, work.adding)) {
        var update := if now == ClearedBindings(pre, work.drop) then [] else [Acked];
        assert ApplyLeaves(conf, req, pre, [Acked], update, now);
      } else if now == pre {
        assert ApplyLeaves(conf, req, pre, [], [], now);
      } else if now == ClearedBindings(pre, work.drop) {
        assert ApplyLeaves(conf, req, pre, [SetLostAck], [], now);
      } else {
        assert ApplyLeaves(conf, req, pre, [Acked], [Acked], now);
      }
    }
  }

  lemma RegistryGrows(s: State, actor: Actor, s': State, p: string)
    requires Next(s, actor, s') && p in s.projectLocks
    ensures p in s'.projectLocks && s'.projectLocks[p] == s.projectLocks[p]
  {
    if actor.ByThread? {
      MoveGrowsRegistry(s, actor.thread, actor.move, p);
    }
  }

  lemma MoveGrowsRegistry(s: State, t: nat, move: Move, p: string)
    requires Allowed(s, t, move) && p in s.projectLocks
    ensures p in After(s, t, move).projectLocks && After(s, t, move).projectLocks[p] == s.projectLocks[p]
  {
    match move {
      case EnterRegistry =>
      case LeaveRegistry =>
      case LockProject =>
      case Proceed(_) =>
      case Submit(_) =>
      case TakeServerMux(_) =>
      case ReleaseServerMux(_) =>
      case UnlockProject =>
    }
  }

  /** The registry never changes a project's mutex and never shares one between projects. */
  lemma {:induction false} OneMutexPerProject(states: seq<State>, actors: seq<Actor>, i: nat, j: nat, p: string,
      q: string)
    requires Run(states, actors) && i <= j < |states| && p in states[i].projectLocks
    ensures p in states[j].projectLocks && states[j].projectLocks[p] == states[i].projectLocks[p]
    ensures q in states[j].projectLocks && states[j].projectLocks[q] == states[j].projectLocks[p] ==> q == p
    decreases j
  {
    RunInv(states, actors, j);
    MutexKept(states, actors, i, j, p);
  }

  lemma {:induction false} StepOfRunKeepsMutex(states: seq<State>, actors: seq<Actor>, k: nat, p: string)
    requires Run(states, actors) && k < |actors| && p in states[k].projectLocks
    ensures p in states[k + 1].projectLocks && states[k + 1].projectLocks[p] == states[k].projectLocks[p]
  {
    RegistryGrows(states[k], actors[k], states[k + 1], p);
  }

  lemma {:induction false} MutexKept(states: seq<State>, actors: seq<Actor>, i: nat, j: nat, p: string)
    requires Run(states, actors) && i <= j < |states| && p in states[i].projectLocks
    ensures p in states[j].projectLocks && states[j].projectLocks[p] == states[i].projectLocks[p]
    decreases j
  {
    if i < j {
      MutexKept(states, actors, i, j - 1, p);
      StepOfRunKeepsMutex(states, actors, j - 1, p);
    }
  }

  // ---------- progress

  ghost predicate Enabled(s: State, t: nat) {
    exists move :: Allowed(s, t, move)
  }

  ghost predicate Blocked(s: State, t: nat)
    requires t < |s.threads|
  {
    match s.threads[t].pc
    case Start => s.serverMux.Some?
    case Waiting(mutex) => mutex in s.holders
    case Locked(_, Fetching(k)) =>
      k < |Registries(s.threads[t].work)| && Registries(s.threads[t].work)[k] && s.serverMux.Some?
    case Finished => true
    case _ => false
  }

  lemma EnabledUnlessBlocked(s: State, t: nat)
    requires t < |s.threads| && !Blocked(s, t)
    ensures Enabled(s, t)
  {
    var move := match s.threads[t].pc
      case Start => EnterRegistry
      case InRegistry => LeaveRegistry
      case Waiting(_) => LockProject
      case Locked(_, step) =>
        (match step
         case Reading(edit, tries) => Proceed(AfterFailure(edit, tries))
         case Writing(edit, tries, _, _, _) => Proceed(AfterFailure(edit, tries))
         case Preparing => Proceed(Leaving)
         case Fetching(k) =>
           if k < |Registries(s.threads[t].work)| && Registries(s.threads[t].work)[k]
           then TakeServerMux(Downloading(k)) else Proceed(Leaving)
         case Downloading(_) => ReleaseServerMux(Leaving)
         case Leaving => UnlockProject)
      case Finished => UnlockProject;
    assert Allowed(s, t, move);
  }

  /** No reachable state has every unfinished request blocked: the server mutex is only ever the
      innermost lock, and no request waits for a project lock it holds. */
  lemma DeadlockFree(states: seq<State>, actors: seq<Actor>, i: nat)
    requires Run(states, actors) && i < |states|
    requires exists t | 0 <= t < |states[i].threads| :: !states[i].threads[t].pc.Finished?
    ensures exists t | 0 <= t < |states[i].threads| :: Enabled(states[i], t)
  {
    RunInv(states, actors, i);
    var s := states[i];
    var t :| 0 <= t < |s.threads| && !s.threads[t].pc.Finished?;
    if s.serverMux.Some? {
      t := s.serverMux.value;
    } else if s.threads[t].pc.Waiting? && s.threads[t].pc.mutex in s.holders {
      t := s.holders[s.threads[t].pc.mutex];
    }
    EnabledUnlessBlocked(s, t);
  }

  /** How many steps of its own a request can still take. */
  function StepRank(work: Work, step: Step): nat {
    match step
    case Reading(edit, tries) => Remaining(work, edit) + 2 * tries + 2
    case Writing(edit, tries, _, _, _) => Remaining(work, edit) + 2 * tries + 1
    case Preparing => 2 * |Registries(work)| + 3
    case Fetching(k) => if k <= |Registries(work)| then 2 * (|Registries(work)| - k) + 2 else 2
    case Downloading(k) => if k <= |Registries(work)| then 2 * (|Registries(work)| - k) + 1 else 2
    case Leaving => 1
  }

  function Remaining(work: Work, edit: Edit): nat {
    if work.ApplyIam? && edit.ClearEdit? then 2 * work.retries + 3 else 1
  }

  function Rank(thread: Thread): nat {
    match thread.pc
    case Start => StepRank(thread.work, FirstStep(thread.work)) + 3
    case InRegistry => StepRank(thread.work, FirstStep(thread.work)) + 2
    case Waiting(_) => StepRank(thread.work, FirstStep(thread.work)) + 1
    case Locked(_, step) => StepRank(thread.work, step)
    case Finished => 0
  }

  function TotalRank(threads: seq<Thread>): nat {
    Total(Rank, threads)
  }

  lemma StepsLowerRank(init: map<string, seq<Binding>>, s: State, actor: Actor, s': State)
    requires Inv(init, s) && Next(s, actor, s')
    ensures actor.ByThread? ==> TotalRank(s'.threads) < TotalRank(s.threads)
    ensures actor.ByOutsider? ==> s'.threads == s.threads
  {
    if actor.ByThread? {
      MoveTouchesOneThread(s, actor.thread, actor.move);
      MoveLowersRank(init, s, actor.thread, actor.move);
      TotalUpdate(Rank, s.threads, actor.thread, s'.threads[actor.thread]);
    }
  }

  lemma MoveLowersRank(init: map<string, seq<Binding>>, s: State, t: nat, move: Move)
    requires Inv(init, s) && Allowed(s, t, move)
    ensures Rank(After(s, t, move).threads[t]) < Rank(s.threads[t])
  {
    if s.threads[t].pc.Locked? {
      LockedMove(s, t, move);
      if move != UnlockProject {
        NextStepLowersRank(init, s, s.threads[t].work, s.threads[t].pc.step, move);
      }
    } else {
      RegistryMoveLowersRank(s, t, move);
    }
  }

  lemma RegistryMoveLowersRank(s: State, t: nat, move: Move)
    requires Allowed(s, t, move) && !s.threads[t].pc.Locked?
    ensures Rank(After(s, t, move).threads[t]) < Rank(s.threads[t])
  {
  }

  // What a move under the lock makes of its own thread.
  lemma LockedMove(s: State, t: nat, move: Move)
    requires Allowed(s, t, move) && s.threads[t].pc.Locked?
    ensures move !in {EnterRegistry, LeaveRegistry, LockProject}
    ensures After(s, t, move).threads[t]
         == s.threads[t].(pc := if move == UnlockProject then Finished else Locked(s.threads[t].pc.mutex, move.step))
  {
  }

  lemma NextStepLowersRank(init: map<string, seq<Binding>>, s: State, work: Work, step: Step, move: Move)
    requires StepOk(init, s.log, work, step) && StepAllows(s, work, step, move) && move != UnlockProject
    ensures StepRank(work, move.step) < StepRank(work, step)
  {
  }

  function ThreadSteps(actors: seq<Actor>): nat {
    if actors == [] then 0
    else ThreadSteps(actors[..|actors| - 1]) + if actors[|actors| - 1].ByThread? then 1 else 0
  }

  lemma {:induction false} RunsAreBounded(states: seq<State>, actors: seq<Actor>)
    requires Run(states, actors)
    ensures ThreadSteps(actors) + TotalRank(states[|actors|].threads) <= TotalRank(states[0].threads)
    decreases |actors|
  {
    if actors != [] {
      var n := |actors| - 1;
      RunsAreBounded(states[..n + 1], actors[..n]);
      RunInv(states, actors, n);
      StepsLowerRank(states[0].store, states[n], actors[n], states[n + 1]);
    }
  }

  lemma HeldByALockedThread(s: State, m: nat)
    requires LocksOk(s) && m in s.holders
    ensures s.holders[m] < |s.threads| && s.threads[s.holders[m]].pc.Locked?
  {
  }

  /** Every run takes a bounded number of request steps, and one that can go no further has served
      every request and left every lock free. */
  lemma EveryRequestFinishes(states: seq<State>, actors: seq<Actor>)
    requires Run(states, actors)
    ensures ThreadSteps(actors) <= TotalRank(states[0].threads)
    ensures (forall t | 0 <= t < |states[|actors|].threads| :: !Enabled(states[|actors|], t)) ==>
              && (forall t | 0 <= t < |states[|actors|].threads| :: states[|actors|].threads[t].pc.Finished?)
              && states[|actors|].holders == map[] && states[|actors|].serverMux.None?
  {
    RunsAreBounded(states, actors);
    RunInv(states, actors, |actors|);
    var s := states[|actors|];
    forall m | m in s.holders ensures s.holders[m] < |s.threads| && s.threads[s.holders[m]].pc.Locked? {
      HeldByALockedThread(s, m);
    }
    if forall t | 0 <= t < |s.threads| :: !Enabled(s, t) {
      if exists t | 0 <= t < |s.threads| :: !s.threads[t].pc.Finished? {
        DeadlockFree(states, actors, |actors|);
      }
      assert s.holders.Keys == {};
    }
  }
}
