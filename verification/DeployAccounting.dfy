/** The metrics of deployment requests, over every interleaving of any number of requests.

    Each request raises counters in an order fixed by what happens to it.  The
    handlers are proved to raise exactly the counters of a trace computed from
    the request; concurrent requests interleave their traces.
*/
module DeployAccounting {
  import Sequences

  datatype Counter =
    | RequestedRaw | RequestedUser               // deployReqCounterRaw, deployReqCounterUser
    | ReqOk | ReqInvalid | ReqInternal           // deployReqCounter by label
    | FailInternal                               // deploymentFailure{INTERNAL}
    | StartedDeployment                          // deploymentsStartedCounter
    | DoneRaw | DoneUser                         // kfDeploymentsDoneRaw, kfDeploymentsDoneUser

  datatype Insert = Inserted | NotBuilt | Rejected

  /** One poll of a deployment: the call fails, or it reports done (with or without an error), or not done. */
  datatype Poll = PollFailed | Pending | DoneClean | DoneWithError

  const POLLS := 60

  predicate Undecided(p: Poll) {
    p.PollFailed? || p.Pending?
  }

  /** Everything that decides a request's course. */
  datatype Request = Request(
    prober: bool, valid: bool, storage: bool, storageInsert: Insert, clusterInsert: Insert,
    clusterPolls: nat -> Poll, storagePolls: nat -> Poll,
    iamOk: bool, configOk: bool, istioOk: bool, appOk: bool)

  class Metrics {
    var raised: seq<Counter>

    constructor ()
      ensures raised == []
    {
      raised := [];
    }

    method Inc(c: Counter)
      modifies this
      ensures raised == old(raised) + [c]
    {
      raised := raised + [c];
    }
  }

  // ---------- polling

  /** How polling ends.  Running out of polls returns the last poll's error, which may be nil. */
  datatype Verdict = Finished | Failed | TimedOut(reported: bool)

  ghost predicate EndsAt(polls: nat -> Poll, k: nat) {
    && k < 60
    && !Undecided(polls(k))
    && forall j: nat | j < k :: Undecided(polls(j))
  }

  /** The verdict of 60 polls: decided by the first that reports done, else by the last. */
  ghost predicate IsVerdict(polls: nat -> Poll, v: Verdict) {
    match v
    case Finished => exists k :: EndsAt(polls, k) && polls(k) == DoneClean
    case Failed => exists k :: EndsAt(polls, k) && polls(k) == DoneWithError
    case TimedOut(reported) =>
      && (forall j: nat | j < 60 :: Undecided(polls(j)))
      && (reported <==> polls(59) == PollFailed)
  }

  function VerdictFrom(polls: nat -> Poll, k: nat): Verdict
    requires k < POLLS
    decreases POLLS - k
  {
    match polls(k)
    case DoneClean => Finished
    case DoneWithError => Failed
    case _ => if k + 1 < POLLS then VerdictFrom(polls, k + 1) else TimedOut(polls(k) == PollFailed)
  }

  function VerdictOf(polls: nat -> Poll): Verdict {
    VerdictFrom(polls, 0)
  }

  lemma {:induction false} VerdictFromIsVerdict(polls: nat -> Poll, k: nat)
    requires k < POLLS && forall j: nat | j < k :: Undecided(polls(j))
    ensures IsVerdict(polls, VerdictFrom(polls, k))
    decreases POLLS - k
  {
    if !Undecided(polls(k)) {
      assert EndsAt(polls, k);
    } else if k + 1 < POLLS {
      VerdictFromIsVerdict(polls, k + 1);
    }
  }

  function CheckTrace(v: Verdict): seq<Counter> {
    match v
    case Finished => []
    case Failed => [ReqInvalid]
    case TimedOut(_) => [ReqInternal, FailInternal]
  }

  predicate CheckPasses(v: Verdict) {
    v == Finished || v == TimedOut(false)
  }

  method CheckDeploymentFinished(m: Metrics, polls: nat -> Poll) returns (err: bool)
    modifies m
    ensures m.raised == old(m.raised) + CheckTrace(VerdictOf(polls))
    ensures err <==> !CheckPasses(VerdictOf(polls))
  {
    var done := false;
    err := false;
    var retry := 0;
    while retry < POLLS && !done
      invariant 0 <= retry <= POLLS
      invariant m.raised == old(m.raised)
      invariant done ==> VerdictOf(polls) == Finished && !err
      invariant !done && retry < POLLS ==> VerdictOf(polls) == VerdictFrom(polls, retry)
      invariant !done && retry == POLLS ==> VerdictOf(polls) == TimedOut(err)
      decreases POLLS - retry
    {
      match polls(retry) {
        case PollFailed => err := true;
        case Pending => err := false;
        case DoneClean => err, done := false, true;
        case DoneWithError =>
          m.Inc(ReqInvalid);
          return true;
      }
      retry := retry + 1;
    }
    if !done {
      m.Inc(ReqInternal);
      m.Inc(FailInternal);
    }
  }

  // ---------- the handlers

  const INTERNAL := [ReqInternal, FailInternal]

  function InsertTrace(i: Insert): seq<Counter> {
    match i
    case Inserted => [StartedDeployment]
    case NotBuilt => INTERNAL
    case Rejected => [ReqInvalid]
  }

  /** InsertDeployment: building the request fails, the deployment manager refuses it, or it starts. */
  method InsertDeployment(m: Metrics, insert: Insert) returns (err: bool)
    modifies m
    ensures m.raised == old(m.raised) + InsertTrace(insert)
    ensures err <==> insert != Inserted
  {
    match insert {
      case Inserted =>
        m.Inc(StartedDeployment);
      case NotBuilt =>
        m.Inc(ReqInternal);
        m.Inc(FailInternal);
      case Rejected =>
        m.Inc(ReqInvalid);
    }
    err := insert != Inserted;
  }

  predicate Started(r: Request) {
    r.valid && StorageInserted(r) && r.clusterInsert == Inserted
  }

  function ClusterVerdict(r: Request): Verdict {
    VerdictOf(r.clusterPolls)
  }

  function StorageVerdict(r: Request): Verdict {
    if r.storage then VerdictOf(r.storagePolls) else Finished
  }

  predicate StagesOk(r: Request) {
    r.iamOk && r.configOk && r.istioOk && r.appOk
  }

  function StagesTrace(r: Request): seq<Counter> {
    if !StagesOk(r) then INTERNAL
    else [ReqOk] + if r.prober then [] else [DoneRaw, DoneUser]
  }

  function FinishTrace(r: Request): seq<Counter> {
    CheckTrace(ClusterVerdict(r))
    + if !CheckPasses(ClusterVerdict(r)) then []
      else CheckTrace(StorageVerdict(r)) + if !CheckPasses(StorageVerdict(r)) then [] else StagesTrace(r)
  }

  method FinishDeployment(m: Metrics, r: Request)
    modifies m
    ensures m.raised == old(m.raised) + FinishTrace(r)
  {
    var err := CheckDeploymentFinished(m, r.clusterPolls);
    if err {
      return;
    }
    if r.storage {
      err := CheckDeploymentFinished(m, r.storagePolls);
      if err {
        return;
      }
    }
    RunStages(m, r);
  }

  /** What follows polling: IAM, cluster, Istio and application, in this order, each only if the one before passed. */
  method RunStages(m: Metrics, r: Request)
    modifies m
    ensures m.raised == old(m.raised) + StagesTrace(r)
  {
    if !r.iamOk || !r.configOk || !r.istioOk || !r.appOk {
      m.Inc(ReqInternal);
      m.Inc(FailInternal);
      return;
    }
    m.Inc(ReqOk);
    if !r.prober {
      m.Inc(DoneRaw);
      m.Inc(DoneUser);
    }
  }

  function StorageTrace(r: Request): seq<Counter> {
    if r.storage then InsertTrace(r.storageInsert) else []
  }

  predicate StorageInserted(r: Request) {
    r.storage ==> r.storageInsert == Inserted
  }

  function AcceptedTrace(r: Request): seq<Counter> {
    if !r.valid then [ReqInvalid]
    else StorageTrace(r) + if StorageInserted(r) then ClusterTrace(r) else []
  }

  function ClusterTrace(r: Request): seq<Counter> {
    InsertTrace(r.clusterInsert) + if r.clusterInsert == Inserted then FinishTrace(r) else []
  }

  function DeployTrace(r: Request): seq<Counter> {
    RequestedTrace(r) + AcceptedTrace(r)
  }

  method Deploy(m: Metrics, r: Request) returns (err: bool)
    modifies m
    ensures m.raised == old(m.raised) + DeployTrace(r)
    ensures err <==> !Started(r)
  {
    if !r.prober {
      m.Inc(RequestedRaw);
      m.Inc(RequestedUser);
    }
    err := Accept(m, r);
  }

  method Accept(m: Metrics, r: Request) returns (err: bool)
    modifies m
    ensures m.raised == old(m.raised) + AcceptedTrace(r)
    ensures err <==> !Started(r)
  {
    if !r.valid {
      m.Inc(ReqInvalid);
      return true;
    }
    ghost var start := m.raised;
    err := DeployStorage(m, r);
    if !err {
      err := DeployCluster(m, r);
      Sequences.Associative(start, StorageTrace(r), ClusterTrace(r));
    } else {
      assert StorageTrace(r) + [] == StorageTrace(r);
    }
  }

  method DeployStorage(m: Metrics, r: Request) returns (err: bool)
    modifies m
    ensures m.raised == old(m.raised) + StorageTrace(r)
    ensures err <==> !StorageInserted(r)
  {
    err := false;
    if r.storage {
      err := InsertDeployment(m, r.storageInsert);
    }
  }

  method DeployCluster(m: Metrics, r: Request) returns (err: bool)
    modifies m
    ensures m.raised == old(m.raised) + ClusterTrace(r)
    ensures err <==> r.clusterInsert != Inserted
  {
    err := InsertDeployment(m, r.clusterInsert);
    if err {
      return;
    }
    FinishDeployment(m, r);  // runs as a goroutine; the handler raises no counter after starting it
  }

  // ---------- one request

  function Count(t: seq<Counter>, c: Counter): nat {
    if t == [] then 0 else Count(t[..|t| - 1], c) + if t[|t| - 1] == c then 1 else 0
  }

  lemma {:induction false} CountConcat(a: seq<Counter>, b: seq<Counter>, c: Counter)
    ensures Count(a + b, c) == Count(a, c) + Count(b, c)
    decreases |b|
  {
    if b == [] {
      assert a + b == a;
    } else {
      var n := |b| - 1;
      CountConcat(a, b[..n], c);
      assert (a + b)[..|a| + n] == a + b[..n];
    }
  }

  /** How often a request raises deployReqCounter, over all labels. */
  function Tally(t: seq<Counter>): nat {
    Count(t, ReqOk) + Count(t, ReqInvalid) + Count(t, ReqInternal)
  }

  /** How many checks of a request ran out of polls without an error to report, and so let it go on. */
  function UnreportedTimeouts(r: Request): nat {
    if !Started(r) then 0
    else
      (if ClusterVerdict(r) == TimedOut(false) then 1 else 0)
      + if CheckPasses(ClusterVerdict(r)) && StorageVerdict(r) == TimedOut(false) then 1 else 0
  }

  /** Every stage returned without error, in order. */
  predicate EveryStagePassed(r: Request) {
    Started(r) && CheckPasses(ClusterVerdict(r)) && CheckPasses(StorageVerdict(r)) && StagesOk(r)
  }

  /** A finished request is counted once, and once more for every check that timed out unreported; so
      exactly once precisely when no check did.  It is counted OK exactly when every stage passed. */
  lemma CountedOnce(r: Request)
    ensures Tally(DeployTrace(r)) == 1 + UnreportedTimeouts(r)
    ensures Count(DeployTrace(r), ReqOk) == if EveryStagePassed(r) then 1 else 0
  {
    LabelsWrittenOut(r);
  }

  /** A cluster that stays pending through all sixty polls, and stages that pass: counted INTERNAL, then OK. */
  lemma PendingClusterIsCountedTwice(r: Request)
    requires r.valid && !r.storage && r.clusterInsert == Inserted && StagesOk(r)
    requires forall j :: r.clusterPolls(j) == Pending
    ensures Tally(DeployTrace(r)) == 2
    ensures Count(DeployTrace(r), ReqOk) == 1
  {
    PendingTimesOut(r.clusterPolls, 0);
    CountedOnce(r);
  }

  lemma {:induction false} PendingTimesOut(polls: nat -> Poll, k: nat)
    requires k < POLLS && forall j :: polls(j) == Pending
    ensures VerdictFrom(polls, k) == TimedOut(false)
    decreases POLLS - k
  {
    if k + 1 < POLLS {
      PendingTimesOut(polls, k + 1);
    }
  }

  // ---------- every prefix of a trace

  /** ReqInternal is always followed at once by FailInternal, which occurs nowhere else. */
  predicate Paired(t: seq<Counter>)
    decreases |t|
  {
    if t == [] then true
    else if t[0] == ReqInternal then |t| >= 2 && t[1] == FailInternal && Paired(t[2..])
    else t[0] != FailInternal && Paired(t[1..])
  }

  lemma {:induction false} PairedConcat(a: seq<Counter>, b: seq<Counter>)
    requires Paired(a) && Paired(b)
    ensures Paired(a + b)
    decreases |a|
  {
    if a == [] {
      assert a + b == b;
    } else if a[0] == ReqInternal {
      PairedConcat(a[2..], b);
      assert (a + b)[2..] == a[2..] + b;
    } else {
      PairedConcat(a[1..], b);
      assert (a + b)[1..] == a[1..] + b;
    }
  }

  lemma {:induction false} PairedPrefix(t: seq<Counter>, k: nat)
    requires Paired(t) && k <= |t|
    ensures Count(t[..k], ReqInternal)
         == Count(t[..k], FailInternal) + if k > 0 && t[k - 1] == ReqInternal then 1 else 0
    decreases |t|
  {
    if k == 0 {
    } else if t[0] == ReqInternal {
      if k == 1 {
        assert t[..1] == [ReqInternal] && [ReqInternal][..0] == [];
      } else {
        PairedPrefix(t[2..], k - 2);
        assert t[..k] == INTERNAL + t[2..][..k - 2];
        assert INTERNAL[..1] == [ReqInternal] && [ReqInternal][..0] == [];
        CountConcat(INTERNAL, t[2..][..k - 2], ReqInternal);
        CountConcat(INTERNAL, t[2..][..k - 2], FailInternal);
      }
    } else {
      PairedPrefix(t[1..], k - 1);
      assert t[..k] == [t[0]] + t[1..][..k - 1];
      assert [t[0]][..0] == [];
      CountConcat([t[0]], t[1..][..k - 1], ReqInternal);
      CountConcat([t[0]], t[1..][..k - 1], FailInternal);
    }
  }

  lemma {:induction false} PairedLast(t: seq<Counter>)
    requires Paired(t) && t != []
    ensures t[|t| - 1] != ReqInternal
    decreases |t|
  {
    var rest := if t[0] == ReqInternal then t[2..] else t[1..];
    if rest != [] {
      PairedLast(rest);
    }
  }

  lemma FinishTracePaired(r: Request)
    ensures Paired(FinishTrace(r))
  {
    assert Paired(StagesTrace(r));
    var stages := if !CheckPasses(StorageVerdict(r)) then [] else StagesTrace(r);
    PairedConcat(CheckTrace(StorageVerdict(r)), stages);
    var rest := if !CheckPasses(ClusterVerdict(r)) then [] else CheckTrace(StorageVerdict(r)) + stages;
    PairedConcat(CheckTrace(ClusterVerdict(r)), rest);
  }

  lemma AcceptedTracePaired(r: Request)
    ensures Paired(AcceptedTrace(r))
  {
    FinishTracePaired(r);
    PairedConcat(InsertTrace(r.clusterInsert), if r.clusterInsert == Inserted then FinishTrace(r) else []);
    PairedConcat(StorageTrace(r), if StorageInserted(r) then ClusterTrace(r) else []);
  }

  lemma DeployTracePaired(r: Request)
    ensures Paired(DeployTrace(r))
  {
    AcceptedTracePaired(r);
    PairedConcat(RequestedTrace(r), AcceptedTrace(r));
  }

  // ---------- completed deployments

  lemma DoneCounted(r: Request, c: Counter)
    requires c in {DoneRaw, DoneUser}
    ensures Count(AcceptedTrace(r), c) == if EveryStagePassed(r) && !r.prober then 1 else 0
  {
    DoneInBlocks(ClusterVerdict(r), r.clusterInsert, c);
    DoneInBlocks(StorageVerdict(r), r.storageInsert, c);
    DoneInStages(r, c);
    var stages := if !CheckPasses(StorageVerdict(r)) then [] else StagesTrace(r);
    CountConcat(CheckTrace(StorageVerdict(r)), stages, c);
    CountConcat(CheckTrace(ClusterVerdict(r)),
                if !CheckPasses(ClusterVerdict(r)) then [] else CheckTrace(StorageVerdict(r)) + stages, c);
    CountConcat(InsertTrace(r.clusterInsert), if r.clusterInsert == Inserted then FinishTrace(r) else [], c);
    CountConcat(StorageTrace(r), if StorageInserted(r) then ClusterTrace(r) else [], c);
    assert [ReqInvalid][..0] == [];
  }

  lemma DoneInBlocks(v: Verdict, i: Insert, c: Counter)
    requires c in {DoneRaw, DoneUser}
    ensures Count(CheckTrace(v), c) == Count(InsertTrace(i), c) == Count(INTERNAL, c) == 0
  {
    assert INTERNAL[..1] == [ReqInternal] && [ReqInternal][..0] == [];
    assert [ReqInvalid][..0] == [] && [StartedDeployment][..0] == [];
  }

  lemma DoneInStages(r: Request, c: Counter)
    requires c in {DoneRaw, DoneUser}
    ensures Count(StagesTrace(r), c) == if StagesOk(r) && !r.prober then 1 else 0
  {
    DoneInBlocks(Finished, Inserted, c);
    var done := [DoneRaw, DoneUser];
    assert done[..1] == [DoneRaw] && [DoneRaw][..0] == [] && [ReqOk][..0] == [];
    CountConcat([ReqOk], done, c);
    CountConcat([ReqOk], [], c);
  }

  lemma {:induction false} CountPrefix(t: seq<Counter>, k: nat, c: Counter)
    requires k <= |t|
    ensures Count(t[..k], c) <= Count(t, c)
  {
    CountConcat(t[..k], t[k..], c);
    assert t == t[..k] + t[k..];
  }

  /** If `head` requests at least as often as `rest` completes, no prefix of the two completes too often. */
  lemma CompletesAfter(head: seq<Counter>, rest: seq<Counter>, done: Counter, requested: Counter, k: nat)
    requires k <= |head| + |rest|
    requires Count(head, done) == 0 && Count(rest, done) <= Count(head, requested)
    ensures Count((head + rest)[..k], done) <= Count((head + rest)[..k], requested)
  {
    if k <= |head| {
      assert (head + rest)[..k] == head[..k];
      CountPrefix(head, k, done);
    } else {
      assert (head + rest)[..k] == head + rest[..k - |head|];
      CountPrefix(rest, k - |head|, done);
      CountConcat(head, rest[..k - |head|], done);
      CountConcat(head, rest[..k - |head|], requested);
    }
  }

  function RequestedTrace(r: Request): seq<Counter> {
    if r.prober then [] else [RequestedRaw, RequestedUser]
  }

  lemma RequestedCounts(r: Request)
    ensures Count(RequestedTrace(r), DoneRaw) == Count(RequestedTrace(r), DoneUser) == 0
    ensures Count(RequestedTrace(r), RequestedRaw) == Count(RequestedTrace(r), RequestedUser)
            == if r.prober then 0 else 1
    ensures Tally(RequestedTrace(r)) == 0
  {
    assert [RequestedRaw, RequestedUser][..1] == [RequestedRaw] && [RequestedRaw][..0] == [];
  }

  // ---------- every counter of a request, written out

  lemma CountTrace(r: Request, c: Counter)
    ensures Count(DeployTrace(r), c)
         == Count(RequestedTrace(r), c)
            + if !r.valid then Count([ReqInvalid], c)
              else Count(StorageTrace(r), c) + if StorageInserted(r) then CountCluster(r, c) else 0
  {
    CountConcat(RequestedTrace(r), AcceptedTrace(r), c);
    CountConcat(StorageTrace(r), if StorageInserted(r) then ClusterTrace(r) else [], c);
    CountClusterTrace(r, c);
  }

  function CountCluster(r: Request, c: Counter): nat {
    Count(InsertTrace(r.clusterInsert), c)
    + if r.clusterInsert != Inserted then 0
      else Count(CheckTrace(ClusterVerdict(r)), c)
           + if !CheckPasses(ClusterVerdict(r)) then 0
             else Count(CheckTrace(StorageVerdict(r)), c)
                  + if !CheckPasses(StorageVerdict(r)) then 0 else Count(StagesTrace(r), c)
  }

  lemma CountClusterTrace(r: Request, c: Counter)
    ensures Count(ClusterTrace(r), c) == CountCluster(r, c)
  {
    CountConcat(InsertTrace(r.clusterInsert), if r.clusterInsert == Inserted then FinishTrace(r) else [], c);
    CountFinishTrace(r, c);
  }

  lemma CountFinishTrace(r: Request, c: Counter)
    ensures Count(FinishTrace(r), c)
         == Count(CheckTrace(ClusterVerdict(r)), c)
            + if !CheckPasses(ClusterVerdict(r)) then 0
              else Count(CheckTrace(StorageVerdict(r)), c)
                   + if !CheckPasses(StorageVerdict(r)) then 0 else Count(StagesTrace(r), c)
  {
    CountGuarded(CheckTrace(StorageVerdict(r)), CheckPasses(StorageVerdict(r)), StagesTrace(r), c);
    CountGuarded(CheckTrace(ClusterVerdict(r)), CheckPasses(ClusterVerdict(r)),
                 CheckTrace(StorageVerdict(r)) + if !CheckPasses(StorageVerdict(r)) then [] else StagesTrace(r), c);
  }

  lemma CountGuarded(a: seq<Counter>, goesOn: bool, b: seq<Counter>, c: Counter)
    ensures Count(a + if !goesOn then [] else b, c) == Count(a, c) + if !goesOn then 0 else Count(b, c)
  {
    CountConcat(a, if !goesOn then [] else b, c);
  }

  lemma CountOne(x: Counter, c: Counter)
    ensures Count([x], c) == if x == c then 1 else 0
  {
    assert [x][..0] == [];
  }

  lemma CountTwo(x: Counter, y: Counter, c: Counter)
    ensures Count([x, y], c) == (if x == c then 1 else 0) + if y == c then 1 else 0
  {
    assert [x, y][..1] == [x];
    CountOne(x, c);
  }

  lemma CountBlocks(r: Request, v: Verdict, i: Insert, c: Counter)
    ensures Count(CheckTrace(v), c) == match v
              case Finished => 0
              case Failed => if c == ReqInvalid then 1 else 0
              case TimedOut(_) => if c in {ReqInternal, FailInternal} then 1 else 0
    ensures Count(InsertTrace(i), c) == match i
              case Inserted => if c == StartedDeployment then 1 else 0
              case NotBuilt => if c in {ReqInternal, FailInternal} then 1 else 0
              case Rejected => if c == ReqInvalid then 1 else 0
    ensures Count(StagesTrace(r), c)
         == if r.iamOk && r.configOk && r.istioOk && r.appOk then
              if c == ReqOk || (!r.prober && c in {DoneRaw, DoneUser}) then 1 else 0
            else if c in {ReqInternal, FailInternal} then 1 else 0
    ensures Count(RequestedTrace(r), c) == if !r.prober && c in {RequestedRaw, RequestedUser} then 1 else 0
  {
    CountTwo(ReqInternal, FailInternal, c);
    CountTwo(DoneRaw, DoneUser, c);
    CountTwo(RequestedRaw, RequestedUser, c);
    CountOne(ReqInvalid, c);
    CountOne(StartedDeployment, c);
    CountOne(ReqOk, c);
    CountConcat([ReqOk], [DoneRaw, DoneUser], c);
    CountConcat([ReqOk], [], c);
  }

  /** How the request goes: whether it gets as far as the background half, and past each of its two waits. */
  ghost predicate Underway(r: Request) {
    r.valid && (r.storage ==> r.storageInsert == Inserted) && r.clusterInsert == Inserted
  }

  ghost predicate PastCluster(r: Request) {
    Underway(r) && VerdictOf(r.clusterPolls) in {Finished, TimedOut(false)}
  }

  ghost predicate PastStorage(r: Request) {
    PastCluster(r) && (r.storage ==> VerdictOf(r.storagePolls) in {Finished, TimedOut(false)})
  }

  /** Which label a request raises, and how often. */
  lemma LabelsWrittenOut(r: Request)
    ensures Count(DeployTrace(r), ReqInvalid)
         == if || !r.valid
               || (r.storage && r.storageInsert == Rejected)
               || ((r.storage ==> r.storageInsert == Inserted) && r.clusterInsert == Rejected)
               || (Underway(r) && VerdictOf(r.clusterPolls) == Failed)
               || (PastCluster(r) && r.storage && VerdictOf(r.storagePolls) == Failed)
            then 1 else 0
    ensures Count(DeployTrace(r), ReqInternal) == Count(DeployTrace(r), FailInternal)
         == (if r.valid && r.storage && r.storageInsert == NotBuilt then 1 else 0)
            + (if r.valid && (r.storage ==> r.storageInsert == Inserted) && r.clusterInsert == NotBuilt then 1 else 0)
            + (if Underway(r) && VerdictOf(r.clusterPolls).TimedOut? then 1 else 0)
            + (if PastCluster(r) && r.storage && VerdictOf(r.storagePolls).TimedOut? then 1 else 0)
            + if PastStorage(r) && !(r.iamOk && r.configOk && r.istioOk && r.appOk) then 1 else 0
    ensures Count(DeployTrace(r), ReqOk)
         == if PastStorage(r) && r.iamOk && r.configOk && r.istioOk && r.appOk then 1 else 0
  {
    InvalidWrittenOut(r);
    InternalWrittenOut(r, ReqInternal);
    InternalWrittenOut(r, FailInternal);
    OkWrittenOut(r);
  }

  lemma OkWrittenOut(r: Request)
    ensures Count(DeployTrace(r), ReqOk)
         == if PastStorage(r) && r.iamOk && r.configOk && r.istioOk && r.appOk then 1 else 0
  {
    CountTrace(r, ReqOk);
    CountOne(ReqInvalid, ReqOk);
    CountBlocks(r, Finished, r.storageInsert, ReqOk);
    ClusterOther(r, ReqOk);
  }

  lemma InvalidWrittenOut(r: Request)
    ensures Count(DeployTrace(r), ReqInvalid)
         == if || !r.valid
               || (r.storage && r.storageInsert == Rejected)
               || ((r.storage ==> r.storageInsert == Inserted) && r.clusterInsert == Rejected)
               || (Underway(r) && VerdictOf(r.clusterPolls) == Failed)
               || (PastCluster(r) && r.storage && VerdictOf(r.storagePolls) == Failed)
            then 1 else 0
  {
    CountTrace(r, ReqInvalid);
    CountOne(ReqInvalid, ReqInvalid);
    CountBlocks(r, ClusterVerdict(r), r.clusterInsert, ReqInvalid);
    CountBlocks(r, StorageVerdict(r), r.storageInsert, ReqInvalid);
  }

  lemma InternalWrittenOut(r: Request, c: Counter)
    requires c in {ReqInternal, FailInternal}
    ensures Count(DeployTrace(r), c)
         == (if r.valid && r.storage && r.storageInsert == NotBuilt then 1 else 0)
            + (if r.valid && (r.storage ==> r.storageInsert == Inserted) && r.clusterInsert == NotBuilt then 1 else 0)
            + (if Underway(r) && VerdictOf(r.clusterPolls).TimedOut? then 1 else 0)
            + (if PastCluster(r) && r.storage && VerdictOf(r.storagePolls).TimedOut? then 1 else 0)
            + if PastStorage(r) && !(r.iamOk && r.configOk && r.istioOk && r.appOk) then 1 else 0
  {
    CountTrace(r, c);
    CountOne(ReqInvalid, c);
    CountBlocks(r, Finished, r.storageInsert, c);
    ClusterInternal(r, c);
  }

  lemma ClusterInternal(r: Request, c: Counter)
    requires c in {ReqInternal, FailInternal}
    ensures CountCluster(r, c)
         == if r.clusterInsert != Inserted then (if r.clusterInsert == NotBuilt then 1 else 0)
            else (if ClusterVerdict(r).TimedOut? then 1 else 0)
                 + if !CheckPasses(ClusterVerdict(r)) then 0
                   else (if StorageVerdict(r).TimedOut? then 1 else 0)
                        + if CheckPasses(StorageVerdict(r)) && !StagesOk(r) then 1 else 0
  {
    CountBlocks(r, ClusterVerdict(r), r.clusterInsert, c);
    CountBlocks(r, StorageVerdict(r), r.clusterInsert, c);
  }

  /** The other counters: started once for every accepted insert, requested unless it is the prober, done if in
      addition every stage passed. */
  lemma OtherCountersWrittenOut(r: Request)
    ensures Count(DeployTrace(r), StartedDeployment)
         == (if r.valid && r.storage && r.storageInsert == Inserted then 1 else 0) + if Underway(r) then 1 else 0
    ensures Count(DeployTrace(r), RequestedRaw) == Count(DeployTrace(r), RequestedUser) == if r.prober then 0 else 1
    ensures Count(DeployTrace(r), DoneRaw) == Count(DeployTrace(r), DoneUser)
         == if PastStorage(r) && r.iamOk && r.configOk && r.istioOk && r.appOk && !r.prober then 1 else 0
  {
    StartedWrittenOut(r);
    RequestedWrittenOut(r, RequestedRaw);
    RequestedWrittenOut(r, RequestedUser);
    DoneWrittenOut(r, DoneRaw);
    DoneWrittenOut(r, DoneUser);
  }

  lemma StartedWrittenOut(r: Request)
    ensures Count(DeployTrace(r), StartedDeployment)
         == (if r.valid && r.storage && r.storageInsert == Inserted then 1 else 0) + if Underway(r) then 1 else 0
  {
    CountTrace(r, StartedDeployment);
    CountOne(ReqInvalid, StartedDeployment);
    CountBlocks(r, Finished, r.storageInsert, StartedDeployment);
    ClusterOther(r, StartedDeployment);
  }

  lemma RequestedWrittenOut(r: Request, c: Counter)
    requires c in {RequestedRaw, RequestedUser}
    ensures Count(DeployTrace(r), c) == if r.prober then 0 else 1
  {
    CountTrace(r, c);
    CountOne(ReqInvalid, c);
    CountBlocks(r, Finished, r.storageInsert, c);
    ClusterOther(r, c);
  }

  lemma DoneWrittenOut(r: Request, c: Counter)
    requires c in {DoneRaw, DoneUser}
    ensures Count(DeployTrace(r), c)
         == if PastStorage(r) && r.iamOk && r.configOk && r.istioOk && r.appOk && !r.prober then 1 else 0
  {
    CountTrace(r, c);
    CountOne(ReqInvalid, c);
    CountBlocks(r, Finished, r.storageInsert, c);
    ClusterOther(r, c);
  }

  lemma ClusterOther(r: Request, c: Counter)
    requires c in {ReqOk, StartedDeployment, RequestedRaw, RequestedUser, DoneRaw, DoneUser}
    ensures CountCluster(r, c)
         == if r.clusterInsert != Inserted then 0
            else if c == StartedDeployment then 1
            else if (c == ReqOk || (c in {DoneRaw, DoneUser} && !r.prober)) && StagesOk(r)
                    && CheckPasses(ClusterVerdict(r)) && CheckPasses(StorageVerdict(r)) then 1
            else 0
  {
    CountBlocks(r, ClusterVerdict(r), r.clusterInsert, c);
    CountBlocks(r, StorageVerdict(r), r.clusterInsert, c);
  }

  /** What holds at every moment of one request's trace. */
  ghost predicate Sound(t: seq<Counter>) {
    && Paired(t)
    && (forall k | 0 <= k <= |t| :: Count(t[..k], DoneRaw) <= Count(t[..k], RequestedRaw))
    && (forall k | 0 <= k <= |t| :: Count(t[..k], DoneUser) <= Count(t[..k], RequestedUser))
  }

  lemma DeployTraceSound(r: Request)
    ensures Sound(DeployTrace(r))
  {
    DeployTracePaired(r);
    RequestedCounts(r);
    DoneCounted(r, DoneRaw);
    DoneCounted(r, DoneUser);
    forall k | 0 <= k <= |DeployTrace(r)|
      ensures Count(DeployTrace(r)[..k], DoneRaw) <= Count(DeployTrace(r)[..k], RequestedRaw)
      ensures Count(DeployTrace(r)[..k], DoneUser) <= Count(DeployTrace(r)[..k], RequestedUser)
    {
      CompletesAfter(RequestedTrace(r), AcceptedTrace(r), DoneRaw, RequestedRaw, k);
      CompletesAfter(RequestedTrace(r), AcceptedTrace(r), DoneUser, RequestedUser, k);
    }
  }

  // ---------- all interleavings

  /** How far each request has come in its trace, and the counters all requests share. */
  datatype State = State(positions: seq<nat>, counters: map<Counter, nat>)

  function Value(counters: map<Counter, nat>, c: Counter): nat {
    if c in counters then counters[c] else 0
  }

  ghost predicate Step(traces: seq<seq<Counter>>, s: State, i: nat, s': State) {
    && |s.positions| == |traces| && i < |traces|
    && s.positions[i] < |traces[i]|
    && var c := traces[i][s.positions[i]];
       s' == State(s.positions[i := s.positions[i] + 1], s.counters[c := Value(s.counters, c) + 1])
  }

  ghost predicate Run(traces: seq<seq<Counter>>, states: seq<State>, turns: seq<nat>) {
    && |states| == |turns| + 1
    && states[0] == State(seq(|traces|, _ => 0), map[])
    && forall n | 0 <= n < |turns| :: Step(traces, states[n], turns[n], states[n + 1])
  }

  ghost predicate Within(traces: seq<seq<Counter>>, positions: seq<nat>) {
    && |positions| == |traces|
    && forall i | 0 <= i < |traces| :: positions[i] <= |traces[i]|
  }

  /** What all requests together have raised a counter by. */
  ghost function Total(traces: seq<seq<Counter>>, positions: seq<nat>, c: Counter): nat
    requires Within(traces, positions)
  {
    if traces == [] then 0
    else
      var n := |traces| - 1;
      Total(traces[..n], positions[..n], c) + Count(traces[n][..positions[n]], c)
  }

  /** How many requests are between raising deployReqCounter{INTERNAL} and deploymentFailure{INTERNAL}. */
  ghost function Midway(traces: seq<seq<Counter>>, positions: seq<nat>): nat
    requires Within(traces, positions)
  {
    if traces == [] then 0
    else
      var n := |traces| - 1;
      Midway(traces[..n], positions[..n])
      + if positions[n] > 0 && traces[n][positions[n] - 1] == ReqInternal then 1 else 0
  }

  lemma {:induction false} TotalAfterStep(traces: seq<seq<Counter>>, positions: seq<nat>, i: nat, c: Counter)
    requires Within(traces, positions) && i < |traces| && positions[i] < |traces[i]|
    ensures Within(traces, positions[i := positions[i] + 1])
    ensures Total(traces, positions[i := positions[i] + 1], c)
         == Total(traces, positions, c) + if traces[i][positions[i]] == c then 1 else 0
    decreases |traces|
  {
    var n := |traces| - 1;
    var next := positions[i := positions[i] + 1];
    if i == n {
      var t := traces[n];
      assert next[..n] == positions[..n];
      assert t[..positions[n] + 1][..positions[n]] == t[..positions[n]];
    } else {
      TotalAfterStep(traces[..n], positions[..n], i, c);
      assert next[..n] == positions[..n][i := positions[i] + 1];
    }
  }

  lemma {:induction false} TotalAtStart(traces: seq<seq<Counter>>, positions: seq<nat>, c: Counter)
    requires |positions| == |traces| && forall i | 0 <= i < |traces| :: positions[i] == 0
    ensures Within(traces, positions) && Total(traces, positions, c) == 0
    decreases |traces|
  {
    if traces != [] {
      TotalAtStart(traces[..|traces| - 1], positions[..|traces| - 1], c);
      assert traces[|traces| - 1][..0] == [];
    }
  }

  /** In every interleaving each counter shows the sum of what the requests have raised so far. */
  lemma {:induction false} CountersAreTotals(traces: seq<seq<Counter>>, states: seq<State>, turns: seq<nat>, n: nat,
                                             c: Counter)
    requires Run(traces, states, turns) && n < |states|
    ensures Within(traces, states[n].positions)
    ensures Value(states[n].counters, c) == Total(traces, states[n].positions, c)
    decreases n
  {
    if n == 0 {
      TotalAtStart(traces, states[0].positions, c);
    } else {
      CountersAreTotals(traces, states, turns, n - 1, c);
      assert Step(traces, states[n - 1], turns[n - 1], states[n]);
      TotalAfterStep(traces, states[n - 1].positions, turns[n - 1], c);
    }
  }

  lemma {:induction false} TotalsCompared(traces: seq<seq<Counter>>, positions: seq<nat>)
    requires Within(traces, positions) && forall i | 0 <= i < |traces| :: Sound(traces[i])
    ensures Total(traces, positions, ReqInternal) == Total(traces, positions, FailInternal) + Midway(traces, positions)
    ensures Total(traces, positions, DoneRaw) <= Total(traces, positions, RequestedRaw)
    ensures Total(traces, positions, DoneUser) <= Total(traces, positions, RequestedUser)
    ensures AtEnd(traces, positions) ==> Midway(traces, positions) == 0
    decreases |traces|
  {
    if traces != [] {
      var n := |traces| - 1;
      TotalsCompared(traces[..n], positions[..n]);
      PairedPrefix(traces[n], positions[n]);
      if traces[n] != [] {
        PairedLast(traces[n]);
      }
    }
  }

  ghost predicate AtEnd(traces: seq<seq<Counter>>, positions: seq<nat>) {
    |positions| == |traces| && forall i | 0 <= i < |traces| :: positions[i] == |traces[i]|
  }

  function Traces(reqs: seq<Request>): seq<seq<Counter>> {
    seq(|reqs|, i requires 0 <= i < |reqs| => DeployTrace(reqs[i]))
  }

  lemma TracesSound(reqs: seq<Request>)
    ensures forall i | 0 <= i < |reqs| :: Sound(Traces(reqs)[i])
  {
    forall i | 0 <= i < |reqs| ensures Sound(Traces(reqs)[i]) {
      DeployTraceSound(reqs[i]);
    }
  }

  /** At every moment of every interleaving: the INTERNAL counters differ exactly by the requests between
      their two increments, and never more deployments are done than were requested. */
  lemma AccountsBalance(reqs: seq<Request>, states: seq<State>, turns: seq<nat>, n: nat)
    requires Run(Traces(reqs), states, turns) && n < |states|
    ensures Within(Traces(reqs), states[n].positions)
    ensures Value(states[n].counters, ReqInternal)
         == Value(states[n].counters, FailInternal) + Midway(Traces(reqs), states[n].positions)
    ensures Value(states[n].counters, DoneRaw) <= Value(states[n].counters, RequestedRaw)
    ensures Value(states[n].counters, DoneUser) <= Value(states[n].counters, RequestedUser)
  {
    var traces := Traces(reqs);
    CountersAreTotals(traces, states, turns, n, ReqInternal);
    CountersAreTotals(traces, states, turns, n, FailInternal);
    CountersAreTotals(traces, states, turns, n, DoneRaw);
    CountersAreTotals(traces, states, turns, n, RequestedRaw);
    CountersAreTotals(traces, states, turns, n, DoneUser);
    CountersAreTotals(traces, states, turns, n, RequestedUser);
    TracesSound(reqs);
    TotalsCompared(traces, states[n].positions);
  }

  function AllUnreportedTimeouts(reqs: seq<Request>): nat {
    if reqs == [] then 0 else AllUnreportedTimeouts(reqs[..|reqs| - 1]) + UnreportedTimeouts(reqs[|reqs| - 1])
  }

  function Successes(reqs: seq<Request>): nat {
    if reqs == [] then 0 else Successes(reqs[..|reqs| - 1]) + if EveryStagePassed(reqs[|reqs| - 1]) then 1 else 0
  }

  lemma {:induction false} TotalOfLast(traces: seq<seq<Counter>>, positions: seq<nat>, c: Counter)
    requires AtEnd(traces, positions) && traces != []
    ensures var n := |traces| - 1;
            && AtEnd(traces[..n], positions[..n])
            && Total(traces, positions, c) == Total(traces[..n], positions[..n], c) + Count(traces[n], c)
  {
    var n := |traces| - 1;
    assert traces[n][..positions[n]] == traces[n];
  }

  lemma {:induction false} TotalLast(reqs: seq<Request>, positions: seq<nat>, c: Counter)
    requires AtEnd(Traces(reqs), positions) && reqs != []
    ensures var n := |reqs| - 1;
            && AtEnd(Traces(reqs[..n]), positions[..n])
            && Total(Traces(reqs), positions, c)
               == Total(Traces(reqs[..n]), positions[..n], c) + Count(DeployTrace(reqs[n]), c)
  {
    var n := |reqs| - 1;
    TotalOfLast(Traces(reqs), positions, c);
    assert Traces(reqs)[..n] == Traces(reqs[..n]);
  }

  lemma {:induction false} TotalTally(reqs: seq<Request>, positions: seq<nat>)
    requires AtEnd(Traces(reqs), positions)
    ensures var traces := Traces(reqs);
            && Total(traces, positions, ReqOk) == Successes(reqs)
            && Total(traces, positions, ReqOk) + Total(traces, positions, ReqInvalid)
               + Total(traces, positions, ReqInternal)
               == |reqs| + AllUnreportedTimeouts(reqs)
    decreases |reqs|
  {
    if reqs != [] {
      var n := |reqs| - 1;
      TotalLast(reqs, positions, ReqOk);
      TotalLast(reqs, positions, ReqInvalid);
      TotalLast(reqs, positions, ReqInternal);
      TotalTally(reqs[..n], positions[..n]);
      CountedOnce(reqs[n]);
    }
  }

  /** When all requests have finished, in whatever interleaving: the INTERNAL counters agree, OK counts the
      requests whose every stage passed, and the labels together count each request once, plus the checks
      that timed out unreported.  Requests whose body does not decode never reach the endpoint and are not among
      these, although the decoder raises the INVALID_ARGUMENT label for each of them. */
  lemma FinalAccounts(reqs: seq<Request>, states: seq<State>, turns: seq<nat>)
    requires Run(Traces(reqs), states, turns) && AtEnd(Traces(reqs), states[|turns|].positions)
    ensures var final := states[|turns|].counters;
            && Value(final, ReqInternal) == Value(final, FailInternal)
            && Value(final, ReqOk) == Successes(reqs)
            && Value(final, ReqOk) + Value(final, ReqInvalid) + Value(final, ReqInternal)
               == |reqs| + AllUnreportedTimeouts(reqs)
  {
    var n, traces := |turns|, Traces(reqs);
    AccountsBalance(reqs, states, turns, n);
    TracesSound(reqs);
    TotalsCompared(traces, states[n].positions);
    CountersAreTotals(traces, states, turns, n, ReqOk);
    CountersAreTotals(traces, states, turns, n, ReqInvalid);
    CountersAreTotals(traces, states, turns, n, ReqInternal);
    TotalTally(reqs, states[n].positions);
  }
}
