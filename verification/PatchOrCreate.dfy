/** Create-or-patch of one named resource against an API server that other writers share.

    Every request is preceded by whatever the other writers did to the resource,
    and may fail with or without taking effect.  The server records the requests
    it received and how it answered them.  `keepsReason` says whether the errors
    the helpers return still carry the server's reason: the code wraps them in a
    type of its own, so it does not, although the code that follows tests for
    reasons.
*/
module PatchOrCreate {
  import opened Wrappers

  datatype Reason = NotFound | Conflict | Invalid | MethodNotSupported | OtherReason

  /** What a request helper returns: nothing, the server's error, or a wrapper without its reason. */
  datatype Error = Api(reason: Reason) | Wrapped

  datatype Op = Get | Create(data: string) | Patch(data: string) | Delete

  datatype Event = Event(op: Op, answer: Option<Reason>)

  datatype Fault = Fine | Refused(reason: Reason) | LostAck(reason: Reason)

  /** What happens around one request: the other writers' latest change, if any, and the fault. */
  datatype Turn = Turn(interference: Option<Option<string>>, fault: Fault)

  function Effect(op: Op, resource: Option<string>): Option<string> {
    match op
    case Get => resource
    case Create(data) => Some(data)
    case Patch(data) => Some(data)
    case Delete => None
  }

  ghost predicate PatchesRefused(events: seq<Event>) {
    forall e | e in events && e.op.Patch? :: e.answer.Some?
  }

  /** The API server.  The code sends its patches without the resource's name; takesPatches says whether a server
      accepts those, for the resource the call is about, or refuses them as a method it does not support. */
  class ApiServer {
    var resource: Option<string>
    var log: seq<Event>
    const script: nat -> Turn  // by position in the log
    const takesPatches: bool

    constructor (resource: Option<string>, script: nat -> Turn, takesPatches: bool)
      ensures this.resource == resource && log == [] && this.script == script && this.takesPatches == takesPatches
      ensures Valid()
    {
      this.resource, this.log, this.script, this.takesPatches := resource, [], script, takesPatches;
    }

    ghost predicate Valid()
      reads this
    {
      !takesPatches ==> PatchesRefused(log)
    }

    /** The resource as the other writers left it before the next request. */
    ghost function Found(): Option<string>
      reads this
    {
      script(|log|).interference.GetOr(resource)
    }

    /** One request.  A request that is answered without error took effect and nothing happened since; one that
        is answered with an error changed nothing, unless only its acknowledgement was lost. */
    method Request(op: Op) returns (answer: Option<Reason>)
      requires Valid()
      modifies this
      ensures Valid()
      ensures log == old(log) + [Event(op, answer)]
      ensures answer.None? ==> resource == Effect(op, old(Found()))
      ensures answer.Some? ==>
                || resource == old(Found())
                || (script(|old(log)|).fault.LostAck? && resource == Effect(op, old(Found())))
      ensures answer.None? && op.Get? ==> resource.Some?
      ensures answer == Some(NotFound) && script(|old(log)|).fault.Fine? ==> resource == None && !op.Create?
    {
      var turn := script(|log|);
      if turn.interference.Some? {
        resource := turn.interference.value;
      }
      if turn.fault.Refused? {
        answer := Some(turn.fault.reason);
      } else if op.Patch? && !takesPatches {
        answer := Some(MethodNotSupported);
      } else if op.Create? && resource.Some? {
        answer := Some(OtherReason);
      } else if !op.Create? && resource.None? {
        answer := Some(NotFound);
      } else {
        resource := Effect(op, resource);
        answer := if turn.fault.LostAck? then Some(turn.fault.reason) else None;
      }
      log := log + [Event(op, answer)];
    }
  }

  function Wrap(answer: Option<Reason>, keepsReason: bool): Option<Error> {
    if answer.None? then None else if keepsReason then Some(Api(answer.value)) else Some(Wrapped)
  }

  predicate IsConflict(err: Option<Error>) {
    err == Some(Api(Conflict))
  }

  /** The errors after which the resource is deleted and created anew. */
  predicate IsLastResort(err: Option<Error>) {
    err in {Some(Api(Conflict)), Some(Api(Invalid)), Some(Api(MethodNotSupported))}
  }

  const MAX_RETRIES := 5

  // ---------- the protocol as a machine

  datatype Control =
    | Looking
    | Writing(op: Op, retries: nat)
    | Rechecking(retries: nat)
    | Deleting
    | Polling(left: nat)              // waiting for the deletion to be visible
    | Recreating
    | Stopped(err: Option<Error>)

  /** What a call is about: the data, whether errors keep their reason, and how many times a deletion
      is polled again before the wait is given up. */
  datatype Setting = Setting(data: string, keepsReason: bool, patience: nat)

  function OpOf(c: Control, s: Setting): Option<Op> {
    match c
    case Looking => Some(Get)
    case Writing(op, _) => Some(op)
    case Rechecking(_) => Some(Get)
    case Deleting => Some(Delete)
    case Polling(_) => Some(Get)
    case Recreating => Some(Create(s.data))
    case Stopped(_) => None
  }

  function AfterWrite(err: Option<Error>, retries: nat): Control {
    if retries + 1 < MAX_RETRIES && IsConflict(err) then Rechecking(retries + 1)
    else if IsLastResort(err) then Deleting
    else Stopped(err)
  }

  function Step(c: Control, s: Setting, answer: Option<Reason>): Control {
    match c
    case Looking => Writing(if answer.None? then Patch(s.data) else Create(s.data), 0)
    case Writing(_, retries) => AfterWrite(Wrap(answer, s.keepsReason), retries)
    case Rechecking(retries) =>
      if answer.None? then Writing(Patch(s.data), retries) else Stopped(Wrap(answer, s.keepsReason))
    case Deleting =>
      if answer.None? then Polling(s.patience)
      else if answer == Some(NotFound) then Recreating
      else Stopped(Wrap(answer, s.keepsReason))
    case Polling(left) =>
      if Wrap(answer, s.keepsReason) == Some(Api(NotFound)) then Recreating
      else if left > 0 then Polling(left - 1)
      else Stopped(Some(Wrapped))
    case Recreating => Stopped(Wrap(answer, s.keepsReason))
    case Stopped(_) => c
  }

  function Reached(s: Setting, events: seq<Event>): Control {
    if events == [] then Looking
    else Step(Reached(s, events[..|events| - 1]), s, events[|events| - 1].answer)
  }

  /** The requests so far are the ones the machine asks for. */
  ghost predicate OnTrack(s: Setting, events: seq<Event>) {
    forall i | 0 <= i < |events| :: OpOf(Reached(s, events[..i]), s) == Some(events[i].op)
  }

  /** A complete call: the machine asked for every request and stopped with this result. */
  ghost predicate Transcript(s: Setting, events: seq<Event>, err: Option<Error>) {
    OnTrack(s, events) && Reached(s, events) == Stopped(err)
  }

  lemma OnTrackSnoc(s: Setting, events: seq<Event>, event: Event)
    requires OnTrack(s, events) && OpOf(Reached(s, events), s) == Some(event.op)
    ensures OnTrack(s, events + [event])
    ensures Reached(s, events + [event]) == Step(Reached(s, events), s, event.answer)
  {
    assert (events + [event])[..|events|] == events;
    forall i | 0 <= i < |events| + 1
      ensures OpOf(Reached(s, (events + [event])[..i]), s) == Some((events + [event])[i].op)
    {
      if i < |events| { assert (events + [event])[..i] == events[..i]; }
    }
  }

  // ---------- the code

  /** One request of the call that began when `start` requests had been received. */
  method Ask(server: ApiServer, op: Op, ghost s: Setting, ghost start: nat) returns (answer: Option<Reason>)
    requires server.Valid() && start <= |server.log| && OnTrack(s, server.log[start..])
    requires OpOf(Reached(s, server.log[start..]), s) == Some(op)
    modifies server
    ensures server.Valid()
    ensures |server.log| == |old(server.log)| + 1 && server.log[..|old(server.log)|] == old(server.log)
    ensures OnTrack(s, server.log[start..])
    ensures Reached(s, server.log[start..]) == Step(Reached(s, old(server.log)[start..]), s, answer)
    ensures answer.None? && (op.Create? || op.Patch?) ==> server.resource == Some(op.data)
  {
    ghost var before := server.log[start..];
    answer := server.Request(op);
    assert server.log[start..] == before + [Event(op, answer)];
    OnTrackSnoc(s, before, Event(op, answer));
  }

  method PatchOrCreate(server: ApiServer, data: string, keepsReason: bool, patience: nat) returns (err: Option<Error>)
    requires server.Valid()
    modifies server
    ensures server.Valid()
    ensures |old(server.log)| <= |server.log| && server.log[..|old(server.log)|] == old(server.log)
    ensures Transcript(Setting(data, keepsReason, patience), server.log[|old(server.log)|..], err)
    ensures err.None? ==> server.resource == Some(data)
  {
    var s := Setting(data, keepsReason, patience);
    ghost var start := |server.log|;
    err := FirstWrite(server, s, start);
    var i := 1;
    while i < MAX_RETRIES && IsConflict(err)
      invariant 1 <= i <= MAX_RETRIES && server.Valid()
      invariant start <= |server.log| && server.log[..start] == old(server.log)
      invariant OnTrack(s, server.log[start..]) && Reached(s, server.log[start..]) == AfterWrite(err, i - 1)
      invariant err.None? ==> server.resource == Some(data)
    {
      var gaveUp;
      err, gaveUp := Retry(server, s, i, start);
      if gaveUp {
        return;
      }
      i := i + 1;
    }

    if IsLastResort(err) {
      err := DeleteResource(server, s, start);
      if err.Some? {
        return;
      }
      var answer := Ask(server, Create(data), s, start);
      err := Wrap(answer, keepsReason);
    }
  }

  method FirstWrite(server: ApiServer, s: Setting, ghost start: nat) returns (err: Option<Error>)
    requires server.Valid() && start == |server.log|
    modifies server
    ensures server.Valid()
    ensures start <= |server.log| && server.log[..start] == old(server.log)
    ensures OnTrack(s, server.log[start..]) && Reached(s, server.log[start..]) == AfterWrite(err, 0)
    ensures err.None? ==> server.resource == Some(s.data)
  {
    var answer := Ask(server, Get, s, start);
    if answer.Some? {
      answer := Ask(server, Create(s.data), s, start);
    } else {
      answer := Ask(server, Patch(s.data), s, start);
    }
    err := Wrap(answer, s.keepsReason);
  }

  /** One round of the retry loop; a failing lookup ends the whole call. */
  method Retry(server: ApiServer, s: Setting, i: nat, ghost start: nat) returns (err: Option<Error>, gaveUp: bool)
    requires server.Valid() && start <= |server.log| && OnTrack(s, server.log[start..])
    requires Reached(s, server.log[start..]) == Rechecking(i)
    modifies server
    ensures server.Valid()
    ensures |old(server.log)| <= |server.log| && server.log[..|old(server.log)|] == old(server.log)
    ensures OnTrack(s, server.log[start..])
    ensures Reached(s, server.log[start..]) == if gaveUp then Stopped(err) else AfterWrite(err, i)
    ensures gaveUp ==> err.Some?
    ensures err.None? ==> server.resource == Some(s.data)
  {
    var answer := Ask(server, Get, s, start);
    if answer.Some? {
      return Wrap(answer, s.keepsReason), true;
    }
    answer := Ask(server, Patch(s.data), s, start);
    err, gaveUp := Wrap(answer, s.keepsReason), false;
  }

  method DeleteResource(server: ApiServer, s: Setting, ghost start: nat) returns (err: Option<Error>)
    requires server.Valid() && start <= |server.log| && OnTrack(s, server.log[start..])
    requires Reached(s, server.log[start..]) == Deleting
    modifies server
    ensures server.Valid()
    ensures |old(server.log)| <= |server.log| && server.log[..|old(server.log)|] == old(server.log)
    ensures OnTrack(s, server.log[start..])
    ensures Reached(s, server.log[start..]) == if err.None? then Recreating else Stopped(err)
  {
    var answer := Ask(server, Delete, s, start);
    if answer.Some? {
      return if answer == Some(NotFound) then None else Wrap(answer, s.keepsReason);
    }
    var left := s.patience;
    while true
      invariant server.Valid() && |old(server.log)| <= |server.log|
      invariant server.log[..|old(server.log)|] == old(server.log)
      invariant OnTrack(s, server.log[start..]) && Reached(s, server.log[start..]) == Polling(left)
      decreases left
    {
      answer := Ask(server, Get, s, start);
      if Wrap(answer, s.keepsReason) == Some(Api(NotFound)) {
        return None;
      }
      if left == 0 {
        return Some(Wrapped);
      }
      left := left - 1;
    }
  }

  // ---------- guarantees

  function Count(events: seq<Event>, wanted: Op -> bool): nat {
    if events == [] then 0
    else Count(events[..|events| - 1], wanted) + if wanted(events[|events| - 1].op) then 1 else 0
  }

  /** The number of patches, creations and deletions sent by the time the machine is somewhere. */
  ghost predicate Counted(c: Control, patches: nat, creations: nat, deletions: nat) {
    match c
    case Looking => patches == creations == deletions == 0
    case Writing(op, retries) =>
      && deletions == 0 && retries < MAX_RETRIES && patches + creations == retries
      && (op.Create? ==> retries == 0) && creations <= 1 && !op.Get? && !op.Delete?
    case Rechecking(retries) =>
      deletions == 0 && retries < MAX_RETRIES && patches + creations == retries && creations <= 1
    case Deleting => deletions == 0 && patches + creations <= MAX_RETRIES && creations <= 1
    case Polling(_) => deletions == 1 && patches + creations <= MAX_RETRIES && creations <= 1
    case Recreating => deletions == 1 && patches + creations <= MAX_RETRIES && creations <= 1
    case Stopped(_) => deletions <= 1 && patches + creations <= MAX_RETRIES + deletions && creations <= 1 + deletions
  }

  const isPatch := (op: Op) => op.Patch?
  const isCreate := (op: Op) => op.Create?
  const isDelete := (op: Op) => op.Delete?

  function Bump(n: nat, wanted: bool): nat {
    if wanted then n + 1 else n
  }

  lemma CountedStep(c: Control, s: Setting, op: Op, answer: Option<Reason>, patches: nat, creations: nat,
      deletions: nat)
    requires Counted(c, patches, creations, deletions) && OpOf(c, s) == Some(op)
    ensures Counted(Step(c, s, answer),
                    Bump(patches, op.Patch?), Bump(creations, op.Create?), Bump(deletions, op.Delete?))
  {
  }

  /** The last request taken apart from the ones before it. */
  lemma LastRequest(s: Setting, events: seq<Event>) returns (front: seq<Event>, last: Event)
    requires OnTrack(s, events) && events != []
    ensures events == front + [last] && front == events[..|events| - 1] && OnTrack(s, front)
    ensures OpOf(Reached(s, front), s) == Some(last.op)
    ensures Reached(s, events) == Step(Reached(s, front), s, last.answer)
  {
    var n := |events| - 1;
    front, last := events[..n], events[n];
    assert forall i | 0 <= i < n :: front[..i] == events[..i] && front[i] == events[i];
  }

  lemma {:induction false} CountsSoFar(s: Setting, events: seq<Event>)
    requires OnTrack(s, events)
    ensures Counted(Reached(s, events), Count(events, isPatch), Count(events, isCreate), Count(events, isDelete))
    decreases |events|
  {
    if events != [] {
      var front, last := LastRequest(s, events);
      CountsSoFar(s, front);
      CountedStep(Reached(s, front), s, last.op, last.answer,
                  Count(front, isPatch), Count(front, isCreate), Count(front, isDelete));
    }
  }

  /** At most four conflict retries and one delete-then-create: no call sends more than five writes before
      a deletion, one deletion, and one creation after it. */
  lemma BoundedWrites(s: Setting, events: seq<Event>, err: Option<Error>)
    requires Transcript(s, events, err)
    ensures Count(events, isDelete) <= 1
    ensures Count(events, isPatch) + Count(events, isCreate) <= 5 + Count(events, isDelete)
    ensures Count(events, isCreate) <= 1 + Count(events, isDelete)
  {
    CountsSoFar(s, events);
  }

  ghost predicate CarriesTheData(c: Control, s: Setting) {
    c.Writing? ==> c.op in {Create(s.data), Patch(s.data)}
  }

  lemma {:induction false} WritesCarryTheData(s: Setting, events: seq<Event>)
    requires OnTrack(s, events)
    ensures CarriesTheData(Reached(s, events), s)
    ensures forall e | e in events :: e.op in {Get, Delete, Create(s.data), Patch(s.data)}
    decreases |events|
  {
    if events != [] {
      var front, last := LastRequest(s, events);
      WritesCarryTheData(s, front);
      DataStep(Reached(s, front), s, last.op, last.answer);
    }
  }

  lemma DataStep(c: Control, s: Setting, op: Op, answer: Option<Reason>)
    requires CarriesTheData(c, s) && OpOf(c, s) == Some(op)
    ensures CarriesTheData(Step(c, s, answer), s)
    ensures op in {Get, Delete, Create(s.data), Patch(s.data)}
  {
  }

  /** Success means exactly that the call's last request was an accepted creation or patch with the data. */
  lemma NilMeansLastWriteAccepted(s: Setting, events: seq<Event>, err: Option<Error>)
    requires Transcript(s, events, err)
    ensures err.None? <==>
        events != [] && events[|events| - 1] in {Event(Create(s.data), None), Event(Patch(s.data), None)}
  {
    var front, last := LastRequest(s, events);
    WritesCarryTheData(s, front);
    StopsWithNil(Reached(s, front), s, last.op, last.answer);
  }

  lemma StopsWithNil(c: Control, s: Setting, op: Op, answer: Option<Reason>)
    requires CarriesTheData(c, s) && OpOf(c, s) == Some(op) && Step(c, s, answer).Stopped?
    ensures Step(c, s, answer).err.None? <==> answer.None? && op in {Create(s.data), Patch(s.data)}
  {
  }

  /** As the code stands, with reasons hidden by the wrapper: every call is one read and one write, a
      conflict is never retried and nothing is ever deleted. */
  lemma HiddenReasonsDisableRetries(s: Setting, events: seq<Event>, err: Option<Error>)
    requires Transcript(s, events, err) && !s.keepsReason
    ensures |events| == 2 && events[0].op == Get
    ensures events[1].op == if events[0].answer.None? then Patch(s.data) else Create(s.data)
    ensures err == if events[1].answer.None? then None else Some(Wrapped)
  {
    HiddenReasonsControl(s, events);
    var front, last := LastRequest(s, events);
    assert front == [events[0]] && last == events[1];
    FirstRequest(s, front);
  }

  lemma FirstRequest(s: Setting, events: seq<Event>)
    requires OnTrack(s, events) && |events| == 1
    ensures events[0].op == Get && Reached(s, events) == Step(Looking, s, events[0].answer)
  {
    assert events[..0] == [];
  }

  ghost predicate TwoRequests(c: Control, requests: nat) {
    match c
    case Looking => requests == 0
    case Writing(_, _) => requests == 1
    case Stopped(_) => requests == 2
    case _ => false
  }

  lemma TwoRequestsStep(c: Control, s: Setting, answer: Option<Reason>, requests: nat)
    requires !s.keepsReason && TwoRequests(c, requests) && !c.Stopped?
    ensures TwoRequests(Step(c, s, answer), requests + 1)
  {
  }

  lemma {:induction false} HiddenReasonsControl(s: Setting, events: seq<Event>)
    requires OnTrack(s, events) && !s.keepsReason
    ensures TwoRequests(Reached(s, events), |events|)
    decreases |events|
  {
    if events != [] {
      var front, last := LastRequest(s, events);
      HiddenReasonsControl(s, front);
      TwoRequestsStep(Reached(s, front), s, last.answer, |front|);
    }
  }

  /** With reasons kept, a write that meets a conflict is followed by a new look and a new write, four times; the
      fifth conflicting write is followed by the deletion. */
  lemma KeptReasonsRetryConflicts(s: Setting, events: seq<Event>)
    requires s.keepsReason && OnTrack(s, events) && events != [] && Count(events, isDelete) == 0
    requires var last := events[|events| - 1]; (last.op.Create? || last.op.Patch?) && last.answer == Some(Conflict)
    ensures var writes := Count(events, isPatch) + Count(events, isCreate);
            Reached(s, events) == if writes < 5 then Rechecking(writes) else Deleting
  {
    var front, last := LastRequest(s, events);
    CountsSoFar(s, front);
  }

  /** The last resort creates only after the server has said that the resource is gone; and whatever other error ends
      the wait for it is returned. */
  lemma {:induction false} RecreatesOnlyWhatIsGone(s: Setting, events: seq<Event>)
    requires OnTrack(s, events) && Reached(s, events) == Recreating
    ensures events != [] && events[|events| - 1].answer == Some(NotFound) && events[|events| - 1].op in {Get, Delete}
    ensures Count(events, isDelete) == 1
  {
    CountsSoFar(s, events);
    var front, last := LastRequest(s, events);
    RecreatingStep(Reached(s, front), s, last.op, last.answer);
  }

  lemma RecreatingStep(c: Control, s: Setting, op: Op, answer: Option<Reason>)
    requires OpOf(c, s) == Some(op) && Step(c, s, answer) == Recreating
    ensures answer == Some(NotFound) && op in {Get, Delete}
  {
  }

  /** A look in a retry that fails ends the call with its error, and so does a deletion that fails. */
  lemma {:induction false} FailedLooksEndTheCall(s: Setting, events: seq<Event>, r: Reason)
    requires OnTrack(s, events) && |events| > 1 && events[|events| - 1].answer == Some(r)
    ensures events[|events| - 1].op == Get && Count(events, isDelete) == 0 ==>
              Reached(s, events) == Stopped(Some(if s.keepsReason then Api(r) else Wrapped))
    ensures events[|events| - 1].op == Delete && r != NotFound ==>
              Reached(s, events) == Stopped(Some(if s.keepsReason then Api(r) else Wrapped))
  {
    CountsSoFar(s, events);
    var front, last := LastRequest(s, events);
    CountsSoFar(s, front);
    NotLookingAnyMore(s, front);
    WritesCarryTheData(s, front);
    FailedLookStep(Reached(s, front), s, last.op, r);
  }

  lemma FailedLookStep(c: Control, s: Setting, op: Op, r: Reason)
    requires OpOf(c, s) == Some(op) && c != Looking && CarriesTheData(c, s)
    ensures op == Get && !c.Polling? ==> Step(c, s, Some(r)) == Stopped(Some(if s.keepsReason then Api(r) else Wrapped))
    ensures op == Delete && r != NotFound ==>
              Step(c, s, Some(r)) == Stopped(Some(if s.keepsReason then Api(r) else Wrapped))
  {
  }

  lemma {:induction false} NotLookingAnyMore(s: Setting, events: seq<Event>)
    requires OnTrack(s, events) && events != []
    ensures Reached(s, events) != Looking
  {
    var front, last := LastRequest(s, events);
  }

  /** So a conflict is returned only by the new look, by the deletion, or by the creation after it. */
  lemma ConflictsReturned(s: Setting, events: seq<Event>)
    requires s.keepsReason && Transcript(s, events, Some(Api(Conflict)))
    ensures events[|events| - 1].op in {Get, Delete} || Count(events, isDelete) == 1
  {
    var front, last := LastRequest(s, events);
    CountsSoFar(s, front);
  }

  /** The code as it stands ends where the intended protocol would, exactly when its one write did not meet a
      reason that the protocol acts on. */
  lemma HiddenReasonsMatterExactly(data: string, patience: nat, events: seq<Event>, err: Option<Error>)
    requires Transcript(Setting(data, false, patience), events, err)
    ensures |events| == 2
    ensures Reached(Setting(data, true, patience), events).Stopped?
       <==> events[1].answer !in {Some(Conflict), Some(Invalid), Some(MethodNotSupported)}
    ensures Reached(Setting(data, true, patience), events).Stopped? ==>
              OnTrack(Setting(data, true, patience), events) && (err.None? <==> events[1].answer.None?)
  {
    var hidden, kept := Setting(data, false, patience), Setting(data, true, patience);
    HiddenReasonsDisableRetries(hidden, events, err);
    var first, second := events[0], events[1];
    assert [] + [first] == [first] && [first] + [second] == events;
    OnTrackSnoc(kept, [], first);
    OnTrackSnoc(kept, [first], second);
  }

  /** On a server that refuses patches without a name, nil means a creation was accepted; with reasons hidden, a
      resource that the first look found is never updated. */
  lemma NilWithoutPatches(s: Setting, events: seq<Event>, err: Option<Error>)
    requires Transcript(s, events, err) && PatchesRefused(events)
    ensures err.None? <==> events != [] && events[|events| - 1] == Event(Create(s.data), None)
    ensures !s.keepsReason ==>
              |events| == 2 && (err.None? <==> events[0].answer.Some? && events[1] == Event(Create(s.data), None))
  {
    NilMeansLastWriteAccepted(s, events, err);
    if !s.keepsReason {
      HiddenReasonsDisableRetries(s, events, err);
    }
  }

  /** One conflict: the retry the code intends succeeds, the code as it stands fails. */
  lemma OneConflictTellsThemApart(data: string, patience: nat)
    ensures var first := [Event(Get, None), Event(Patch(data), Some(Conflict))];
            && Transcript(Setting(data, false, patience), first, Some(Wrapped))
            && Transcript(Setting(data, true, patience), first + [Event(Get, None)] + [Event(Patch(data), None)], None)
  {
    var first := [Event(Get, None), Event(Patch(data), Some(Conflict))];
    assert [] + [Event(Get, None)] == [Event(Get, None)];
    assert [Event(Get, None)] + [Event(Patch(data), Some(Conflict))] == first;
    var hidden := Setting(data, false, patience);
    OnTrackSnoc(hidden, [], Event(Get, None));
    OnTrackSnoc(hidden, [Event(Get, None)], Event(Patch(data), Some(Conflict)));
    var kept := Setting(data, true, patience);
    OnTrackSnoc(kept, [], Event(Get, None));
    OnTrackSnoc(kept, [Event(Get, None)], Event(Patch(data), Some(Conflict)));
    assert Reached(kept, first) == Rechecking(1);
    OnTrackSnoc(kept, first, Event(Get, None));
    assert Reached(kept, first + [Event(Get, None)]) == Writing(Patch(data), 1);
    OnTrackSnoc(kept, first + [Event(Get, None)], Event(Patch(data), None));
  }
}
