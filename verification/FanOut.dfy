/** Creating the resources of a file: one goroutine a document, joined by a wait group.

    First what the loop decides for each document, with the field map that all
    documents share; then every interleaving of the loop and its goroutines.
*/
module FanOut {
  import opened Sequences
  import opened Wrappers

  // ---------- deciding what to do with each document

  datatype Metadata = Metadata(name: Option<string>, namespace: Option<string>)

  /** The top-level fields the loop reads; None is an absent key. */
  datatype Fields = Fields(apiVersion: Option<string>, kind: Option<string>, metadata: Option<Metadata>)

  datatype Document =
    | Unparsable
    | Empty                                        // parses to null, which resets the map
    | Parsed(fields: Fields, convertible: bool)    // convertible: the YAML also converts to JSON

  datatype Resource = Resource(apiVersion: string, kind: string, namespace: string, name: string)

  /** The loop skips a document, starts a goroutine for it, or panics on a failed type assertion. */
  datatype Action = Skip | Spawn(resource: Resource) | Crash

  const NO_FIELDS := Fields(None, None, None)

  function Or<T>(own: Option<T>, inherited: Option<T>): Option<T> {
    if own.Some? then own else inherited
  }

  /** Decoding into the shared map overwrites the keys a document has and keeps the others. */
  function Decode(shared: Fields, d: Document): Fields {
    match d
    case Unparsable => shared
    case Empty => NO_FIELDS
    case Parsed(f, _) =>
      Fields(Or(f.apiVersion, shared.apiVersion), Or(f.kind, shared.kind), Or(f.metadata, shared.metadata))
  }

  function Decide(shared: Fields, d: Document): Action {
    if d.Unparsable? || shared.apiVersion.None? then Skip
    else if shared.metadata.None? then Crash
    else if shared.metadata.value.name.None? then Skip
    else if shared.kind.None? then Crash
    else if d.Empty? || !d.convertible then Skip
    else Spawn(Resource(shared.apiVersion.value, shared.kind.value,
                        shared.metadata.value.namespace.GetOr("default"), shared.metadata.value.name.value))
  }

  function PlanFrom(shared: Fields, docs: seq<Document>): (plan: seq<Action>)
    ensures |plan| == |docs|
    decreases docs
  {
    if docs == [] then []
    else var o := Decode(shared, docs[0]); [Decide(o, docs[0])] + PlanFrom(o, docs[1..])
  }

  function Plan(docs: seq<Document>): (plan: seq<Action>)
    ensures |plan| == |docs|
  {
    PlanFrom(NO_FIELDS, docs)
  }

  /** The decision each document would get on its own. */
  function OwnPlan(docs: seq<Document>): (plan: seq<Action>)
    ensures |plan| == |docs|
  {
    seq(|docs|, i requires 0 <= i < |docs| => Decide(Decode(NO_FIELDS, docs[i]), docs[i]))
  }

  /** What a file of one document leads to, from its own fields. */
  lemma OneDocument(f: Fields, convertible: bool)
    ensures var action := Plan([Parsed(f, convertible)])[0];
            var named := f.metadata.Some? && f.metadata.value.name.Some?;
            && (action.Spawn? <==> f.apiVersion.Some? && named && f.kind.Some? && convertible)
            && (action.Crash? <==> f.apiVersion.Some? && (f.metadata.None? || (named && f.kind.None?)))
            && (action.Spawn? ==>
                  && action.resource.apiVersion == f.apiVersion.value && action.resource.kind == f.kind.value
                  && action.resource.name == f.metadata.value.name.value
                  && action.resource.namespace
                     == if f.metadata.value.namespace.Some? then f.metadata.value.namespace.value else "default")
    ensures Plan([Unparsable])[0] == Plan([Empty])[0] == Skip
  {
  }

  /** The map as document i finds it. */
  function Shared(docs: seq<Document>, i: nat): Fields
    requires i <= |docs|
  {
    if i == 0 then NO_FIELDS else Decode(Shared(docs, i - 1), docs[i - 1])
  }

  /** The absent keys of a document for which this map makes a difference.  Without a version of its own it would
      be skipped; without metadata, or with a name and no kind, it would panic. */
  predicate Inherits(shared: Fields, d: Document) {
    && d.Parsed?
    && var f, o := d.fields, Decode(shared, d);
       var named := o.metadata.Some? && o.metadata.value.name.Some?;
       if f.apiVersion.None? then
         shared.apiVersion.Some? && (o.metadata.None? || (named && (o.kind.None? || d.convertible)))
       else if f.metadata.None? then
         shared.metadata.Some? && !(named && o.kind.None?)
       else
         named && f.kind.None? && shared.kind.Some?
  }

  lemma {:induction false} PlanFromAt(docs: seq<Document>, from: nat, i: nat)
    requires from <= i < |docs|
    ensures PlanFrom(Shared(docs, from), docs[from..])[i - from] == Decide(Decode(Shared(docs, i), docs[i]), docs[i])
    decreases i - from
  {
    assert docs[from..][1..] == docs[from + 1..];
    if from < i {
      PlanFromAt(docs, from + 1, i);
    }
  }

  /** A document is treated as if it were alone in its file exactly when it inherits nothing that matters. */
  lemma DocumentStandsAlone(docs: seq<Document>, i: nat)
    requires i < |docs|
    ensures Plan(docs)[i] == OwnPlan(docs)[i] <==> !Inherits(Shared(docs, i), docs[i])
  {
    PlanFromAt(docs, 0, i);
    assert docs[0..] == docs;
  }

  /** All documents of a file are treated as if alone exactly when none inherits anything that matters. */
  lemma DocumentsStandAlone(docs: seq<Document>)
    ensures Plan(docs) == OwnPlan(docs) <==> forall i: nat | i < |docs| :: !Inherits(Shared(docs, i), docs[i])
  {
    forall i: nat | i < |docs| ensures Plan(docs)[i] == OwnPlan(docs)[i] <==> !Inherits(Shared(docs, i), docs[i]) {
      DocumentStandsAlone(docs, i);
    }
    if forall i: nat | i < |docs| :: !Inherits(Shared(docs, i), docs[i]) {
      assert forall i | 0 <= i < |docs| :: Plan(docs)[i] == OwnPlan(docs)[i];
    }
  }

  /** A document without metadata, which alone would crash the loop, is sent under the name of the document before
      it. */
  lemma FieldsAreInherited(version: string, kind: string, name: string, other: string)
    ensures var first := Parsed(Fields(Some(version), Some(kind), Some(Metadata(Some(name), None))), true);
            var second := Parsed(Fields(Some(version), Some(other), None), true);
            && Plan([first, second])[1] == Spawn(Resource(version, other, "default", name))
            && OwnPlan([first, second])[1] == Crash
  {
    var first := Parsed(Fields(Some(version), Some(kind), Some(Metadata(Some(name), None))), true);
    var second := Parsed(Fields(Some(version), Some(other), None), true);
    assert [first, second][1..] == [second];
    assert PlanFrom(Decode(NO_FIELDS, first), [second])[0] == Decide(Decode(Decode(NO_FIELDS, first), second), second);
  }

  // ---------- the loop and its goroutines

  datatype Phase =
    | Unstarted                    // the loop has not come to it
    | Skipped                      // the loop completed it
    | Running
    | Ended(err: Option<string>)   // the retries are over, nothing recorded yet
    | Recorded(err: Option<string>)
    | Completed(err: Option<string>)

  datatype Main = Looping | Waiting | Returned(err: Option<string>) | Crashed

  datatype State = State(
    main: Main,
    next: nat,
    phases: seq<Phase>,
    errors: seq<Option<string>>,   // the shared result slice
    pending: int,                  // the wait group's counter
    writes: seq<nat>,              // how often each slot was written
    dones: seq<nat>)               // how often Done was called for each document

  datatype Move =
    | LoopStep | StartWaiting | Return
    | End(i: nat, err: Option<string>) | Record(i: nat) | Complete(i: nat)

  function InitialState(plan: seq<Action>): State {
    var n := |plan|;
    State(Looping, 0, seq(n, _ => Unstarted), seq(n, _ => None), n, seq(n, _ => 0), seq(n, _ => 0))
  }

  ghost predicate Shaped(plan: seq<Action>, s: State) {
    |s.phases| == |s.errors| == |s.writes| == |s.dones| == |plan| && s.next <= |plan|
  }

  ghost predicate Allowed(plan: seq<Action>, s: State, m: Move) {
    && Shaped(plan, s)
    && s.main != Crashed
    && match m
       case LoopStep => s.main == Looping && s.next < |plan|
       case StartWaiting => s.main == Looping && s.next == |plan|
       case Return => s.main == Waiting && s.pending == 0
       case End(i, _) => i < |plan| && s.phases[i] == Running
       case Record(i) => i < |plan| && s.phases[i].Ended?
       case Complete(i) => i < |plan| && s.phases[i].Recorded?
  }

  function FirstError(errors: seq<Option<string>>): Option<string> {
    if errors == [] then None else if errors[0].Some? then errors[0] else FirstError(errors[1..])
  }

  ghost function After(plan: seq<Action>, s: State, m: Move): State
    requires Allowed(plan, s, m)
  {
    match m
    case LoopStep =>
      (match plan[s.next]
       case Skip => s.(next := s.next + 1, phases := s.phases[s.next := Skipped], errors := s.errors[s.next := None],
                       pending := s.pending - 1, writes := s.writes[s.next := s.writes[s.next] + 1],
                       dones := s.dones[s.next := s.dones[s.next] + 1])
       case Spawn(_) => s.(next := s.next + 1, phases := s.phases[s.next := Running])
       case Crash => s.(main := Crashed))
    case StartWaiting => s.(main := Waiting)
    case Return => s.(main := Returned(FirstError(s.errors)))
    case End(i, err) => s.(phases := s.phases[i := Ended(err)])
    case Record(i) => s.(phases := s.phases[i := Recorded(s.phases[i].err)], errors := s.errors[i := s.phases[i].err],
                         writes := s.writes[i := s.writes[i] + 1])
    case Complete(i) => s.(phases := s.phases[i := Completed(s.phases[i].err)], pending := s.pending - 1,
                           dones := s.dones[i := s.dones[i] + 1])
  }

  ghost predicate Run(plan: seq<Action>, states: seq<State>, moves: seq<Move>) {
    && |states| == |moves| + 1
    && states[0] == InitialState(plan)
    && forall k | 0 <= k < |moves| ::
        Allowed(plan, states[k], moves[k]) && states[k + 1] == After(plan, states[k], moves[k])
  }

  // ---------- the invariant

  predicate Over(p: Phase) {
    p.Skipped? || p.Completed?
  }

  function Unfinished(phases: seq<Phase>): nat {
    if phases == [] then 0 else (if Over(phases[0]) then 0 else 1) + Unfinished(phases[1..])
  }

  lemma {:induction false} UnfinishedUpdate(phases: seq<Phase>, i: nat, p: Phase)
    requires i < |phases|
    ensures Unfinished(phases[i := p]) + (if Over(phases[i]) then 0 else 1)
         == Unfinished(phases) + if Over(p) then 0 else 1
  {
    if i == 0 {
      assert phases[0 := p][1..] == phases[1..];
    } else {
      UnfinishedUpdate(phases[1..], i - 1, p);
      assert phases[i := p][1..] == phases[1..][i - 1 := p];
    }
  }

  lemma {:induction false} UnfinishedZero(phases: seq<Phase>)
    ensures Unfinished(phases) == 0 <==> forall i | 0 <= i < |phases| :: Over(phases[i])
  {
    if phases != [] {
      UnfinishedZero(phases[1..]);
      assert forall i | 1 <= i < |phases| :: phases[i] == phases[1..][i - 1];
      if Unfinished(phases) == 0 {
        forall i | 0 <= i < |phases| ensures Over(phases[i]) {
          if i > 0 { assert Over(phases[1..][i - 1]); }
        }
      }
    }
  }

  lemma {:induction false} UnfinishedAtStart(n: nat)
    ensures Unfinished(seq(n, _ => Unstarted)) == n
  {
    if n > 0 {
      UnfinishedAtStart(n - 1);
      assert seq(n, _ => Unstarted)[1..] == seq(n - 1, _ => Unstarted);
    }
  }

  /** What one document's slots hold in a phase. */
  ghost predicate SlotOk(a: Action, p: Phase, error: Option<string>, writes: nat, dones: nat) {
    match p
    case Unstarted => error == None && writes == 0 && dones == 0
    case Skipped => a.Skip? && error == None && writes == 1 && dones == 1
    case Running => a.Spawn? && error == None && writes == 0 && dones == 0
    case Ended(_) => a.Spawn? && error == None && writes == 0 && dones == 0
    case Recorded(err) => a.Spawn? && error == err && writes == 1 && dones == 0
    case Completed(err) => a.Spawn? && error == err && writes == 1 && dones == 1
  }

  ghost predicate Inv(plan: seq<Action>, s: State) {
    && Shaped(plan, s)
    && (forall i | 0 <= i < |plan| :: SlotOk(plan[i], s.phases[i], s.errors[i], s.writes[i], s.dones[i]))
    && (forall i | 0 <= i < |plan| :: s.phases[i].Unstarted? <==> i >= s.next)
    && s.pending == Unfinished(s.phases)
    && (s.main in {Looping, Crashed} || s.next == |plan|)
    && (s.main.Returned? ==> s.pending == 0 && s.main.err == FirstError(s.errors))
  }

  /** A document moves on: its slots change, and the counter drops exactly when it is over. */
  lemma DocumentMoveKeepsInv(plan: seq<Action>, s: State, i: nat, s': State)
    requires Inv(plan, s) && i < |plan| && !Over(s.phases[i]) && Shaped(plan, s')
    requires s'.main == s.main && s'.next == (if s.phases[i].Unstarted? then s.next + 1 else s.next)
    requires s.phases[i].Unstarted? ==> i == s.next
    requires s'.phases == s.phases[i := s'.phases[i]] && !s'.phases[i].Unstarted?
    requires s'.errors == s.errors[i := s'.errors[i]]
    requires s'.writes == s.writes[i := s'.writes[i]] && s'.dones == s.dones[i := s'.dones[i]]
    requires SlotOk(plan[i], s'.phases[i], s'.errors[i], s'.writes[i], s'.dones[i])
    requires s'.pending == s.pending - if Over(s'.phases[i]) then 1 else 0
    ensures Inv(plan, s')
  {
    UnfinishedUpdate(s.phases, i, s'.phases[i]);
    if s.main.Returned? {
      UnfinishedZero(s.phases);
    }
  }

  lemma InvKept(plan: seq<Action>, s: State, m: Move)
    requires Inv(plan, s) && Allowed(plan, s, m)
    ensures Inv(plan, After(plan, s, m))
  {
    var s' := After(plan, s, m);
    match m
    case LoopStep =>
      if !plan[s.next].Crash? {
        DocumentMoveKeepsInv(plan, s, s.next, s');
      }
    case End(i, _) => DocumentMoveKeepsInv(plan, s, i, s');
    case Record(i) => DocumentMoveKeepsInv(plan, s, i, s');
    case Complete(i) => DocumentMoveKeepsInv(plan, s, i, s');
    case _ =>
  }

  lemma {:induction false} RunInv(plan: seq<Action>, states: seq<State>, moves: seq<Move>, k: nat)
    requires Run(plan, states, moves) && k < |states|
    ensures Inv(plan, states[k])
    decreases k
  {
    if k == 0 {
      UnfinishedAtStart(|plan|);
    } else {
      RunInv(plan, states, moves, k - 1);
      InvKept(plan, states[k - 1], moves[k - 1]);
    }
  }

  // ---------- guarantees

  lemma {:induction false} FirstErrorNone(errors: seq<Option<string>>)
    ensures FirstError(errors).None? <==> forall i | 0 <= i < |errors| :: errors[i].None?
  {
    if errors != [] {
      FirstErrorNone(errors[1..]);
      assert forall i | 1 <= i < |errors| :: errors[i] == errors[1..][i - 1];
      if FirstError(errors).None? {
        forall i | 0 <= i < |errors| ensures errors[i].None? {
          if i > 0 { assert errors[1..][i - 1].None?; }
        }
      }
    }
  }

  /** At every moment of every interleaving the wait group's counter is the number of documents not yet
      completed, and no slot is written or completed twice. */
  lemma CounterIsExact(plan: seq<Action>, states: seq<State>, moves: seq<Move>, k: nat)
    requires Run(plan, states, moves) && k < |states|
    ensures states[k].pending == Unfinished(states[k].phases)
    ensures |states[k].writes| == |states[k].dones| == |plan|
    ensures forall i | 0 <= i < |plan| :: states[k].writes[i] <= 1 && states[k].dones[i] <= states[k].writes[i]
  {
    RunInv(plan, states, moves, k);
  }

  /** The call returns only when every document has been recorded and completed exactly once, and returns
      nil exactly when every goroutine it started ended without error. */
  lemma JoinIsExact(plan: seq<Action>, states: seq<State>, moves: seq<Move>, k: nat)
    requires Run(plan, states, moves) && k < |states| && states[k].main.Returned?
    ensures |states[k].phases| == |states[k].writes| == |states[k].dones| == |plan|
    ensures forall i | 0 <= i < |plan| :: Over(states[k].phases[i]) && states[k].writes[i] == states[k].dones[i] == 1
    ensures forall i | 0 <= i < |plan| :: states[k].phases[i].Completed? <==> plan[i].Spawn?
    ensures states[k].main.err.None?
       <==> forall i | 0 <= i < |plan| && plan[i].Spawn? :: states[k].phases[i] == Completed(None)
    ensures states[k].main.err.Some? ==>
              exists i :: && 0 <= i < |plan| && plan[i].Spawn? && states[k].phases[i] == Completed(states[k].main.err)
                          && forall j | 0 <= j < i && plan[j].Spawn? :: states[k].phases[j] == Completed(None)
  {
    RunInv(plan, states, moves, k);
    var s := states[k];
    UnfinishedZero(s.phases);
    FirstErrorNone(s.errors);
    forall i | 0 <= i < |plan| ensures s.errors[i] == if plan[i].Spawn? then s.phases[i].err else None {
      assert Over(s.phases[i]);
    }
    if s.main.err.Some? {
      var i := FirstErrorAt(s.errors);
      assert s.phases[i] == Completed(s.main.err);
    }
  }

  lemma {:induction false} FirstErrorAt(errors: seq<Option<string>>) returns (i: nat)
    requires FirstError(errors).Some?
    ensures i < |errors| && errors[i] == FirstError(errors) && forall j | 0 <= j < i :: errors[j].None?
  {
    if errors[0].Some? {
      i := 0;
    } else {
      i := FirstErrorAt(errors[1..]);
      assert forall j | 1 <= j < i + 1 :: errors[j] == errors[1..][j - 1];
      i := i + 1;
    }
  }

  /** Progress: until the call has returned or panicked, something can move. */
  lemma NeverStuck(plan: seq<Action>, states: seq<State>, moves: seq<Move>, k: nat)
    requires Run(plan, states, moves) && k < |states|
    requires !states[k].main.Returned? && states[k].main != Crashed
    ensures exists m :: Allowed(plan, states[k], m)
  {
    RunInv(plan, states, moves, k);
    var s := states[k];
    if s.main == Looping {
      assert Allowed(plan, s, if s.next < |plan| then LoopStep else StartWaiting);
    } else if s.pending == 0 {
      assert Allowed(plan, s, Return);
    } else {
      UnfinishedZero(s.phases);
      var i :| 0 <= i < |s.phases| && !Over(s.phases[i]);
      if s.phases[i].Running? {
        assert Allowed(plan, s, End(i, None));
      } else if s.phases[i].Ended? {
        assert Allowed(plan, s, Record(i));
      } else {
        assert Allowed(plan, s, Complete(i));
      }
    }
  }

  function Rank(p: Phase): nat {
    match p
    case Unstarted => 4
    case Running => 3
    case Ended(_) => 2
    case Recorded(_) => 1
    case _ => 0
  }

  function TotalRank(phases: seq<Phase>): nat {
    Total(Rank, phases)
  }

  function MainRank(main: Main): nat {
    match main
    case Looping => 2
    case Waiting => 1
    case _ => 0
  }

  /** Every move uses up a bounded resource, so every interleaving ends. */
  lemma EveryMoveCounts(plan: seq<Action>, s: State, m: Move)
    requires Inv(plan, s) && Allowed(plan, s, m)
    ensures var s' := After(plan, s, m);
            TotalRank(s'.phases) + MainRank(s'.main) < TotalRank(s.phases) + MainRank(s.main)
  {
    var s' := After(plan, s, m);
    match m
    case LoopStep => TotalUpdate(Rank, s.phases, s.next, s'.phases[s.next]);
    case End(i, _) => TotalUpdate(Rank, s.phases, i, s'.phases[i]);
    case Record(i) => TotalUpdate(Rank, s.phases, i, s'.phases[i]);
    case Complete(i) => TotalUpdate(Rank, s.phases, i, s'.phases[i]);
    case _ =>
  }
}
