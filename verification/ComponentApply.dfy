/** Applying a list of components with retries: the loop shared by the ksonnet library and the server.

    `outcome(r, i)` says whether applying the i-th component succeeds if it is
    attempted in round r.  A component name that succeeded once is skipped ever
    after, and a round ends the call when as many names are done as there are
    list entries.
*/
module ComponentApply {
  import opened Sequences
  import opened Wrappers

  /** The first try and six retries. */
  const MAX_ROUNDS := 7

  datatype Attempt = Attempt(round: nat, index: nat, ok: bool)

  /** The names that have succeeded before the k-th component of round r is looked at. */
  ghost function Succeeded(components: seq<string>, outcome: (nat, nat) -> bool, r: nat, k: nat): set<string> {
    set q: nat, j: nat | q <= r && j < |components| && (q < r || j < k) && outcome(q, j) :: components[j]
  }

  ghost predicate Succeeds(outcome: (nat, nat) -> bool, i: nat, rounds: nat) {
    exists r: nat | r < rounds :: outcome(r, i)
  }

  ghost predicate AllSucceed(components: seq<string>, outcome: (nat, nat) -> bool, rounds: nat) {
    forall i: nat | i < |components| :: Succeeds(outcome, i, rounds)
  }

  ghost function NameSet(names: seq<string>): set<string> {
    set i | 0 <= i < |names| :: names[i]
  }

  lemma {:induction false} NameSetSize(names: seq<string>)
    ensures |NameSet(names)| <= |names|
    ensures |NameSet(names)| == |names| <==> Distinct(names)
    decreases |names|
  {
    if names != [] {
      var n := |names| - 1;
      var front, last := names[..n], names[n];
      NameSetSize(front);
      assert NameSet(names) == NameSet(front) + {last};
      assert last in NameSet(front) <==> exists i | 0 <= i < n :: names[i] == last;
      assert Distinct(names) <==> Distinct(front) && last !in NameSet(front) by {
        assert forall i | 0 <= i < n :: front[i] == names[i];
      }
    } else {
      assert NameSet(names) == {};
    }
  }

  lemma SubsetSize<T>(a: set<T>, b: set<T>)
    requires a <= b
    ensures |a| <= |b| && (|a| == |b| <==> a == b)
  {
    assert b == a + (b - a) && |b| == |a| + |b - a|;
  }

  /** The size test at the end of a round succeeds exactly when the names differ and all have succeeded. */
  lemma SizeTest(components: seq<string>, outcome: (nat, nat) -> bool, rounds: nat)
    ensures |Succeeded(components, outcome, rounds, 0)| <= |components|
    ensures |Succeeded(components, outcome, rounds, 0)| == |components|
       <==> Distinct(components) && AllSucceed(components, outcome, rounds)
  {
    var done, names := Succeeded(components, outcome, rounds, 0), NameSet(components);
    NameSetSize(components);
    assert done <= names;
    SubsetSize(done, names);
    if Distinct(components) && done == names {
      forall i: nat | i < |components| ensures Succeeds(outcome, i, rounds) {
        assert components[i] in done;
      }
    }
    if AllSucceed(components, outcome, rounds) {
      forall n | n in names ensures n in done {
        var i: nat :| i < |components| && components[i] == n;
        assert Succeeds(outcome, i, rounds);
      }
    }
  }

  /** What the calls to RunApply must have been: component i in round r exactly when its name had not
      succeeded before. */
  ghost predicate Complete(components: seq<string>, outcome: (nat, nat) -> bool, log: seq<Attempt>, r: nat, k: nat) {
    forall a :: a in log <==>
      && a.index < |components| && (a.round < r || (a.round == r && a.index < k))
      && components[a.index] !in Succeeded(components, outcome, a.round, a.index)
      && a.ok == outcome(a.round, a.index)
  }

  /** Attempts come in order, each place once. */
  ghost predicate InOrder(log: seq<Attempt>) {
    forall p, q | 0 <= p < q < |log| ::
      log[p].round < log[q].round || (log[p].round == log[q].round && log[p].index < log[q].index)
  }

  method Apply(components: seq<string>, outcome: (nat, nat) -> bool)
    returns (err: Option<nat>, rounds: nat, log: seq<Attempt>)
    ensures err.None? <==> Distinct(components) && AllSucceed(components, outcome, 7)
    ensures 1 <= rounds <= 7
    ensures err.Some? ==> rounds == 7
    ensures err.Some? ==> err.value == |components| - |Succeeded(components, outcome, 7, 0)|
    ensures err.None? ==> AllSucceed(components, outcome, rounds)
    ensures err.None? ==> forall r: nat | 1 <= r < rounds :: !AllSucceed(components, outcome, r)
    ensures Complete(components, outcome, log, rounds, 0) && InOrder(log)
  {
    var doneApply: set<string> := {};
    rounds, log := 0, [];
    while rounds < MAX_ROUNDS
      invariant rounds <= MAX_ROUNDS
      invariant doneApply == Succeeded(components, outcome, rounds, 0)
      invariant |doneApply| <= |components|
      invariant forall r: nat | 1 <= r <= rounds :: !(Distinct(components) && AllSucceed(components, outcome, r))
      invariant Complete(components, outcome, log, rounds, 0) && InOrder(log)
    {
      doneApply, log := ApplyRound(components, outcome, rounds, doneApply, log);
      rounds := rounds + 1;
      SizeTest(components, outcome, rounds);
      if |doneApply| == |components| {
        Monotone(components, outcome, rounds, MAX_ROUNDS);
        return None, rounds, log;
      }
    }
    err := Some(|components| - |doneApply|);
    SizeTest(components, outcome, MAX_ROUNDS);
  }

  lemma Monotone(components: seq<string>, outcome: (nat, nat) -> bool, r: nat, q: nat)
    requires r <= q && AllSucceed(components, outcome, r)
    ensures AllSucceed(components, outcome, q)
  {
    forall i: nat | i < |components| ensures Succeeds(outcome, i, q) {
      assert Succeeds(outcome, i, r);
    }
  }

  /** One round: every component whose name is not done yet is attempted. */
  method ApplyRound(components: seq<string>, outcome: (nat, nat) -> bool, round: nat, done: set<string>,
                    earlier: seq<Attempt>) returns (doneApply: set<string>, log: seq<Attempt>)
    requires done == Succeeded(components, outcome, round, 0)
    requires Complete(components, outcome, earlier, round, 0) && InOrder(earlier)
    ensures doneApply == Succeeded(components, outcome, round + 1, 0)
    ensures Complete(components, outcome, log, round + 1, 0) && InOrder(log)
  {
    doneApply, log := done, earlier;
    for i := 0 to |components|
      invariant doneApply == Succeeded(components, outcome, round, i)
      invariant Complete(components, outcome, log, round, i) && InOrder(log)
    {
      SucceededStep(components, outcome, round, i);
      if components[i] in doneApply {
        CompleteSkip(components, outcome, log, round, i);
        continue;
      }
      CompleteStep(components, outcome, log, round, i);
      var ok := outcome(round, i);
      log := log + [Attempt(round, i, ok)];
      if ok {
        doneApply := doneApply + {components[i]};
      }
    }
    RoundEnds(components, outcome, log, round);
  }

  lemma CompleteSkip(components: seq<string>, outcome: (nat, nat) -> bool, log: seq<Attempt>, r: nat, k: nat)
    requires Complete(components, outcome, log, r, k) && k < |components|
    requires components[k] in Succeeded(components, outcome, r, k)
    ensures Complete(components, outcome, log, r, k + 1)
    ensures Succeeded(components, outcome, r, k + 1) == Succeeded(components, outcome, r, k)
  {
    SucceededStep(components, outcome, r, k);
  }

  lemma RoundEnds(components: seq<string>, outcome: (nat, nat) -> bool, log: seq<Attempt>, r: nat)
    requires Complete(components, outcome, log, r, |components|)
    ensures Complete(components, outcome, log, r + 1, 0)
    ensures Succeeded(components, outcome, r + 1, 0) == Succeeded(components, outcome, r, |components|)
  {
  }

  lemma SucceededStep(components: seq<string>, outcome: (nat, nat) -> bool, r: nat, k: nat)
    requires k < |components|
    ensures Succeeded(components, outcome, r, k + 1)
         == Succeeded(components, outcome, r, k) + if outcome(r, k) then {components[k]} else {}
  {
  }

  lemma CompleteStep(components: seq<string>, outcome: (nat, nat) -> bool, log: seq<Attempt>, r: nat, k: nat)
    requires Complete(components, outcome, log, r, k) && k < |components|
    requires components[k] !in Succeeded(components, outcome, r, k)
    requires InOrder(log)
    ensures Complete(components, outcome, log + [Attempt(r, k, outcome(r, k))], r, k + 1)
    ensures InOrder(log + [Attempt(r, k, outcome(r, k))])
  {
    assert forall p | 0 <= p < |log| :: log[p] in log;
  }

  /** No component is applied again after it succeeded, so each is applied successfully at most once. */
  lemma AppliedAtMostOnce(components: seq<string>, outcome: (nat, nat) -> bool, rounds: nat, log: seq<Attempt>,
                          p: nat, q: nat)
    requires Complete(components, outcome, log, rounds, 0) && InOrder(log)
    requires p < q < |log| && log[p].ok
    ensures log[p].index < |components| && log[q].index < |components|
    ensures components[log[q].index] != components[log[p].index]
  {
    assert log[p] in log && log[q] in log;
    assert components[log[p].index] in Succeeded(components, outcome, log[q].round, log[q].index);
  }

  /** A repeated name makes the call fail however well everything goes. */
  lemma RepeatedNameNeverSucceeds(components: seq<string>, outcome: (nat, nat) -> bool, rounds: nat)
    requires !Distinct(components)
    ensures |Succeeded(components, outcome, rounds, 0)| < |components|
  {
    SizeTest(components, outcome, rounds);
  }
}
