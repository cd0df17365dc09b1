/** IAM policies as lists of role bindings, and what such a list grants.

    A policy's meaning is its set of (role, member) grants.  Two more meanings
    matter because of how the code indexes bindings by role:
    - LastGrants: what remains when a repeated role keeps only its last binding
      (every loop that fills a role-keyed map from a policy does this);
    - FirstGrants: what remains when a repeated role keeps only the members of
      the first template entry that lists it (the template reader does this).
*/
module IamPolicy {
  import opened Sequences

  datatype Binding = Binding(role: string, members: seq<string>)

  datatype Grant = Grant(role: string, member: string)

  /** One entry of the bindings template: every role is granted to every member. */
  datatype TemplateBinding = TemplateBinding(members: seq<string>, roles: seq<string>)

  /** The policy object the rewriting functions edit through a pointer. */
  class Policy {
    var bindings: seq<Binding>

    constructor (bindings: seq<Binding>)
      ensures this.bindings == bindings
    {
      this.bindings := bindings;
    }
  }

  ghost function Grants(bs: seq<Binding>): set<Grant> {
    set b, m | b in bs && m in b.members :: Grant(b.role, m)
  }

  ghost predicate OneBindingPerRole(bs: seq<Binding>) {
    forall i, j | 0 <= i < j < |bs| :: bs[i].role != bs[j].role
  }

  ghost predicate IsLast(bs: seq<Binding>, i: int) {
    && 0 <= i < |bs|
    && forall j | i < j < |bs| :: bs[j].role != bs[i].role
  }

  ghost function LastGrants(bs: seq<Binding>): set<Grant> {
    set i, m | 0 <= i < |bs| && IsLast(bs, i) && m in bs[i].members :: Grant(bs[i].role, m)
  }

  /** No earlier binding of a repeated role has a member that the role's last binding lacks. */
  ghost predicate NothingShadowed(bs: seq<Binding>) {
    forall i, j, m | 0 <= i < |bs| && IsLast(bs, j) && bs[i].role == bs[j].role && m in bs[i].members ::
      m in bs[j].members
  }

  ghost function TemplateGrants(t: seq<TemplateBinding>): set<Grant> {
    set b, r, m | b in t && r in b.roles && m in b.members :: Grant(r, m)
  }

  ghost predicate FirstListing(t: seq<TemplateBinding>, i: int, role: string) {
    && 0 <= i < |t|
    && role in t[i].roles
    && forall j | 0 <= j < i :: role !in t[j].roles
  }

  ghost function FirstGrants(t: seq<TemplateBinding>): set<Grant> {
    set i, r, m | 0 <= i < |t| && r in t[i].roles && FirstListing(t, i, r) && m in t[i].members :: Grant(r, m)
  }

  /** No later template entry adds a member to a role that an earlier entry already lists. */
  ghost predicate NothingDropped(t: seq<TemplateBinding>) {
    forall i, j, r, m | FirstListing(t, i, r) && 0 <= j < |t| && r in t[j].roles && m in t[j].members ::
      m in t[i].members
  }

  ghost predicate NoRoleTwice(t: seq<TemplateBinding>) {
    forall i, j, r | 0 <= i < j < |t| && r in t[i].roles :: r !in t[j].roles
  }

  // ---------- last binding wins

  lemma LastBindingOfRole(bs: seq<Binding>, i: int) returns (j: int)
    requires 0 <= i < |bs|
    ensures IsLast(bs, j) && bs[j].role == bs[i].role
    decreases |bs| - i
  {
    if IsLast(bs, i) {
      j := i;
    } else {
      var k :| i < k < |bs| && bs[k].role == bs[i].role;
      j := LastBindingOfRole(bs, k);
    }
  }

  /** Indexing a policy by role keeps its meaning exactly when nothing is shadowed. */
  lemma LastGrantsExact(bs: seq<Binding>)
    ensures LastGrants(bs) <= Grants(bs)
    ensures LastGrants(bs) == Grants(bs) <==> NothingShadowed(bs)
    ensures OneBindingPerRole(bs) ==> NothingShadowed(bs)
  {
    if NothingShadowed(bs) {
      forall g | g in Grants(bs) ensures g in LastGrants(bs) {
        var i :| 0 <= i < |bs| && g.role == bs[i].role && g.member in bs[i].members;
        var j := LastBindingOfRole(bs, i);
      }
    }
    if LastGrants(bs) == Grants(bs) {
      forall i, j, m | 0 <= i < |bs| && IsLast(bs, j) && bs[i].role == bs[j].role && m in bs[i].members
        ensures m in bs[j].members
      {
        assert Grant(bs[i].role, m) in LastGrants(bs);
      }
    }
  }

  /** A further binding replaces, for its role, everything that came before. */
  lemma LastGrantsSnoc(bs: seq<Binding>, b: Binding)
    ensures LastGrants(bs + [b])
         == (set g | g in LastGrants(bs) && g.role != b.role) + (set m | m in b.members :: Grant(b.role, m))
  {
    var cs := bs + [b];
    forall i | 0 <= i < |bs| ensures IsLast(cs, i) <==> IsLast(bs, i) && bs[i].role != b.role {
      assert cs[|bs|] == b;
      if IsLast(bs, i) && bs[i].role != b.role {
        forall j | i < j < |cs| ensures cs[j].role != cs[i].role {}
      }
      if IsLast(cs, i) {
        forall j | i < j < |bs| ensures bs[j].role != bs[i].role { assert cs[j] == bs[j]; }
      }
    }
    assert IsLast(cs, |bs|) && cs[|bs|] == b;
    forall g | g in LastGrants(bs) && g.role != b.role ensures g in LastGrants(cs) {
      var i :| 0 <= i < |bs| && IsLast(bs, i) && g == Grant(bs[i].role, g.member) && g.member in bs[i].members;
      assert cs[i] == bs[i] && IsLast(cs, i);
    }
  }

  // ---------- removing members

  function ClearedBindings(bs: seq<Binding>, drop: set<string>): (r: seq<Binding>)
    ensures |r| == |bs|
  {
    seq(|bs|, i requires 0 <= i < |bs| => Binding(bs[i].role, Without(bs[i].members, drop)))
  }

  ghost function Outside(gs: set<Grant>, drop: set<string>): set<Grant> {
    set g | g in gs && g.member !in drop
  }

  /** Clearing takes exactly the dropped members' grants, in both readings, and keeps the shape. */
  lemma ClearedGrants(bs: seq<Binding>, drop: set<string>)
    ensures Grants(ClearedBindings(bs, drop)) == Outside(Grants(bs), drop)
    ensures LastGrants(ClearedBindings(bs, drop)) == Outside(LastGrants(bs), drop)
    ensures OneBindingPerRole(ClearedBindings(bs, drop)) <==> OneBindingPerRole(bs)
    ensures ClearedBindings(ClearedBindings(bs, drop), drop) == ClearedBindings(bs, drop)
  {
    var cs := ClearedBindings(bs, drop);
    assert forall i {:trigger bs[i]} | 0 <= i < |bs| :: cs[i].role == bs[i].role;
    forall i ensures IsLast(cs, i) <==> IsLast(bs, i) {}
    forall g | g in Outside(Grants(bs), drop) ensures g in Grants(cs) {
      var i :| 0 <= i < |bs| && g.role == bs[i].role && g.member in bs[i].members;
      assert cs[i] in cs && g.member in cs[i].members;
    }
    forall g | g in Outside(LastGrants(bs), drop) ensures g in LastGrants(cs) {
      var i :| 0 <= i < |bs| && IsLast(bs, i) && g == Grant(bs[i].role, g.member) && g.member in bs[i].members;
      assert IsLast(cs, i) && g.member in cs[i].members;
    }
    forall i | 0 <= i < |bs| ensures ClearedBindings(cs, drop)[i] == cs[i] {
      WithoutTwice(bs[i].members, drop);
    }
  }

  // ---------- rewriting

  /** What a role-keyed map written back as bindings looks like, whatever the iteration order. */
  ghost predicate Canonical(bs: seq<Binding>) {
    && OneBindingPerRole(bs)
    && forall i | 0 <= i < |bs| :: Distinct(bs[i].members)
  }

  lemma CanonicalWrittenOut(bs: seq<Binding>)
    requires Canonical(bs)
    ensures forall i, j | 0 <= i < j < |bs| :: bs[i].role != bs[j].role
    ensures forall i, p, q | 0 <= i < |bs| && 0 <= p < q < |bs[i].members| :: bs[i].members[p] != bs[i].members[q]
  {
  }

  ghost function Roles(bs: seq<Binding>): set<string> {
    set b | b in bs :: b.role
  }

  ghost function Patched(base: set<Grant>, patch: set<Grant>, adding: bool): set<Grant> {
    if adding then base + patch else base - patch
  }

  /** `post` grants what `pre` grants after indexing by role, plus the patch or less it. */
  ghost predicate Edited(pre: seq<Binding>, patch: set<Grant>, adding: bool, post: seq<Binding>) {
    && Canonical(post)
    && Grants(post) == Patched(LastGrants(pre), patch, adding)
  }

  /** Applying the same patch on top of its own result changes no grant. */
  lemma EditedAgain(pre: seq<Binding>, patch: set<Grant>, adding: bool, mid: seq<Binding>, post: seq<Binding>)
    requires Edited(pre, patch, adding, mid) && Edited(mid, patch, adding, post)
    ensures Edited(pre, patch, adding, post) && Grants(post) == Grants(mid)
  {
    LastGrantsExact(mid);
  }

  // ---------- first listing wins

  lemma FirstListingOf(t: seq<TemplateBinding>, j: int, role: string) returns (i: int)
    requires 0 <= j < |t| && role in t[j].roles
    ensures FirstListing(t, i, role) && i <= j
    decreases j
  {
    if k :| 0 <= k < j && role in t[k].roles {
      i := FirstListingOf(t, k, role);
    } else {
      i := j;
    }
  }

  /** The template reader keeps the template's meaning exactly when no repeated role gains a member later. */
  lemma FirstGrantsExact(t: seq<TemplateBinding>)
    ensures FirstGrants(t) <= TemplateGrants(t)
    ensures FirstGrants(t) == TemplateGrants(t) <==> NothingDropped(t)
    ensures NoRoleTwice(t) ==> NothingDropped(t)
  {
    if NothingDropped(t) {
      forall g | g in TemplateGrants(t) ensures g in FirstGrants(t) {
        var j :| 0 <= j < |t| && g.role in t[j].roles && g.member in t[j].members;
        var i := FirstListingOf(t, j, g.role);
      }
    }
    if FirstGrants(t) == TemplateGrants(t) {
      forall i, j, r, m | FirstListing(t, i, r) && 0 <= j < |t| && r in t[j].roles && m in t[j].members
        ensures m in t[i].members
      {
        assert t[j] in t && Grant(r, m) in TemplateGrants(t);
      }
    }
  }
}
