/** The generated deep copy of a tree of ksonnet modules.

    Pointers, slices and maps are heap cells and nil is null.  An original may reach one cell along several
    paths; it only must not contain itself, or its copy would not end.
*/
module DeepCopy {
  import opened Sequences
  import opened Wrappers

  // ---------- module trees: values

  datatype Component = Component(name: string, prototype: string)
  datatype Module = Module(name: string, components: Option<seq<Option<Component>>>, modules: Modules)
  datatype Modules = NoModules | Modules(slots: seq<Option<Module>>)

  // How many cells a value occupies when none is shared.

  ghost function FilledSlots<T>(v: seq<Option<T>>): nat {
    if v == [] then 0 else FilledSlots(v[..|v| - 1]) + if v[|v| - 1].None? then 0 else 1
  }

  ghost function PointerSliceCells<T>(v: Option<seq<Option<T>>>): nat {
    if v.None? then 0 else 1 + FilledSlots(v.value)
  }

  ghost function FirstModuleCells(v: Module, k: nat): nat
    requires v.modules.Modules? && k <= |v.modules.slots|
    decreases v, k
  {
    if k == 0 then 0
    else FirstModuleCells(v, k - 1)
         + if v.modules.slots[k - 1].None? then 0 else ModuleCells(v.modules.slots[k - 1].value)
  }

  ghost function ModuleCells(v: Module): nat
    decreases v, if v.modules.Modules? then |v.modules.slots| + 1 else 0
  {
    1 + PointerSliceCells(v.components)
    + if v.modules.NoModules? then 0 else 1 + FirstModuleCells(v, |v.modules.slots|)
  }

  // ---------- module trees: heap

  /** What a pointer to a plain struct points at. */
  class Cell<T> {
    var value: T

    constructor (value: T)
      ensures this.value == value
    {
      this.value := value;
    }
  }

  class KsModule {
    var name: string
    var components: array?<Cell?<Component>>
    var modules: array?<KsModule?>

    constructor ()
    {
      name, components, modules := "", null, null;
    }
  }

  /** These pointers show these values, and reach exactly these cells, in order. */
  ghost predicate SlotsAt<T>(s: seq<Cell?<T>>, v: seq<Option<T>>, cells: seq<object>)
    reads cells
  {
    && |s| == |v|
    && if s == [] then cells == []
       else
         var last := |s| - 1;
         if s[last] == null then v[last].None? && SlotsAt(s[..last], v[..last], cells)
         else
           && cells != [] && cells[|cells| - 1] == s[last]
           && v[last] == Some(s[last].value)
           && SlotsAt(s[..last], v[..last], cells[..|cells| - 1])
  }

  ghost predicate SliceAt<T>(a: array?<Cell?<T>>, v: Option<seq<Option<T>>>, cells: seq<object>)
    reads cells
  {
    if a == null then v.None? && cells == []
    else v.Some? && cells != [] && cells[0] == a && SlotsAt(a[..], v.value, cells[1..])
  }

  /** The same for the first k module slots of v. */
  ghost predicate ModuleSlotsAt(s: seq<KsModule?>, v: Module, k: nat, cells: seq<object>)
    requires v.modules.Modules? && k <= |v.modules.slots| && |s| == k
    reads cells
    decreases v, 0, k
  {
    && |cells| == FirstModuleCells(v, k)
    && if k == 0 then true
       else
         var slot := v.modules.slots[k - 1];
         var split := FirstModuleCells(v, k - 1);
         && ModuleSlotsAt(s[..k - 1], v, k - 1, cells[..split])
         && if s[k - 1] == null then slot.None? else slot.Some? && ModuleAt(s[k - 1], slot.value, cells[split..])
  }

  ghost predicate ModuleSliceAt(a: array?<KsModule?>, v: Module, cells: seq<object>)
    reads cells
    decreases v, 1
  {
    if a == null then v.modules.NoModules? && cells == []
    else
      && v.modules.Modules? && cells != [] && cells[0] == a && a.Length == |v.modules.slots|
      && ModuleSlotsAt(a[..], v, a.Length, cells[1..])
  }

  /** m shows the module v.  cells lists what m reaches, itself first, once for every path to it. */
  ghost predicate ModuleAt(m: KsModule, v: Module, cells: seq<object>)
    reads cells
    decreases v, 2
  {
    && |cells| == ModuleCells(v) && cells[0] == m
    && m.name == v.name
    && var split := 1 + PointerSliceCells(v.components);
       && SliceAt(m.components, v.components, cells[1..split])
       && ModuleSliceAt(m.modules, v, cells[split..])
  }

  lemma DistinctConcat(a: seq<object>, b: seq<object>)
    requires Distinct(a) && Distinct(b) && forall o | o in a :: o !in b
    ensures Distinct(a + b)
  {
    forall i, j | 0 <= i < j < |a + b| ensures (a + b)[i] != (a + b)[j] {
      assert i < |a| ==> (a + b)[i] in a;
      assert j >= |a| ==> (a + b)[j] in b;
    }
  }

  // ---------- copying pointers to plain structs

  lemma {:induction false} SlotAt<T>(s: seq<Cell?<T>>, v: seq<Option<T>>, cells: seq<object>, i: nat)
    requires SlotsAt(s, v, cells) && i < |s|
    ensures if s[i] == null then v[i].None? else s[i] in cells && v[i] == Some(s[i].value)
  {
    var last := |s| - 1;
    if i < last {
      SlotAt(s[..last], v[..last], if s[last] == null then cells else cells[..|cells| - 1], i);
    }
  }

  lemma {:induction false} SlotCount<T>(s: seq<Cell?<T>>, v: seq<Option<T>>, cells: seq<object>)
    requires SlotsAt(s, v, cells)
    ensures |cells| == FilledSlots(v)
  {
    if s != [] {
      var last := |s| - 1;
      SlotCount(s[..last], v[..last], if s[last] == null then cells else cells[..|cells| - 1]);
    }
  }

  // The slots seen so far, followed by one more.
  lemma SlotsSnoc<T>(s: seq<Cell?<T>>, v: seq<Option<T>>, cells: seq<object>, c: Cell?<T>)
    requires SlotsAt(s, v, cells)
    ensures if c == null then SlotsAt(s + [c], v + [None], cells)
            else SlotsAt(s + [c], v + [Some(c.value)], cells + [c])
  {
    assert (s + [c])[..|s|] == s;
    if c == null {
      assert (v + [None])[..|v|] == v;
    } else {
      assert (v + [Some(c.value)])[..|v|] == v;
      assert (cells + [c])[..|cells|] == cells;
    }
  }

  method CopyCell<T>(from: Cell?<T>) returns (out: Cell?<T>)
    ensures if from == null then out == null else out != null && fresh(out) && out.value == from.value
  {
    out := null;
    if from != null {
      out := new Cell(from.value);
    }
  }

  method CopySlot<T>(from: array<Cell?<T>>, out: array<Cell?<T>>, i: nat,
                     ghost v: seq<Option<T>>, ghost cells: seq<object>, ghost made: seq<object>)
      returns (ghost part: seq<object>)
    requires SliceAt(from, Some(v), cells) && i < from.Length == out.Length
    requires SlotsAt(out[..i], v[..i], made) && out !in made && Distinct(made)
    modifies out
    ensures fresh(part) && Distinct(made + part) && out !in part
    ensures SlotsAt(out[..i + 1], v[..i + 1], made + part)
  {
    ghost var done := out[..i];
    SlotAt(from[..], v, cells[1..], i);
    var c := CopyCell(from[i]);
    part := if c == null then [] else [c];
    DistinctConcat(made, part);
    out[i] := c;
    SlotsSnoc(done, v[..i], made, c);
    PrefixSnoc(v, i);
    assert out[..i + 1] == done + [c] && made + [] == made;
  }

  method CopySlots<T>(from: array<Cell?<T>>, ghost v: seq<Option<T>>, ghost cells: seq<object>)
      returns (out: array<Cell?<T>>, ghost made: seq<object>)
    requires SliceAt(from, Some(v), cells)
    ensures fresh(out) && fresh(made) && Distinct(made) && out !in made
    ensures SlotsAt(out[..], v, made)
  {
    out, made := new Cell?<T>[from.Length](_ => null), [];
    for i := 0 to from.Length
      invariant fresh(made) && out !in made
      invariant Distinct(made)
      invariant SlotsAt(out[..i], v[..i], made)
    {
      ghost var part := CopySlot(from, out, i, v, cells, made);
      made := made + part;
    }
    assert v[..from.Length] == v && out[..from.Length] == out[..];
  }

  method CopyPointers<T>(from: array?<Cell?<T>>, ghost v: Option<seq<Option<T>>>, ghost cells: seq<object>)
      returns (out: array?<Cell?<T>>, ghost made: seq<object>)
    requires SliceAt(from, v, cells)
    ensures fresh(made) && Distinct(made) && |made| == PointerSliceCells(v)
    ensures SliceAt(out, v, made)
  {
    out, made := null, [];
    if from != null {
      out, made := CopySlots(from, v.value, cells);
      SlotCount(out[..], v.value, made);
      DistinctConcat([out], made);
      made := [out] + made;
    }
  }

  // ---------- copying a module tree

  lemma {:induction false} ModuleSlotAt(s: seq<KsModule?>, v: Module, k: nat, cells: seq<object>, i: nat)
    returns (sub: seq<object>)
    requires v.modules.Modules? && k <= |v.modules.slots| && |s| == k && i < k
    requires ModuleSlotsAt(s, v, k, cells)
    ensures s[i] == null <==> v.modules.slots[i].None?
    ensures s[i] != null ==> ModuleAt(s[i], v.modules.slots[i].value, sub)
    ensures forall o | o in sub :: o in cells
    decreases k
  {
    var split := FirstModuleCells(v, k - 1);
    if i == k - 1 {
      sub := cells[split..];
    } else {
      sub := ModuleSlotAt(s[..k - 1], v, k - 1, cells[..split], i);
    }
  }

  lemma ModuleSlotsSnoc(s: seq<KsModule?>, v: Module, k: nat, cells: seq<object>, m: KsModule?, sub: seq<object>)
    requires v.modules.Modules? && k < |v.modules.slots| && |s| == k && ModuleSlotsAt(s, v, k, cells)
    requires var slot := v.modules.slots[k];
             if m == null then slot.None? && sub == [] else slot.Some? && ModuleAt(m, slot.value, sub)
    ensures ModuleSlotsAt(s + [m], v, k + 1, cells + sub)
  {
    assert (s + [m])[..k] == s;
    assert (cells + sub)[..|cells|] == cells && (cells + sub)[|cells|..] == sub;
  }

  method DeepCopyModule(from: KsModule?, ghost v: Option<Module>, ghost cells: seq<object>)
      returns (out: KsModule?, ghost made: seq<object>)
    requires if from == null then v.None? else v.Some? && ModuleAt(from, v.value, cells)
    ensures fresh(made) && Distinct(made)
    ensures if from == null then out == null && made == [] else out != null && ModuleAt(out, v.value, made)
    decreases v, 3
  {
    out, made := null, [];
    if from != null {
      out := new KsModule();
      made := DeepCopyInto(from, out, v.value, cells);
      made := [out] + made;
    }
  }

  /** The first i slots are copied, into cells of their own. */
  ghost predicate CopiedSoFar(out: array<KsModule?>, v: Module, i: nat, made: seq<object>)
    requires v.modules.Modules? && i <= |v.modules.slots| && i <= out.Length
    reads out, made
  {
    ModuleSlotsAt(out[..i], v, i, made) && out !in made && Distinct(made)
  }

  method CopyModuleSlot(from: array<KsModule?>, out: array<KsModule?>, i: nat,
                        ghost v: Module, ghost cells: seq<object>, ghost made: seq<object>)
      returns (ghost part: seq<object>)
    requires ModuleSliceAt(from, v, cells) && i < from.Length == out.Length
    requires CopiedSoFar(out, v, i, made)
    modifies out
    ensures fresh(part) && CopiedSoFar(out, v, i + 1, made + part)
    decreases v, 0, 0
  {
    ghost var done := out[..i];
    ghost var sub := ModuleSlotAt(from[..], v, from.Length, cells[1..], i);
    var m;
    m, part := DeepCopyModule(from[i], v.modules.slots[i], sub);
    DistinctConcat(made, part);
    out[i] := m;
    ModuleSlotsSnoc(done, v, i, made, m, part);
    assert out[..i + 1] == done + [m];
  }

  method CopyModuleSlots(from: array<KsModule?>, ghost v: Module, ghost cells: seq<object>)
      returns (out: array<KsModule?>, ghost made: seq<object>)
    requires ModuleSliceAt(from, v, cells)
    ensures fresh(out) && fresh(made) && out.Length == from.Length && CopiedSoFar(out, v, out.Length, made)
    decreases v, 0, 1
  {
    out, made := new KsModule?[from.Length](_ => null), [];
    for i := 0 to from.Length
      invariant fresh(made)
      invariant CopiedSoFar(out, v, i, made)
    {
      ghost var part := CopyModuleSlot(from, out, i, v, cells, made);
      made := made + part;
    }
  }

  method CopyModules(from: array?<KsModule?>, ghost v: Module, ghost cells: seq<object>)
      returns (out: array?<KsModule?>, ghost made: seq<object>)
    requires ModuleSliceAt(from, v, cells)
    ensures fresh(made) && Distinct(made)
    ensures ModuleSliceAt(out, v, made)
    decreases v, 1
  {
    out, made := null, [];
    if from != null {
      out, made := CopyModuleSlots(from, v, cells);
      assert out[..out.Length] == out[..];
      DistinctConcat([out], made);
      made := [out] + made;
    }
  }

  lemma ModuleParts(m: KsModule, v: Module, comps: seq<object>, mods: seq<object>)
    requires m.name == v.name && SliceAt(m.components, v.components, comps)
    requires |comps| == PointerSliceCells(v.components)
    requires ModuleSliceAt(m.modules, v, mods)
    ensures ModuleAt(m, v, [m] + (comps + mods))
  {
    var cells := [m] + (comps + mods);
    assert cells[1..1 + |comps|] == comps && cells[1 + |comps|..] == mods;
  }

  /** The copy shows the same module.  What it reaches was allocated by the call and no cell of it is reached
      twice; nothing else was written. */
  method DeepCopyInto(from: KsModule, out: KsModule, ghost v: Module, ghost cells: seq<object>)
      returns (ghost made: seq<object>)
    requires ModuleAt(from, v, cells) && out !in cells
    modifies out
    ensures ModuleAt(out, v, [out] + made)
    ensures fresh(made) && Distinct([out] + made)
    decreases v, 2
  {
    ghost var split := 1 + PointerSliceCells(v.components);
    var components, comps := CopyPointers(from.components, v.components, cells[1..split]);
    var modules, mods := CopyModules(from.modules, v, cells[split..]);
    out.name, out.components, out.modules := from.name, components, modules;
    made := comps + mods;
    DistinctConcat(comps, mods);
    DistinctConcat([out], made);
    ModuleParts(out, v, comps, mods);
  }

  // ---------- what the precondition asks

  lemma {:induction false} SlotsShowOneValue<T>(s: seq<Cell?<T>>, v: seq<Option<T>>, c: seq<object>,
                                                w: seq<Option<T>>, d: seq<object>)
    requires SlotsAt(s, v, c) && SlotsAt(s, w, d)
    ensures v == w && c == d
  {
    if s != [] {
      var last := |s| - 1;
      if s[last] == null {
        SlotsShowOneValue(s[..last], v[..last], c, w[..last], d);
      } else {
        SlotsShowOneValue(s[..last], v[..last], c[..|c| - 1], w[..last], d[..|d| - 1]);
        assert c == c[..|c| - 1] + [s[last]] && d == d[..|d| - 1] + [s[last]];
      }
      assert v == v[..last] + [v[last]] && w == w[..last] + [w[last]];
    }
  }

  lemma {:induction false} ModuleSlotsShowOneValue(s: seq<KsModule?>, v: Module, w: Module, k: nat, c: seq<object>,
      d: seq<object>)
    requires v.modules.Modules? && w.modules.Modules? && k <= |v.modules.slots| && k <= |w.modules.slots| && |s| == k
    requires ModuleSlotsAt(s, v, k, c) && ModuleSlotsAt(s, w, k, d)
    ensures v.modules.slots[..k] == w.modules.slots[..k] && c == d
    decreases v, 0, k
  {
    if k > 0 {
      var vs, ws := v.modules.slots, w.modules.slots;
      var i, j := FirstModuleCells(v, k - 1), FirstModuleCells(w, k - 1);
      ModuleSlotsShowOneValue(s[..k - 1], v, w, k - 1, c[..i], d[..j]);
      if s[k - 1] != null {
        ShowsOneValue(s[k - 1], vs[k - 1].value, c[i..], ws[k - 1].value, d[j..]);
      }
      assert vs[..k] == vs[..k - 1] + [vs[k - 1]] && ws[..k] == ws[..k - 1] + [ws[k - 1]];
      assert c == c[..i] + c[i..] && d == d[..j] + d[j..];
    }
  }

  /** A module shows at most one value, over one list of cells. */
  lemma {:induction false} ShowsOneValue(m: KsModule, v: Module, c: seq<object>, w: Module, d: seq<object>)
    requires ModuleAt(m, v, c) && ModuleAt(m, w, d)
    ensures v == w && c == d
    decreases v, 2
  {
    var i, j := 1 + PointerSliceCells(v.components), 1 + PointerSliceCells(w.components);
    if m.components != null {
      SlotsShowOneValue(m.components[..], v.components.value, c[1..i][1..], w.components.value, d[1..j][1..]);
    }
    assert c[1..i] == d[1..j];
    if m.modules != null {
      ModuleSlotsShowOneValue(m.modules[..], v, w, m.modules.Length, c[i..][1..], d[j..][1..]);
      assert v.modules.slots == v.modules.slots[..m.modules.Length];
      assert w.modules.slots == w.modules.slots[..m.modules.Length];
    }
    ThreeParts(c, i);
    ThreeParts(d, j);
  }

  lemma ThreeParts(x: seq<object>, i: nat)
    requires 1 <= i <= |x|
    ensures x == [x[0]] + x[1..i] + x[i..]
  {
  }

  lemma {:induction false} SlotsReachNoModule<T>(s: seq<Cell?<T>>, v: seq<Option<T>>, cells: seq<object>, m: KsModule)
    requires SlotsAt(s, v, cells)
    ensures m !in cells
  {
    if s != [] {
      var last := |s| - 1;
      if s[last] == null {
        SlotsReachNoModule(s[..last], v[..last], cells, m);
      } else {
        SlotsReachNoModule(s[..last], v[..last], cells[..|cells| - 1], m);
        var o: object := s[last];
        assert o != m;
      }
    }
  }

  lemma {:induction false} ReachedThroughSlots(s: seq<KsModule?>, v: Module, k: nat, cells: seq<object>, m: KsModule)
      returns (w: Module, sub: seq<object>)
    requires v.modules.Modules? && k <= |v.modules.slots| && |s| == k
    requires ModuleSlotsAt(s, v, k, cells) && m in cells
    ensures ModuleAt(m, w, sub) && |sub| <= |cells|
    decreases v, 0, k
  {
    var split := FirstModuleCells(v, k - 1);
    if m in cells[..split] {
      w, sub := ReachedThroughSlots(s[..k - 1], v, k - 1, cells[..split], m);
    } else {
      var slot := v.modules.slots[k - 1].value;
      if s[k - 1] == m {
        w, sub := slot, cells[split..];
      } else {
        w, sub := Reached(s[k - 1], slot, cells[split..], m);
      }
    }
  }

  lemma {:induction false} Reached(m: KsModule, v: Module, cells: seq<object>, inner: KsModule)
      returns (w: Module, sub: seq<object>)
    requires ModuleAt(m, v, cells) && inner in cells[1..]
    ensures ModuleAt(inner, w, sub) && |sub| < |cells|
    decreases v, 2
  {
    var split := 1 + PointerSliceCells(v.components);
    assert cells[1..] == cells[1..split] + cells[split..];
    if m.components != null {
      SlotsReachNoModule(m.components[..], v.components.value, cells[1..split][1..], inner);
      assert inner !in cells[1..split];
    }
    w, sub := ReachedThroughSlots(m.modules[..], v, m.modules.Length, cells[split..][1..], inner);
  }

  /** Only a module that does not contain itself, however deep, shows a value. */
  lemma NoModuleContainsItself(m: KsModule, v: Module, cells: seq<object>)
    requires ModuleAt(m, v, cells)
    ensures m !in cells[1..]
  {
    if m in cells[1..] {
      var w, sub := Reached(m, v, cells, m);
      ShowsOneValue(m, v, cells, w, sub);
    }
  }

  // ---------- every module that does not contain itself shows a value

  lemma {:induction false} PointersShow<T>(s: seq<Cell?<T>>) returns (v: seq<Option<T>>, cells: seq<object>)
    ensures SlotsAt(s, v, cells)
  {
    v, cells := [], [];
    if s != [] {
      var last := |s| - 1;
      v, cells := PointersShow(s[..last]);
      SlotsSnoc(s[..last], v, cells, s[last]);
      assert s == s[..last] + [s[last]];
      if s[last] == null {
        v := v + [None];
      } else {
        v, cells := v + [Some(s[last].value)], cells + [s[last]];
      }
    }
  }

  /** The modules reached lie in s, and every module ranks above its submodules. */
  ghost predicate Ranked(s: set<KsModule>, rank: map<KsModule, nat>)
    reads s, set m | m in s :: m.modules
  {
    && s <= rank.Keys
    && forall m, i | m in s && m.modules != null && 0 <= i < m.modules.Length && m.modules[i] != null ::
      m.modules[i] in s && rank[m.modules[i]] < rank[m]
  }

  ghost predicate SlotShown(m: KsModule?, v: Option<Module>, part: seq<object>)
    reads part
  {
    if m == null then v.None? && part == [] else v.Some? && ModuleAt(m, v.value, part)
  }

  lemma {:induction false} ModulesShow(slots: seq<KsModule?>, s: set<KsModule>, rank: map<KsModule, nat>, bound: nat)
      returns (vs: seq<Option<Module>>, parts: seq<seq<object>>)
    requires Ranked(s, rank)
    requires forall m: KsModule | m in slots :: m in s && rank[m] < bound
    ensures |vs| == |parts| == |slots|
    ensures forall i | 0 <= i < |slots| :: SlotShown(slots[i], vs[i], parts[i])
    decreases bound, 0, |slots|
  {
    vs, parts := [], [];
    if slots != [] {
      var last := |slots| - 1;
      vs, parts := ModulesShow(slots[..last], s, rank, bound);
      if slots[last] == null {
        vs, parts := vs + [None], parts + [[]];
      } else {
        var v, part := EveryRankedModuleShows(slots[last], s, rank);
        vs, parts := vs + [Some(v)], parts + [part];
      }
    }
  }

  lemma {:induction false} Assembled(slots: seq<KsModule?>, v: Module, parts: seq<seq<object>>, k: nat)
      returns (cells: seq<object>)
    requires v.modules.Modules? && |v.modules.slots| == |slots| == |parts| && k <= |slots|
    requires forall i | 0 <= i < |slots| :: SlotShown(slots[i], v.modules.slots[i], parts[i])
    ensures ModuleSlotsAt(slots[..k], v, k, cells)
  {
    cells := [];
    if k > 0 {
      cells := Assembled(slots, v, parts, k - 1);
      ModuleSlotsSnoc(slots[..k - 1], v, k - 1, cells, slots[k - 1], parts[k - 1]);
      assert slots[..k] == slots[..k - 1] + [slots[k - 1]];
      cells := cells + parts[k - 1];
    }
  }

  /** A finite tree, or any sharing without a cycle, always has a value. */
  lemma {:induction false} EveryRankedModuleShows(m: KsModule, s: set<KsModule>, rank: map<KsModule, nat>)
      returns (v: Module, cells: seq<object>)
    requires Ranked(s, rank) && m in s
    ensures ModuleAt(m, v, cells)
    decreases rank[m], 1, 0
  {
    var components, comps := None, [];
    if m.components != null {
      var values, made := PointersShow(m.components[..]);
      SlotCount(m.components[..], values, made);
      components, comps := Some(values), [m.components as object] + made;
      assert comps[1..] == made;
    }
    var modules, mods := NoModules, [];
    v := Module(m.name, components, modules);
    if m.modules != null {
      var vs, parts := ModulesShow(m.modules[..], s, rank, rank[m]);
      v := Module(m.name, components, Modules(vs));
      var made := Assembled(m.modules[..], v, parts, m.modules.Length);
      assert m.modules[..][..m.modules.Length] == m.modules[..];
      mods := [m.modules as object] + made;
      assert mods[1..] == made;
    }
    ModuleParts(m, v, comps, mods);
    cells := [m] + (comps + mods);
  }

  // ---------- a module shows a value exactly when nothing it contains contains itself

  ghost predicate Sub(m: KsModule, c: KsModule)
    reads m, m.modules
  {
    m.modules != null && c in m.modules[..]
  }

  ghost predicate Closed(s: set<KsModule>)
    reads s, set m | m in s :: m.modules
  {
    forall m, i | m in s && m.modules != null && 0 <= i < m.modules.Length && m.modules[i] != null :: m.modules[i] in s
  }

  /** x lies n + 1 levels below m. */
  ghost predicate LevelsBelow(s: set<KsModule>, m: KsModule, x: KsModule, n: nat)
    requires m in s
    reads s, set m | m in s :: m.modules
  {
    if n == 0 then Sub(m, x) else exists c | c in s :: Sub(m, c) && LevelsBelow(s, c, x, n - 1)
  }

  ghost predicate Below(s: set<KsModule>, m: KsModule, x: KsModule)
    requires m in s
    reads s, set m | m in s :: m.modules
  {
    exists n: nat :: LevelsBelow(s, m, x, n)
  }

  /** Neither m nor any module below it lies below itself. */
  ghost predicate Acyclic(s: set<KsModule>, m: KsModule)
    requires m in s
    reads s, set m | m in s :: m.modules
  {
    forall x | x in s && (x == m || Below(s, m, x)) :: !Below(s, x, x)
  }

  ghost function AllBelow(s: set<KsModule>, m: KsModule): set<KsModule>
    requires m in s
    reads s, set m | m in s :: m.modules
  {
    set x | x in s && Below(s, m, x)
  }

  lemma FewerBelow(s: set<KsModule>, m: KsModule, c: KsModule)
    requires m in s && c in s && Sub(m, c) && !Below(s, c, c)
    ensures |AllBelow(s, c)| < |AllBelow(s, m)|
  {
    assert LevelsBelow(s, m, c, 0);
    forall x | x in AllBelow(s, c) ensures x in AllBelow(s, m) {
      var n: nat :| LevelsBelow(s, c, x, n);
      assert LevelsBelow(s, m, x, n + 1);
    }
    var less, more := AllBelow(s, c), AllBelow(s, m);
    assert c in more - less && more == less + (more - less) && |more| == |less| + |more - less|;
  }

  lemma {:induction false} BelowIsReached(s: set<KsModule>, m: KsModule, x: KsModule, n: nat, v: Module,
      cells: seq<object>)
    requires m in s && LevelsBelow(s, m, x, n) && ModuleAt(m, v, cells)
    ensures x in cells[1..]
    decreases n
  {
    var c :| Sub(m, c) && if n == 0 then c == x else c in s && LevelsBelow(s, c, x, n - 1);
    var i: nat :| i < m.modules.Length && m.modules[i] == c;
    var split := 1 + PointerSliceCells(v.components);
    var sub := ModuleSlotAt(m.modules[..], v, m.modules.Length, cells[split..][1..], i);
    assert sub[0] == c;
    if n > 0 {
      BelowIsReached(s, c, x, n - 1, v.modules.slots[i].value, sub);
    }
    assert x in sub;
  }

  /** A module can be copied exactly when neither it nor anything below it lies below itself. */
  lemma ShowsExactlyWithoutCycles(s: set<KsModule>, m: KsModule)
    requires Closed(s) && m in s
    ensures (exists v, cells :: ModuleAt(m, v, cells)) ==> Acyclic(s, m)
    ensures Acyclic(s, m) ==> exists v, cells :: ModuleAt(m, v, cells)
  {
    if v, cells :| ModuleAt(m, v, cells) {
      forall x | x in s && (x == m || Below(s, m, x)) ensures !Below(s, x, x) {
        NothingReachedIsBelowItself(s, m, v, cells, x);
      }
    }
    if Acyclic(s, m) {
      var v, cells := AcyclicModuleShows(s, m);
      assert ModuleAt(m, v, cells);
    }
  }

  lemma NothingReachedIsBelowItself(s: set<KsModule>, m: KsModule, v: Module, cells: seq<object>, x: KsModule)
    requires m in s && x in s && ModuleAt(m, v, cells) && (x == m || Below(s, m, x))
    ensures !Below(s, x, x)
  {
    var w, sub := v, cells;
    if x != m {
      var n: nat :| LevelsBelow(s, m, x, n);
      BelowIsReached(s, m, x, n, v, cells);
      w, sub := Reached(m, v, cells, x);
    }
    NoModuleContainsItself(x, w, sub);
    forall n: nat | LevelsBelow(s, x, x, n) ensures false {
      BelowIsReached(s, x, x, n, w, sub);
    }
  }

  lemma AcyclicModuleShows(s: set<KsModule>, m: KsModule) returns (v: Module, cells: seq<object>)
    requires Closed(s) && m in s && Acyclic(s, m)
    ensures ModuleAt(m, v, cells)
  {
    var part := set x | x in s && (x == m || Below(s, m, x));
    var rank := map x | x in part :: |AllBelow(s, x)|;
    forall p, i | p in part && p.modules != null && 0 <= i < p.modules.Length && p.modules[i] != null
      ensures p.modules[i] in part && rank[p.modules[i]] < rank[p]
    {
      BelowStays(s, m, p, p.modules[i]);
      FewerBelow(s, p, p.modules[i]);
    }
    v, cells := EveryRankedModuleShows(m, part, rank);
  }

  lemma BelowStays(s: set<KsModule>, m: KsModule, p: KsModule, c: KsModule)
    requires Closed(s) && m in s && p in s && (p == m || Below(s, m, p)) && Sub(p, c)
    ensures c in s && Below(s, m, c)
  {
    if p == m {
      assert LevelsBelow(s, m, c, 0);
    } else {
      var n: nat :| LevelsBelow(s, m, p, n);
      OneLevelFurther(s, m, p, c, n);
    }
  }

  lemma {:induction false} OneLevelFurther(s: set<KsModule>, m: KsModule, p: KsModule, c: KsModule, n: nat)
    requires Closed(s) && m in s && p in s && LevelsBelow(s, m, p, n) && Sub(p, c)
    ensures LevelsBelow(s, m, c, n + 1)
    decreases n
  {
    if n == 0 {
      assert LevelsBelow(s, p, c, 0);
    } else {
      var d :| d in s && Sub(m, d) && LevelsBelow(s, d, p, n - 1);
      OneLevelFurther(s, d, p, c, n - 1);
    }
  }
}
