/** The numbered data volumes of the notebook form, from the page to the backend loops that read them.

    A removed volume stays on the page, fading, until its animation ends.  Both pages share the algorithm; they
    differ only in the texts they give a renumbered volume.
*/
module VolumeNumbers {
  import opened Wrappers
  import opened SpawnerForm

  /** What the inputs of a volume submit; a disabled size or access mode submits nothing. */
  datatype Texts = Texts(kind: string, name: string, size: Option<string>, mountPath: string,
      accessModes: Option<string>) {
    function At(f: Field): Option<string> {
      match f
      case Type => Some(kind)
      case Name => Some(name)
      case Size => size
      case MountPath => Some(mountPath)
      case AccessModes => accessModes
    }
  }

  /** The numbers in the names of the inputs. */
  datatype Inputs = Inputs(kind: int, name: int, size: int, mountPath: int, accessModes: int) {
    function At(f: Field): int {
      match f
      case Type => kind
      case Name => name
      case Size => size
      case MountPath => mountPath
      case AccessModes => accessModes
    }
  }

  datatype Element = Element(
    number: int,       // in the class of the element
    button: int,       // in the call its delete button makes
    inputs: Inputs,
    texts: Texts,
    fixedName: bool, fixedPath: bool,   // set by the administrator
    fading: bool)
  {
    predicate Consistent() {
      button == number && inputs == Inputs(number, number, number, number, number)
    }
  }

  /** The texts a page gives to the volume of some number. */
  datatype Labels = Labels(name: int -> string, mountPath: int -> string)

  function Swap(n: int, from: int, to: int): int {
    if n == from then to else n
  }

  /** Whether the first element of this number has its name, or its path, fixed: the page asks only the first. */
  predicate NameFixed(page: seq<Element>, number: int) {
    page != [] && if page[0].number == number then page[0].fixedName else NameFixed(page[1..], number)
  }

  predicate PathFixed(page: seq<Element>, number: int) {
    page != [] && if page[0].number == number then page[0].fixedPath else PathFixed(page[1..], number)
  }

  lemma {:induction false} SameFixed(x: seq<Element>, y: seq<Element>, number: int)
    requires |x| == |y|
    requires forall k | 0 <= k < |x| ::
               && (x[k].number == number <==> y[k].number == number)
               && x[k].fixedName == y[k].fixedName && x[k].fixedPath == y[k].fixedPath
    ensures NameFixed(x, number) == NameFixed(y, number) && PathFixed(x, number) == PathFixed(y, number)
  {
    if x != [] {
      SameFixed(x[1..], y[1..], number);
    }
  }

  /** One round of the renumbering loop, on one element. */
  function Shifted(labels: Labels, e: Element, i: int, fixedName: bool, fixedPath: bool): Element {
    if e.number != i + 1 then e
    else
      e.(number := i, button := Swap(e.button, i + 1, i),
         inputs := Inputs(Swap(e.inputs.kind, i + 1, i), Swap(e.inputs.name, i + 1, i), Swap(e.inputs.size, i + 1, i),
                          Swap(e.inputs.mountPath, i + 1, i), Swap(e.inputs.accessModes, i + 1, i)),
         texts := e.texts.(name := if fixedName then e.texts.name else labels.name(i),
                           mountPath := if fixedPath then e.texts.mountPath else labels.mountPath(i)))
  }

  datatype Page = Page(counter: int, elements: seq<Element>)

  /** What removing id makes of one element of the page: it starts to fade, moves up by one, or stays. */
  function Removed(labels: Labels, page: seq<Element>, e: Element, id: int, counter: int): Element {
    if e.number == id then e.(fading := true)
    else if id < e.number <= counter then
      Shifted(labels, e, e.number - 1, NameFixed(page, e.number), PathFixed(page, e.number))
    else e
  }

  /** The same for a part of the page. */
  function RemovedPart(labels: Labels, page: seq<Element>, s: seq<Element>, id: int, counter: int): (r: seq<Element>)
    ensures |r| == |s|
  {
    seq(|s|, k requires 0 <= k < |s| => Removed(labels, page, s[k], id, counter))
  }

  function RemovedAll(labels: Labels, page: seq<Element>, id: int, counter: int): (r: seq<Element>)
    ensures |r| == |page|
  {
    RemovedPart(labels, page, page, id, counter)
  }

  function Faded(s: seq<Element>, id: int): seq<Element> {
    seq(|s|, k requires 0 <= k < |s| => if s[k].number == id then s[k].(fading := true) else s[k])
  }

  /** One round of the renumbering loop. */
  function ShiftedAll(labels: Labels, page: seq<Element>, i: int): seq<Element> {
    var fixedName, fixedPath := NameFixed(page, i + 1), PathFixed(page, i + 1);
    seq(|page|, k requires 0 <= k < |page| => Shifted(labels, page[k], i, fixedName, fixedPath))
  }

  // A round takes the page from the removal up to number i to the removal up to number i + 1.
  lemma NextRound(labels: Labels, page: seq<Element>, id: int, i: int)
    requires id <= i
    ensures ShiftedAll(labels, RemovedAll(labels, page, id, i), i) == RemovedAll(labels, page, id, i + 1)
  {
    SameFixed(RemovedAll(labels, page, id, i), page, i + 1);
  }

  lemma SameRounds(labels: Labels, page: seq<Element>, id: int, i: int, counter: int)
    requires i == counter || (i == id && counter <= id)
    ensures RemovedAll(labels, page, id, i) == RemovedAll(labels, page, id, counter)
  {
  }

  function NewElement(number: int, texts: Texts, fixedName: bool, fixedPath: bool): Element {
    Element(number, number, Inputs(number, number, number, number, number), texts, fixedName, fixedPath, false)
  }

  class VolumeForm {
    const labels: Labels
    var counter: int
    var elements: seq<Element>

    constructor (labels: Labels)
      ensures this.labels == labels && Now() == Page(0, [])
    {
      this.labels, counter, elements := labels, 0, [];
    }

    function Now(): Page
      reads this
    {
      Page(counter, elements)
    }

    method AddVolume(texts: Texts, fixedName: bool, fixedPath: bool)
      modifies this
      ensures Now() == old(Page(counter + 1, elements + [NewElement(counter + 1, texts, fixedName, fixedPath)]))
    {
      counter := counter + 1;
      elements := elements + [NewElement(counter, texts, fixedName, fixedPath)];
    }

    method RemoveVolume(id: int)
      modifies this
      ensures Now() == old(Page(counter - 1, RemovedAll(labels, elements, id, counter)))
    {
      ghost var was := elements;
      elements := Faded(elements, id);
      counter := counter - 1;
      var i := id;
      while i <= counter
        invariant counter == old(counter) - 1
        invariant i == id || id <= i <= counter + 1
        invariant elements == RemovedAll(labels, was, id, i)
      {
        NextRound(labels, was, id, i);
        elements := ShiftedAll(labels, elements, i);
        i := i + 1;
      }
      SameRounds(labels, was, id, i, old(counter));
    }

    /** A fade ends: the element leaves the page. */
    method FadeDone(k: nat)
      requires k < |elements| && elements[k].fading
      modifies this
      ensures Now() == old(Page(counter, elements[..k] + elements[k + 1..]))
    {
      elements := elements[..k] + elements[k + 1..];
    }
  }

  // ---------- the numbering invariant

  function LiveCount(s: seq<Element>): nat {
    if s == [] then 0 else LiveCount(s[..|s| - 1]) + if s[|s| - 1].fading then 0 else 1
  }

  /** The live elements carry 1, 2, 3, … in page order, each in all its parts.  A fading one is only required to be
      consistent. */
  ghost predicate InOrder(s: seq<Element>) {
    s == []
    || (&& InOrder(s[..|s| - 1])
        && s[|s| - 1].Consistent() && 1 <= s[|s| - 1].number
        && (!s[|s| - 1].fading ==> s[|s| - 1].number == LiveCount(s[..|s| - 1]) + 1))
  }

  ghost predicate Numbered(p: Page) {
    InOrder(p.elements) && LiveCount(p.elements) == p.counter
  }

  // Removing a number that is present, as seen by a part of the page.
  lemma {:induction false} RemovedInOrder(labels: Labels, page: seq<Element>, s: seq<Element>, id: int, counter: int)
    requires InOrder(s) && LiveCount(s) <= counter && 1 <= id <= counter
    ensures var r := RemovedPart(labels, page, s, id, counter);
            InOrder(r) && LiveCount(r) == if id <= LiveCount(s) then LiveCount(s) - 1 else LiveCount(s)
  {
    if s != [] {
      var front := s[..|s| - 1];
      RemovedInOrder(labels, page, front, id, counter);
      var r := RemovedPart(labels, page, s, id, counter);
      assert r[..|r| - 1] == RemovedPart(labels, page, front, id, counter);
    }
  }

  // A number that no live element has takes none off the page.
  lemma {:induction false} NothingRemoved(labels: Labels, page: seq<Element>, s: seq<Element>, id: int, counter: int)
    requires InOrder(s) && !(1 <= id <= LiveCount(s))
    ensures LiveCount(RemovedPart(labels, page, s, id, counter)) == LiveCount(s)
  {
    if s != [] {
      var front := s[..|s| - 1];
      NothingRemoved(labels, page, front, id, counter);
      var r := RemovedPart(labels, page, s, id, counter);
      assert r[..|r| - 1] == RemovedPart(labels, page, front, id, counter);
    }
  }

  /** Removing keeps the numbering exactly when the number lies between one and the counter. */
  lemma RemovalKeepsNumbers(labels: Labels, p: Page, id: int)
    requires Numbered(p)
    ensures Numbered(Page(p.counter - 1, RemovedAll(labels, p.elements, id, p.counter))) <==> 1 <= id <= p.counter
  {
    if 1 <= id <= p.counter {
      RemovedInOrder(labels, p.elements, p.elements, id, p.counter);
    } else {
      NothingRemoved(labels, p.elements, p.elements, id, p.counter);
    }
  }

  lemma {:induction false} LiveNumber(s: seq<Element>, k: nat)
    requires InOrder(s) && k < |s|
    ensures s[k].Consistent() && 1 <= s[k].number
    ensures !s[k].fading ==> 1 <= s[k].number <= LiveCount(s) && s[k].number == LiveCount(s[..k]) + 1
  {
    var front := s[..|s| - 1];
    if k < |front| {
      LiveNumber(front, k);
      assert front[..k] == s[..k];
    }
  }

  lemma {:induction false} DroppedInOrder(s: seq<Element>, k: nat)
    requires InOrder(s) && k < |s| && s[k].fading
    ensures InOrder(s[..k] + s[k + 1..]) && LiveCount(s[..k] + s[k + 1..]) == LiveCount(s)
  {
    var front, last := s[..|s| - 1], s[|s| - 1];
    if k == |front| {
      assert s[..k] + s[k + 1..] == front;
    } else {
      DroppedInOrder(front, k);
      var r := s[..k] + s[k + 1..];
      assert r[..|r| - 1] == front[..k] + front[k + 1..] && r[|r| - 1] == last;
    }
  }

  // ---------- runs

  /** The user adds a volume, clicks the delete button of an element that is still on the page, or types; or a fade
      ends. */
  datatype Op =
    | Add(texts: Texts, fixedName: bool, fixedPath: bool)
    | Click(element: nat)
    | Edit(element: nat, texts: Texts)
    | Fade(element: nat)

  predicate Possible(p: Page, op: Op) {
    match op
    case Add(_, _, _) => true
    case Click(k) => k < |p.elements|
    case Edit(k, _) => k < |p.elements|
    case Fade(k) => k < |p.elements| && p.elements[k].fading
  }

  function After(labels: Labels, p: Page, op: Op): Page
    requires Possible(p, op)
  {
    match op
    case Add(texts, fixedName, fixedPath) =>
      Page(p.counter + 1, p.elements + [NewElement(p.counter + 1, texts, fixedName, fixedPath)])
    case Click(k) => Page(p.counter - 1, RemovedAll(labels, p.elements, p.elements[k].button, p.counter))
    case Edit(k, texts) => p.(elements := p.elements[k := p.elements[k].(texts := texts)])
    case Fade(k) => p.(elements := p.elements[..k] + p.elements[k + 1..])
  }

  /** The guard: a clicked button stands for a number up to the counter. */
  predicate Guarded(p: Page, op: Op) {
    op.Click? && op.element < |p.elements| ==> p.elements[op.element].button <= p.counter
  }

  lemma {:induction false} EditedInOrder(s: seq<Element>, k: nat, texts: Texts)
    requires InOrder(s) && k < |s|
    ensures InOrder(s[k := s[k].(texts := texts)]) && LiveCount(s[k := s[k].(texts := texts)]) == LiveCount(s)
  {
    var front := s[..|s| - 1];
    var r := s[k := s[k].(texts := texts)];
    if k < |front| {
      EditedInOrder(front, k, texts);
      assert r[..|r| - 1] == front[k := s[k].(texts := texts)];
    } else {
      assert r[..|r| - 1] == front;
    }
  }

  /** Every operation but one keeps the numbering: the click on a button whose number has left the range, which
      always breaks it. */
  lemma StepKeepsNumbers(labels: Labels, p: Page, op: Op)
    requires Numbered(p) && Possible(p, op)
    ensures Numbered(After(labels, p, op)) <==> Guarded(p, op)
  {
    match op {
      case Add(texts, fixedName, fixedPath) =>
        var q := After(labels, p, op);
        assert q.elements[..|q.elements| - 1] == p.elements;
      case Click(k) =>
        LiveNumber(p.elements, k);
        RemovalKeepsNumbers(labels, p, p.elements[k].button);
      case Edit(k, texts) =>
        EditedInOrder(p.elements, k, texts);
      case Fade(k) =>
        DroppedInOrder(p.elements, k);
    }
  }

  /** The button of a live volume is always within the guard. */
  lemma LiveButtonsAreGuarded(p: Page, k: nat)
    requires Numbered(p) && k < |p.elements| && !p.elements[k].fading
    ensures Guarded(p, Click(k))
  {
    LiveNumber(p.elements, k);
  }

  ghost predicate RunFrom(labels: Labels, p: Page, ops: seq<Op>, end: Page)
    decreases |ops|
  {
    if ops == [] then p == end
    else Possible(p, ops[0]) && Guarded(p, ops[0]) && RunFrom(labels, After(labels, p, ops[0]), ops[1..], end)
  }

  /** Over every guarded run, whatever fades overlap, the live volumes are numbered 1 to the counter. */
  lemma {:induction false} RunsKeepNumbers(labels: Labels, p: Page, ops: seq<Op>, end: Page)
    requires Numbered(p) && RunFrom(labels, p, ops, end)
    ensures Numbered(end)
    decreases |ops|
  {
    if ops != [] {
      StepKeepsNumbers(labels, p, ops[0]);
      RunsKeepNumbers(labels, After(labels, p, ops[0]), ops[1..], end);
    }
  }

  /** A double click on the only volume: its counter goes to minus one, and the next volume is number zero. */
  lemma DoubleClickBreaksTheNumbers(labels: Labels, texts: Texts)
    ensures var one := After(labels, Page(0, []), Add(texts, false, false));
            var twice := After(labels, After(labels, one, Click(0)), Click(0));
            && Numbered(one) && Numbered(After(labels, one, Click(0))) && !Numbered(twice)
            && After(labels, twice, Add(texts, false, false)).elements[1].number == 0
  {
    assert Numbered(Page(0, []));
    StepKeepsNumbers(labels, Page(0, []), Add(texts, false, false));
    var one := After(labels, Page(0, []), Add(texts, false, false));
    StepKeepsNumbers(labels, one, Click(0));
  }

  lemma {:induction false} LiveCountGrows(s: seq<Element>, j: nat, k: nat)
    requires j < k <= |s|
    ensures LiveCount(s[..j]) + (if s[j].fading then 0 else 1) <= LiveCount(s[..k])
    decreases k
  {
    assert s[..k][..k - 1] == s[..k - 1];
    if j < k - 1 {
      LiveCountGrows(s, j, k - 1);
    }
  }

  lemma {:induction false} LiveWithNumber(s: seq<Element>, number: int) returns (k: nat)
    requires InOrder(s) && 1 <= number <= LiveCount(s)
    ensures k < |s| && !s[k].fading && s[k].number == number
  {
    var last := |s| - 1;
    if !s[last].fading && s[last].number == number {
      k := last;
    } else {
      k := LiveWithNumber(s[..last], number);
    }
  }

  lemma OneLiveElementPerNumber(s: seq<Element>, k: nat, j: nat)
    requires InOrder(s) && k < |s| && j < |s| && !s[k].fading && !s[j].fading && s[k].number == s[j].number
    ensures k == j
  {
    LiveNumber(s, k);
    LiveNumber(s, j);
    if j < k {
      LiveCountGrows(s, j, k);
    } else if k < j {
      LiveCountGrows(s, k, j);
    }
  }

  /** The click takes its own volume off the page and no other. */
  ghost predicate TakesOnly(labels: Labels, p: Page, k: nat)
    requires k < |p.elements|
  {
    forall j | 0 <= j < |p.elements| ::
      After(labels, p, Click(k)).elements[j].fading <==> p.elements[j].fading || j == k
  }

  /** A click takes its own volume and no other exactly when that volume was live, or was fading under a number
      that no live volume has any more. */
  lemma ClickTakesOne(labels: Labels, p: Page, k: nat)
    requires Numbered(p) && k < |p.elements|
    ensures TakesOnly(labels, p, k) <==> !p.elements[k].fading || p.elements[k].button > p.counter
  {
    var s, e := p.elements, p.elements[k];
    LiveNumber(s, k);
    if e.fading && e.button <= p.counter {
      var j := LiveWithNumber(s, e.number);
      assert After(labels, p, Click(k)).elements[j].fading;
    } else {
      forall j: nat | j < |s| ensures After(labels, p, Click(k)).elements[j].fading <==> s[j].fading || j == k {
        LiveNumber(s, j);
        if !e.fading && !s[j].fading && s[j].number == e.number {
          OneLiveElementPerNumber(s, k, j);
        }
      }
    }
  }

  /** Every click on a volume that is already fading does harm: it takes a neighbour, or it breaks the numbering. */
  lemma SecondClicksHarm(labels: Labels, p: Page, k: nat)
    requires Numbered(p) && k < |p.elements| && p.elements[k].fading
    ensures TakesOnly(labels, p, k) <==> !Numbered(After(labels, p, Click(k)))
  {
    ClickTakesOne(labels, p, k);
    StepKeepsNumbers(labels, p, Click(k));
  }

  /** Two volumes and a double click on the first: the numbering holds, and the second volume is gone too. */
  lemma DoubleClickTakesTheNeighbour(labels: Labels, texts: Texts)
    ensures var two := After(labels, After(labels, Page(0, []), Add(texts, false, false)), Add(texts, false, false));
            var once := After(labels, two, Click(0));
            && !once.elements[1].fading && Guarded(once, Click(0))
            && var twice := After(labels, once, Click(0));
               twice.elements[1].fading && Numbered(twice)
  {
    var one := After(labels, Page(0, []), Add(texts, false, false));
    var two := After(labels, one, Add(texts, false, false));
    StepKeepsNumbers(labels, Page(0, []), Add(texts, false, false));
    StepKeepsNumbers(labels, one, Add(texts, false, false));
    StepKeepsNumbers(labels, two, Click(0));
    StepKeepsNumbers(labels, After(labels, two, Click(0)), Click(0));
  }

  /** A click moves no element, and changes no volume's type, size or access mode. */
  lemma ClickKeepsTheRest(labels: Labels, p: Page, k: nat, j: nat)
    requires k < |p.elements| && j < |p.elements|
    ensures var q := After(labels, p, Click(k));
            && |q.elements| == |p.elements|
            && q.elements[j].texts.kind == p.elements[j].texts.kind
            && q.elements[j].texts.size == p.elements[j].texts.size
            && q.elements[j].texts.accessModes == p.elements[j].texts.accessModes
  {
  }

  /** Whatever texts the page gives renumbered volumes, a click leaves this element's name, or its path, as it is
      exactly when the element is not moved up, or when the first element of its number has that text fixed. */
  lemma TextsSurviveExactly(p: Page, k: nat, j: nat)
    requires k < |p.elements| && j < |p.elements|
    ensures var id, e := p.elements[k].button, p.elements[j];
            var moved := id < e.number <= p.counter;
            && ((forall labels :: After(labels, p, Click(k)).elements[j].texts.name == e.texts.name)
                <==> !moved || NameFixed(p.elements, e.number))
            && ((forall labels :: After(labels, p, Click(k)).elements[j].texts.mountPath == e.texts.mountPath)
                <==> !moved || PathFixed(p.elements, e.number))
  {
    var texts := p.elements[j].texts;
    var labels := Labels(_ => texts.name + "x", _ => texts.mountPath + "x");
    assert |labels.name(0)| > |texts.name| && |labels.mountPath(0)| > |texts.mountPath|;
    var q := After(labels, p, Click(k));
    assert q.elements[j].texts.name in {texts.name, texts.name + "x"};
    assert q.elements[j].texts.mountPath in {texts.mountPath, texts.mountPath + "x"};
  }

  lemma {:induction false} FirstOfItsNumber(s: seq<Element>, j: nat)
    requires j < |s| && forall i | 0 <= i < j :: s[i].number != s[j].number
    ensures NameFixed(s, s[j].number) == s[j].fixedName && PathFixed(s, s[j].number) == s[j].fixedPath
  {
    if j > 0 {
      FirstOfItsNumber(s[1..], j - 1);
    }
  }

  /** While nothing fades, no click changes a text that the administrator fixed. */
  lemma FixedTextsSurvive(labels: Labels, p: Page, k: nat, j: nat)
    requires Numbered(p) && k < |p.elements| && j < |p.elements|
    requires forall i | 0 <= i < |p.elements| :: !p.elements[i].fading
    ensures var e, e' := p.elements[j], After(labels, p, Click(k)).elements[j];
            && (e.fixedName ==> e'.texts.name == e.texts.name)
            && (e.fixedPath ==> e'.texts.mountPath == e.texts.mountPath)
  {
    forall i: nat | i < j ensures p.elements[i].number != p.elements[j].number {
      if p.elements[i].number == p.elements[j].number {
        OneLiveElementPerNumber(p.elements, i, j);
      }
    }
    FirstOfItsNumber(p.elements, j);
  }

  /** The page after two free volumes and a fixed one were added. */
  function TwoFreeOneFixed(labels: Labels, free: Texts, fixed: Texts): Page {
    After(labels, After(labels, After(labels, Page(0, []), Add(free, false, false)), Add(free, false, false)),
          Add(fixed, true, true))
  }

  /** There the second is removed, then the first before the fade ends.  Both clicks are on live volumes, and the
      fixed name of the third is overwritten. */
  lemma FadingVolumeUnfixesAName(labels: Labels, free: Texts, fixed: Texts)
    ensures var p := TwoFreeOneFixed(labels, free, fixed);
            var once := After(labels, p, Click(1));
            var twice := After(labels, once, Click(0));
            && Numbered(p) && Numbered(once) && Numbered(twice)
            && !p.elements[1].fading && !once.elements[0].fading
            && twice.elements[2].fixedName && twice.elements[2].texts.name == labels.name(1)
            && twice.elements[2].fixedPath && twice.elements[2].texts.mountPath == labels.mountPath(1)
  {
    var one := After(labels, Page(0, []), Add(free, false, false));
    var two := After(labels, one, Add(free, false, false));
    var p := TwoFreeOneFixed(labels, free, fixed);
    StepKeepsNumbers(labels, Page(0, []), Add(free, false, false));
    StepKeepsNumbers(labels, one, Add(free, false, false));
    StepKeepsNumbers(labels, two, Add(fixed, true, true));
    assert p.elements == [NewElement(1, free, false, false), NewElement(2, free, false, false),
                          NewElement(3, fixed, true, true)];
    StepKeepsNumbers(labels, p, Click(1));
    var once := After(labels, p, Click(1));
    StepKeepsNumbers(labels, once, Click(0));
    assert once.elements[0].number == 1 && once.elements[1].number == once.elements[2].number == 2;
    assert once.elements[1..][0] == once.elements[1];
    assert NameFixed(once.elements, 2) == NameFixed(once.elements[1..], 2) == false;
    assert PathFixed(once.elements, 2) == PathFixed(once.elements[1..], 2) == false;
  }

  // ---------- submitting the page

  function Put(form: Form, e: Element, f: Field): Form {
    match e.texts.At(f)
    case None => form
    case Some(text) => form[Volume(f, e.inputs.At(f)) := text]
  }

  function Submit(form: Form, e: Element): Form {
    Put(Put(Put(Put(Put(form, e, Type), e, Name), e, Size), e, MountPath), e, AccessModes)
  }

  function Submitted(base: Form, s: seq<Element>): Form {
    if s == [] then base else Submit(Submitted(base, s[..|s| - 1]), s[|s| - 1])
  }

  function Lookup(form: Form, key: Key): Option<string> {
    if key in form then Some(form[key]) else None
  }

  lemma SubmitAdds(form: Form, e: Element, key: Key)
    requires e.Consistent()
    ensures Lookup(Submit(form, e), key) ==
              if key.Volume? && key.number == e.number && e.texts.At(key.field).Some? then e.texts.At(key.field)
              else Lookup(form, key)
  {
  }

  ghost predicate Settled(s: seq<Element>) {
    forall k | 0 <= k < |s| :: s[k].Consistent() && s[k].number == k + 1
  }

  /** Once the fades are over, the numbered elements stand at their numbers. */
  lemma {:induction false} FadesOver(p: Page)
    requires Numbered(p) && forall k | 0 <= k < |p.elements| :: !p.elements[k].fading
    ensures Settled(p.elements) && |p.elements| == p.counter
    decreases |p.elements|
  {
    var s := p.elements;
    if s != [] {
      FadesOver(Page(p.counter - 1, s[..|s| - 1]));
    }
  }

  ghost predicate WithoutVolumes(base: Form) {
    forall key | key in base :: !key.Volume? && !key.TypeLike?
  }

  lemma {:induction false} SubmittedAt(base: Form, s: seq<Element>, key: Key)
    requires Settled(s) && WithoutVolumes(base)
    ensures Lookup(Submitted(base, s), key) ==
              if !key.Volume? then Lookup(base, key)
              else if 1 <= key.number <= |s| then s[key.number - 1].texts.At(key.field)
              else None
  {
    if s != [] {
      var front := s[..|s| - 1];
      SubmittedAt(base, front, key);
      SubmitAdds(Submitted(base, front), s[|s| - 1], key);
    }
  }

  lemma ClaimsEveryVolume(base: Form, s: seq<Element>)
    requires Settled(s) && WithoutVolumes(base)
    ensures VolumesClaimed(Submitted(base, s)) == |s|
  {
    var form := Submitted(base, s);
    forall key ensures key in form && LooksLikeType(key) <==> key in set i | 1 <= i <= |s| :: Volume(Type, i) {
      SubmittedAt(base, s, key);
    }
    assert (set k | k in form && LooksLikeType(k)) == set i | 1 <= i <= |s| :: Volume(Type, i);
    TypesUpTo(|s|);
  }

  function Cleaned(text: Option<string>): Option<string> {
    if text.Some? && text.value != "" then Some(Strip(text.value)) else None
  }

  /** The count-then-range loop of the spawner reads every volume of the page once, in page order. */
  lemma SpawnerReadsEveryVolume(d: Defaults, base: Form, s: seq<Element>, k: nat)
    requires Settled(s) && WithoutVolumes(base) && !Locked(d.dataVolumes) && k < |s|
    ensures var volumes := DataVolumes(d, Submitted(base, s));
            |volumes| == |s| && volumes[k] == RenderedFields(f => Cleaned(s[k].texts.At(f)))
  {
    ClaimsEveryVolume(base, s);
    FormVolumeReads(base, s, k);
  }

  lemma {:induction false} FormVolumeReads(base: Form, s: seq<Element>, k: nat)
    requires Settled(s) && WithoutVolumes(base) && k < |s|
    ensures FormVolume(Submitted(base, s), k + 1) == RenderedFields(f => Cleaned(s[k].texts.At(f)))
  {
    var form := Submitted(base, s);
    forall f: Field ensures Given(form, Volume(f, k + 1)) == Cleaned(s[k].texts.At(f)) {
      SubmittedAt(base, s, Volume(f, k + 1));
    }
    SameFields(f => Given(form, Volume(f, k + 1)), f => Cleaned(s[k].texts.At(f)));
  }

  // ---------- the loop that goes on while the next name is present

  const NEW := "New"

  datatype Mount = Mount(volume: string, path: string)
  datatype Outcome = Done | BadRequest | CreateFailed

  /** The mounts added, the numbers of the claims created on the way, and how the loop ended. */
  datatype Posted = Posted(mounts: seq<Mount>, claims: seq<int>, outcome: Outcome)

  ghost function Ahead(form: Form, n: int): set<Key> {
    set key | key in form && key.Volume? && n <= key.number
  }

  ghost predicate Readable(form: Form, n: int) {
    Volume(MountPath, n) in form && Volume(Type, n) in form
    && (form[Volume(Type, n)] == NEW ==> Volume(Size, n) in form && Volume(AccessModes, n) in form)
  }

  /** What the backend makes of one volume.  created says which claims the API server accepts. */
  ghost function ReadingOne(form: Form, created: int -> bool, n: int): Posted
    requires Volume(Name, n) in form
  {
    if !Readable(form, n) then Posted([], [], BadRequest)
    else
      var isNew := form[Volume(Type, n)] == NEW;
      if isNew && !created(n) then Posted([], [], CreateFailed)
      else
        Posted([Mount(form[Volume(Name, n)], form[Volume(MountPath, n)])], if isNew then [n] else [], Done)
  }

  ghost function Before(mounts: seq<Mount>, claims: seq<int>, rest: Posted): Posted {
    Posted(mounts + rest.mounts, claims + rest.claims, rest.outcome)
  }

  /** What it makes of the volumes from number n on. */
  ghost function Reading(form: Form, created: int -> bool, n: int): Posted
    decreases Ahead(form, n)
  {
    if Volume(Name, n) !in form then Posted([], [], Done)
    else
      var one := ReadingOne(form, created, n);
      if one.outcome != Done then one
      else
        assert Volume(Name, n) in Ahead(form, n) && Volume(Name, n) !in Ahead(form, n + 1);
        assert Ahead(form, n + 1) <= Ahead(form, n);
        Before(one.mounts, one.claims, Reading(form, created, n + 1))
  }

  method PostDataVolume(form: Form, created: int -> bool, counter: int) returns (one: Posted)
    requires Volume(Name, counter) in form
    ensures one == ReadingOne(form, created, counter)
  {
    var claims := [];
    if Volume(MountPath, counter) !in form || Volume(Type, counter) !in form {
      return Posted([], [], BadRequest);
    }
    if form[Volume(Type, counter)] == NEW {
      if Volume(Size, counter) !in form || Volume(AccessModes, counter) !in form {
        return Posted([], [], BadRequest);
      }
      if !created(counter) {
        return Posted([], [], CreateFailed);
      }
      claims := [counter];
    }
    one := Posted([Mount(form[Volume(Name, counter)], form[Volume(MountPath, counter)])], claims, Done);
  }

  lemma {:induction false} ReadingStep(form: Form, created: int -> bool, n: int, mounts: seq<Mount>, claims: seq<int>)
    requires Volume(Name, n) in form
    ensures var one := ReadingOne(form, created, n);
            Before(mounts, claims, Reading(form, created, n))
            == if one.outcome != Done then Posted(mounts + one.mounts, claims + one.claims, one.outcome)
               else Before(mounts + one.mounts, claims + one.claims, Reading(form, created, n + 1))
    ensures Ahead(form, n + 1) < Ahead(form, n)
  {
    assert Volume(Name, n) in Ahead(form, n) && Volume(Name, n) !in Ahead(form, n + 1);
    var one := ReadingOne(form, created, n);
    if one.outcome == Done {
      var rest := Reading(form, created, n + 1);
      assert mounts + (one.mounts + rest.mounts) == mounts + one.mounts + rest.mounts;
      assert claims + (one.claims + rest.claims) == claims + one.claims + rest.claims;
    }
  }

  method PostDataVolumes(form: Form, created: int -> bool) returns (p: Posted)
    ensures p == Reading(form, created, 1)
  {
    var counter, mounts, claims := 1, [], [];
    while Volume(Name, counter) in form
      invariant Reading(form, created, 1) == Before(mounts, claims, Reading(form, created, counter))
      decreases Ahead(form, counter)
    {
      var one := PostDataVolume(form, created, counter);
      ReadingStep(form, created, counter, mounts, claims);
      mounts, claims := mounts + one.mounts, claims + one.claims;
      if one.outcome != Done {
        return Posted(mounts, claims, one.outcome);
      }
      counter := counter + 1;
    }
    p := Posted(mounts, claims, Done);
  }

  /** A volume of the page that the backend takes: a new one needs its size and access mode and its claim. */
  ghost predicate Taken(e: Element, created: int -> bool) {
    e.texts.kind == "New" ==> e.texts.size.Some? && e.texts.accessModes.Some? && created(e.number)
  }

  ghost function NewNumbers(s: seq<Element>): seq<int> {
    if s == [] then [] else (if s[0].texts.kind == "New" then [s[0].number] else []) + NewNumbers(s[1..])
  }

  /** The form shows volume number k + 1 as e, or shows none. */
  ghost predicate ShowsAt(form: Form, k: nat, e: Option<Texts>) {
    && Lookup(form, Volume(Name, k + 1)) == (if e.Some? then Some(e.value.name) else None)
    && Lookup(form, Volume(MountPath, k + 1)) == (if e.Some? then Some(e.value.mountPath) else None)
    && Lookup(form, Volume(Type, k + 1)) == (if e.Some? then Some(e.value.kind) else None)
    && Lookup(form, Volume(Size, k + 1)) == (if e.Some? then e.value.size else None)
    && Lookup(form, Volume(AccessModes, k + 1)) == (if e.Some? then e.value.accessModes else None)
  }

  lemma SubmittedShows(base: Form, s: seq<Element>, k: nat)
    requires Settled(s) && WithoutVolumes(base)
    ensures ShowsAt(Submitted(base, s), k, if k < |s| then Some(s[k].texts) else None)
  {
    SubmittedAt(base, s, Volume(Name, k + 1));
    SubmittedAt(base, s, Volume(MountPath, k + 1));
    SubmittedAt(base, s, Volume(Type, k + 1));
    SubmittedAt(base, s, Volume(Size, k + 1));
    SubmittedAt(base, s, Volume(AccessModes, k + 1));
  }

  ghost function Mounts(s: seq<Element>): seq<Mount> {
    seq(|s|, k requires 0 <= k < |s| => Mount(s[k].texts.name, s[k].texts.mountPath))
  }

  ghost predicate AllTaken(s: seq<Element>, created: int -> bool) {
    s == [] || (Taken(s[0], created) && AllTaken(s[1..], created))
  }

  /** How many volumes come before the first that cannot be taken. */
  ghost function TakenFirst(s: seq<Element>, created: int -> bool): (n: nat)
    ensures n <= |s| && (n == |s| <==> AllTaken(s, created))
    ensures n < |s| ==> !Taken(s[n], created)
  {
    if s == [] || !Taken(s[0], created) then 0 else 1 + TakenFirst(s[1..], created)
  }

  /** The loop read each of these volumes once, in order, up to the first that cannot be taken; there it ended, for a
      missing field or a refused claim, and otherwise it ended well. */
  ghost predicate ReadsWhole(p: Posted, s: seq<Element>, created: int -> bool) {
    var n := TakenFirst(s, created);
    && p.mounts == Mounts(s[..n]) && p.claims == NewNumbers(s[..n])
    && p.outcome == if n == |s| then Done
                    else if s[n].texts.size.None? || s[n].texts.accessModes.None? then BadRequest
                    else CreateFailed
  }

  lemma {:induction false} ReadsFrom(form: Form, s: seq<Element>, created: int -> bool, k: nat)
    requires forall i | 0 <= i < |s| :: ShowsAt(form, k + i, Some(s[i].texts)) && s[i].number == k + i + 1
    requires ShowsAt(form, k + |s|, None)
    ensures ReadsWhole(Reading(form, created, k + 1), s, created)
    decreases |s|
  {
    if s == [] {
      assert ShowsAt(form, k, None);
    } else {
      assert ShowsAt(form, k + 0, Some(s[0].texts));
      forall i | 0 <= i < |s[1..]| ensures ShowsAt(form, k + 1 + i, Some(s[1..][i].texts)) {
        assert ShowsAt(form, k + (i + 1), Some(s[i + 1].texts));
      }
      if Taken(s[0], created) {
        ReadsFrom(form, s[1..], created, k + 1);
        ReadOneMore(s, TakenFirst(s, created));
      } else {
        assert s[..0] == [];
      }
    }
  }

  lemma ReadOneMore(s: seq<Element>, n: nat)
    requires 0 < n <= |s|
    ensures Mounts(s[..n]) == [Mount(s[0].texts.name, s[0].texts.mountPath)] + Mounts(s[1..][..n - 1])
    ensures NewNumbers(s[..n]) == (if s[0].texts.kind == "New" then [s[0].number] else []) + NewNumbers(s[1..][..n - 1])
  {
    assert s[..n][1..] == s[1..][..n - 1];
  }

  /** The backend's loop ends well exactly when it can take every volume of the page, and then it has mounted each
      once, in page order, and claimed storage for exactly the new ones. */
  lemma {:induction false} BackendReadsEveryVolume(base: Form, s: seq<Element>, created: int -> bool)
    requires Settled(s) && WithoutVolumes(base)
    ensures ReadsWhole(Reading(Submitted(base, s), created, 1), s, created)
  {
    SubmittedShowsAll(base, s);
    ShownIsRead(Submitted(base, s), s, created);
  }

  /** The form shows these elements under the numbers from 1 on, and none after them. */
  ghost predicate ShowsAll(form: Form, s: seq<Element>) {
    && (forall i | 0 <= i < |s| :: ShowsAt(form, i, Some(s[i].texts)) && s[i].number == i + 1)
    && ShowsAt(form, |s|, None)
  }

  lemma {:induction false} SubmittedShowsAll(base: Form, s: seq<Element>)
    requires Settled(s) && WithoutVolumes(base)
    ensures ShowsAll(Submitted(base, s), s)
  {
    forall i | 0 <= i < |s| ensures ShowsAt(Submitted(base, s), i, Some(s[i].texts)) {
      SubmittedShows(base, s, i);
    }
    SubmittedShows(base, s, |s|);
  }

  lemma {:induction false} ShownIsRead(form: Form, s: seq<Element>, created: int -> bool)
    requires ShowsAll(form, s)
    ensures ReadsWhole(Reading(form, created, 1), s, created)
  {
    forall i | 0 <= i < |s| ensures ShowsAt(form, 0 + i, Some(s[i].texts)) {
      assert ShowsAt(form, i, Some(s[i].texts));
    }
    ReadsFrom(form, s, created, 0);
  }

  /** End to end: after any guarded run from an empty page, once the fades are over, both backends read exactly the
      volumes left on the page, as many as the counter says, in page order.  Which volumes are left is another
      matter: a guarded click on a fading volume takes a neighbour. */
  lemma {:induction false} EveryRunIsReadWhole(labels: Labels, ops: seq<Op>, end: Page, base: Form, d: Defaults,
                                               created: int -> bool)
    requires RunFrom(labels, Page(0, []), ops, end) && WithoutVolumes(base) && !Locked(d.dataVolumes)
    requires forall k | 0 <= k < |end.elements| :: !end.elements[k].fading
    ensures var form, s := Submitted(base, end.elements), end.elements;
            && |s| == end.counter && |DataVolumes(d, form)| == |s|
            && (forall k | 0 <= k < |s| :: DataVolumes(d, form)[k] == RenderedFields(f => Cleaned(s[k].texts.At(f))))
            && ReadsWhole(Reading(form, created, 1), s, created)
  {
    RunsKeepNumbers(labels, Page(0, []), ops, end);
    FadesOver(end);
    ClaimsEveryVolume(base, end.elements);
    forall k: nat | k < |end.elements|
      ensures DataVolumes(d, Submitted(base, end.elements))[k]
           == RenderedFields(f => Cleaned(end.elements[k].texts.At(f)))
    {
      SpawnerReadsEveryVolume(d, base, end.elements, k);
    }
    BackendReadsEveryVolume(base, end.elements, created);
  }
}
