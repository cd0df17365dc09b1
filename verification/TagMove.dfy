/** Adding or moving a release tag in the file that maps image versions to tags.

    A regular expression is what it matches; one that does not compile is an error.
*/
module TagMove {
  import opened Sequences
  import opened Wrappers
  import opened Text

  datatype Version = Version(digest: string, tags: seq<string>)
  datatype Image = Image(name: string, versions: seq<Version>)

  /** The file: empty, a mapping without images, or a list of images. */
  datatype Content = Empty | WithoutImages | Images(images: seq<Image>)

  datatype Error = NoImages | BadPattern | MissingKey | ManyMatches

  // ---------- tags

  /** Python's remove: the first occurrence only. */
  function RemoveFirst(tags: seq<string>, tag: string): seq<string>
    requires tag in tags
  {
    if tags[0] == tag then tags[1..] else [tags[0]] + RemoveFirst(tags[1..], tag)
  }

  function Hits(tags: seq<string>, p: string -> bool): nat {
    if tags == [] then 0 else (if p(tags[0]) then 1 else 0) + Hits(tags[1..], p)
  }

  function Is(tag: string): string -> bool {
    t => t == tag
  }

  lemma {:induction false} HitsSnoc(tags: seq<string>, p: string -> bool, t: string)
    ensures Hits(tags + [t], p) == Hits(tags, p) + if p(t) then 1 else 0
  {
    if tags == [] {
      assert tags + [t] == [t];
    } else {
      HitsSnoc(tags[1..], p, t);
      assert (tags + [t])[1..] == tags[1..] + [t];
    }
  }

  lemma {:induction false} HitIsPresent(tags: seq<string>, tag: string)
    ensures Hits(tags, Is(tag)) > 0 <==> tag in tags
    ensures Hits(tags, Is(tag)) == 0 ==> Without(tags, {tag}) == tags
  {
    if tags != [] {
      HitIsPresent(tags[1..], tag);
      assert tags == [tags[0]] + tags[1..];
    }
  }

  lemma {:induction false} RemovalTakesOne(tags: seq<string>, tag: string)
    requires tag in tags
    ensures Hits(RemoveFirst(tags, tag), Is(tag)) == Hits(tags, Is(tag)) - 1
    ensures Without(RemoveFirst(tags, tag), {tag}) == Without(tags, {tag})
  {
    if tags[0] != tag {
      RemovalTakesOne(tags[1..], tag);
    }
  }

  lemma {:induction false} WithoutIsExact(tags: seq<string>, tag: string)
    ensures tag !in Without(tags, {tag})
    ensures multiset(Without(tags, {tag})) == multiset(tags)[tag := 0]
  {
    if tags != [] {
      WithoutIsExact(tags[1..], tag);
      assert tags == [tags[0]] + tags[1..];
    }
  }

  // ---------- versions

  function Repeat(v: nat, n: nat): (r: seq<nat>)
    ensures |r| == n
  {
    seq(n, _ => v)
  }

  /** The index of a version, once for each of its tags that matches. */
  function Index(versions: seq<Version>, p: string -> bool): seq<nat> {
    if versions == [] then []
    else
      var last := |versions| - 1;
      Index(versions[..last], p) + Repeat(last, Hits(versions[last].tags, p))
  }

  function Times(index: seq<nat>, v: nat): nat {
    if index == [] then 0 else (if index[0] == v then 1 else 0) + Times(index[1..], v)
  }

  lemma {:induction false} TimesConcat(a: seq<nat>, b: seq<nat>, v: nat)
    ensures Times(a + b, v) == Times(a, v) + Times(b, v)
  {
    if a == [] {
      assert a + b == b;
    } else {
      TimesConcat(a[1..], b, v);
      assert (a + b)[1..] == a[1..] + b;
    }
  }

  lemma {:induction false} TimesRepeat(w: nat, n: nat, v: nat)
    ensures Times(Repeat(w, n), v) == if v == w then n else 0
  {
    if n > 0 {
      TimesRepeat(w, n - 1, v);
      assert Repeat(w, n)[1..] == Repeat(w, n - 1);
    }
  }

  lemma {:induction false} IndexInRange(versions: seq<Version>, p: string -> bool)
    ensures forall v | v in Index(versions, p) :: v < |versions|
  {
    if versions != [] {
      IndexInRange(versions[..|versions| - 1], p);
    }
  }

  lemma {:induction false} IndexCounts(versions: seq<Version>, p: string -> bool, v: nat)
    ensures Times(Index(versions, p), v) == if v < |versions| then Hits(versions[v].tags, p) else 0
  {
    if versions != [] {
      var last := |versions| - 1;
      var n := Hits(versions[last].tags, p);
      IndexCounts(versions[..last], p, v);
      TimesRepeat(last, n, v);
      TimesConcat(Index(versions[..last], p), Repeat(last, n), v);
    }
  }

  /** The versions without the tag, except that version w carries it, last. */
  function Retagged(versions: seq<Version>, tag: string, w: nat): (r: seq<Version>)
    ensures |r| == |versions|
  {
    seq(|versions|, v requires 0 <= v < |versions| =>
      versions[v].(tags := Without(versions[v].tags, {tag}) + if v == w then [tag] else []))
  }

  /** What one image becomes. */
  function Moved(image: Image, p: string -> bool, tag: string): Result<Image, Error> {
    var matches := Index(image.versions, p);
    if |matches| == 0 then Ok(image)
    else if |matches| == 1 then Ok(image.(versions := Retagged(image.versions, tag, matches[0])))
    else Err(ManyMatches)
  }

  // ---------- the loops

  lemma RepeatSnoc(v: nat, n: nat)
    ensures Repeat(v, n) + [v] == Repeat(v, n + 1)
  {
  }

  lemma IndexSnoc(versions: seq<Version>, p: string -> bool, v: nat)
    requires v < |versions|
    ensures Index(versions[..v + 1], p) == Index(versions[..v], p) + Repeat(v, Hits(versions[v].tags, p))
  {
    assert versions[..v + 1][..v] == versions[..v] && versions[..v + 1][v] == versions[v];
  }

  method ScanTags(v: nat, tags: seq<string>, p: string -> bool, tag: string)
      returns (matching: seq<nat>, existing: seq<nat>)
    ensures matching == Repeat(v, Hits(tags, p)) && existing == Repeat(v, Hits(tags, Is(tag)))
  {
    matching, existing := [], [];
    for j := 0 to |tags|
      invariant matching == Repeat(v, Hits(tags[..j], p))
      invariant existing == Repeat(v, Hits(tags[..j], Is(tag)))
    {
      assert tags[..j + 1] == tags[..j] + [tags[j]];
      HitsSnoc(tags[..j], p, tags[j]);
      HitsSnoc(tags[..j], Is(tag), tags[j]);
      RepeatSnoc(v, Hits(tags[..j], p));
      RepeatSnoc(v, Hits(tags[..j], Is(tag)));
      if tags[j] == tag {
        existing := existing + [v];
      }
      if p(tags[j]) {
        matching := matching + [v];
      }
    }
    assert tags[..|tags|] == tags;
  }

  method FindIndices(versions: seq<Version>, p: string -> bool, tag: string)
      returns (matching: seq<nat>, existing: seq<nat>)
    ensures matching == Index(versions, p) && existing == Index(versions, Is(tag))
  {
    matching, existing := [], [];
    for v := 0 to |versions|
      invariant matching == Index(versions[..v], p) && existing == Index(versions[..v], Is(tag))
    {
      var m, e := ScanTags(v, versions[v].tags, p, tag);
      matching, existing := matching + m, existing + e;
      IndexSnoc(versions, p, v);
      IndexSnoc(versions, Is(tag), v);
    }
    assert versions[..|versions|] == versions;
  }

  /** now is what is left of a version when the tag is still to be taken off it that many times. */
  ghost predicate Reduced(from: Version, now: Version, tag: string, left: nat) {
    && now.digest == from.digest
    && Without(now.tags, {tag}) == Without(from.tags, {tag})
    && Hits(now.tags, Is(tag)) == left
  }

  lemma TakeOne(from: Version, now: Version, tag: string, left: nat)
    requires Reduced(from, now, tag, left) && left > 0
    ensures tag in now.tags && Reduced(from, now.(tags := RemoveFirst(now.tags, tag)), tag, left - 1)
  {
    HitIsPresent(now.tags, tag);
    RemovalTakesOne(now.tags, tag);
  }

  lemma TakenAll(from: Version, now: Version, tag: string)
    requires Reduced(from, now, tag, 0)
    ensures now == from.(tags := Without(from.tags, {tag}))
  {
    HitIsPresent(now.tags, tag);
  }

  method RemoveTag(versions: seq<Version>, existing: seq<nat>, tag: string) returns (out: seq<Version>)
    requires existing == Index(versions, Is(tag))
    ensures |out| == |versions|
    ensures forall v | 0 <= v < |out| :: out[v] == versions[v].(tags := Without(versions[v].tags, {tag}))
  {
    out := versions;
    forall v: nat | v < |versions| ensures Reduced(versions[v], versions[v], tag, Times(existing, v)) {
      IndexCounts(versions, Is(tag), v);
    }
    IndexInRange(versions, Is(tag));
    assert existing[0..] == existing;
    for j := 0 to |existing|
      invariant |out| == |versions|
      invariant forall v: nat | v < |out| :: Reduced(versions[v], out[v], tag, Times(existing[j..], v))
    {
      var e := existing[j];
      assert existing[j..][1..] == existing[j + 1..];
      assert e in existing;
      TakeOne(versions[e], out[e], tag, Times(existing[j..], e));
      out := out[e := out[e].(tags := RemoveFirst(out[e].tags, tag))];
    }
    forall v: nat | v < |out| ensures out[v] == versions[v].(tags := Without(versions[v].tags, {tag})) {
      TakenAll(versions[v], out[v], tag);
    }
  }

  method MoveTag(image: Image, p: string -> bool, tag: string) returns (r: Result<Image, Error>)
    ensures r == Moved(image, p, tag)
  {
    var matching, existing := FindIndices(image.versions, p, tag);
    var versions := image.versions;
    // Without a match the tag stays where it is.
    if matching != [] {
      versions := RemoveTag(versions, existing, tag);
    }
    if |matching| > 1 {
      return Err(ManyMatches);
    }
    if matching != [] {
      var w := matching[0];
      IndexInRange(image.versions, p);
      assert w in matching;
      versions := versions[w := versions[w].(tags := versions[w].tags + [tag])];
      forall v: nat | v < |versions| ensures versions[v] == Retagged(image.versions, tag, w)[v] {
        assert versions[v].tags == Without(image.versions[v].tags, {tag}) + if v == w then [tag] else [];
      }
      assert versions == Retagged(image.versions, tag, w);
    }
    r := Ok(image.(versions := versions));
  }

  // ---------- the file

  /** What a regular expression matches, or nothing when it does not compile. */
  type Compiler = string -> Option<string -> bool>

  ghost predicate PatternFits(pattern: string, compile: Compiler) {
    var parts := Split(pattern, ':');
    |parts| == 2 && compile(parts[0]).Some? && compile(parts[1]).Some?
  }

  /** What the image at this place becomes when its name is selected; otherwise it stays. */
  ghost function Selected(image: Image, pattern: string, compile: Compiler, tag: string): Result<Image, Error>
    requires PatternFits(pattern, compile)
  {
    var parts := Split(pattern, ':');
    if compile(parts[0]).value(image.name) then Moved(image, compile(parts[1]).value, tag) else Ok(image)
  }

  /** A pattern fits exactly when it is two expressions that compile, with one colon between them. */
  lemma PatternHasTwoHalves(pattern: string, compile: Compiler)
    ensures PatternFits(pattern, compile) <==>
              exists names: string, tags: string ::
                && pattern == names + ":" + tags && ':' !in names && ':' !in tags
                && compile(names).Some? && compile(tags).Some?
  {
    if names: string, tags: string :| && pattern == names + ":" + tags && ':' !in names && ':' !in tags
                                      && compile(names).Some? && compile(tags).Some?
    {
      SplitPair(names, tags, ':');
    }
    if PatternFits(pattern, compile) {
      var parts := Split(pattern, ':');
      SplitJoin(pattern, ':');
      assert Join(parts[1..], ':') == parts[1] && parts[0] in parts && parts[1] in parts;
      assert pattern == parts[0] + ":" + parts[1];
    }
  }

  /** The first half selects images by name, the second versions by tag. */
  lemma PatternHalves(names: string, tags: string, compile: Compiler, image: Image, tag: string)
    requires ':' !in names && ':' !in tags && compile(names).Some? && compile(tags).Some?
    ensures PatternFits(names + ":" + tags, compile)
    ensures Selected(image, names + ":" + tags, compile, tag)
         == if compile(names).value(image.name) then Moved(image, compile(tags).value, tag) else Ok(image)
  {
    SplitPair(names, tags, ':');
  }

  class ImagesFile {
    var content: Content

    /** The file is rewritten only when every selected image could be handled. */
    method AddImageTag(pattern: string, compile: Compiler, tag: string) returns (failure: Option<Error>)
      modifies this
      ensures failure.Some? ==> content == old(content)
      ensures failure.None? <==>
                && old(content).Images? && PatternFits(pattern, compile)
                && forall i | 0 <= i < |old(content).images| ::
                    Selected(old(content).images[i], pattern, compile, tag).Ok?
      ensures failure.None? ==>
                && content.Images? && |content.images| == |old(content).images|
                && forall i | 0 <= i < |content.images| ::
                     Selected(old(content).images[i], pattern, compile, tag) == Ok(content.images[i])
    {
      if content.Empty? {
        return Some(NoImages);
      }
      var parts := Split(pattern, ':');
      if |parts| != 2 {
        return Some(BadPattern);
      }
      var nameRe, tagRe := compile(parts[0]), compile(parts[1]);
      if nameRe.None? || tagRe.None? {
        return Some(BadPattern);
      }
      if content.WithoutImages? {
        return Some(MissingKey);
      }
      var images := content.images;
      for i := 0 to |images|
        invariant content == old(content) && |images| == |content.images|
        invariant forall j | i <= j < |images| :: images[j] == content.images[j]
        invariant forall j | 0 <= j < i :: Selected(content.images[j], pattern, compile, tag) == Ok(images[j])
      {
        if nameRe.value(images[i].name) {
          var moved := MoveTag(images[i], tagRe.value, tag);
          if moved.Err? {
            return Some(moved.error);
          }
          images := images[i := moved.value];
        }
      }
      content := Images(images);
      failure := None;
    }
  }

  // ---------- what a move does

  lemma {:induction false} HitIsMatch(tags: seq<string>, p: string -> bool)
    ensures Hits(tags, p) > 0 <==> exists t :: t in tags && p(t)
  {
    if tags != [] {
      HitIsMatch(tags[1..], p);
      assert tags == [tags[0]] + tags[1..];
      if t :| t in tags[1..] && p(t) {
        assert t in tags;
      }
      if t :| t in tags && p(t) {
        assert t == tags[0] || t in tags[1..];
      }
    }
  }

  lemma {:induction false} TimesIsPresent(index: seq<nat>, v: nat)
    ensures Times(index, v) <= |index|
    ensures Times(index, v) > 0 <==> v in index
  {
    if index != [] {
      TimesIsPresent(index[1..], v);
      assert index == [index[0]] + index[1..];
    }
  }

  /** An image none of whose tags matches is unchanged, and conversely. */
  lemma OnlyMatchesMove(image: Image, p: string -> bool, tag: string)
    ensures Index(image.versions, p) == [] <==>
              forall v, t | 0 <= v < |image.versions| && t in image.versions[v].tags :: !p(t)
    ensures Index(image.versions, p) == [] ==> Moved(image, p, tag) == Ok(image)
  {
    var index := Index(image.versions, p);
    forall v: nat | v < |image.versions|
      ensures v in index <==> exists t :: t in image.versions[v].tags && p(t)
    {
      IndexCounts(image.versions, p, v);
      TimesIsPresent(index, v);
      HitIsMatch(image.versions[v].tags, p);
    }
    IndexInRange(image.versions, p);
    if index != [] {
      var w := index[0];
      assert w in index;
    }
  }

  /** After a move the tag stands once, on the version that matched; every version keeps its digest and, with their
      multiplicities, its other tags. */
  lemma MoveConserves(image: Image, p: string -> bool, tag: string)
    requires |Index(image.versions, p)| == 1
    ensures var w := Index(image.versions, p)[0];
            && w < |image.versions| && (exists t :: t in image.versions[w].tags && p(t))
            && Moved(image, p, tag).Ok?
            && var moved := Moved(image, p, tag).value;
               && moved.name == image.name && |moved.versions| == |image.versions|
               && forall v | 0 <= v < |image.versions| ::
                    && moved.versions[v].digest == image.versions[v].digest
                    && multiset(moved.versions[v].tags)
                       == multiset(image.versions[v].tags)[tag := if v == w then 1 else 0]
  {
    var w := Index(image.versions, p)[0];
    IndexInRange(image.versions, p);
    assert w in Index(image.versions, p);
    TimesIsPresent(Index(image.versions, p), w);
    IndexCounts(image.versions, p, w);
    HitIsMatch(image.versions[w].tags, p);
    forall v: nat | v < |image.versions|
      ensures multiset(Retagged(image.versions, tag, w)[v].tags)
              == multiset(image.versions[v].tags)[tag := if v == w then 1 else 0]
    {
      OneTagMore(image.versions[v].tags, tag, v == w);
    }
  }

  lemma OneTagMore(tags: seq<string>, tag: string, once: bool)
    ensures multiset(Without(tags, {tag}) + if once then [tag] else [])
         == multiset(tags)[tag := if once then 1 else 0]
  {
    WithoutIsExact(tags, tag);
  }

  // ---------- moving twice

  lemma {:induction false} HitsWithout(tags: seq<string>, p: string -> bool, tag: string)
    ensures Hits(Without(tags, {tag}), p) == Hits(tags, p) - if p(tag) then Hits(tags, Is(tag)) else 0
  {
    if tags != [] {
      HitsWithout(tags[1..], p, tag);
      var rest := Without(tags[1..], {tag});
      if tags[0] == tag {
        assert Without(tags, {tag}) == rest;
      } else {
        assert ([tags[0]] + rest)[1..] == rest;
      }
    }
  }

  lemma {:induction false} HitsConcat(a: seq<string>, b: seq<string>, p: string -> bool)
    ensures Hits(a + b, p) == Hits(a, p) + Hits(b, p)
  {
    if a == [] {
      assert a + b == b;
    } else {
      HitsConcat(a[1..], b, p);
      assert (a + b)[1..] == a[1..] + b;
    }
  }

  lemma {:induction false} SameHitsSameIndex(x: seq<Version>, y: seq<Version>, p: string -> bool)
    requires |x| == |y| && forall v | 0 <= v < |x| :: Hits(x[v].tags, p) == Hits(y[v].tags, p)
    ensures Index(x, p) == Index(y, p)
  {
    if x != [] {
      SameHitsSameIndex(x[..|x| - 1], y[..|y| - 1], p);
    }
  }

  lemma RetagTwice(versions: seq<Version>, tag: string, w: nat)
    ensures Retagged(Retagged(versions, tag, w), tag, w) == Retagged(versions, tag, w)
  {
    var again := Retagged(versions, tag, w);
    forall v: nat | v < |versions| ensures Without(again[v].tags, {tag}) == Without(versions[v].tags, {tag}) {
      WithoutTwice(versions[v].tags, {tag});
      WithoutSnoc(Without(versions[v].tags, {tag}), tag, {tag});
      assert v != w ==> again[v].tags == Without(versions[v].tags, {tag});
    }
  }

  lemma RetaggedHits(versions: seq<Version>, p: string -> bool, tag: string, w: nat, v: nat)
    requires Index(versions, p) == [w] && v < |versions|
    ensures Hits(Retagged(versions, tag, w)[v].tags, p)
            == if v == w && p(tag) && tag !in versions[w].tags then 2 else if v == w then 1 else 0
  {
    var tags := versions[v].tags;
    IndexCounts(versions, p, v);
    HitsWithout(tags, p, tag);
    HitsConcat(Without(tags, {tag}), if v == w then [tag] else [], p);
    HitIsPresent(tags, tag);
    HitsWithout(tags, Is(tag), tag);
    if p(tag) {
      FewerHits(tags, p, tag);
    }
  }

  lemma {:induction false} FewerHits(tags: seq<string>, p: string -> bool, tag: string)
    requires p(tag)
    ensures Hits(tags, Is(tag)) <= Hits(tags, p)
  {
    if tags != [] {
      FewerHits(tags[1..], p, tag);
    }
  }

  /** Moving again changes nothing, exactly unless the pattern also matches the tag itself and the matching version
      did not have it: then the second move finds two matches and fails. */
  lemma MoveAgain(image: Image, p: string -> bool, tag: string)
    requires |Index(image.versions, p)| == 1
    ensures var w := Index(image.versions, p)[0];
            && w < |image.versions|
            && var moved := Moved(image, p, tag).value;
               Moved(moved, p, tag) == if p(tag) && tag !in image.versions[w].tags then Err(ManyMatches) else Ok(moved)
  {
    var versions := image.versions;
    var w := Index(versions, p)[0];
    assert Index(versions, p) == [w];
    IndexInRange(versions, p);
    assert w in Index(versions, p);
    var again := Retagged(versions, tag, w);
    forall v | 0 <= v < |versions|
      ensures Hits(again[v].tags, p)
              == if v == w && p(tag) && tag !in versions[w].tags then 2 else if v == w then 1 else 0
    {
      RetaggedHits(versions, p, tag, w, v);
    }
    if p(tag) && tag !in versions[w].tags {
      IndexCounts(again, p, w);
      TimesIsPresent(Index(again, p), w);
    } else {
      forall v: nat | v < |versions| ensures Hits(versions[v].tags, p) == Hits(again[v].tags, p) {
        IndexCounts(versions, p, v);
      }
      SameHitsSameIndex(versions, again, p);
      RetagTwice(versions, tag, w);
    }
  }

  /** One version, one other tag, and a pattern that matches everything: the first move succeeds, the second fails. */
  lemma SecondMoveFails(name: string, digest: string, other: string, tag: string, all: string -> bool)
    requires other != tag && forall t :: all(t)
    ensures var image := Image(name, [Version(digest, [other])]);
            && Moved(image, all, tag) == Ok(Image(name, [Version(digest, [other, tag])]))
            && Moved(Moved(image, all, tag).value, all, tag) == Err(ManyMatches)
  {
    var image := Image(name, [Version(digest, [other])]);
    assert image.versions[..0] == [] && [other][1..] == [];
    assert Hits([other], all) == 1 && Index([], all) == [];
    assert Index(image.versions, all) == [0];
    assert Without([other], {tag}) == [other];
    var moved := Retagged(image.versions, tag, 0);
    assert moved[0].tags == [other] + [tag] == [other, tag];
    assert moved == [moved[0]];
    MoveAgain(image, all, tag);
  }
}
