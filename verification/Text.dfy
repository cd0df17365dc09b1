/** Splitting text at a separator. */
module Text {
  function Split(s: string, separator: char): (parts: seq<string>)
    ensures parts != []
  {
    if s == [] then [""]
    else
      var parts := Split(s[1..], separator);
      if s[0] == separator then [""] + parts else [[s[0]] + parts[0]] + parts[1..]
  }

  function Join(parts: seq<string>, separator: char): string
    requires parts != []
  {
    if |parts| == 1 then parts[0] else parts[0] + [separator] + Join(parts[1..], separator)
  }

  lemma {:induction false} SplitJoin(s: string, separator: char)
    ensures Join(Split(s, separator), separator) == s
    ensures forall p | p in Split(s, separator) :: separator !in p
  {
    if s != [] {
      SplitJoin(s[1..], separator);
      var parts := Split(s[1..], separator);
      var head := if s[0] == separator then "" else [s[0]] + parts[0];
      var tail := if s[0] == separator then parts else parts[1..];
      assert Split(s, separator) == [head] + tail;
      assert ([head] + tail)[1..] == tail;
      assert s == [s[0]] + s[1..];
    }
  }

  lemma SplitPair(a: string, b: string, separator: char)
    requires separator !in a && separator !in b
    ensures Split(a + [separator] + b, separator) == [a, b]
  {
    SplitFirst(a, b, separator);
    SplitWhole(b, separator);
  }

  lemma {:induction false} SplitWhole(s: string, separator: char)
    requires separator !in s
    ensures Split(s, separator) == [s]
  {
    if s != [] {
      SplitWhole(s[1..], separator);
      assert [s[0]] + s[1..] == s;
    }
  }

  /** Splitting at the separator undoes joining, when no part holds it. */
  lemma {:induction false} JoinSplit(parts: seq<string>, separator: char)
    requires parts != [] && forall p | p in parts :: separator !in p
    ensures Split(Join(parts, separator), separator) == parts
  {
    if |parts| == 1 {
      SplitWhole(parts[0], separator);
    } else {
      JoinSplit(parts[1..], separator);
      SplitFirst(parts[0], Join(parts[1..], separator), separator);
    }
  }

  lemma {:induction false} SplitFirst(first: string, rest: string, separator: char)
    requires separator !in first
    ensures Split(first + [separator] + rest, separator) == [first] + Split(rest, separator)
  {
    var s := first + [separator] + rest;
    if first == [] {
      assert s[1..] == rest;
    } else {
      SplitFirst(first[1..], rest, separator);
      assert s[1..] == first[1..] + [separator] + rest;
      assert [first[0]] + first[1..] == first;
    }
  }
}
