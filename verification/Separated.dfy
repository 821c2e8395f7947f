/** Splitting at a separator and joining with it, for dotted config paths and slash-separated actor paths. */
module Separated {
  function Split<T(==)>(s: seq<T>, sep: T): (parts: seq<seq<T>>)
    ensures parts != []
    ensures forall p :: p in parts ==> sep !in p
  {
    if s == [] then [[]]
    else
      var rest := Split(s[1..], sep);
      if s[0] == sep then [[]] + rest else [[s[0]] + rest[0]] + rest[1..]
  }

  function Join<T>(parts: seq<seq<T>>, sep: T): seq<T> {
    if parts == [] then []
    else if |parts| == 1 then parts[0]
    else parts[0] + [sep] + Join(parts[1..], sep)
  }

  /** The parts are not empty and none of them contains the separator. */
  ghost predicate Clean<T>(parts: seq<seq<T>>, sep: T) {
    parts != [] && forall p :: p in parts ==> sep !in p
  }

  lemma {:induction false} SplitPlain<T>(s: seq<T>, sep: T)
    requires sep !in s
    ensures Split(s, sep) == [s]
  {
    if s != [] {
      SplitPlain(s[1..], sep);
      assert [s[0]] + s[1..] == s;
    }
  }

  lemma {:induction false} SplitAtFirst<T>(p: seq<T>, rest: seq<T>, sep: T)
    requires sep !in p
    ensures Split(p + [sep] + rest, sep) == [p] + Split(rest, sep)
  {
    var s := p + [sep] + rest;
    if p == [] {
      assert s[1..] == rest;
    } else {
      assert s[1..] == p[1..] + [sep] + rest;
      SplitAtFirst(p[1..], rest, sep);
      assert [p[0]] + p[1..] == p;
      assert ([p[1..]] + Split(rest, sep))[1..] == Split(rest, sep);
    }
  }

  lemma {:induction false} JoinThenSplit<T>(parts: seq<seq<T>>, sep: T)
    requires Clean(parts, sep)
    ensures Split(Join(parts, sep), sep) == parts
  {
    if |parts| == 1 {
      SplitPlain(parts[0], sep);
    } else {
      JoinThenSplit(parts[1..], sep);
      SplitAtFirst(parts[0], Join(parts[1..], sep), sep);
      assert [parts[0]] + parts[1..] == parts;
    }
  }

  /** Joining loses nothing exactly when there is a part and no part contains the separator. */
  lemma SplitInvertsJoinIff<T>(parts: seq<seq<T>>, sep: T)
    ensures Split(Join(parts, sep), sep) == parts <==> Clean(parts, sep)
  {
    if Clean(parts, sep) {
      JoinThenSplit(parts, sep);
    }
  }

  lemma {:induction false} SplitThenJoin<T>(s: seq<T>, sep: T)
    ensures Join(Split(s, sep), sep) == s
  {
    if s != [] {
      SplitThenJoin(s[1..], sep);
      var rest := Split(s[1..], sep);
      if s[0] == sep {
        assert ([[]] + rest)[1..] == rest;
      } else {
        assert ([[s[0]] + rest[0]] + rest[1..])[1..] == rest[1..];
      }
    }
  }
}
