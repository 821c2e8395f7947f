/** The configuration tree: merging sources, inserting dotted keys, and the two lookup routes. */
module ConfigTree {
  import opened Separated

  datatype Value =
    | Str(s: string)
    | Integer(i: int)
    | Real(r: real)
    | Boolean(b: bool)
    | DateTime(t: nat)
    | Array(items: seq<Value>)
    | Table(entries: map<string, Value>)

  type TableMap = map<string, Value>

  const SEP: char := '.'

  function TypeName(v: Value): string {
    match v
    case Str(_) => "string"
    case Integer(_) => "integer"
    case Real(_) => "float"
    case Boolean(_) => "boolean"
    case DateTime(_) => "datetime"
    case Array(_) => "array"
    case Table(_) => "table"
  }

  // --- Merging and inserting ---

  /** Tables merge key by key; anything else is replaced. */
  function Merge(current: Value, next: Value): Value
    decreases next
  {
    if current.Table? && next.Table? then
      Table(map k | k in current.entries.Keys + next.entries.Keys ::
              if k !in next.entries then current.entries[k]
              else if k !in current.entries then next.entries[k]
              else Merge(current.entries[k], next.entries[k]))
    else next
  }

  function MergeTables(current: TableMap, next: TableMap): TableMap {
    Merge(Table(current), Table(next)).entries
  }

  /** The table a child key leads into; anything else than a table is replaced by an empty one. */
  function ChildTable(current: TableMap, key: string): TableMap {
    if key in current && current[key].Table? then current[key].entries else map[]
  }

  function InsertSegments(current: TableMap, segments: seq<string>, value: Value): TableMap
    decreases |segments|
  {
    if segments == [] then current
    else
      var key := segments[0];
      if |segments| == 1 then current[key := if key in current then Merge(current[key], value) else value]
      else current[key := Table(InsertSegments(ChildTable(current, key), segments[1..], value))]
  }

  lemma MergeSingleton(current: TableMap, key: string, v: Value)
    ensures MergeTables(current, map[key := v]) == current[key := if key in current then Merge(current[key], v) else v]
  {
  }

  /**
   Merging a source that was built by inserting one key into an empty config is the same as
   inserting that key into the accumulated tree.
   */
  lemma {:induction false} MergeOfInsertIsInsert(root: TableMap, segments: seq<string>, value: Value)
    ensures MergeTables(root, InsertSegments(map[], segments, value)) == InsertSegments(root, segments, value)
    decreases |segments|
  {
    if segments == [] {
    } else if |segments| == 1 {
      MergeSingleton(root, segments[0], value);
    } else {
      var key, rest := segments[0], segments[1..];
      var inner := InsertSegments(map[], rest, value);
      assert InsertSegments(map[], segments, value) == map[key := Table(inner)];
      MergeSingleton(root, key, Table(inner));
      if key in root && root[key].Table? {
        MergeOfInsertIsInsert(root[key].entries, rest, value);
      }
    }
  }

  // --- Grouping of merges ---

  /** Merging `a` into `c` adds nothing: wherever both are tables, every key of `a` is one of `c`. */
  predicate Covered(a: Value, c: Value)
    decreases c
  {
    a.Table? && c.Table? ==> forall k :: k in a.entries ==> k in c.entries && Covered(a.entries[k], c.entries[k])
  }

  lemma {:induction false} CoveredIff(a: Value, c: Value)
    ensures Merge(a, c) == c <==> Covered(a, c)
    decreases c
  {
    if a.Table? && c.Table? {
      forall k | k in a.entries && k in c.entries
        ensures Merge(a.entries[k], c.entries[k]) == c.entries[k] <==> Covered(a.entries[k], c.entries[k])
      {
        CoveredIff(a.entries[k], c.entries[k]);
      }
      var m := Merge(a, c).entries;
      assert forall k :: k in m <==> k in a.entries || k in c.entries;
      if Covered(a, c) {
        assert m == c.entries;
      } else {
        var k :| k in a.entries && !(k in c.entries && Covered(a.entries[k], c.entries[k]));
        assert k in m && (k in c.entries ==> m[k] != c.entries[k]);
      }
    }
  }

  /**
   The order of grouping does not matter for these three: nowhere does something else than a table
   stand between two tables of which the first has keys the second lacks.
   */
  predicate Groups(a: Value, b: Value, c: Value)
    decreases c
  {
    a.Table? && c.Table? ==>
      if b.Table? then
        forall k :: k in a.entries && k in b.entries && k in c.entries ==> Groups(a.entries[k], b.entries[k], c.entries[k])
      else Covered(a, c)
  }

  /** Merging is associative exactly there. */
  lemma {:induction false} MergeAssociativeIff(a: Value, b: Value, c: Value)
    ensures Merge(Merge(a, b), c) == Merge(a, Merge(b, c)) <==> Groups(a, b, c)
    decreases c
  {
    if a.Table? && c.Table? {
      if b.Table? {
        TablesAssociativeIff(a, b, c);
      } else {
        CoveredIff(a, c);
      }
    }
  }

  lemma {:induction false} TablesAssociativeIff(a: Value, b: Value, c: Value)
    requires a.Table? && b.Table? && c.Table?
    ensures Merge(Merge(a, b), c) == Merge(a, Merge(b, c)) <==> Groups(a, b, c)
    decreases c, 0
  {
    var left, right := Merge(Merge(a, b), c).entries, Merge(a, Merge(b, c)).entries;
    assert left.Keys == right.Keys;
    forall k | k in left
      ensures left[k] == right[k] <==>
        (k in a.entries && k in b.entries && k in c.entries ==> Groups(a.entries[k], b.entries[k], c.entries[k]))
    {
      if k in a.entries && k in b.entries && k in c.entries {
        MergeAssociativeIff(a.entries[k], b.entries[k], c.entries[k]);
      }
    }
    if Groups(a, b, c) {
      assert left == right;
    } else {
      var k :| k in a.entries && k in b.entries && k in c.entries && !Groups(a.entries[k], b.entries[k], c.entries[k]);
      assert k in left && left[k] != right[k];
    }
  }

  /** It is not associative: a table, then a number, then a table under one key. */
  lemma MergeNotAssociative()
    ensures var a, b, c := Table(map["k" := Integer(1)]), Integer(2), Table(map[]);
      Merge(Merge(a, b), c) != Merge(a, Merge(b, c))
  {
    var a, b, c := Table(map["k" := Integer(1)]), Integer(2), Table(map[]);
    assert "k" in a.entries && "k" !in c.entries;
    MergeAssociativeIff(a, b, c);
  }

  // --- Lookup ---

  datatype ErrorKind = InvalidPath | MissingKey | InvalidKeyAccess(key: string, valueType: string)

  datatype Found = Value(value: Value) | Error(kind: ErrorKind)

  /** One step down a path, as the `select` loop takes it. */
  function Descend(v: Value, segment: string): Found {
    if segment == [] then Error(InvalidPath)
    else if !v.Table? then Error(InvalidKeyAccess(segment, TypeName(v)))
    else if segment in v.entries then Found.Value(v.entries[segment])
    else Error(MissingKey)
  }

  function Walk(v: Value, segments: seq<string>): Found
    decreases |segments|
  {
    if segments == [] then Found.Value(v)
    else
      match Descend(v, segments[0])
      case Error(k) => Error(k)
      case Value(w) => Walk(w, segments[1..])
  }

  /** `Config::select`, without the path it carries for error messages. */
  function Select(root: TableMap, path: string): Found {
    Walk(Table(root), Split(path, SEP))
  }

  // --- Overriding ---

  predicate Proper(segments: seq<string>) {
    segments != [] && forall i :: 0 <= i < |segments| ==> segments[i] != []
  }

  /** An inserted value that is not a table is what a lookup of its path finds. */
  lemma {:induction false} WalkFindsInserted(root: TableMap, segments: seq<string>, value: Value)
    requires Proper(segments) && !value.Table?
    ensures Walk(Table(InsertSegments(root, segments, value)), segments) == Found.Value(value)
    decreases |segments|
  {
    if |segments| > 1 {
      WalkFindsInserted(ChildTable(root, segments[0]), segments[1..], value);
    } else {
      assert segments[1..] == [];
    }
  }

  /** Neither path is a prefix of the other. */
  predicate Diverge(p: seq<string>, q: seq<string>) {
    exists i :: 0 <= i < |p| && i < |q| && p[i] != q[i]
  }

  lemma DivergeTail(p: seq<string>, q: seq<string>)
    requires Diverge(p, q) && p[0] == q[0]
    ensures Diverge(p[1..], q[1..]) && |p| > 1 && |q| > 1
  {
    var i :| 0 <= i < |p| && i < |q| && p[i] != q[i];
    assert p[1..][i - 1] != q[1..][i - 1];
  }

  /** Below a table that insertion has just created nothing else is found. */
  lemma {:induction false} WalkFromEmpty(segments: seq<string>, path: seq<string>, value: Value)
    requires Diverge(segments, path)
    ensures Walk(Table(InsertSegments(map[], segments, value)), path).Error?
    ensures Proper(path) ==> Walk(Table(InsertSegments(map[], segments, value)), path) == Error(MissingKey)
    decreases |path|
  {
    if path[0] == segments[0] && path[0] != [] {
      DivergeTail(segments, path);
      WalkFromEmpty(segments[1..], path[1..], value);
    }
  }

  /** On the way the two paths share, something else than a table stands where insertion needs a table. */
  predicate ScalarOnWay(root: TableMap, segments: seq<string>, path: seq<string>)
    decreases |path|
  {
    && segments != [] && path != [] && path[0] == segments[0] && path[0] in root
    && (root[path[0]].Table? ==> ScalarOnWay(root[path[0]].entries, segments[1..], path[1..]))
  }

  /**
   Inserting a key leaves every path that neither leads to it nor through it alone: it still finds
   the same value or still fails. The error of a well-formed path stays the same exactly when no
   scalar on the way gave way to a table; otherwise an invalid access becomes a missing key.
   */
  lemma {:induction false} InsertKeepsOtherPaths(root: TableMap, segments: seq<string>, path: seq<string>, value: Value)
    requires Diverge(segments, path)
    ensures var before, after := Walk(Table(root), path), Walk(Table(InsertSegments(root, segments, value)), path);
            && (before == after || (before.Error? && after.Error?))
            && (Proper(path) ==>
                 && (before == after <==> !ScalarOnWay(root, segments, path))
                 && (before != after ==> before.kind.InvalidKeyAccess? && after.kind == MissingKey))
    decreases |path|
  {
    var key := segments[0];
    if path[0] == key && key != [] {
      DivergeTail(segments, path);
      if key in root && root[key].Table? {
        InsertKeepsOtherPaths(root[key].entries, segments[1..], path[1..], value);
      } else {
        WalkFromEmpty(segments[1..], path[1..], value);
      }
    }
  }

  /** A lookup error can change: reading `a.c` where `a` is a number, before and after inserting `a.b`. */
  lemma InsertCanChangeErrorKind()
    ensures var root: TableMap := map["a" := Integer(5)];
            && Walk(Table(root), ["a", "c"]) == Error(InvalidKeyAccess("c", "integer"))
            && Walk(Table(InsertSegments(root, ["a", "b"], Boolean(true))), ["a", "c"]) == Error(MissingKey)
  {
    var root: TableMap := map["a" := Integer(5)];
    assert ["a", "c"][1..] == ["c"] && ["a", "b"][1..] == ["b"];
    assert InsertSegments(root, ["a", "b"], Boolean(true)) == root["a" := Table(map["b" := Boolean(true)])];
  }

  // --- Loading sources ---

  /** A parsed document, or one key set from code. */
  datatype Source = Document(root: TableMap) | Setting(key: string, value: Value)

  function LoadSource(s: Source): TableMap {
    match s
    case Document(root) => root
    case Setting(key, value) => InsertSegments(map[], Split(key, SEP), value)
  }

  function LoadAll(sources: seq<Source>): TableMap {
    if sources == [] then map[]
    else MergeTables(LoadAll(sources[..|sources| - 1]), LoadSource(sources[|sources| - 1]))
  }

  /**
   The last source wins: a final setting with a value that is not a table is what `select` returns
   for its key, whatever came before, and paths that diverge from the key are unaffected.
   */
  lemma FinalSettingWins(sources: seq<Source>, key: string, value: Value, other: string)
    requires Proper(Split(key, SEP)) && !value.Table?
    ensures Select(LoadAll(sources + [Setting(key, value)]), key) == Found.Value(value)
    ensures Diverge(Split(key, SEP), Split(other, SEP)) ==>
              var before, after := Select(LoadAll(sources), other), Select(LoadAll(sources + [Setting(key, value)]), other);
              && (before == after || (before.Error? && after.Error?))
              && (Proper(Split(other, SEP)) ==>
                   (before == after <==> !ScalarOnWay(LoadAll(sources), Split(key, SEP), Split(other, SEP))))
  {
    var all := sources + [Setting(key, value)];
    assert all[..|all| - 1] == sources;
    var root, segments := LoadAll(sources), Split(key, SEP);
    MergeOfInsertIsInsert(root, segments, value);
    assert LoadAll(all) == InsertSegments(root, segments, value);
    WalkFindsInserted(root, segments, value);
    if Diverge(segments, Split(other, SEP)) {
      InsertKeepsOtherPaths(root, segments, Split(other, SEP), value);
    }
  }

  // --- What a merged tree finds ---

  /** What a lookup finds after merging, from what it finds before in either tree. */
  ghost predicate MergedFinds(before: Found, next: Found, after: Found) {
    match next
    case Value(w) => after == Found.Value(if before.Value? then Merge(before.value, w) else w)
    case Error(k) =>
      // a path that the next tree merely lacks finds what it found; any other failure of the next tree prevails
      if k == MissingKey then (if before.Value? then after == before else after.Error?) else after == next
  }

  lemma {:induction false} MergeWalks(a: Value, b: Value, path: seq<string>)
    ensures MergedFinds(Walk(a, path), Walk(b, path), Walk(Merge(a, b), path))
    decreases |path|
  {
    if path != [] && a.Table? && b.Table? && path[0] != [] && path[0] in b.entries && path[0] in a.entries {
      MergeWalks(a.entries[path[0]], b.entries[path[0]], path[1..]);
    }
  }

  /**
   What the last source contributes, document or setting: a path to a value that is not a table finds
   that value; a path that the last source lacks finds what it found before; tables are merged.
   */
  lemma LastSourceContributes(sources: seq<Source>, last: Source, path: string)
    ensures MergedFinds(Select(LoadAll(sources), path), Select(LoadSource(last), path), Select(LoadAll(sources + [last]), path))
    ensures var next := Select(LoadSource(last), path);
            next.Value? && !next.value.Table? ==> Select(LoadAll(sources + [last]), path) == next
  {
    var all := sources + [last];
    assert all[..|all| - 1] == sources;
    MergeWalks(Table(LoadAll(sources)), Table(LoadSource(last)), Split(path, SEP));
  }

  // --- Chained lookup ---

  /** The path a lookup carries: a full string, or a parent with one more key. */
  datatype PathSource = FullPath(path: string) | Child(parent: PathSource, segment: string, separator: bool)

  datatype Lookup = Lookup(found: Found, path: PathSource)

  function Render(p: PathSource): string {
    match p
    case FullPath(path) => path
    case Child(parent, segment, separator) => Render(parent) + (if separator then [SEP] else []) + segment
  }

  /** `Config::get`. */
  function Get(root: TableMap, key: string): Lookup {
    Lookup(if key in root then Found.Value(root[key]) else Error(MissingKey), FullPath(key))
  }

  /** `ConfigLookup::get`. */
  function GetChild(l: Lookup, key: string): Lookup {
    Lookup(
      match l.found
      case Error(k) => Error(k)
      case Value(v) =>
        if !v.Table? then Error(InvalidKeyAccess(key, TypeName(v)))
        else if key in v.entries then Found.Value(v.entries[key])
        else Error(MissingKey),
      Child(l.path, key, l.path != FullPath("")))
  }

  /** `Config::select` with the path it carries. */
  function SelectLookup(root: TableMap, path: string): Lookup {
    Lookup(Select(root, path), FullPath(path))
  }

  /** `get(k1).get(k2)...`. */
  function Chain(root: TableMap, keys: seq<string>): Lookup
    requires keys != []
  {
    if |keys| == 1 then Get(root, keys[0]) else GetChild(Chain(root, keys[..|keys| - 1]), keys[|keys| - 1])
  }

  lemma {:induction false} WalkSnoc(v: Value, segments: seq<string>, last: string)
    ensures Walk(v, segments + [last]) ==
            match Walk(v, segments)
            case Error(k) => Error(k)
            case Value(w) => Descend(w, last)
    decreases |segments|
  {
    var all := segments + [last];
    if segments == [] {
      assert all[1..] == [];
    } else {
      assert all[1..] == segments[1..] + [last];
      var d := Descend(v, segments[0]);
      if d.Value? {
        WalkSnoc(d.value, segments[1..], last);
      }
    }
  }

  lemma {:induction false} JoinSnoc(keys: seq<string>, last: string)
    requires keys != []
    ensures Join(keys + [last], SEP) == Join(keys, SEP) + [SEP] + last
  {
    var all := keys + [last];
    if |keys| == 1 {
      assert all[1..] == [last];
    } else {
      assert all[1..] == keys[1..] + [last];
      JoinSnoc(keys[1..], last);
    }
  }

  lemma {:induction false} ChainWalks(root: TableMap, keys: seq<string>)
    requires Proper(keys)
    ensures Chain(root, keys).found == Walk(Table(root), keys)
    ensures Render(Chain(root, keys).path) == Join(keys, SEP) && Chain(root, keys).path != FullPath("")
  {
    if |keys| == 1 {
      assert keys[1..] == [];
    } else {
      var front, last := keys[..|keys| - 1], keys[|keys| - 1];
      assert keys == front + [last];
      ChainWalks(root, front);
      WalkSnoc(Table(root), front, last);
      JoinSnoc(front, last);
    }
  }

  /**
   Chained lookup agrees with dotted lookup for any list of non-empty dot-free keys: the same value,
   or the same error kind with the same failing key and parent type, and the same rendered path.
   */
  lemma ChainAgreesWithSelect(root: TableMap, keys: seq<string>)
    requires Proper(keys) && Clean(keys, SEP)
    ensures var chained, dotted := Chain(root, keys), SelectLookup(root, Join(keys, SEP));
            chained.found == dotted.found && Render(chained.path) == Render(dotted.path)
  {
    JoinThenSplit(keys, SEP);
    ChainWalks(root, keys);
  }

  // --- Exactly when the two routes agree ---

  /** One step of a chain, which does not reject the empty key. */
  function Follow(v: Value, key: string): Found {
    if !v.Table? then Error(InvalidKeyAccess(key, TypeName(v)))
    else if key in v.entries then Found.Value(v.entries[key])
    else Error(MissingKey)
  }

  function FollowAll(v: Value, keys: seq<string>): Found
    decreases |keys|
  {
    if keys == [] then Found.Value(v)
    else
      match Follow(v, keys[0])
      case Error(k) => Error(k)
      case Value(w) => FollowAll(w, keys[1..])
  }

  lemma {:induction false} FollowSnoc(v: Value, keys: seq<string>, last: string)
    ensures FollowAll(v, keys + [last]) ==
            match FollowAll(v, keys)
            case Error(k) => Error(k)
            case Value(w) => Follow(w, last)
    decreases |keys|
  {
    var all := keys + [last];
    if keys == [] {
      assert all[1..] == [];
    } else {
      assert all[1..] == keys[1..] + [last];
      var d := Follow(v, keys[0]);
      if d.Value? {
        FollowSnoc(d.value, keys[1..], last);
      }
    }
  }

  lemma {:induction false} ChainFollows(root: TableMap, keys: seq<string>)
    requires keys != []
    ensures Chain(root, keys).found == FollowAll(Table(root), keys)
  {
    if |keys| == 1 {
      assert keys[1..] == [];
    } else {
      var front, last := keys[..|keys| - 1], keys[|keys| - 1];
      assert keys == front + [last];
      ChainFollows(root, front);
      FollowSnoc(Table(root), front, last);
    }
  }

  /** The tree that has just one value, under `keys`. */
  function Path(keys: seq<string>): TableMap { InsertSegments(map[], keys, Boolean(true)) }

  lemma {:induction false} FollowFindsInserted(keys: seq<string>)
    requires keys != []
    ensures FollowAll(Table(Path(keys)), keys) == Found.Value(Boolean(true))
    decreases |keys|
  {
    if |keys| > 1 {
      FollowFindsInserted(keys[1..]);
    } else {
      assert keys[1..] == [];
    }
  }

  lemma {:induction false} EmptySegmentFails(v: Value, segments: seq<string>)
    requires segments != [] && !Proper(segments)
    ensures Walk(v, segments).Error?
    decreases |segments|
  {
    var d := Descend(v, segments[0]);
    if d.Value? {
      var i :| 0 <= i < |segments| && segments[i] == [];
      assert segments[1..][i - 1] == [];
      EmptySegmentFails(d.value, segments[1..]);
    }
  }

  /** Lists that are joined to the same string and are not equal differ at some position both have. */
  lemma {:induction false} SameJoinDiverges(p: seq<string>, q: seq<string>)
    requires p != [] && q != [] && p != q && Join(p, SEP) == Join(q, SEP)
    ensures Diverge(p, q)
    decreases |p|
  {
    if p[0] == q[0] && |p| > 1 && |q| > 1 {
      var head := p[0] + [SEP];
      assert Join(p, SEP)[|head|..] == Join(p[1..], SEP) && Join(q, SEP)[|head|..] == Join(q[1..], SEP);
      assert p == [p[0]] + p[1..] && q == [q[0]] + q[1..];
      SameJoinDiverges(p[1..], q[1..]);
      var i :| 0 <= i < |p[1..]| && i < |q[1..]| && p[1..][i] != q[1..][i];
      assert p[i + 1] != q[i + 1];
    }
  }

  /** On the tree made for it, a chain that is not proper and clean finds its value, and the dotted route fails. */
  lemma RoutesDiffer(keys: seq<string>)
    requires keys != [] && !(Proper(keys) && Clean(keys, SEP))
    ensures Chain(Path(keys), keys).found == Found.Value(Boolean(true))
    ensures Select(Path(keys), Join(keys, SEP)).Error?
  {
    ChainFollows(Path(keys), keys);
    FollowFindsInserted(keys);
    var dotted := Split(Join(keys, SEP), SEP);
    if dotted == keys {
      SplitInvertsJoinIff(keys, SEP);
      EmptySegmentFails(Table(Path(keys)), keys);
    } else {
      SplitThenJoin(Join(keys, SEP), SEP);
      SameJoinDiverges(keys, dotted);
      WalkFromEmpty(keys, dotted, Boolean(true));
    }
  }

  /** The two routes agree on every tree exactly for non-empty keys without dots. */
  lemma RoutesAgreeIff(keys: seq<string>)
    requires keys != []
    ensures (forall root :: Chain(root, keys).found == Select(root, Join(keys, SEP))) <==> Proper(keys) && Clean(keys, SEP)
  {
    if Proper(keys) && Clean(keys, SEP) {
      forall root
        ensures Chain(root, keys).found == Select(root, Join(keys, SEP))
      {
        ChainAgreesWithSelect(root, keys);
      }
    } else {
      RoutesDiffer(keys);
    }
  }

  /** The empty key, chained, is merely missing; dotted it is malformed. */
  lemma EmptyKeyDisagrees()
    ensures Chain(map[], [""]).found == Error(MissingKey)
    ensures SelectLookup(map[], Join([""], SEP)).found == Error(InvalidPath)
  {
    SplitPlain("", SEP);
  }

  // --- The same operations in place ---

  class Config {
    var root: TableMap

    constructor ()
      ensures root == map[]
    {
      root := map[];
    }

    method MergeWith(other: TableMap)
      modifies this
      ensures root == MergeTables(old(root), other)
    {
      var merged := MergeInPlace(Table(root), Table(other));
      root := merged.entries;
    }

    /** `insert_value`. */
    method InsertValue(key: string, value: Value)
      modifies this
      ensures root == InsertSegments(old(root), Split(key, SEP), value)
    {
      root := InsertInPlace(root, Split(key, SEP), value);
    }

    /** `load_config`: merge every source into an empty config. */
    method Load(sources: seq<Source>)
      modifies this
      ensures root == LoadAll(sources)
    {
      root := map[];
      for i := 0 to |sources|
        invariant root == LoadAll(sources[..i])
      {
        assert sources[..i + 1][..i] == sources[..i];
        MergeWith(LoadSource(sources[i]));
      }
      assert sources[..|sources|] == sources;
    }

    /** The loop of `select`. */
    method SelectPath(path: string) returns (r: Found)
      ensures r == Select(root, path)
    {
      var segments := Split(path, SEP);
      var value := Table(root);
      for i := 0 to |segments|
        invariant Walk(value, segments[i..]) == Select(root, path)
      {
        assert segments[i..][1..] == segments[i + 1..];
        match Descend(value, segments[i]) {
          case Error(k) => return Error(k);
          case Value(w) => value := w;
        }
      }
      r := Found.Value(value);
    }
  }

  /** `merge` and `merge_tables`: the entries of the next table one by one, in whatever order. */
  method MergeInPlace(current: Value, next: Value) returns (r: Value)
    ensures r == Merge(current, next)
    ensures current.Table? && next.Table? ==> r.Table?
    decreases next
  {
    if !(current.Table? && next.Table?) {
      return next;
    }
    var entries := current.entries;
    var rest := next.entries.Keys;
    while rest != {}
      invariant rest <= next.entries.Keys
      invariant entries.Keys == current.entries.Keys + (next.entries.Keys - rest)
      invariant forall k :: k in entries ==>
                  entries[k] == if k in rest || k !in next.entries then current.entries[k] else Merge(current, next).entries[k]
      decreases rest
    {
      var key :| key in rest;
      if key in entries {
        var merged := MergeInPlace(entries[key], next.entries[key]);
        entries := entries[key := merged];
      } else {
        entries := entries[key := next.entries[key]];
      }
      rest := rest - {key};
    }
    r := Table(entries);
  }

  /** `insert_segments`: merge at the last segment, descend into a fresh or existing table before. */
  method InsertInPlace(current: TableMap, segments: seq<string>, value: Value) returns (r: TableMap)
    ensures r == InsertSegments(current, segments, value)
    decreases |segments|
  {
    if segments == [] {
      return current;
    }
    var key, rest := segments[0], segments[1..];
    if rest == [] {
      var merged := value;
      if key in current {
        merged := MergeInPlace(current[key], value);
      }
      return current[key := merged];
    }
    var child: TableMap := map[];
    if key in current && current[key].Table? {
      child := current[key].entries;
    }
    child := InsertInPlace(child, rest, value);
    r := current[key := Table(child)];
  }
}
