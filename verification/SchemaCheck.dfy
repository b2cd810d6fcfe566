/** The CRD breaking-change checker: a recursive comparison of two schema trees, the relation its
    empty answer stands for, and what that relation means for the values the schemas admit. */
module SchemaCheck {
  import opened Wrappers

  /** The part of a JSON schema the checker reads. Enum members are raw JSON texts. */
  datatype Schema = Schema(
    typ: string,
    required: seq<string>,
    enumTexts: seq<string>,
    props: map<string, Schema>)

  datatype Change =
    | TypeChanged(before: string, after: string)
    | BecameRequired(field: string)
    | BecameOptional(field: string)
    | EnumAdded(text: string)
    | EnumRemoved(text: string)
    | PropertyRemoved

  datatype Finding = Finding(version: string, path: string, change: Change)

  datatype Version = Version(name: string, schema: Option<Schema>)

  type Crd = seq<Version>

  function Elems<T>(s: seq<T>): set<T> {
    set x | x in s
  }

  lemma ElemsAppend<T>(a: seq<T>, b: seq<T>)
    ensures Elems(a + b) == Elems(a) + Elems(b)
  {
  }

  function Join(prefix: string, name: string): string {
    if prefix == "" then name else prefix + "." + name
  }

  // ---- What a comparison reports ----

  ghost function Newly(version: string, path: string, fields: set<string>, was: set<string>): set<Finding> {
    set f | f in fields && f !in was :: Finding(version, path, BecameRequired(f))
  }

  ghost function NoLonger(version: string, path: string, fields: set<string>, now: set<string>): set<Finding> {
    set f | f in fields && f !in now :: Finding(version, path, BecameOptional(f))
  }

  ghost function Added(version: string, path: string, texts: set<string>, was: set<string>): set<Finding> {
    set t | t in texts && t !in was :: Finding(version, path, EnumAdded(t))
  }

  ghost function Removed(version: string, path: string, texts: set<string>, now: set<string>): set<Finding> {
    set t | t in texts && t !in now :: Finding(version, path, EnumRemoved(t))
  }

  ghost function OfEnum(version: string, path: string, was: seq<string>, now: seq<string>): set<Finding> {
    if now == [] then {}
    else Added(version, path, Elems(now), Elems(was)) + Removed(version, path, Elems(was), Elems(now))
  }

  ghost function OfType(version: string, path: string, was: string, now: string): set<Finding> {
    if was == now then {} else {Finding(version, path, TypeChanged(was, now))}
  }

  ghost function OfProperty(version: string, path: string, p: string, was: Schema, now: Schema): set<Finding>
    decreases was, 0
  {
    if p !in now.props then {Finding(version, Join(path, p), PropertyRemoved)}
    else if p !in was.props then {}
    else Findings(version, Join(path, p), was.props[p], now.props[p])
  }

  ghost function OfProperties(version: string, path: string, names: set<string>, was: Schema, now: Schema): set<Finding>
    decreases was, 1
  {
    set p, f | p in names && f in OfProperty(version, path, p, was, now) :: f
  }

  ghost function Findings(version: string, path: string, was: Schema, now: Schema): set<Finding>
    decreases was, 2
  {
    OfType(version, path, was.typ, now.typ)
    + Newly(version, path, Elems(now.required), Elems(was.required))
    + NoLonger(version, path, Elems(was.required), Elems(now.required))
    + OfEnum(version, path, was.enumTexts, now.enumTexts)
    + OfProperties(version, path, was.props.Keys + now.props.Keys, was, now)
  }

  // ---- The checker ----

  method ToSet(items: seq<string>) returns (m: set<string>)
    ensures m == Elems(items)
  {
    m := {};
    for i := 0 to |items|
      invariant m == Elems(items[..i])
    {
      assert items[..i + 1] == items[..i] + [items[i]];
      m := m + {items[i]};
    }
    assert items[..|items|] == items;
  }

  method ContainsEnum(items: seq<string>, target: string) returns (found: bool)
    ensures found <==> target in items
  {
    for i := 0 to |items|
      invariant target !in items[..i]
    {
      if items[i] == target {
        return true;
      }
    }
    return false;
  }

  method CompareRequired(version: string, path: string, oldRequired: set<string>, newRequired: set<string>)
    returns (breaking: seq<Finding>)
    ensures Elems(breaking)
         == Newly(version, path, newRequired, oldRequired) + NoLonger(version, path, oldRequired, newRequired)
  {
    breaking := [];
    var todo := newRequired;
    while todo != {}
      invariant todo <= newRequired
      invariant Elems(breaking) == Newly(version, path, newRequired - todo, oldRequired)
    {
      var field :| field in todo;
      todo := todo - {field};
      if field !in oldRequired {
        ElemsAppend(breaking, [Finding(version, path, BecameRequired(field))]);
        breaking := breaking + [Finding(version, path, BecameRequired(field))];
      }
    }
    assert newRequired - {} == newRequired;
    todo := oldRequired;
    while todo != {}
      invariant todo <= oldRequired
      invariant Elems(breaking) == Newly(version, path, newRequired, oldRequired)
                                   + NoLonger(version, path, oldRequired - todo, newRequired)
    {
      var field :| field in todo;
      todo := todo - {field};
      if field !in newRequired {
        ElemsAppend(breaking, [Finding(version, path, BecameOptional(field))]);
        breaking := breaking + [Finding(version, path, BecameOptional(field))];
      }
    }
    assert oldRequired - {} == oldRequired;
  }

  method CompareEnums(version: string, path: string, was: seq<string>, now: seq<string>)
    returns (breaking: seq<Finding>)
    ensures Elems(breaking) == OfEnum(version, path, was, now)
  {
    breaking := [];
    if |now| > 0 {
      var oldEnum := ToSet(was);
      for i := 0 to |now|
        invariant Elems(breaking) == Added(version, path, Elems(now[..i]), oldEnum)
      {
        assert Elems(now[..i + 1]) == Elems(now[..i]) + {now[i]};
        if now[i] !in oldEnum {
          ElemsAppend(breaking, [Finding(version, path, EnumAdded(now[i]))]);
          breaking := breaking + [Finding(version, path, EnumAdded(now[i]))];
        }
      }
      assert now[..|now|] == now;
      for i := 0 to |was|
        invariant Elems(breaking)
               == Added(version, path, Elems(now), oldEnum) + Removed(version, path, Elems(was[..i]), Elems(now))
      {
        assert Elems(was[..i + 1]) == Elems(was[..i]) + {was[i]};
        var kept := ContainsEnum(now, was[i]);
        if !kept {
          ElemsAppend(breaking, [Finding(version, path, EnumRemoved(was[i]))]);
          breaking := breaking + [Finding(version, path, EnumRemoved(was[i]))];
        }
      }
      assert was[..|was|] == was;
    }
  }

  method CompareSchemas(version: string, path: string, was: Schema, now: Schema) returns (breaking: seq<Finding>)
    ensures Elems(breaking) == Findings(version, path, was, now)
    ensures breaking == [] <==> Compatible(was, now)
    decreases was
  {
    hide Newly, NoLonger, OfEnum;
    breaking := [];
    if was.typ != now.typ {
      breaking := [Finding(version, path, TypeChanged(was.typ, now.typ))];
    }
    var oldRequired := ToSet(was.required);
    var newRequired := ToSet(now.required);
    var more := CompareRequired(version, path, oldRequired, newRequired);
    ElemsAppend(breaking, more);
    breaking := breaking + more;
    more := CompareEnums(version, path, was.enumTexts, now.enumTexts);
    ElemsAppend(breaking, more);
    breaking := breaking + more;

    ghost var own := Elems(breaking);
    var all := was.props.Keys + now.props.Keys;
    var todo := all;
    while todo != {}
      invariant todo <= all
      invariant Elems(breaking) == own + OfProperties(version, path, all - todo, was, now)
    {
      var p :| p in todo;
      assert OfProperties(version, path, all - (todo - {p}), was, now)
          == OfProperties(version, path, all - todo, was, now) + OfProperty(version, path, p, was, now);
      todo := todo - {p};
      if p !in now.props {
        ElemsAppend(breaking, [Finding(version, Join(path, p), PropertyRemoved)]);
        breaking := breaking + [Finding(version, Join(path, p), PropertyRemoved)];
      } else if p in was.props {
        var inner := CompareSchemas(version, Join(path, p), was.props[p], now.props[p]);
        ElemsAppend(breaking, inner);
        breaking := breaking + inner;
      }
    }
    assert all - {} == all;
    EmptyIffCompatible(version, path, was, now);
    assert breaking != [] ==> breaking[0] in Elems(breaking);
  }

  // ---- Where what is reported ----

  /** The node of a schema at a path of property names. */
  function NodeAt(s: Schema, path: seq<string>): Option<Schema>
    decreases |path|
  {
    if path == [] then Some(s)
    else if path[0] in s.props then NodeAt(s.props[path[0]], path[1..])
    else None
  }

  /** The names below a prefix, each after a dot. */
  function Dots(path: seq<string>): string {
    if path == [] then "" else "." + path[0] + Dots(path[1..])
  }

  /** A path as written from the root: the names with dots between them. Until a name that is not empty
      comes there is nothing to put a dot after. */
  function Written(path: seq<string>): string {
    if path == [] then "" else if path[0] == "" then Written(path[1..]) else path[0] + Dots(path[1..])
  }

  /** And from a prefix on. */
  function WrittenAfter(prefix: string, path: seq<string>): string {
    if prefix == "" then Written(path) else prefix + Dots(path)
  }

  lemma JoinIsWritten(prefix: string, path: seq<string>)
    requires path != []
    ensures WrittenAfter(Join(prefix, path[0]), path[1..]) == WrittenAfter(prefix, path)
  {
    if prefix != "" {
      assert prefix + "." + path[0] + Dots(path[1..]) == prefix + ("." + path[0] + Dots(path[1..]));
    }
  }

  /** What two nodes of one path give reason to report. */
  predicate NodesDiffer(a: Schema, b: Schema, change: Change) {
    match change
    case TypeChanged(before, after) => before == a.typ && after == b.typ && a.typ != b.typ
    case BecameRequired(f) => f in b.required && f !in a.required
    case BecameOptional(f) => f in a.required && f !in b.required
    case EnumAdded(t) => t in b.enumTexts && t !in a.enumTexts
    case EnumRemoved(t) => b.enumTexts != [] && t in a.enumTexts && t !in b.enumTexts
    case PropertyRemoved => false
  }

  /** A change at a path: both schemas have the node and it differs, or the property is gone from a node
      both still have. */
  predicate ChangedAt(was: Schema, now: Schema, path: seq<string>, change: Change) {
    match (NodeAt(was, path), NodeAt(now, path))
    case (Some(a), Some(b)) => NodesDiffer(a, b, change)
    case (Some(_), None) => change == PropertyRemoved && NodeAt(now, path[..|path| - 1]).Some?
    case _ => false
  }

  lemma ChangedBelow(was: Schema, now: Schema, path: seq<string>, change: Change)
    requires path != [] && path[0] in was.props && path[0] in now.props
    ensures ChangedAt(was, now, path, change)
       <==> ChangedAt(was.props[path[0]], now.props[path[0]], path[1..], change)
  {
    if |path| > 1 {
      assert path[..|path| - 1][1..] == path[1..][..|path[1..]| - 1];
    }
  }

  /** The findings are exactly the changes, each under the path of its node as written. */
  lemma {:induction false} FindingsAre(version: string, prefix: string, was: Schema, now: Schema, f: Finding)
    ensures f in Findings(version, prefix, was, now)
       <==> f.version == version
            && exists path :: f.path == WrittenAfter(prefix, path) && ChangedAt(was, now, path, f.change)
    decreases was
  {
    hide WrittenAfter, Join, Dots, Written;
    assert WrittenAfter(prefix, []) == prefix by { NothingWritten(prefix); }
    OwnFindings(version, prefix, was, now, f);
    var all := was.props.Keys + now.props.Keys;
    if f in OfProperties(version, prefix, all, was, now) {
      var p :| p in all && f in OfProperty(version, prefix, p, was, now);
      JoinIsWritten(prefix, [p]);
      if p !in now.props {
        RemovedAt(prefix, was, now, [p], f.change);
        assert f == Finding(version, Join(prefix, p), PropertyRemoved);
      } else {
        FindingsAre(version, Join(prefix, p), was.props[p], now.props[p], f);
        var path :| f.path == WrittenAfter(Join(prefix, p), path)
                    && ChangedAt(was.props[p], now.props[p], path, f.change);
        JoinIsWritten(prefix, [p] + path);
        ChangedBelow(was, now, [p] + path, f.change);
        assert ([p] + path)[1..] == path;
      }
    }
    if path :| f.version == version && f.path == WrittenAfter(prefix, path) && ChangedAt(was, now, path, f.change) {
      if path != [] {
        var p := path[0];
        JoinIsWritten(prefix, path);
        assert p in was.props;
        if p in now.props {
          ChangedBelow(was, now, path, f.change);
          FindingsAre(version, Join(prefix, p), was.props[p], now.props[p], f);
        } else {
          RemovedAt(prefix, was, now, path, f.change);
          assert f == Finding(version, Join(prefix, p), PropertyRemoved);
        }
        assert f in OfProperty(version, prefix, p, was, now);
      }
    }
  }

  lemma RemovedAt(prefix: string, was: Schema, now: Schema, path: seq<string>, change: Change)
    requires path != [] && path[0] in was.props && path[0] !in now.props
    ensures ChangedAt(was, now, path, change) <==> change == PropertyRemoved && |path| == 1
    ensures |path| == 1 ==> WrittenAfter(prefix, path) == Join(prefix, path[0])
  {
    if |path| > 1 {
      assert path[..|path| - 1][0] == path[0];
    } else {
      assert path[1..] == [] && path[..|path| - 1] == [];
      assert NodeAt(was, path) == NodeAt(was.props[path[0]], path[1..]);
      JoinIsWritten(prefix, path);
      NothingWritten(Join(prefix, path[0]));
    }
  }

  lemma NothingWritten(prefix: string)
    ensures WrittenAfter(prefix, []) == prefix
  {
  }

  /** What a node reports about itself. */
  lemma {:induction false} OwnFindings(version: string, prefix: string, was: Schema, now: Schema, f: Finding)
    ensures f in Findings(version, prefix, was, now)
       <==> || (f.version == version && f.path == prefix && ChangedAt(was, now, [], f.change))
            || f in OfProperties(version, prefix, was.props.Keys + now.props.Keys, was, now)
  {
    hide OfProperties;
  }

  // ---- The relation behind an empty answer ----

  /** The new schema makes no change the checker reports. */
  ghost predicate Compatible(was: Schema, now: Schema)
    decreases was
  {
    && was.typ == now.typ
    && Elems(was.required) == Elems(now.required)
    && (now.enumTexts != [] ==> Elems(was.enumTexts) == Elems(now.enumTexts))
    && forall p | p in was.props :: p in now.props && Compatible(was.props[p], now.props[p])
  }

  lemma {:induction false} EmptyIffCompatible(version: string, path: string, was: Schema, now: Schema)
    ensures Findings(version, path, was, now) == {} <==> Compatible(was, now)
    decreases was
  {
    hide Newly, NoLonger, OfEnum, Elems, Join, OfProperties;
    var all := was.props.Keys + now.props.Keys;
    forall p | p in was.props && p in now.props {
      EmptyIffCompatible(version, Join(path, p), was.props[p], now.props[p]);
    }
    EmptyDifference(version, path, was, now);
    EmptyProperties(version, path, all, was, now);
    forall p | p in all
      ensures OfProperty(version, path, p, was, now) == {}
         <==> (p in was.props ==> p in now.props && Compatible(was.props[p], now.props[p]))
    {
      assert p in was.props && p !in now.props ==>
          Finding(version, Join(path, p), PropertyRemoved) in OfProperty(version, path, p, was, now);
    }
  }

  lemma {:induction false} EmptyProperties(version: string, path: string, all: set<string>, was: Schema, now: Schema)
    ensures OfProperties(version, path, all, was, now) == {}
       <==> forall p | p in all :: OfProperty(version, path, p, was, now) == {}
  {
    hide OfProperty;
    var inner := OfProperties(version, path, all, was, now);
    assert forall p | p in all :: OfProperty(version, path, p, was, now) <= inner;
  }

  /** The four reports a node makes about itself vanish exactly when the node's own keywords agree. */
  lemma EmptyDifference(version: string, path: string, was: Schema, now: Schema)
    ensures Newly(version, path, Elems(now.required), Elems(was.required))
          + NoLonger(version, path, Elems(was.required), Elems(now.required)) == {}
       <==> Elems(was.required) == Elems(now.required)
    ensures OfEnum(version, path, was.enumTexts, now.enumTexts) == {}
       <==> (now.enumTexts != [] ==> Elems(was.enumTexts) == Elems(now.enumTexts))
  {
    var (before, after) := (Elems(was.required), Elems(now.required));
    assert forall f | f in after && f !in before ::
        Finding(version, path, BecameRequired(f)) in Newly(version, path, after, before);
    assert forall f | f in before && f !in after ::
        Finding(version, path, BecameOptional(f)) in NoLonger(version, path, before, after);
    var (texts, textsNow) := (Elems(was.enumTexts), Elems(now.enumTexts));
    assert forall t | t in textsNow && t !in texts ::
        Finding(version, path, EnumAdded(t)) in Added(version, path, textsNow, texts);
    assert forall t | t in texts && t !in textsNow ::
        Finding(version, path, EnumRemoved(t)) in Removed(version, path, texts, textsNow);
  }

  lemma {:induction false} CompatibleReflexive(s: Schema)
    ensures Compatible(s, s)
    decreases s
  {
    forall p | p in s.props {
      CompatibleReflexive(s.props[p]);
    }
  }

  lemma {:induction false} CompatibleTransitive(a: Schema, b: Schema, c: Schema)
    requires Compatible(a, b) && Compatible(b, c)
    ensures Compatible(a, c)
    decreases a
  {
    if c.enumTexts != [] {
      assert c.enumTexts[0] in Elems(b.enumTexts);
    }
    forall p | p in a.props
      ensures p in c.props && Compatible(a.props[p], c.props[p])
    {
      CompatibleTransitive(a.props[p], b.props[p], c.props[p]);
    }
  }

  // ---- What schemas mean: values, validity, pruning ----

  datatype Value =
    | Null
    | Bool(b: bool)
    | Number(n: real)
    | Text(s: string)
    | Array(items: seq<Value>)
    | Object(fields: map<string, Value>)

  predicate TypeAdmits(typ: string, v: Value) {
    match typ
    case "" => true
    case "object" => v.Object?
    case "array" => v.Array?
    case "string" => v.Text?
    case "boolean" => v.Bool?
    case "number" => v.Number?
    case "integer" => v.Number? && v.n.Floor as real == v.n
    case _ => false
  }

  /** Validity under type, required, enum and properties. `parse` reads a raw JSON text. */
  ghost predicate Accepts(s: Schema, v: Value, parse: string -> Value)
    decreases s
  {
    && TypeAdmits(s.typ, v)
    && (s.enumTexts != [] ==> exists t :: t in s.enumTexts && parse(t) == v)
    && (v.Object? ==>
      && (forall f | f in s.required :: f in v.fields)
      && forall p | p in s.props && p in v.fields :: Accepts(s.props[p], v.fields[p], parse))
  }

  /** Every property of the value, at every level, is one the schema declares. */
  ghost predicate OnlyDeclared(s: Schema, v: Value)
    decreases s
  {
    v.Object? ==> forall p | p in v.fields :: p in s.props && OnlyDeclared(s.props[p], v.fields[p])
  }

  /** What is left of a value once undeclared properties are dropped. */
  ghost function Prune(s: Schema, v: Value): Value
    decreases s
  {
    if v.Object? then Object(map p | p in v.fields && p in s.props :: Prune(s.props[p], v.fields[p])) else v
  }

  lemma {:induction false} PruneDeclares(s: Schema, v: Value)
    ensures OnlyDeclared(s, Prune(s, v))
    ensures OnlyDeclared(s, v) ==> Prune(s, v) == v
    decreases s
  {
    if v.Object? {
      forall p | p in v.fields && p in s.props {
        PruneDeclares(s.props[p], v.fields[p]);
      }
      if OnlyDeclared(s, v) {
        assert Prune(s, v).fields == v.fields;
      }
    }
  }

  /** An upgrade the checker passes keeps every stored object valid. */
  lemma {:induction false} OldValuesStayValid(was: Schema, now: Schema, v: Value, parse: string -> Value)
    requires Compatible(was, now)
    requires Accepts(was, v, parse) && OnlyDeclared(was, v)
    ensures Accepts(now, v, parse)
    decreases was
  {
    if now.enumTexts != [] {
      assert now.enumTexts[0] in Elems(was.enumTexts);
      var t :| t in was.enumTexts && parse(t) == v;
      assert t in Elems(now.enumTexts);
    }
    if v.Object? {
      forall f | f in now.required
        ensures f in v.fields
      {
        assert f in Elems(was.required);
      }
      forall p | p in now.props && p in v.fields
        ensures Accepts(now.props[p], v.fields[p], parse)
      {
        OldValuesStayValid(was.props[p], now.props[p], v.fields[p], parse);
      }
    }
  }

  /** No node of the old tree loses its enum altogether: the one change the checker lets through. */
  ghost predicate KeepsEnums(was: Schema, now: Schema)
    decreases was
  {
    && (was.enumTexts != [] ==> now.enumTexts != [])
    && forall p | p in was.props && p in now.props :: KeepsEnums(was.props[p], now.props[p])
  }

  /** Required fields are declared, and enum members are not objects. */
  ghost predicate WellFormed(s: Schema, parse: string -> Value)
    decreases s
  {
    && (forall f | f in s.required :: f in s.props)
    && (forall t | t in s.enumTexts :: !parse(t).Object?)
    && forall p | p in s.props :: WellFormed(s.props[p], parse)
  }

  // ---- Rolling back ----

  /** What a value holds at a path. */
  function ValueAt(v: Value, path: seq<string>): Option<Value>
    decreases |path|
  {
    if path == [] then Some(v)
    else if v.Object? && path[0] in v.fields then ValueAt(v.fields[path[0]], path[1..])
    else None
  }

  /** The value with something else at a path. */
  function Put(v: Value, path: seq<string>, x: Value): Value
    decreases |path|
  {
    if path == [] then x
    else if v.Object? && path[0] in v.fields then
      Object(v.fields[path[0] := Put(v.fields[path[0]], path[1..], x)])
    else v
  }

  /** The old schema enumerates the values at the path, the new one no longer does. */
  predicate LosesEnum(was: Schema, now: Schema, path: seq<string>) {
    match (NodeAt(was, path), NodeAt(now, path))
    case (Some(a), Some(b)) => a.enumTexts != [] && b.enumTexts == []
    case _ => false
  }

  /** No path at which the value holds something loses its enum. */
  ghost predicate SpareEnums(was: Schema, now: Schema, v: Value) {
    forall path | ValueAt(v, path).Some? :: !LosesEnum(was, now, path)
  }

  lemma SpareBelow(was: Schema, now: Schema, v: Value, p: string)
    requires SpareEnums(was, now, v) && p in was.props && p in now.props && v.Object? && p in v.fields
    ensures SpareEnums(was.props[p], now.props[p], v.fields[p])
  {
    forall path | ValueAt(v.fields[p], path).Some?
      ensures !LosesEnum(was.props[p], now.props[p], path)
    {
      assert ([p] + path)[1..] == path;
      assert ValueAt(v, [p] + path).Some? && !LosesEnum(was, now, [p] + path);
    }
  }

  /** Going back, a new object is valid once pruned to the old schema, if it holds nothing where an enum
      was dropped. */
  lemma {:induction false} SparedValuesRollBack(was: Schema, now: Schema, v: Value, parse: string -> Value)
    requires Compatible(was, now) && WellFormed(was, parse) && Accepts(now, v, parse)
    requires SpareEnums(was, now, v)
    ensures Accepts(was, Prune(was, v), parse)
    decreases was
  {
    var u := Prune(was, v);
    assert ValueAt(v, []) == Some(v) && !LosesEnum(was, now, []);
    if was.enumTexts != [] {
      var t :| t in now.enumTexts && parse(t) == v;
      assert t in Elems(now.enumTexts);
      assert t in was.enumTexts;
    }
    if v.Object? {
      forall f | f in was.required
        ensures f in u.fields
      {
        assert f in Elems(now.required);
      }
      forall p | p in was.props && p in u.fields
        ensures Accepts(was.props[p], u.fields[p], parse)
      {
        SpareBelow(was, now, v, p);
        SparedValuesRollBack(was.props[p], now.props[p], v.fields[p], parse);
      }
    }
  }

  lemma {:induction false} KeptEnumsAreSpared(was: Schema, now: Schema, path: seq<string>)
    requires KeepsEnums(was, now)
    ensures !LosesEnum(was, now, path)
    decreases |path|
  {
    if path != [] && path[0] in was.props && path[0] in now.props {
      KeptEnumsAreSpared(was.props[path[0]], now.props[path[0]], path[1..]);
    }
  }

  /** A rollback across a passed upgrade keeps every new object valid, once pruned to the old schema. */
  lemma {:induction false} NewValuesRollBack(was: Schema, now: Schema, v: Value, parse: string -> Value)
    requires Compatible(was, now) && KeepsEnums(was, now) && WellFormed(was, parse)
    requires Accepts(now, v, parse)
    ensures Accepts(was, Prune(was, v), parse)
  {
    forall path | ValueAt(v, path).Some?
      ensures !LosesEnum(was, now, path)
    {
      KeptEnumsAreSpared(was, now, path);
    }
    SparedValuesRollBack(was, now, v, parse);
  }

  function Longest(texts: seq<string>, parse: string -> Value): (n: nat)
    ensures forall t | t in texts && parse(t).Text? :: |parse(t).s| <= n
  {
    if texts == [] then 0
    else
      var rest := Longest(texts[1..], parse);
      var head := parse(texts[0]);
      if head.Text? && |head.s| > rest then |head.s| else rest
  }

  /** Where the new schema admits something the old one does not, any new object that holds anything
      there can be made into one that does not go back. */
  lemma {:induction false} SwappedValueFails(was: Schema, now: Schema, v: Value, path: seq<string>, x: Value,
                                             parse: string -> Value)
    requires Compatible(was, now) && WellFormed(now, parse) && Accepts(now, v, parse) && ValueAt(v, path).Some?
    requires forall b | NodeAt(now, path) == Some(b) :: Accepts(b, x, parse)
    requires exists a :: NodeAt(was, path) == Some(a) && !Accepts(a, Prune(a, x), parse)
    ensures Accepts(now, Put(v, path, x), parse) && !Accepts(was, Prune(was, Put(v, path, x)), parse)
    decreases |path|
  {
    if path != [] {
      var p := path[0];
      assert p in was.props && p in now.props;
      assert now.enumTexts == [] by {
        if t :| t in now.enumTexts && parse(t) == v { }
      }
      SwappedValueFails(was.props[p], now.props[p], v.fields[p], path[1..], x, parse);
      assert Prune(was, Put(v, path, x)).fields[p] == Prune(was.props[p], Put(v.fields[p], path[1..], x));
    }
  }

  /** Dropping the enum of a string, anywhere in the tree, passes the checker; and if some new object
      holds anything there, some new object does not go back. */
  lemma {:induction false} DroppedEnumGoesUnreported(was: Schema, now: Schema, v: Value, path: seq<string>,
                                                     parse: string -> Value)
    requires Compatible(was, now) && WellFormed(now, parse) && Accepts(now, v, parse) && ValueAt(v, path).Some?
    requires LosesEnum(was, now, path) && StringEnums(was)
    ensures exists u :: Accepts(now, u, parse) && !Accepts(was, Prune(was, u), parse)
  {
    var (a, b) := (NodeAt(was, path).value, NodeAt(now, path).value);
    StringAt(was, now, path);
    var x := Text(seq(Longest(a.enumTexts, parse) + 1, _ => 'x'));
    assert Accepts(b, x, parse) && !Accepts(a, Prune(a, x), parse);
    SwappedValueFails(was, now, v, path, x, parse);
  }

  /** Only strings are enumerated. */
  ghost predicate StringEnums(s: Schema)
    decreases s
  {
    (s.enumTexts != [] ==> s.typ == "string") && forall p | p in s.props :: StringEnums(s.props[p])
  }

  lemma {:induction false} StringAt(was: Schema, now: Schema, path: seq<string>)
    requires Compatible(was, now) && StringEnums(was) && LosesEnum(was, now, path)
    ensures forall a, b | NodeAt(was, path) == Some(a) && NodeAt(now, path) == Some(b) ::
              a.typ == "string" && b.typ == "string"
    decreases |path|
  {
    if path != [] {
      StringAt(was.props[path[0]], now.props[path[0]], path[1..]);
    }
  }

  /** Exactly when every new object goes back: when no new object holds anything where an enum was
      dropped. */
  lemma {:induction false} RollsBackIff(was: Schema, now: Schema, parse: string -> Value)
    requires Compatible(was, now) && WellFormed(was, parse) && WellFormed(now, parse) && StringEnums(was)
    ensures (forall v | Accepts(now, v, parse) :: Accepts(was, Prune(was, v), parse))
       <==> (forall v | Accepts(now, v, parse) :: SpareEnums(was, now, v))
  {
    if forall v | Accepts(now, v, parse) :: SpareEnums(was, now, v) {
      forall v | Accepts(now, v, parse)
        ensures Accepts(was, Prune(was, v), parse)
      {
        SparedValuesRollBack(was, now, v, parse);
      }
    } else {
      var v :| Accepts(now, v, parse) && !SpareEnums(was, now, v);
      var path :| ValueAt(v, path).Some? && LosesEnum(was, now, path);
      DroppedEnumGoesUnreported(was, now, v, path, parse);
    }
  }

  predicate Enumerates(s: Schema, path: seq<string>) {
    match NodeAt(s, path)
    case Some(a) => a.enumTexts != []
    case None => false
  }

  /** And the checker passes the drop of all enums of any schema. */
  lemma {:induction false} EnumsMayGo(s: Schema)
    ensures Compatible(s, Bare(s))
    ensures forall path :: LosesEnum(s, Bare(s), path) <==> Enumerates(s, path)
    decreases s
  {
    forall p | p in s.props {
      EnumsMayGo(s.props[p]);
    }
    forall path
      ensures LosesEnum(s, Bare(s), path) <==> Enumerates(s, path)
    {
      if path != [] && path[0] in s.props {
        var below := s.props[path[0]];
        assert LosesEnum(below, Bare(below), path[1..]) <==> Enumerates(below, path[1..]);
      }
    }
  }

  /** The schema without its enums. */
  function Bare(s: Schema): Schema
    decreases s
  {
    s.(enumTexts := [], props := map p | p in s.props :: Bare(s.props[p]))
  }

  // ---- Versions of a CRD ----

  /** The first version of that name, as an index. */
  ghost function First(crd: Crd, name: string): Option<nat> {
    if crd == [] then None
    else if crd[0].name == name then Some(0)
    else match First(crd[1..], name)
         case None => None
         case Some(i) => Some(i + 1)
  }

  lemma {:induction false} FirstIs(crd: Crd, name: string, i: nat)
    requires i <= |crd| && forall j | 0 <= j < i :: crd[j].name != name
    ensures i < |crd| && crd[i].name == name ==> First(crd, name) == Some(i)
    ensures i == |crd| ==> First(crd, name) == None
    decreases crd
  {
    if i > 0 {
      forall j | 0 <= j < i - 1
        ensures crd[1..][j].name != name
      {
        assert crd[1..][j] == crd[j + 1];
      }
      FirstIs(crd[1..], name, i - 1);
    }
  }

  lemma {:induction false} FirstSound(crd: Crd, name: string)
    ensures match First(crd, name)
            case Some(i) => i < |crd| && crd[i].name == name && forall j | 0 <= j < i :: crd[j].name != name
            case None => forall j | 0 <= j < |crd| :: crd[j].name != name
    decreases crd
  {
    if crd != [] && crd[0].name != name {
      FirstSound(crd[1..], name);
      forall j | 0 < j < |crd|
        ensures crd[j] == crd[1..][j - 1]
      {
      }
    }
  }

  method FindVersion(crd: Crd, name: string) returns (found: Option<nat>)
    ensures found == First(crd, name)
    ensures found.Some? ==> found.value < |crd|
  {
    for i := 0 to |crd|
      invariant forall j | 0 <= j < i :: crd[j].name != name
    {
      if crd[i].name == name {
        FirstIs(crd, name, i);
        return Some(i);
      }
    }
    FirstIs(crd, name, |crd|);
    return None;
  }

  /** The pair of schemas compared for one version of the new CRD, if both exist. */
  ghost function Paired(was: Crd, v: Version): Option<(string, Schema, Schema)> {
    FirstSound(was, v.name);
    match First(was, v.name)
    case None => None
    case Some(i) =>
      if v.schema.None? || was[i].schema.None? then None
      else Some((was[i].name, was[i].schema.value, v.schema.value))
  }

  ghost predicate Passes(was: Crd, now: Crd) {
    forall v | v in now && Paired(was, v).Some? ::
      Compatible(Paired(was, v).value.1, Paired(was, v).value.2)
  }

  /** What the check of one version of the new CRD reports. */
  ghost function VersionFindings(was: Crd, v: Version): set<Finding> {
    match Paired(was, v)
    case None => {}
    case Some((name, a, b)) => Findings(name, "", a, b)
  }

  /** The i-th version is the first of that name, both have schemas, and these changed at the path. */
  predicate VersionChanged(was: Crd, v: Version, i: nat, path: seq<string>, change: Change) {
    && i < |was| && was[i].name == v.name && (forall j | 0 <= j < i :: was[j].name != v.name)
    && match (was[i].schema, v.schema)
       case (Some(a), Some(b)) => ChangedAt(a, b, path, change)
       case _ => false
  }

  /** What is reported for a version: the changes from the first old version of its name. */
  lemma {:induction false} VersionFindingsAre(was: Crd, v: Version, f: Finding)
    ensures f in VersionFindings(was, v)
       <==> f.version == v.name
            && exists i: nat, path :: f.path == Written(path) && VersionChanged(was, v, i, path, f.change)
  {
    hide ChangedAt, Written, Findings, First;
    FirstSound(was, v.name);
    if f in VersionFindings(was, v) {
      var i := First(was, v.name).value;
      FindingsAre(v.name, "", was[i].schema.value, v.schema.value, f);
      var path :| f.path == WrittenAfter("", path)
                  && ChangedAt(was[i].schema.value, v.schema.value, path, f.change);
      assert f.path == Written(path) && VersionChanged(was, v, i, path, f.change);
    }
    if i: nat, path :| f.version == v.name && f.path == Written(path) && VersionChanged(was, v, i, path, f.change) {
      FirstIs(was, v.name, i);
      FindingsAre(v.name, "", was[i].schema.value, v.schema.value, f);
      assert f.path == WrittenAfter("", path);
    }
  }

  method CheckCrd(oldCrd: Crd, newCrd: Crd) returns (breaking: seq<Finding>)
    ensures breaking == [] <==> Passes(oldCrd, newCrd)
    ensures forall f :: f in breaking <==> exists v :: v in newCrd && f in VersionFindings(oldCrd, v)
  {
    breaking := [];
    for i := 0 to |newCrd|
      invariant breaking == [] <==> Passes(oldCrd, newCrd[..i])
      invariant forall f :: f in breaking <==> exists v :: v in newCrd[..i] && f in VersionFindings(oldCrd, v)
    {
      assert newCrd[..i + 1] == newCrd[..i] + [newCrd[i]];
      assert forall v :: v in newCrd[..i + 1] <==> v in newCrd[..i] || v == newCrd[i];
      var at := FindVersion(oldCrd, newCrd[i].name);
      if at.None? || newCrd[i].schema.None? || oldCrd[at.value].schema.None? {
        assert Paired(oldCrd, newCrd[i]).None?;
      } else {
        var was := oldCrd[at.value];
        assert Paired(oldCrd, newCrd[i]) == Some((was.name, was.schema.value, newCrd[i].schema.value));
        var more := CompareSchemas(was.name, "", was.schema.value, newCrd[i].schema.value);
        assert Elems(more) == VersionFindings(oldCrd, newCrd[i]);
        assert forall f :: f in more <==> f in Elems(more);
        breaking := breaking + more;
      }
    }
    assert newCrd[..|newCrd|] == newCrd;
  }

  ghost predicate DistinctNames(crd: Crd) {
    forall i, j | 0 <= i < j < |crd| :: crd[i].name != crd[j].name
  }

  /** The middle release still serves, with a schema, each version the outer two share. */
  ghost predicate Bridges(a: Crd, b: Crd, c: Crd) {
    forall v | v in c && Paired(a, v).Some? :: Kept(b, v.name)
  }

  /** Checks made release by release compose: skipping a release is as safe as taking each step. */
  lemma ReleasesCompose(a: Crd, b: Crd, c: Crd)
    requires DistinctNames(b) && Bridges(a, b, c)
    requires Passes(a, b) && Passes(b, c)
    ensures Passes(a, c)
  {
    forall v | v in c && Paired(a, v).Some?
      ensures Compatible(Paired(a, v).value.1, Paired(a, v).value.2)
    {
      var u :| u in b && u.name == v.name && u.schema.Some?;
      var j :| 0 <= j < |b| && b[j] == u;
      FirstSound(b, v.name);
      FirstIs(b, v.name, j);
      assert Paired(b, v) == Some((u.name, u.schema.value, v.schema.value));
      assert Paired(a, u).value.1 == Paired(a, v).value.1;
      CompatibleTransitive(Paired(a, v).value.1, u.schema.value, v.schema.value);
    }
  }

  /** The version is kept, with a schema. */
  ghost predicate Kept(b: Crd, name: string) {
    exists u :: u in b && u.name == name && u.schema.Some?
  }

  /** A version dropped by one release may come back in the next with any schema, and neither check
      sees it. */
  lemma {:induction false} DroppedVersionEscapes(a: Crd, b: Crd, i: nat, t: Schema)
    requires DistinctNames(a) && i < |a| && a[i].schema.Some? && !Kept(b, a[i].name)
    requires !Compatible(a[i].schema.value, t)
    ensures var c := [Version(a[i].name, Some(t))]; Passes(b, c) && !Passes(a, c)
  {
    var c := [Version(a[i].name, Some(t))];
    FirstIs(a, a[i].name, i);
    FirstSound(b, a[i].name);
    assert Paired(a, c[0]) == Some((a[i].name, a[i].schema.value, t));
    assert Paired(b, c[0]).None?;
  }

  /** Exactly when the checks of two releases stand for the check across them, whatever the next one is:
      when the middle release keeps every version of the first that has a schema. */
  lemma ReleasesComposeIff(a: Crd, b: Crd)
    requires DistinctNames(a) && DistinctNames(b) && Passes(a, b)
    ensures (forall c | Passes(b, c) :: Passes(a, c)) <==> (forall v | v in a && v.schema.Some? :: Kept(b, v.name))
  {
    if forall v | v in a && v.schema.Some? :: Kept(b, v.name) {
      forall c | Passes(b, c)
        ensures Passes(a, c)
      {
        forall v | v in c && Paired(a, v).Some?
          ensures Kept(b, v.name)
        {
          FirstSound(a, v.name);
        }
        ReleasesCompose(a, b, c);
      }
    } else {
      var v :| v in a && v.schema.Some? && !Kept(b, v.name);
      var i: nat :| i < |a| && a[i] == v;
      var t := v.schema.value.(typ := v.schema.value.typ + "'");
      assert |t.typ| != |v.schema.value.typ|;
      DroppedVersionEscapes(a, b, i, t);
    }
  }
}
