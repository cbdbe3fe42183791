/** Dotted-path configuration lookups. Both `Service.GetConfig` and
    `Context.GetConfig` split the path on "." and walk the configuration tree
    one step at a time; they differ in what they return once the walk stops.
    `Walk` is the walk both share; the two lookups are views of where it
    stopped. */
module Config {
  import opened Values
  import Strings

  /** Where a walk along the steps stops: at a step whose key is absent, at
      a step whose value is not a map (returned as `Leaf`), or after the last
      step, on the map reached (`Ended`). */
  datatype Walked = Absent | Leaf(value: Value) | Ended(node: map<string, Value>)

  function Walk(cfg: map<string, Value>, steps: seq<string>): (w: Walked)
    ensures |steps| == 0 ==> w == Ended(cfg)
    ensures w.Absent? ==> |steps| >= 1
    ensures w.Leaf? ==> !w.value.Map?
    decreases |steps|
  {
    if |steps| == 0 then Ended(cfg)
    else if steps[0] !in cfg then Absent
    else match cfg[steps[0]]
      case Map(m) => Walk(m, steps[1..])
      case v => Leaf(v)
  }

  /** The leaf types `Service.GetConfig` returns as they are. */
  predicate IsScalar(v: Value) {
    v.Str? || v.Int? || v.Bool?
  }

  function Steps(path: string): (steps: seq<string>)
    ensures |steps| >= 1
  {
    Strings.Split(path, '.')
  }

  /** `Service.GetConfig` on already split steps: a string, int or bool leaf,
      otherwise the default. */
  function ServiceLookup(cfg: map<string, Value>, steps: seq<string>, def: Value): (r: Value)
    ensures r == def || IsScalar(r)
  {
    match Walk(cfg, steps)
    case Leaf(v) => if IsScalar(v) then v else def
    case _ => def
  }

  function ServiceGet(cfg: map<string, Value>, path: string, def: Value): Value {
    ServiceLookup(cfg, Steps(path), def)
  }

  /** `Context.GetConfig` on already split steps: any leaf as it is, the map
      reached after the last step, and the default for a missing key or for no
      steps at all. */
  function ContextLookup(cfg: map<string, Value>, steps: seq<string>, def: Value): (r: Value)
    ensures (|steps| == 0 || Walk(cfg, steps).Absent?) ==> r == def
  {
    if |steps| == 0 then def
    else match Walk(cfg, steps)
      case Absent => def
      case Leaf(v) => v
      case Ended(m) => Map(m)
  }

  function ContextGet(cfg: map<string, Value>, path: string, def: Value): Value {
    ContextLookup(cfg, Steps(path), def)
  }

  /** Walking `p + q` is walking `p` and, if that ends on a map, walking `q`
      from there; a walk that stopped early ignores the remaining steps. */
  lemma {:induction false} WalkAppend(cfg: map<string, Value>, p: seq<string>, q: seq<string>)
    ensures Walk(cfg, p + q) == match Walk(cfg, p) case Ended(m) => Walk(m, q) case w => w
    decreases |p|
  {
    if |p| > 0 {
      assert (p + q)[0] == p[0];
      assert (p + q)[1..] == p[1..] + q;
      if p[0] in cfg && cfg[p[0]].Map? {
        WalkAppend(cfg[p[0]].entries, p[1..], q);
      }
    } else {
      assert p + q == q;
    }
  }

  /** A string, int or bool met at any step is the answer of
      `Service.GetConfig`, however many steps remain. */
  lemma ServiceScalarEndsWalk(cfg: map<string, Value>, p: seq<string>, q: seq<string>, def: Value)
    requires Walk(cfg, p).Leaf? && IsScalar(Walk(cfg, p).value)
    ensures ServiceLookup(cfg, p + q, def) == Walk(cfg, p).value
  {
    WalkAppend(cfg, p, q);
  }

  /** A missing key, or a value of any other type met at any step, gives the
      default of `Service.GetConfig`, however many steps remain. */
  lemma ServiceOtherGivesDefault(cfg: map<string, Value>, p: seq<string>, q: seq<string>, def: Value)
    requires Walk(cfg, p).Absent? || (Walk(cfg, p).Leaf? && !IsScalar(Walk(cfg, p).value))
    ensures ServiceLookup(cfg, p + q, def) == def
  {
    WalkAppend(cfg, p, q);
  }

  /** `Service.GetConfig` never returns a map: a path that ends on a map
      gives the default. */
  lemma ServiceEndedGivesDefault(cfg: map<string, Value>, steps: seq<string>, def: Value)
    requires Walk(cfg, steps).Ended?
    ensures ServiceLookup(cfg, steps, def) == def
  {
  }

  /** `Context.GetConfig` returns the first non-map value met, of any type,
      however many steps remain. */
  lemma ContextLeafEndsWalk(cfg: map<string, Value>, p: seq<string>, q: seq<string>, def: Value)
    requires Walk(cfg, p).Leaf?
    ensures ContextLookup(cfg, p + q, def) == Walk(cfg, p).value
  {
    WalkAppend(cfg, p, q);
  }

  /** `Context.GetConfig` returns the default as soon as a key is absent,
      however many steps remain. */
  lemma ContextAbsentGivesDefault(cfg: map<string, Value>, p: seq<string>, q: seq<string>, def: Value)
    requires Walk(cfg, p).Absent?
    ensures ContextLookup(cfg, p + q, def) == def
  {
    WalkAppend(cfg, p, q);
  }

  /** A path of `Context.GetConfig` that lands on a map after its last step
      returns that map, not the default. */
  lemma ContextEndedGivesMap(cfg: map<string, Value>, steps: seq<string>, def: Value)
    requires |steps| >= 1 && Walk(cfg, steps).Ended?
    ensures ContextLookup(cfg, steps, def) == Map(Walk(cfg, steps).node)
  {
  }

  /** The two lookups agree wherever `Service.GetConfig` finds a value: the
      typed lookup is the untyped one restricted to string, int and bool
      leaves. */
  lemma ServiceRestrictsContext(cfg: map<string, Value>, path: string, def: Value)
    ensures var c := ContextGet(cfg, path, def);
            ServiceGet(cfg, path, def) == if Walk(cfg, Steps(path)).Leaf? && IsScalar(c) then c else def
  {
  }

  /** Dotted paths compose: when `a` leads to a map, looking up `a.b` is
      looking up `b` in that map, for both lookups. */
  lemma {:induction false} DottedPathComposes(cfg: map<string, Value>, a: string, b: string, def: Value)
    requires Walk(cfg, Steps(a)).Ended?
    ensures ServiceGet(cfg, a + "." + b, def) == ServiceGet(Walk(cfg, Steps(a)).node, b, def)
    ensures ContextGet(cfg, a + "." + b, def) == ContextGet(Walk(cfg, Steps(a)).node, b, def)
  {
    Strings.SplitConcat(a, b, '.');
    assert a + "." + b == a + ['.'] + b;
    WalkAppend(cfg, Steps(a), Steps(b));
  }
}
