/** `Context`: a configuration tree and a standard-library context that holds
    at most one key/value pair. */
module SaiContext {
  import opened Values
  import Config
  import Strings

  class Context {
    var configuration: map<string, Value>
    /** The pair the context was last derived with from `Background`. */
    var stored: Option<(string, Value)>

    /** `NewContext`: an empty configuration and the background context. */
    constructor NewContext()
      ensures configuration == map[] && stored == None
    {
      configuration := map[];
      stored := None;
    }

    /** `ctx.Value(key)` of the held context. */
    function ValueOf(key: string): Option<Value>
      reads this
    {
      if stored.Some? && stored.value.0 == key then Some(stored.value.1) else None
    }

    /** `SetValue` derives a fresh context from `Background`, so only the
        latest pair is present afterwards; the configuration is untouched. */
    method SetValue(key: string, v: Value)
      modifies this`stored
      ensures configuration == old(configuration)
      ensures forall k :: ValueOf(k) == if k == key then Some(v) else None
    {
      stored := Some((key, v));
    }

    /** `GetConfig`: walk the dot-separated steps; an absent key gives the
        default, a non-map value is returned as it is, and after the last step
        the map reached is returned. */
    method GetConfig(path: string, def: Value) returns (r: Value)
      ensures r == Config.ContextGet(configuration, path, def)
    {
      var steps := Strings.Split(path, '.');
      var node := configuration;
      if |steps| == 0 {
        return def;
      }
      for i := 0 to |steps|
        invariant Config.Walk(configuration, steps) == Config.Walk(node, steps[i..])
      {
        assert steps[i..][0] == steps[i] && steps[i..][1..] == steps[i + 1..];
        var step := steps[i];
        if step !in node {
          return def;
        }
        var val := node[step];
        match val {
          case Map(m) => node := m;
          case _ => return val;
        }
      }
      assert steps[|steps|..] == [];
      return Map(node);
    }
  }
}
