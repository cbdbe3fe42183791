/** `Service`: the state the dispatcher reads. Its configuration and its
    global middlewares come from the embedded core context. */
module SaiService {
  import opened Values
  import Config
  import Strings
  import opened Pipeline

  class Service {
    var name: string
    var configuration: map<string, Value>
    var middlewares: seq<Middleware>
    var handlers: map<string, HandlerElement>

    /** `NewService`: the name and a fresh core context. */
    constructor NewService(name: string)
      ensures this.name == name && configuration == map[] && middlewares == [] && handlers == map[]
    {
      this.name := name;
      configuration := map[];
      middlewares := [];
      handlers := map[];
    }

    /** `RegisterHandlers` replaces the whole registry and nothing else. */
    method RegisterHandlers(h: map<string, HandlerElement>)
      modifies this`handlers
      ensures handlers == h
      ensures name == old(name) && configuration == old(configuration) && middlewares == old(middlewares)
    {
      handlers := h;
    }

    /** `GetConfig`: walk the dot-separated steps; a map descends, a string,
        int or bool is returned at once, anything else (an absent key
        included) gives the default, and so does a path ending on a map. */
    method GetConfig(path: string, def: Value) returns (r: Value)
      ensures r == Config.ServiceGet(configuration, path, def)
    {
      var steps := Strings.Split(path, '.');
      var node := configuration;
      for i := 0 to |steps|
        invariant Config.Walk(configuration, steps) == Config.Walk(node, steps[i..])
      {
        assert steps[i..][0] == steps[i] && steps[i..][1..] == steps[i + 1..];
        var step := steps[i];
        var val := if step in node then node[step] else Null;
        match val {
          case Map(m) => node := m;
          case Str(_) => return val;
          case Int(_) => return val;
          case Bool(_) => return val;
          case _ => return def;
        }
      }
      assert steps[|steps|..] == [];
      return def;
    }
  }
}
