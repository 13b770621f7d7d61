/** The binder as the program has it, editing a registry object it shares with other providers. */
module ToolBinderObject {
  import opened Options
  import B = ToolBinder
  import opened ToolBinder

  class ToolRegistry {
    var tools: map<string, nat>
    var next: nat

    ghost function Model(): Registry
      reads this
    {
      Registry(tools, next)
    }

    constructor ()
      ensures Model() == Registry(map[], 0)
    {
      tools, next := map[], 0;
    }

    /** A new tool object, registered under its id. */
    method AddTool(id: string) returns (tool: nat)
      modifies this
      ensures tool == old(next) && Model() == Register(old(Model()), id)
    {
      tool := next;
      tools := tools[id := tool];
      next := next + 1;
    }

    method RemoveTool(id: string)
      modifies `tools
      ensures tools == old(tools) - {id}
    {
      tools := tools - {id};
    }
  }

  class McpToolBinder {
    const registry: ToolRegistry
    var bindings: map<nat, Binding>

    constructor (registry: ToolRegistry)
      ensures this.registry == registry && bindings == map[]
    {
      this.registry := registry;
      bindings := map[];
    }

    method ApplyTools(client: nat, infos: seq<Info>)
      modifies this, registry
      ensures client !in old(bindings) ==> bindings == old(bindings) && registry.Model() == old(registry.Model())
      ensures client in old(bindings) ==>
                var (r, b) := B.ApplyTools(old(registry.Model()), old(bindings)[client], infos);
                registry.Model() == r && bindings == old(bindings)[client := b]
    {
      if client !in bindings {
        return;
      }
      var binding := bindings[client];
      var current := CurrentTools(binding);
      ghost var before := registry.Model();
      var next: seq<Owned> := [];
      var i := 0;
      while i < |infos|
        invariant 0 <= i <= |infos| && bindings == old(bindings)
        invariant (registry.Model(), next) == ApplyAll(binding.name, current, before, infos[..i])
      {
        assert infos[..i + 1][..i] == infos[..i];
        next := ApplyOne(binding.name, current, next, infos[i]);
        i := i + 1;
      }
      assert infos[..i] == infos;
      RemoveStale(binding.name, current, infos);
      bindings := bindings[client := binding.(tools := next)];
    }

    method CurrentTools(binding: Binding) returns (current: map<string, Owned>)
      ensures current == Current(binding)
    {
      current := map[];
      var i := 0;
      while i < |binding.tools|
        invariant 0 <= i <= |binding.tools| && current == Current(binding.(tools := binding.tools[..i]))
      {
        assert binding.tools[..i + 1][..i] == binding.tools[..i];
        current := current[IdOf(binding, binding.tools[i]) := binding.tools[i]];
        i := i + 1;
      }
      assert binding.tools[..i] == binding.tools;
    }

    method ApplyOne(name: string, current: map<string, Owned>, next: seq<Owned>, info: Info) returns (next': seq<Owned>)
      modifies registry
      ensures (registry.Model(), next') == B.ApplyOne(name, current, old(registry.Model()), next, info)
    {
      var id := ComposeId(name, info.name);
      if id in current && current[id].info == info {
        return next + [current[id]];
      }
      if id in registry.tools && !(id in current && registry.tools[id] == current[id].identity) {
        return next;
      }
      ghost var before := registry.tools;
      if id in current {
        registry.RemoveTool(id);
        assert (before - {id})[id := registry.next] == before[id := registry.next];
      }
      var tool := registry.AddTool(id);
      return next + [Owned(tool, info)];
    }

    method RemoveStale(name: string, current: map<string, Owned>, infos: seq<Info>)
      modifies registry`tools
      ensures registry.Model() == B.RemoveStale(name, current, old(registry.Model()), infos)
    {
      ghost var before := registry.tools;
      var ids := current.Keys;
      while ids != {}
        invariant ids <= current.Keys
        invariant forall id :: id in registry.tools <==>
                    id in before && !(id in current && id !in ids && !Listed(name, infos, id) && before[id] == current[id].identity)
        invariant forall id :: id in registry.tools ==> registry.tools[id] == before[id]
        decreases |ids|
      {
        var id :| id in ids;
        if !Listed(name, infos, id) && id in registry.tools && registry.tools[id] == current[id].identity {
          registry.RemoveTool(id);
        }
        ids := ids - {id};
      }
    }

    method ClearTools(client: nat)
      requires client in bindings
      modifies this, registry
      ensures var (r, b) := B.ClearTools(old(registry.Model()), old(bindings)[client]);
              registry.Model() == r && bindings == old(bindings)[client := b]
    {
      var binding := bindings[client];
      ghost var before := registry.Model();
      var i := 0;
      while i < |binding.tools|
        invariant 0 <= i <= |binding.tools| && bindings == old(bindings)
        invariant B.ClearTools(before, binding) == B.ClearTools(registry.Model(), binding.(tools := binding.tools[i..]))
      {
        assert binding.tools[i..][1..] == binding.tools[i + 1..];
        var t := binding.tools[i];
        var id := IdOf(binding, t);
        if id in registry.tools && registry.tools[id] == t.identity {
          registry.RemoveTool(id);
        }
        i := i + 1;
      }
      bindings := bindings[client := binding.(tools := [])];
    }
  }
}
