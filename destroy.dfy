/** `spawnm destroy` (main.py:319-325, 390-426): deleting servers at the
    provider and forgetting, in the registry, those the provider deleted. */
module Destroy {
  import opened Common
  import opened Registry
  import opened Provider

  /** `destroy_server`: one delete call; the registry forgets `name` exactly
      when the provider reports success, and the provider's status is returned. */
  method DestroyServer(registry: InstanceRegistry, provider: Gateway, name: string) returns (status: int)
    modifies registry, provider
    ensures status == provider.deleteStatus(name)
    ensures provider.deleted == old(provider.deleted) + [name]
    ensures registry.instances == if status == 0 then old(registry.instances) - {name} else old(registry.instances)
    ensures registry.writes == old(registry.writes) + (if status == 0 && name in old(registry.instances) then 1 else 0)
  {
    status := provider.Delete(name);
    if status == 0 {
      registry.Remove(name);
    }
  }

  /** How `cmd_destroy` ends: "No instances to destroy.", after the delete
      calls it chose, or asking the user to pick one of `count` instances. */
  datatype DestroyOutcome = NothingToDestroy | Dispatched | MustChoose(count: nat)

  /** The names among `names` whose delete call reports success: one registry
      rewrite each. */
  function Confirmed(names: set<string>, status: string -> int): set<string> {
    set n | n in names && status(n) == 0
  }

  /** The entries of `m` that survive deleting the names in `done`: those
      whose delete call did not report success. */
  function Survivors(m: map<string, InstanceInfo>, done: set<string>, status: string -> int)
    : (r: map<string, InstanceInfo>)
    ensures r.Keys <= m.Keys
    ensures forall name | name in m :: name in r <==> name !in done || status(name) != 0
    ensures forall name | name in r :: r[name] == m[name]
  {
    map name | name in m && (name !in done || status(name) != 0) :: m[name]
  }

  /** The state of the loop over the names tracked at the start: the calls
      made after `trace` are the names in `done`, once each, the others are
      still `todo`, and the registry holds the survivors of those calls. */
  ghost predicate Progress(instances: map<string, InstanceInfo>, status: string -> int, trace: seq<string>,
                           todo: set<string>, done: set<string>, calls: seq<string>,
                           deleted: seq<string>, current: map<string, InstanceInfo>)
  {
    && todo + done == instances.Keys && todo !! done
    && deleted == trace + calls
    && Distinct(calls) && (forall name :: name in calls <==> name in done) && |calls| == |done|
    && current == Survivors(instances, done, status)
  }

  /** One more call, to `name`, moves it from `todo` to `done`. */
  lemma ProgressStep(instances: map<string, InstanceInfo>, status: string -> int, trace: seq<string>,
                     todo: set<string>, done: set<string>, calls: seq<string>,
                     deleted: seq<string>, current: map<string, InstanceInfo>, name: string,
                     todo': set<string>, done': set<string>, calls': seq<string>,
                     deleted': seq<string>, current': map<string, InstanceInfo>)
    requires Progress(instances, status, trace, todo, done, calls, deleted, current)
    requires name in todo
    requires todo' == todo - {name} && done' == done + {name} && calls' == calls + [name]
    requires deleted' == deleted + [name]
    requires current' == if status(name) == 0 then current - {name} else current
    ensures Progress(instances, status, trace, todo', done', calls', deleted', current')
  {
    SurvivorStep(instances, done, name, status);
    CallStep(calls, done, name);
    AppendCall(trace, calls, name, deleted, deleted');
  }

  lemma ProgressStart(instances: map<string, InstanceInfo>, status: string -> int, trace: seq<string>)
    ensures Progress(instances, status, trace, instances.Keys, {}, [], trace, instances)
  {
    assert trace + [] == trace;
  }

  lemma ProgressDone(instances: map<string, InstanceInfo>, status: string -> int, trace: seq<string>,
                     done: set<string>, calls: seq<string>, deleted: seq<string>, current: map<string, InstanceInfo>)
    requires Progress(instances, status, trace, {}, done, calls, deleted, current)
    ensures |deleted| == |trace| + |instances|
    ensures deleted[..|trace|] == trace
    ensures Distinct(deleted[|trace|..])
    ensures forall name :: name in deleted[|trace|..] <==> name in instances
    ensures current == Survivors(instances, instances.Keys, status)
    ensures done == instances.Keys
  {
    assert done == instances.Keys;
    assert deleted[|trace|..] == calls;
  }

  /** The loop over `list(instances.keys())`: one delete per name tracked at
      the start, in the registry's order (left open here), whatever the
      earlier calls returned. */
  method DestroyAll(registry: InstanceRegistry, provider: Gateway)
    modifies registry, provider
    ensures |provider.deleted| == |old(provider.deleted)| + |old(registry.instances)|
    ensures provider.deleted[..|old(provider.deleted)|] == old(provider.deleted)
    ensures Distinct(provider.deleted[|old(provider.deleted)|..])
    ensures forall name :: name in provider.deleted[|old(provider.deleted)|..] <==> name in old(registry.instances)
    ensures registry.instances == Survivors(old(registry.instances), old(registry.instances).Keys, provider.deleteStatus)
    ensures registry.writes == old(registry.writes) + |Confirmed(old(registry.instances).Keys, provider.deleteStatus)|
  {
    var instances := registry.Load();
    var todo := instances.Keys;
    ghost var done: set<string> := {};
    ghost var calls: seq<string> := [];
    ghost var trace := provider.deleted;
    ghost var writes := registry.writes;
    ProgressStart(instances, provider.deleteStatus, trace);
    while todo != {}
      invariant Progress(instances, provider.deleteStatus, trace, todo, done, calls, provider.deleted, registry.instances)
      invariant registry.writes == writes + |Confirmed(done, provider.deleteStatus)|
      decreases todo
    {
      var name :| name in todo;
      ghost var deleted, current := provider.deleted, registry.instances;
      StillTracked(instances, provider.deleteStatus, trace, todo, done, calls, deleted, current, name);
      ConfirmedStep(done, name, provider.deleteStatus);
      var _ := DestroyServer(registry, provider, name);
      ProgressStep(instances, provider.deleteStatus, trace, todo, done, calls, deleted, current, name,
                   todo - {name}, done + {name}, calls + [name], provider.deleted, registry.instances);
      todo, done, calls := todo - {name}, done + {name}, calls + [name];
    }
    ProgressDone(instances, provider.deleteStatus, trace, done, calls, provider.deleted, registry.instances);
  }

  /** A name still to be called is still tracked. */
  lemma StillTracked(instances: map<string, InstanceInfo>, status: string -> int, trace: seq<string>,
                     todo: set<string>, done: set<string>, calls: seq<string>,
                     deleted: seq<string>, current: map<string, InstanceInfo>, name: string)
    requires Progress(instances, status, trace, todo, done, calls, deleted, current)
    requires name in todo
    ensures name in current
  {
  }

  /** One more call adds one confirmed delete exactly when it succeeds. */
  lemma ConfirmedStep(done: set<string>, name: string, status: string -> int)
    requires name !in done
    ensures |Confirmed(done + {name}, status)| == |Confirmed(done, status)| + (if status(name) == 0 then 1 else 0)
  {
    if status(name) == 0 {
      assert Confirmed(done + {name}, status) == Confirmed(done, status) + {name};
    } else {
      assert Confirmed(done + {name}, status) == Confirmed(done, status);
    }
  }

  lemma AppendCall(trace: seq<string>, calls: seq<string>, name: string, before: seq<string>, after: seq<string>)
    requires before == trace + calls && after == before + [name]
    ensures after == trace + (calls + [name])
  {
  }

  /** One more successful delete removes one more entry from the survivors. */
  lemma SurvivorStep(m: map<string, InstanceInfo>, done: set<string>, name: string, status: string -> int)
    requires name !in done
    ensures Survivors(m, done + {name}, status) ==
            if status(name) == 0 then Survivors(m, done, status) - {name} else Survivors(m, done, status)
  {
  }

  /** One more call, to a name not called before, keeps the calls distinct
      and as many as the names called. */
  lemma CallStep(calls: seq<string>, done: set<string>, name: string)
    requires Distinct(calls) && (forall n :: n in calls <==> n in done) && |calls| == |done|
    requires name !in done
    ensures Distinct(calls + [name]) && (forall n :: n in calls + [name] <==> n in done + {name})
    ensures |calls + [name]| == |done + {name}|
  {
  }

  /** `cmd_destroy`, where `all` is `--all` and `name` the optional name
      argument. `--all` is looked at first, then a non-empty name, then the
      number of tracked instances. `code` is the process exit status: the
      statuses of the delete calls are ignored, and only the request to
      choose exits with 1. */
  method CmdDestroy(registry: InstanceRegistry, provider: Gateway, all: bool, name: Option<string>)
    returns (outcome: DestroyOutcome, code: int)
    modifies registry, provider
    ensures code == 1 <==> !all && !Truthy(name) && |old(registry.instances)| >= 2
    ensures code == 0 <==> all || Truthy(name) || |old(registry.instances)| < 2
    ensures all ==>
              && (outcome == if old(registry.instances) == map[] then NothingToDestroy else Dispatched)
              && |provider.deleted| == |old(provider.deleted)| + |old(registry.instances)|
              && provider.deleted[..|old(provider.deleted)|] == old(provider.deleted)
              && Distinct(provider.deleted[|old(provider.deleted)|..])
              && (forall n :: n in provider.deleted[|old(provider.deleted)|..] <==> n in old(registry.instances))
              && registry.instances ==
                 Survivors(old(registry.instances), old(registry.instances).Keys, provider.deleteStatus)
              && registry.writes ==
                 old(registry.writes) + |Confirmed(old(registry.instances).Keys, provider.deleteStatus)|
    ensures !all && Truthy(name) ==>
              && outcome == Dispatched
              && provider.deleted == old(provider.deleted) + [name.value]
              && registry.instances ==
                 (if provider.deleteStatus(name.value) == 0 then old(registry.instances) - {name.value}
                  else old(registry.instances))
              && registry.writes ==
                 old(registry.writes) +
                 (if provider.deleteStatus(name.value) == 0 && name.value in old(registry.instances) then 1 else 0)
    ensures !all && !Truthy(name) && |old(registry.instances)| == 0 ==>
              && outcome == NothingToDestroy && provider.deleted == old(provider.deleted)
              && registry.instances == old(registry.instances) && registry.writes == old(registry.writes)
    ensures !all && !Truthy(name) && |old(registry.instances)| == 1 ==>
              && outcome == Dispatched
              && |provider.deleted| == |old(provider.deleted)| + 1
              && provider.deleted[..|old(provider.deleted)|] == old(provider.deleted)
              && old(registry.instances).Keys == {provider.deleted[|old(provider.deleted)|]}
              && registry.instances ==
                 Survivors(old(registry.instances), old(registry.instances).Keys, provider.deleteStatus)
              && registry.writes ==
                 old(registry.writes) + (if provider.deleteStatus(provider.deleted[|old(provider.deleted)|]) == 0 then 1 else 0)
    ensures !all && !Truthy(name) && |old(registry.instances)| >= 2 ==>
              && outcome == MustChoose(|old(registry.instances)|)
              && provider.deleted == old(provider.deleted)
              && registry.instances == old(registry.instances) && registry.writes == old(registry.writes)
  {
    var instances := registry.Load();
    if all {
      if instances == map[] {
        return NothingToDestroy, 0;
      }
      DestroyAll(registry, provider);
      return Dispatched, 0;
    }
    if name.Some? && name.value != "" {
      var _ := DestroyServer(registry, provider, name.value);
      return Dispatched, 0;
    }
    if instances == map[] {
      return NothingToDestroy, 0;
    }
    if |instances| == 1 {
      var only := OnlyName(instances);
      var _ := DestroyServer(registry, provider, only);
      return Dispatched, 0;
    }
    outcome, code := MustChoose(|instances|), 1;
  }

  /** The one name of a registry with one entry. */
  method OnlyName(instances: map<string, InstanceInfo>) returns (only: string)
    requires |instances| == 1
    ensures instances.Keys == {only}
  {
    only :| only in instances;
    assert instances.Keys == {only} by {
      forall other | other in instances
        ensures other == only
      {
        if other != only {
          assert {only, other} <= instances.Keys;
          assert |{only, other}| == 2;
          SubsetSize({only, other}, instances.Keys);
        }
      }
    }
  }

  lemma SubsetSize(a: set<string>, b: set<string>)
    requires a <= b
    ensures |a| <= |b|
  {
    assert b == a + (b - a);
  }

  /** `spawnm destroy --all` twice, when the provider deletes every tracked
      server: the first run rewrites the registry once per tracked name and
      empties it; the second finds nothing to destroy, makes no call, writes
      nothing and exits 0. */
  method DestroyAllTwice(registry: InstanceRegistry, provider: Gateway)
    returns (first: DestroyOutcome, second: DestroyOutcome, secondCode: int)
    requires forall name | name in registry.instances :: provider.deleteStatus(name) == 0
    modifies registry, provider
    ensures registry.instances == map[]
    ensures registry.writes == old(registry.writes) + |old(registry.instances)|
    ensures second == NothingToDestroy && secondCode == 0
    ensures |provider.deleted| == |old(provider.deleted)| + |old(registry.instances)|
  {
    assert Confirmed(registry.instances.Keys, provider.deleteStatus) == registry.instances.Keys;
    var code;
    first, code := CmdDestroy(registry, provider, true, None);
    ghost var calls, writes := provider.deleted, registry.writes;
    second, secondCode := CmdDestroy(registry, provider, true, None);
    assert provider.deleted == calls && registry.writes == writes;
  }
}
