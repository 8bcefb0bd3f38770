/** The instance registry (main.py:41-98): the file `instances.json` that maps
    each server name the tool created to what it knows about that server.
    Every change loads the whole document, changes it and writes it back. */
module Registry {
  import opened Common

  /** One tracked server: what `create_server` stores for it. `ip` and
      `rootPassword` are None (JSON null) when the provider's reply lacked them. */
  datatype InstanceInfo = InstanceInfo(name: string, size: string, image: string, location: string,
                                       ip: Option<string>, rootPassword: Option<string>,
                                       sshKey: Option<string>)

  /** The registry file. `instances` is the document's contents; `writes`
      counts how many times the whole document has been rewritten. */
  class InstanceRegistry {
    var instances: map<string, InstanceInfo>
    var writes: nat

    /** The document as found on disk when the process starts; an absent
        file reads as the empty mapping. */
    constructor (stored: map<string, InstanceInfo>)
      ensures instances == stored && writes == 0
    {
      instances := stored;
      writes := 0;
    }

    /** `load_instances`: the whole document. */
    method Load() returns (m: map<string, InstanceInfo>)
      ensures m == instances
    {
      m := instances;
    }

    /** `save_instances`: replace the whole document. */
    method Save(m: map<string, InstanceInfo>)
      modifies this
      ensures instances == m && writes == old(writes) + 1
    {
      instances := m;
      writes := writes + 1;
    }

    /** `add_instance`: `name` now maps to `info`, every other entry is kept,
        and a second add under the same name replaces the first. */
    method Add(name: string, info: InstanceInfo)
      modifies this
      ensures instances == old(instances)[name := info]
      ensures writes == old(writes) + 1
    {
      var m := Load();
      m := m[name := info];
      Save(m);
    }

    /** `remove_instance`: drops `name` and keeps every other entry; when
        `name` is not tracked nothing changes and the file is not rewritten. */
    method Remove(name: string)
      modifies this
      ensures instances == old(instances) - {name}
      ensures writes == old(writes) + (if name in old(instances) then 1 else 0)
    {
      var m := Load();
      if name in m {
        m := m - {name};
        Save(m);
      }
    }
  }

  /** Adding twice under one name keeps only the second record: last write wins. */
  method AddTwice(registry: InstanceRegistry, name: string, first: InstanceInfo, second: InstanceInfo)
    modifies registry
    ensures registry.instances == old(registry.instances)[name := second]
    ensures registry.writes == old(registry.writes) + 2
  {
    registry.Add(name, first);
    registry.Add(name, second);
  }

  /** Removing an untracked name is a no-op on the document and writes nothing. */
  method RemoveUntracked(registry: InstanceRegistry, name: string)
    requires name !in registry.instances
    modifies registry
    ensures registry.instances == old(registry.instances)
    ensures registry.writes == old(registry.writes)
  {
    registry.Remove(name);
  }
}
