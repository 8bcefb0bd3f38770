/** The provider side (the `hcloud` command line): what its replies carry
    once parsed, and the delete call, whose exit status comes from outside. */
module Provider {
  import opened Common

  /** One server record from `hcloud server list --output json`; a field the
      JSON object lacks is None (`server.get(...)` yields `None`). */
  datatype ServerRecord = ServerRecord(name: Option<string>, ip: Option<string>,
                                       status: Option<string>, size: Option<string>)

  /** The reply of `hcloud server list`: its exit status and, when its output
      parses as a JSON list of records, those records (None: `json.loads`
      raises). */
  datatype ListReply = ListReply(status: int, records: Option<seq<ServerRecord>>)

  /** What `hcloud server create --output json` reports on success: the
      issued root password and the public IPv4 address, each possibly absent. */
  datatype CreatedServer = CreatedServer(rootPassword: Option<string>, ip: Option<string>)

  /** The reply of `hcloud server create`: its exit status, its error text, and
      its parsed output (None: the output is not the JSON object expected,
      and reading it raises). */
  datatype CreateReply = CreateReply(status: int, stderr: string, created: Option<CreatedServer>)

  /** `hcloud server delete <name>`: `deleteStatus` is the exit status the
      provider gives for each name, `deleted` the delete calls made so far,
      in order. */
  class Gateway {
    const deleteStatus: string -> int
    var deleted: seq<string>

    constructor (deleteStatus: string -> int)
      ensures this.deleteStatus == deleteStatus && deleted == []
    {
      this.deleteStatus := deleteStatus;
      deleted := [];
    }

    method Delete(name: string) returns (status: int)
      modifies this
      ensures status == deleteStatus(name)
      ensures deleted == old(deleted) + [name]
    {
      status := deleteStatus(name);
      deleted := deleted + [name];
    }
  }
}
