# spawnm, modelled in Dafny

spawnm is a command-line tool that creates throw-away Hetzner Cloud servers and keeps a local registry of them. The registry is the file `instances.json`, mapping each server name to what the tool knows about that server. The model covers the core of `main.py`:

- **The instance registry** (`registry.dfy`): a class whose `instances` map is the document on disk. Every change loads the whole document and writes it back, and `writes` counts those rewrites.
- **`spawnm list`** (`listing.dfy`): how the list reconciles the provider's reply with the registry.
  - It keeps the servers whose name carries the prefix `spawnm-tmp-`. A later record under the same name replaces an earlier one.
  - It takes the union with the cached names.
  - It builds one row per name, in Python's sort order: a live row with the provider's fields, or a stale ("not found") row with the cached address and type.
- **`spawnm destroy`** (`destroy.dfy`): `destroy_server` and the three ways `cmd_destroy` chooses what to delete.
  - The provider side is `provider.dfy`. The delete call's exit status comes from outside, as an oracle per name, and the calls made are recorded in order.
- **`spawnm create`** (`create.dfy`): `create_server`.
  - It builds the `hcloud server create` command; `--ssh-key` is added only for a non-empty key.
  - It stops on a non-zero status before any registry write.
  - It writes exactly one record.
  - Then it decides whether to wait for SSH, sync the working directory and open a session. The sync step records the rsync command exactly as `sync_workdir` builds it; `Remote.SyncCommand` is the corrected command of the finding below, defined on its own.
- **The ssh and rsync argument lists** (`remote.dfy`): `base_ssh_cmd`, the reachability probe, `ssh_into_server`, the `rsync` command of `sync_workdir`, and where a directory lands on the server (`/root/<last component>`).

Argument lists are checked against *readers* in `cmdline.dfy`. A reader is a model of how `hcloud`, `ssh` and `rsync` parse their arguments. Each builder's contract says what the receiving program reads, not which list was built. `text.dfy` holds the supporting definitions:

- Python's string order, and `sorted` of a set of names;
- taking the last path component;
- joining and splitting at spaces.

The environment enters as parameters:

- `os.path.expanduser` and `Path.resolve` are functions passed in;
- whether the server answered within the SSH wait is a boolean;
- the exit statuses of `rsync` and of `hcloud server delete` are given values;
- the list and create replies are given records (`provider.dfy`), already parsed.

Where the code and the tool's documented design disagree, the model follows the code:

- `cmd_destroy` ignores the statuses of its delete calls. It exits 0 in every case except the request to choose one of several instances, which exits 1. The code does not propagate the provider's status for a named or `--all` destroy.
- Destroying everything twice leaves an empty registry only when the provider deletes every tracked server. A failed delete keeps its entry, so `DestroyAllTwice` requires every delete to succeed.
- The directory sync runs whenever a working directory is given, even when the provider reported no address.
- The session runs whenever `--ssh` is given, whatever the wait and the sync returned.
- `json.loads` on an unreadable `hcloud` reply raises. Both `list` and `create` can end with that exception, and the model has an outcome for each.

## Model

| member | source | states |
|---|---|---|
| Registry.InstanceRegistry.constructor | main.py:70-76 | the registry starts as the stored document (an absent file reads as the empty map) and nothing has been written |
| Registry.InstanceRegistry.Load | main.py:70-76 | loading returns the whole document |
| Registry.InstanceRegistry.Save | main.py:79-83 | saving replaces the whole document and counts one rewrite |
| Registry.InstanceRegistry.Add | main.py:86-90 | `name` maps to the new record, every other entry is kept, and the file is rewritten once |
| Registry.InstanceRegistry.Remove | main.py:93-98 | `name` is dropped and every other entry is kept; the file is rewritten only when `name` was tracked |
| Registry.AddTwice | main.py:86-90 | two adds under one name keep the second record (last write wins), with two rewrites |
| Registry.RemoveUntracked | main.py:93-98 | removing an untracked name changes nothing and writes nothing |
| Provider.Gateway.constructor | main.py:321 | a fresh provider has made no delete call |
| Provider.Gateway.Delete | main.py:321 | a delete call returns the provider's status for that name and is appended to the call trace |
| Text.SortedSeq | main.py:375 | `sorted` of a set of names is ascending in Python's string order, contains exactly the set's names, and has one entry per name |
| Text.AscendingUnique | main.py:375 | two ascending lists with the same names are equal, so the sorted order is determined by the set |
| Text.AtMostTotal | main.py:375 | any two names are comparable in Python's string order |
| Text.AtMostAntisymmetric | main.py:375 | two names each at most the other are equal |
| Text.AtMostTransitive | main.py:375 | Python's string order is transitive |
| Text.LastComponent | main.py:192-193 | the name of a path is the text after its last `/`: it contains no `/` and is a suffix of the path, preceded by `/` when shorter |
| Text.SplitJoin | main.py:197-207 | splitting the space-joined words gives the words back when none contains a space |
| Remote.BaseSshCmd | main.py:141-164 | the base command exists exactly when a key is given (`expanduser(None)` raises), and `ssh` reads from it one identity file (the expanded key), batch mode and no host-key prompt |
| Remote.BaseSshCmdThen | main.py:141-164 | whatever follows the base command is read by `ssh` with those three settings in force |
| Remote.ProbeCommand | main.py:173-182 | the probe is read by `ssh` as the key, the two base settings plus a 5-second connect timeout, destination `root@<ip>` and the remote command `true` |
| Remote.SessionCommand | main.py:217-229 | the session is read by `ssh` as the key, the base settings and `root@<ip>`; with a truthy directory it requests a terminal and starts a login shell there, otherwise it is a plain login; a missing key raises |
| Remote.RemoteWorkdir | main.py:192-193 | a synced directory lands in `/root/` under its own last path component, which contains no `/` |
| Remote.SameRemoteWorkdir | main.py:192-193 | two directories land in the same place exactly when their last components agree |
| Remote.PlainOperands | main.py:204-205 | neither rsync operand (`<dir>/` for an absolute dir, `root@<ip>:/root/<name>/`) can be taken for an option |
| Remote.SyncCommandAsWritten | main.py:197-207 | the rsync command as written exists exactly when a key is given |
| Remote.SyncAsWrittenDropsIdentity | main.py:197-207 | as written, rsync reads `ssh` alone as its remote shell; the identity file and both `-o` settings become extra source operands, and `-i`, `-o`, `-o` become rsync flags |
| Remote.SyncCommand | main.py:197-207 | the corrected sync command (not used by the workflow) with the ssh command joined after `-e` is read by rsync as that whole ssh command, `-avz --progress` and exactly the two operands; split back at spaces, the shell is read by `ssh` as the base settings |
| Listing.CollectLive | main.py:355-365 | the loop keeps exactly the prefixed names the provider reports, each with the address, status and type of its last record under that name |
| Listing.LastReportExists | main.py:358-365 | every prefixed record is followed, at it or later, by the last record under its name |
| Listing.LastReportUnique | main.py:358-365 | a name has exactly one last record |
| Listing.LiveLookup | main.py:376-377 | a name the loop kept carries the fields of its last record |
| Listing.LiveViewUnique | main.py:355-365 | the loop's result is determined by the records alone |
| Listing.NoRecords | main.py:355-368 | for every reply with a non-zero status and every registry: the loop sees no records and keeps nothing, no provider name is shown, and the listing's names are exactly the registry's |
| Listing.SortedCover | main.py:368 | every name of the merged set comes from the provider or the registry |
| Listing.BuildRows | main.py:375-387 | one row per sorted name: live, with the provider's last record, for a provider name, otherwise stale, with the cached address and type |
| Listing.SortedRows | main.py:368-387 | rows over the sorted merged names are ascending, name every provider and registry name once, and are stale throughout when the list call failed |
| Listing.SortedListing | main.py:374-387 | the rows over `sorted(all_names)` are the listing described by `RowsFor` |
| Listing.Merge | main.py:367-387 | "No instances found." exactly when the provider and the registry name nothing, otherwise the rows of `RowsFor` |
| Listing.ListInstances | main.py:343-387 | `cmd_list` raises exactly when a successful list call's output does not parse; otherwise it prints "No instances found." exactly when no name is known, or one row per known name as `RowsFor` says, all stale when the list call failed |
| Listing.RowsDetermined | main.py:374-387 | two listings of the same reply and registry agree row by row |
| Destroy.DestroyServer | main.py:319-325 | one delete call; the registry forgets the name exactly when the provider reports success, and the provider's status is returned |
| Destroy.DestroyAll | main.py:399-400 | one delete call per name tracked at the start, each exactly once, appended to the earlier calls; the registry keeps exactly the entries whose delete failed, and is rewritten once per name whose delete succeeded |
| Destroy.CmdDestroy | main.py:390-426 | the exit status is 1 exactly when no `--all`, no non-empty name and two or more tracked entries, 0 otherwise, whatever the delete calls returned. `--all` deletes every tracked name (the registry keeps the failed ones, one rewrite per success) or reports nothing to destroy. A non-empty name is deleted directly, with a rewrite only when it was tracked and the delete succeeded. Otherwise no entry reports nothing, and one entry is deleted. Two or more ask the user to choose; in that case and with no entry, there is no delete call, and the registry and its rewrite count are unchanged |
| Destroy.DestroyAllTwice | main.py:395-401 | when every delete succeeds, `destroy --all` empties the registry with one rewrite per tracked name; a second run finds nothing to destroy, makes no call, writes nothing and exits 0 |
| Create.BuildCreateCommand | main.py:234-251 | `hcloud server create` reads the name, type, image, location and JSON output, and `--ssh-key` with the key exactly when the key is non-empty |
| Create.FollowUp | main.py:295-316 | the SSH wait runs only with an address and `--ssh` or a directory; the sync runs whenever a directory is given, with the rsync command as `sync_workdir` writes it; the session runs whenever `--ssh` is given, in the remote directory when the sync succeeded; a missing key raises at the first of these; the connect hint is printed only with a key |
| Create.CreateServer | main.py:232-316 | a non-zero provider status exits with that status, and unreadable output raises, both with no registry write; otherwise exactly one record (the request and the provider's address and password) is written before the steps of `FollowUp` |
| Create.SyncStepReads | main.py:301-304 | for an absolute resolved directory and a key path not starting with `-`, the sync command the run hands rsync is read with `ssh` alone as the remote shell, and the key path and both settings copied along with the directory |
| Create.RemoteWorkdirTruthy | main.py:225 | a synced directory's remote path is never empty, so the session always starts in it |

## Left out

- Running processes (`subprocess.run`, `os.execvp`): each external call becomes its argument list plus a given exit status or parsed reply. What the called programs do is not modelled.
- File I/O: reading and writing `instances.json`, the XDG state directory and `json.load`/`json.dump`. The registry is a map held in memory.
- JSON shapes: a reply is a list of records or a create result, each field present or None. Other shapes are not modelled, such as a non-list reply, or a non-dict `server` or `public_net`. The only parse failure modelled is the raise from `json.loads`.
- The `"unknown"` defaults, which never apply: the listing's own dictionaries always hold the keys `ip`, `status` and `size`.
- Printed text, except the connect hint and the outcome of each command.
- The iteration order of Python dictionaries: `destroy --all` is proved to call each tracked name exactly once, in some order.
- `wait_for_ssh`'s polling loop, clock and sleeps: the wait is one probe command plus its boolean answer.
- `os.path.expanduser` and `Path.resolve`: functions passed in. `Path.resolve` is taken to return an absolute path without a trailing slash.
- `generate_random_suffix`, argument parsing, `cmd_create`'s `os.getcwd()` and `main`.
- `check_hcloud_installed`, `check_hcloud_authenticated`, `is_sshpass_installed`, and `ensure_sshpass_installed` (which is inverted and never called): they are preconditions outside the core.
- Concurrent runs racing on the registry file.
- Provider.Gateway.Delete: the delete status is a fixed function of the name, so a second delete of the same name returns the same status.
- Create.CreateServer: `sys.exit` with a negative status is the status itself. The operating system's truncation of exit codes is not modelled.
- Remote.SyncCommandAsWritten: its contract states only when it exists. What rsync reads from it is stated by `Remote.SyncAsWrittenDropsIdentity` for absolute directories and identities that do not start with `-`.

## Findings

| source | as written | input that shows it | evidently intended | confidence | as-written member | corrected member |
|---|---|---|---|---|---|---|
| main.py:197-207 | the list from `base_ssh_cmd` is spread after `-e`, so rsync takes only `ssh` as its remote shell. The identity path, `BatchMode=yes` and `StrictHostKeyChecking=no` become extra source operands, and `-i`/`-o` become rsync's own flags | key `~/.ssh/id` expanding to `/home/u/.ssh/id`, directory `/home/u/proj`: rsync reads remote shell `ssh`, flags `-avz --progress -i -o -o` and operands `/home/u/.ssh/id`, `BatchMode=yes`, `StrictHostKeyChecking=no`, `/home/u/proj/`, `root@<ip>:/root/proj/` | the ssh command joined into the single argument `-e` expects, so rsync connects with the key and both settings and copies only the working directory | not executed | Remote.SyncAsWrittenDropsIdentity | Remote.SyncCommand |
