/** `spawnm list` (main.py:343-387): the servers the provider reports under
    this tool's name prefix, merged with the names the registry tracks, one
    row per name in sorted order. */
module Listing {
  import opened Common
  import opened Text
  import opened Registry
  import opened Provider

  /** The prefix every server name this tool generates starts with. */
  const TempPrefix := "spawnm-tmp-"

  /** `server.get("name", "")`: a record without a name has the empty name. */
  function NameOf(s: ServerRecord): string {
    s.name.GetOr("")
  }

  /** A server the listing shows: its name carries the tool's prefix. */
  predicate Tracked(s: ServerRecord) {
    StartsWith(NameOf(s), TempPrefix)
  }

  /** What the listing keeps of a live server: its IPv4 address, status and
      server type, each None when the provider's record lacks it. */
  datatype LiveFields = LiveFields(ip: Option<string>, status: Option<string>, size: Option<string>)

  function FieldsOf(s: ServerRecord): LiveFields {
    LiveFields(s.ip, s.status, s.size)
  }

  /** The records the listing takes into account: those of a successful
      list call, none when the call failed. */
  function Reported(reply: ListReply): seq<ServerRecord> {
    if reply.status == 0 && reply.records.Some? then reply.records.value else []
  }

  /** The names of the tracked servers among `servers`. */
  function ProviderNames(servers: seq<ServerRecord>): set<string> {
    NamesUpTo(servers, |servers|)
  }

  /** The names of the tracked servers among the first `n` records. */
  function NamesUpTo(servers: seq<ServerRecord>, n: int): set<string>
    requires 0 <= n <= |servers|
  {
    set k | 0 <= k < n && Tracked(servers[k]) :: NameOf(servers[k])
  }

  /** Every name the listing shows: the provider's and the registry's. */
  function AllNames(reply: ListReply, cached: map<string, InstanceInfo>): set<string> {
    ProviderNames(Reported(reply)) + cached.Keys
  }

  /** `servers[k]` is tracked and no later record among the first `n` has its
      name: it is the record whose fields the listing keeps for that name. */
  ghost predicate LastBefore(servers: seq<ServerRecord>, k: int, n: int)
    requires n <= |servers|
  {
    0 <= k < n && Tracked(servers[k]) &&
    forall j | k < j < n :: NameOf(servers[j]) != NameOf(servers[k])
  }

  ghost predicate LastReport(servers: seq<ServerRecord>, k: int) {
    LastBefore(servers, k, |servers|)
  }

  /** `live` is what the loop over the first `n` records leaves: the tracked
      names among them, each with the fields of its last record. */
  ghost predicate LiveUpTo(servers: seq<ServerRecord>, n: int, live: map<string, LiveFields>)
    requires 0 <= n <= |servers|
  {
    live.Keys == NamesUpTo(servers, n) && KeptFields(servers, n, live)
  }

  ghost predicate KeptFields(servers: seq<ServerRecord>, n: int, live: map<string, LiveFields>)
    requires 0 <= n <= |servers|
  {
    forall k | LastBefore(servers, k, n) :: NameOf(servers[k]) in live && live[NameOf(servers[k])] == FieldsOf(servers[k])
  }

  ghost predicate LiveView(servers: seq<ServerRecord>, live: map<string, LiveFields>) {
    LiveUpTo(servers, |servers|, live)
  }

  /** The loop that fills `hetzner_servers`: a later record under the same
      name replaces an earlier one. */
  method CollectLive(servers: seq<ServerRecord>) returns (live: map<string, LiveFields>)
    ensures LiveView(servers, live)
    ensures live.Keys == ProviderNames(servers)
  {
    live := map[];
    CollectStart(servers);
    for i := 0 to |servers|
      invariant LiveUpTo(servers, i, live)
    {
      ghost var before := live;
      var s := servers[i];
      if StartsWith(NameOf(s), TempPrefix) {
        live := live[NameOf(s) := FieldsOf(s)];
      }
      CollectStep(servers, i, before, live);
    }
  }

  lemma CollectStart(servers: seq<ServerRecord>)
    ensures LiveUpTo(servers, 0, map[])
  {
    assert NamesUpTo(servers, 0) == {};
  }

  /** One more record: its name is added, with its fields, when it is tracked. */
  lemma CollectStep(servers: seq<ServerRecord>, i: int, live: map<string, LiveFields>, live': map<string, LiveFields>)
    requires 0 <= i < |servers| && LiveUpTo(servers, i, live)
    requires live' == if Tracked(servers[i]) then live[NameOf(servers[i]) := FieldsOf(servers[i])] else live
    ensures LiveUpTo(servers, i + 1, live')
  {
    NamesStep(servers, i);
    FieldsStep(servers, i, live, live');
  }

  /** One more record keeps the last fields of every name. */
  lemma FieldsStep(servers: seq<ServerRecord>, i: int, live: map<string, LiveFields>, live': map<string, LiveFields>)
    requires 0 <= i < |servers| && KeptFields(servers, i, live)
    requires live' == if Tracked(servers[i]) then live[NameOf(servers[i]) := FieldsOf(servers[i])] else live
    ensures KeptFields(servers, i + 1, live')
  {
    forall k | LastBefore(servers, k, i + 1)
      ensures NameOf(servers[k]) in live' && live'[NameOf(servers[k])] == FieldsOf(servers[k])
    {
      if k < i {
        EarlierLast(servers, k, i);
      }
    }
  }

  /** A last record among the first `i + 1` that is not the `i`-th is a last
      record among the first `i`, of another name than the `i`-th. */
  lemma EarlierLast(servers: seq<ServerRecord>, k: int, i: int)
    requires 0 <= k < i < |servers| && LastBefore(servers, k, i + 1)
    ensures LastBefore(servers, k, i) && NameOf(servers[i]) != NameOf(servers[k])
  {
  }

  lemma NamesStep(servers: seq<ServerRecord>, i: int)
    requires 0 <= i < |servers|
    ensures NamesUpTo(servers, i + 1) ==
            NamesUpTo(servers, i) + (if Tracked(servers[i]) then {NameOf(servers[i])} else {})
  {
    var s := servers[i];
    forall name | name in NamesUpTo(servers, i + 1) && name != NameOf(s)
      ensures name in NamesUpTo(servers, i)
    {
      var k :| 0 <= k < i + 1 && Tracked(servers[k]) && NameOf(servers[k]) == name;
    }
    if Tracked(s) {
      assert NameOf(s) in NamesUpTo(servers, i + 1);
    }
  }

  /** Every tracked record is followed, at it or later, by the last record of
      its name. */
  lemma {:induction false} LastReportExists(servers: seq<ServerRecord>, k: int)
    requires 0 <= k < |servers| && Tracked(servers[k])
    ensures exists l | k <= l < |servers| :: LastReport(servers, l) && NameOf(servers[l]) == NameOf(servers[k])
    decreases |servers| - k
  {
    if !LastReport(servers, k) {
      var j :| k < j < |servers| && NameOf(servers[j]) == NameOf(servers[k]);
      LastReportExists(servers, j);
    }
  }

  /** A name has only one last record. */
  lemma LastReportUnique(servers: seq<ServerRecord>, k: int, l: int)
    requires LastReport(servers, k) && LastReport(servers, l)
    requires NameOf(servers[k]) == NameOf(servers[l])
    ensures k == l
  {
  }

  /** A name the loop kept carries the fields of its last record. */
  lemma LiveLookup(servers: seq<ServerRecord>, live: map<string, LiveFields>, name: string)
    requires LiveView(servers, live) && name in live
    ensures exists k | LastReport(servers, k) :: NameOf(servers[k]) == name && live[name] == FieldsOf(servers[k])
  {
    assert name in NamesUpTo(servers, |servers|);
    var k :| 0 <= k < |servers| && Tracked(servers[k]) && NameOf(servers[k]) == name;
    LastReportExists(servers, k);
  }

  /** The loop's result is determined by the records alone. */
  lemma {:induction false} LiveViewUnique(servers: seq<ServerRecord>, a: map<string, LiveFields>, b: map<string, LiveFields>)
    requires LiveView(servers, a) && LiveView(servers, b)
    ensures a == b
  {
    forall name | name in a
      ensures name in b && a[name] == b[name]
    {
      LiveLookup(servers, a, name);
    }
  }

  /** One line of the listing: a server the provider reports, with its
      fields, or a registry entry the provider does not report ("not
      found"), with the cached address and type. */
  datatype Row =
    | Live(name: string, fields: LiveFields)
    | Stale(name: string, ip: Option<string>, size: string)

  /** The outcome of `spawnm list`: the list call's output did not parse
      (`json.loads` raises), "No instances found.", or the rows. */
  datatype Listing = ListCrashed | NoInstances | Instances(rows: seq<Row>)

  function RowNames(rows: seq<Row>): (r: seq<string>)
    ensures |r| == |rows| && forall k | 0 <= k < |rows| :: r[k] == rows[k].name
  {
    seq(|rows|, k requires 0 <= k < |rows| => rows[k].name)
  }

  /** The row for `row.name`: the provider's last record for it when the
      provider reports that name, otherwise the registry entry. */
  ghost predicate RowReports(row: Row, servers: seq<ServerRecord>, cached: map<string, InstanceInfo>) {
    if row.name in ProviderNames(servers) then
      row.Live? && exists k | LastReport(servers, k) :: NameOf(servers[k]) == row.name && row.fields == FieldsOf(servers[k])
    else
      row.Stale? && row.name in cached && row.ip == cached[row.name].ip && row.size == cached[row.name].size
  }

  /** The listing's rows for a reply and a registry: one per name, in
      Python's sort order, each as `RowReports` says. */
  ghost predicate RowsFor(rows: seq<Row>, reply: ListReply, cached: map<string, InstanceInfo>) {
    Ascending(RowNames(rows)) &&
    (forall name :: name in RowNames(rows) <==> name in AllNames(reply, cached)) &&
    |rows| == |AllNames(reply, cached)| &&
    forall k | 0 <= k < |rows| :: RowReports(rows[k], Reported(reply), cached)
  }

  /** A failed list call contributes no provider names: the loop's result is
      empty and the listing's names are the registry's. */
  lemma NoRecords(reply: ListReply, cached: map<string, InstanceInfo>)
    requires reply.status != 0
    ensures Reported(reply) == [] && LiveView(Reported(reply), map[])
    ensures ProviderNames(Reported(reply)) == {} && AllNames(reply, cached) == cached.Keys
  {
    assert NamesUpTo([], 0) == {};
  }

  /** The loop over `sorted(all_names)`: a live row for each name the
      provider reports, a stale one for each other name. */
  method BuildRows(servers: seq<ServerRecord>, live: map<string, LiveFields>, cached: map<string, InstanceInfo>,
                   names: seq<string>)
    returns (rows: seq<Row>)
    requires LiveView(servers, live) && live.Keys == ProviderNames(servers)
    requires forall k | 0 <= k < |names| :: names[k] in live || names[k] in cached
    ensures |rows| == |names|
    ensures forall k | 0 <= k < |names| :: rows[k].name == names[k] && RowReports(rows[k], servers, cached)
  {
    rows := [];
    for i := 0 to |names|
      invariant |rows| == i
      invariant forall k | 0 <= k < i :: rows[k].name == names[k] && RowReports(rows[k], servers, cached)
    {
      var name := names[i];
      if name in live {
        LiveLookup(servers, live, name);
        rows := rows + [Live(name, live[name])];
      } else {
        rows := rows + [Stale(name, cached[name].ip, cached[name].size)];
      }
    }
  }

  /** Rows built over the sorted names are the listing `RowsFor` describes. */
  lemma SortedRows(rows: seq<Row>, names: seq<string>, reply: ListReply, cached: map<string, InstanceInfo>)
    requires AllNames(reply, cached) != {} && names == SortedSeq(AllNames(reply, cached))
    requires |rows| == |names|
    requires forall k | 0 <= k < |names| :: rows[k].name == names[k] && RowReports(rows[k], Reported(reply), cached)
    ensures RowsFor(rows, reply, cached)
    ensures reply.status != 0 ==> forall k | 0 <= k < |rows| :: rows[k].Stale?
  {
    assert RowNames(rows) == names;
  }

  /** `cmd_list`: reads the registry, merges in the provider's reply and
      lists every name once. */
  method ListInstances(registry: InstanceRegistry, reply: ListReply) returns (listing: Listing)
    ensures listing.ListCrashed? <==> reply.status == 0 && reply.records.None?
    ensures listing.NoInstances? <==> !listing.ListCrashed? && AllNames(reply, registry.instances) == {}
    ensures listing.Instances? ==> RowsFor(listing.rows, reply, registry.instances)
    ensures listing.Instances? && reply.status != 0 ==> forall k | 0 <= k < |listing.rows| :: listing.rows[k].Stale?
  {
    var cached := registry.Load();
    if reply.status != 0 {
      NoRecords(reply, cached);
      listing := Merge(reply, [], map[], cached);
    } else if reply.records.None? {
      listing := ListCrashed;
    } else {
      var live := CollectLive(reply.records.value);
      listing := Merge(reply, reply.records.value, live, cached);
    }
  }

  /** From `all_names` on: "No instances found." or one row per name. */
  method Merge(reply: ListReply, servers: seq<ServerRecord>, live: map<string, LiveFields>,
               cached: map<string, InstanceInfo>)
    returns (listing: Listing)
    requires servers == Reported(reply)
    requires LiveView(servers, live) && live.Keys == ProviderNames(servers)
    ensures !listing.ListCrashed?
    ensures listing.NoInstances? <==> AllNames(reply, cached) == {}
    ensures listing.Instances? ==> RowsFor(listing.rows, reply, cached)
    ensures listing.Instances? && reply.status != 0 ==> forall k | 0 <= k < |listing.rows| :: listing.rows[k].Stale?
  {
    var all := live.Keys + cached.Keys;
    assert all == AllNames(reply, cached);
    if all == {} {
      return NoInstances;
    }
    var rows := SortedListing(reply, servers, live, cached, all);
    listing := Instances(rows);
  }

  /** The rows over `sorted(all_names)`, for a non-empty set of names. */
  method SortedListing(reply: ListReply, servers: seq<ServerRecord>, live: map<string, LiveFields>,
                       cached: map<string, InstanceInfo>, all: set<string>)
    returns (rows: seq<Row>)
    requires servers == Reported(reply)
    requires LiveView(servers, live) && live.Keys == ProviderNames(servers)
    requires all == live.Keys + cached.Keys && all != {}
    ensures RowsFor(rows, reply, cached)
    ensures reply.status != 0 ==> forall k | 0 <= k < |rows| :: rows[k].Stale?
  {
    var names := SortedSeq(all);
    SortedCover(names, live, cached);
    rows := BuildRows(servers, live, cached, names);
    SortedRows(rows, names, reply, cached);
  }

  /** Every sorted name is the provider's or the registry's. */
  lemma SortedCover(names: seq<string>, live: map<string, LiveFields>, cached: map<string, InstanceInfo>)
    requires forall x :: x in names <==> x in live.Keys + cached.Keys
    ensures forall k | 0 <= k < |names| :: names[k] in live || names[k] in cached
  {
    forall k | 0 <= k < |names|
      ensures names[k] in live || names[k] in cached
    {
      assert names[k] in names;
    }
  }

  /** The rows are fully determined by the reply and the registry: two
      listings of the same inputs agree line by line. */
  lemma {:induction false} RowsDetermined(rows: seq<Row>, other: seq<Row>, reply: ListReply, cached: map<string, InstanceInfo>)
    requires RowsFor(rows, reply, cached) && RowsFor(other, reply, cached)
    ensures rows == other
  {
    AscendingUnique(RowNames(rows), RowNames(other));
    var servers := Reported(reply);
    forall k | 0 <= k < |rows|
      ensures rows[k] == other[k]
    {
      assert rows[k].name == other[k].name;
      if rows[k].name in ProviderNames(servers) {
        var a :| LastReport(servers, a) && NameOf(servers[a]) == rows[k].name && rows[k].fields == FieldsOf(servers[a]);
        var b :| LastReport(servers, b) && NameOf(servers[b]) == other[k].name && other[k].fields == FieldsOf(servers[b]);
        LastReportUnique(servers, a, b);
      }
    }
  }
}
