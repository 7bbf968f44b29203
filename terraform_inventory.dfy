/**
 * The dynamic Ansible inventory built from OpenTofu outputs
 * (ansible/inventory/terraform.py): the Incus remote chosen by the
 * environment name, and `build_inventory` with its inner
 * `add_instances_to_group`.
 */
module TerraformInventory {
  import opened Wrappers
  import opened Dicts
  import opened Json

  /**
   * The parsed output of `tofu output -json`: output key to its wrapper
   * object, which carries the output's value under "value".
   */
  type Output = map<string, Json>

  /** Per-host variables written under `_meta.hostvars`. */
  datatype HostVars = HostVars(ansibleIncusHost: string, ipv4Address: Json)

  /** One service group of the inventory: its host names and group vars. */
  datatype Group = Group(hosts: seq<string>, vars: map<string, Json>)

  /**
   * The inventory document: `_meta.hostvars`, `all.children`, and one entry
   * per service group (the groups' names never clash with `_meta` or `all`).
   */
  datatype Inventory = Inventory(
    hostvars: map<string, HostVars>,
    children: seq<string>,
    groups: map<string, Group>)

  /** Arguments of one `add_instances_to_group` call. */
  datatype GroupCall = GroupCall(group: string, instancesKey: string, varsKey: string)

  /** The environment assumed when `ENV` is unset. */
  const DefaultEnv := "cluster01"

  const ConnectionPlugin := "community.general.incus"

  /** The service groups, in the order of `all.children`. */
  const ServiceGroups: seq<string> := [
    "forgejo_runners", "prometheus", "forgejo", "postgresql", "alertmanager",
    "step_ca", "mosquitto", "alloy", "grafana", "loki", "coredns", "openfga", "dex"
  ]

  /** The `add_instances_to_group` calls, in call order. */
  const Calls: seq<GroupCall> := [
    GroupCall("forgejo_runners", "forgejo_runner_instances", "forgejo_runner_ansible_vars"),
    GroupCall("prometheus", "prometheus_instances", "prometheus_ansible_vars"),
    GroupCall("forgejo", "forgejo_instances", "forgejo_ansible_vars"),
    GroupCall("postgresql", "postgresql_instances", "postgresql_ansible_vars"),
    GroupCall("alertmanager", "alertmanager_instances", "alertmanager_ansible_vars"),
    GroupCall("step_ca", "step_ca_instances", "step_ca_ansible_vars"),
    GroupCall("mosquitto", "mosquitto_instances", "mosquitto_ansible_vars"),
    GroupCall("alloy", "alloy_instances", "alloy_ansible_vars"),
    GroupCall("grafana", "grafana_instances", "grafana_ansible_vars"),
    GroupCall("loki", "loki_instances", "loki_ansible_vars"),
    GroupCall("coredns", "coredns_instances", "coredns_ansible_vars"),
    GroupCall("openfga", "openfga_instances", "openfga_ansible_vars"),
    GroupCall("dex", "dex_instances", "dex_ansible_vars")
  ]

  /**
   * `get_incus_remote`: the cluster remote for the cluster environment
   * (also the default when `ENV` is unset), no remote for any other.
   */
  function IncusRemote(env: Option<string>): (remote: string)
    ensures remote == "cluster01" <==> env.None? || env == Some("cluster01")
    ensures remote != "cluster01" ==> remote == ""
  {
    var name := env.GetOr(DefaultEnv);
    if name == "cluster01" then "cluster01" else ""
  }

  /** The connection settings every group is seeded with. */
  function DefaultVars(remote: string): map<string, Json> {
    map["ansible_connection" := JString(ConnectionPlugin),
        "ansible_incus_remote" := JString(remote)]
  }

  // ---------------------------------------------------------------------
  // Reading the OpenTofu output
  // ---------------------------------------------------------------------

  /** `tf_output[key]["value"]` when the key is present. */
  function Value(tf: Output, key: string): Option<Json> {
    if key in tf then Member(tf[key], "value") else None
  }

  /** A present key's wrapper has a "value" (else Python raises). */
  predicate HasValue(tf: Output, key: string) {
    key in tf ==> Value(tf, key).Some?
  }

  /**
   * An instances output is falsy (null, empty, ...) or a dict from instance
   * name to a dict of attributes (else `.items()` or `.get` raise); as a
   * parsed dict it has no name twice.
   */
  predicate InstancesShaped(tf: Output, key: string) {
    && HasValue(tf, key)
    && match Value(tf, key)
       case None => true
       case Some(v) =>
         Truthy(v) ==>
           && v.JObject?
           && Distinct(Keys(v.fields))
           && forall i :: 0 <= i < |v.fields| ==> v.fields[i].1.JObject?
  }

  /** A vars output is null or a dict (else `dict.update` raises). */
  predicate VarsShaped(tf: Output, key: string) {
    && HasValue(tf, key)
    && match Value(tf, key)
       case None => true
       case Some(v) => v.JNull? || v.JObject?
  }

  /** The two outputs one call reads are of the expected shape. */
  predicate CallShaped(tf: Output, c: GroupCall) {
    InstancesShaped(tf, c.instancesKey) && VarsShaped(tf, c.varsKey)
  }

  /** Every output key that `build_inventory` reads is of the expected shape. */
  predicate WellShaped(tf: Output) {
    forall j {:trigger CallShaped(tf, Calls[j])} :: 0 <= j < |Calls| ==> CallShaped(tf, Calls[j])
  }

  /** The (name, attributes) pairs a group receives, in dict order. */
  function InstanceEntries(tf: Output, key: string): seq<(string, Json)> {
    match Value(tf, key)
    case Some(v) => if Truthy(v) && v.JObject? then v.fields else []
    case None => []
  }

  /** The group-var overrides of a group (none for a missing or null key). */
  function Overrides(tf: Output, key: string): seq<(string, Json)> {
    match Value(tf, key)
    case Some(JObject(fields)) => fields
    case _ => []
  }

  /** The host vars of one instance; the address defaults to "". */
  function HostVarsFor(name: string, data: Json): HostVars {
    HostVars(name, Member(data, "ipv4_address").GetOr(JString("")))
  }

  /** The `_meta.hostvars` assignments made for a list of instances, in order. */
  function HostVarEntries(entries: seq<(string, Json)>): seq<(string, HostVars)> {
    seq(|entries|, i requires 0 <= i < |entries| => (entries[i].0, HostVarsFor(entries[i].0, entries[i].1)))
  }

  /** All `_meta.hostvars` assignments of a sequence of calls, in call order. */
  function HostVarUpdates(tf: Output, calls: seq<GroupCall>): seq<(string, HostVars)> {
    if calls == [] then []
    else HostVarUpdates(tf, calls[..|calls| - 1])
         + HostVarEntries(InstanceEntries(tf, calls[|calls| - 1].instancesKey))
  }

  // ---------------------------------------------------------------------
  // The expected inventory
  // ---------------------------------------------------------------------

  /** What a group holds once its call has run. */
  function ExpectedGroup(tf: Output, env: Option<string>, c: GroupCall): Group {
    Group(Keys(InstanceEntries(tf, c.instancesKey)),
          Update(DefaultVars(IncusRemote(env)), Overrides(tf, c.varsKey)))
  }

  /** `_meta.hostvars` once every call has run. */
  function ExpectedHostVars(tf: Output): map<string, HostVars> {
    Update(map[], HostVarUpdates(tf, Calls))
  }

  /** Every service group, seeded with no hosts and the connection defaults. */
  function Seeded(remote: string): map<string, Group> {
    SeededFrom(ServiceGroups, remote)
  }

  /** The given groups, each with no hosts and the connection defaults. */
  function SeededFrom(names: seq<string>, remote: string): map<string, Group> {
    map g | g in names :: Group([], DefaultVars(remote))
  }

  /** The effect of one call on the groups: hosts appended, overrides merged. */
  function RunCall(tf: Output, c: GroupCall, groups: map<string, Group>): map<string, Group> {
    if c.group in groups then
      groups[c.group := Group(groups[c.group].hosts + Keys(InstanceEntries(tf, c.instancesKey)),
                              Update(groups[c.group].vars, Overrides(tf, c.varsKey)))]
    else groups
  }

  /** The groups once `calls` have run, in order, on the seeded groups. */
  function GroupsAfter(tf: Output, env: Option<string>, calls: seq<GroupCall>): map<string, Group> {
    if calls == [] then Seeded(IncusRemote(env))
    else RunCall(tf, calls[|calls| - 1], GroupsAfter(tf, env, calls[..|calls| - 1]))
  }

  // ---------------------------------------------------------------------
  // The builder
  // ---------------------------------------------------------------------

  /**
   * The instances half of `add_instances_to_group`: for each instance of a
   * truthy instances output, in dict order, append its name to the group's
   * hosts and write its host vars.
   */
  method AddInstances(tf: Output, key: string, hosts0: seq<string>, hostvars0: map<string, HostVars>)
    returns (hosts: seq<string>, hostvars: map<string, HostVars>)
    requires InstancesShaped(tf, key)
    ensures hosts == hosts0 + Keys(InstanceEntries(tf, key))
    ensures hostvars == Update(hostvars0, HostVarEntries(InstanceEntries(tf, key)))
  {
    hosts, hostvars := hosts0, hostvars0;
    if key in tf {
      var instances := Member(tf[key], "value").value;
      if Truthy(instances) {
        var items := instances.fields;
        var i := 0;
        while i < |items|
          invariant 0 <= i <= |items|
          invariant hosts == hosts0 + Keys(items[..i])
          invariant hostvars == Update(hostvars0, HostVarEntries(items[..i]))
        {
          var (name, data) := items[i];
          ExtendByOne(items, i, hostvars0);
          hosts := hosts + [name];
          hostvars := hostvars[name := HostVarsFor(name, data)];
          i := i + 1;
        }
        assert items[..i] == items;
      }
    }
  }

  /**
   * `add_instances_to_group`: append the group's instances to its hosts in
   * dict order, write a host-vars entry for each, then merge the group-var
   * overrides into its vars.
   */
  method AddInstancesToGroup(tf: Output, c: GroupCall, inv: Inventory) returns (r: Inventory)
    requires c.group in inv.groups
    requires CallShaped(tf, c)
    ensures r.children == inv.children
    ensures r.groups == RunCall(tf, c, inv.groups)
    ensures r.groups[c.group].hosts == inv.groups[c.group].hosts + Keys(InstanceEntries(tf, c.instancesKey))
    ensures r.groups[c.group].vars == Update(inv.groups[c.group].vars, Overrides(tf, c.varsKey))
    ensures r.hostvars == Update(inv.hostvars, HostVarEntries(InstanceEntries(tf, c.instancesKey)))
  {
    var hosts, hostvars := AddInstances(tf, c.instancesKey, inv.groups[c.group].hosts, inv.hostvars);
    ghost var overrides := Overrides(tf, c.varsKey);
    var vars := inv.groups[c.group].vars;
    if c.varsKey in tf {
      var ansibleVars := Member(tf[c.varsKey], "value").value;
      if !ansibleVars.JNull? {
        assert ansibleVars.fields == overrides;
        vars := Update(vars, ansibleVars.fields);
      } else {
        assert overrides == [];
      }
    } else {
      assert overrides == [];
    }
    r := Inventory(hostvars, inv.children, inv.groups[c.group := Group(hosts, vars)]);
  }

  /**
   * The host-vars assignments of one call: each listed instance gets its own
   * host vars, and every other entry keeps its value.
   */
  lemma CallHostVars(tf: Output, c: GroupCall, hostvars: map<string, HostVars>)
    requires CallShaped(tf, c)
    ensures var entries := InstanceEntries(tf, c.instancesKey);
      var after := Update(hostvars, HostVarEntries(entries));
      && (forall i :: 0 <= i < |entries| ==>
            entries[i].0 in after && after[entries[i].0] == HostVarsFor(entries[i].0, entries[i].1))
      && (forall h :: h in hostvars && h !in Keys(entries) ==> h in after && after[h] == hostvars[h])
  {
    var entries := InstanceEntries(tf, c.instancesKey);
    HostVarEntriesFound(entries);
    forall i | 0 <= i < |entries|
      ensures Get(entries, entries[i].0) == Some(entries[i].1)
    {
      GetDistinct(entries, i);
    }
  }

  /**
   * The `add_instances_to_group` calls of `build_inventory`, run in order on
   * the seeded groups.
   */
  method RunCalls(tf: Output, env: Option<string>, calls: seq<GroupCall>, seeded: Inventory) returns (inv: Inventory)
    requires seeded.groups == Seeded(IncusRemote(env)) && seeded.hostvars == map[]
    requires forall j :: 0 <= j < |calls| ==> calls[j].group in ServiceGroups && CallShaped(tf, calls[j])
    ensures inv.children == seeded.children
    ensures inv.groups == GroupsAfter(tf, env, calls)
    ensures inv.hostvars == Update(map[], HostVarUpdates(tf, calls))
  {
    inv := seeded;
    for k := 0 to |calls|
      invariant inv.children == seeded.children
      invariant inv.groups == GroupsAfter(tf, env, calls[..k])
      invariant inv.hostvars == Update(map[], HostVarUpdates(tf, calls[..k]))
    {
      GroupsAfterHas(tf, env, calls[..k], calls[k].group);
      ghost var before := inv;
      inv := AddInstancesToGroup(tf, calls[k], inv);
      assert calls[..k + 1][..k] == calls[..k] && calls[..k + 1][k] == calls[k];
      HostVarsStep(tf, calls, k, before.hostvars, inv.hostvars);
    }
    assert calls[..|calls|] == calls;
  }

  /**
   * `build_inventory`: seed every service group with the connection
   * defaults, then run the calls in order.
   */
  method BuildInventory(tf: Output, env: Option<string>) returns (inv: Inventory)
    requires WellShaped(tf)
    ensures inv.children == ServiceGroups
    ensures inv.groups == GroupsAfter(tf, env, Calls)
    ensures inv.hostvars == ExpectedHostVars(tf)
    ensures forall g :: g in inv.groups <==> g in ServiceGroups
    ensures forall j :: 0 <= j < |Calls| ==>
      Calls[j].group in inv.groups && inv.groups[Calls[j].group] == ExpectedGroup(tf, env, Calls[j])
    ensures forall g, h :: g in inv.groups && h in inv.groups[g].hosts ==> h in inv.hostvars
    ensures forall g :: g in inv.groups ==> Distinct(inv.groups[g].hosts)
  {
    var remote := IncusRemote(env);
    inv := Inventory(map[], ServiceGroups, map[]);
    for i := 0 to |ServiceGroups|
      invariant inv.children == ServiceGroups && inv.hostvars == map[]
      invariant inv.groups == SeededFrom(ServiceGroups[..i], remote)
    {
      SeededSnoc(ServiceGroups, i, remote);
      inv := inv.(groups := inv.groups[ServiceGroups[i] := Group([], DefaultVars(remote))]);
    }
    assert ServiceGroups[..|ServiceGroups|] == ServiceGroups;
    CallsWellFormed(tf);
    inv := RunCalls(tf, env, Calls, inv);
    InventoryShape(tf, env);
  }

  // ---------------------------------------------------------------------
  // Properties
  // ---------------------------------------------------------------------

  /**
   * The shape of the built inventory: exactly the service groups, each
   * holding its own instances and merged vars, every listed host with host
   * vars, and no host listed twice within a group.
   */
  lemma InventoryShape(tf: Output, env: Option<string>)
    requires WellShaped(tf)
    ensures forall g :: g in GroupsAfter(tf, env, Calls) <==> g in ServiceGroups
    ensures forall j :: 0 <= j < |Calls| ==>
      Calls[j].group in GroupsAfter(tf, env, Calls)
      && GroupsAfter(tf, env, Calls)[Calls[j].group] == ExpectedGroup(tf, env, Calls[j])
    ensures forall g, h :: g in GroupsAfter(tf, env, Calls) && h in GroupsAfter(tf, env, Calls)[g].hosts ==>
      h in ExpectedHostVars(tf)
    ensures forall g :: g in GroupsAfter(tf, env, Calls) ==> Distinct(GroupsAfter(tf, env, Calls)[g].hosts)
  {
    var groups := GroupsAfter(tf, env, Calls);
    GroupsAfterKeys(tf, env, Calls);
    forall j | 0 <= j < |Calls|
      ensures Calls[j].group in groups && groups[Calls[j].group] == ExpectedGroup(tf, env, Calls[j])
    {
      GroupsAfterCalls(tf, env, j);
    }
    forall g, h | g in groups && h in groups[g].hosts
      ensures h in ExpectedHostVars(tf)
    {
      var j := GroupIndex(g);
      GroupsAfterCalls(tf, env, j);
      ListedHostHasHostVars(tf, j, h);
    }
    forall g | g in groups
      ensures Distinct(groups[g].hosts)
    {
      var j := GroupIndex(g);
      GroupsAfterCalls(tf, env, j);
      GroupHostsDistinct(tf, env, j);
    }
  }

  /**
   * Before any call, every service group and nothing else is present, with
   * no hosts and the Incus connection plugin and remote as its vars.
   */
  lemma SeededGroups(remote: string)
    ensures forall g :: g in Seeded(remote) <==> g in ServiceGroups
    ensures forall g :: g in Seeded(remote) ==>
      Seeded(remote)[g] == Group([], map["ansible_connection" := JString("community.general.incus"),
                                         "ansible_incus_remote" := JString(remote)])
  {
  }

  /** Every call names the service group at the same position: each group a call writes to was seeded. */
  lemma CallsFollowServiceGroups()
    ensures |Calls| == |ServiceGroups| == 13
    ensures forall j :: 0 <= j < |Calls| ==> Calls[j].group == ServiceGroups[j]
  {
  }

  /** No service group is listed twice, so no call overwrites another's group. */
  lemma ServiceGroupsDistinct()
    ensures Distinct(ServiceGroups)
  {
  }

  /** One more instance handled: one more key, one more host-vars assignment. */
  lemma ExtendByOne(items: seq<(string, Json)>, i: nat, hostvars: map<string, HostVars>)
    requires i < |items|
    ensures Keys(items[..i + 1]) == Keys(items[..i]) + [items[i].0]
    ensures Update(hostvars, HostVarEntries(items[..i + 1]))
         == Update(hostvars, HostVarEntries(items[..i]))[items[i].0 := HostVarsFor(items[i].0, items[i].1)]
  {
    assert items[..i + 1][..i] == items[..i];
    assert HostVarEntries(items[..i + 1])[..i] == HostVarEntries(items[..i]);
  }

  /** Distinct calls write to distinct groups. */
  lemma CallGroupsDiffer(j: nat, k: nat)
    requires j < |Calls| && k < |Calls| && j != k
    ensures Calls[j].group != Calls[k].group
  {
    CallsFollowServiceGroups();
    ServiceGroupsDistinct();
    if j < k {
      assert ServiceGroups[j] != ServiceGroups[k];
    } else {
      assert ServiceGroups[k] != ServiceGroups[j];
    }
  }

  /** The position of a service group in the call table. */
  function GroupIndex(g: string): (j: nat)
    requires g in ServiceGroups
    ensures j < |Calls| && Calls[j].group == g
  {
    CallsFollowServiceGroups();
    if g == ServiceGroups[0] then 0
    else if g == ServiceGroups[1] then 1
    else if g == ServiceGroups[2] then 2
    else if g == ServiceGroups[3] then 3
    else if g == ServiceGroups[4] then 4
    else if g == ServiceGroups[5] then 5
    else if g == ServiceGroups[6] then 6
    else if g == ServiceGroups[7] then 7
    else if g == ServiceGroups[8] then 8
    else if g == ServiceGroups[9] then 9
    else if g == ServiceGroups[10] then 10
    else if g == ServiceGroups[11] then 11
    else 12
  }

  /** Seeding one more group adds exactly that group. */
  lemma SeededSnoc(names: seq<string>, i: nat, remote: string)
    requires i < |names|
    ensures SeededFrom(names[..i + 1], remote)
         == SeededFrom(names[..i], remote)[names[i] := Group([], DefaultVars(remote))]
  {
    assert names[..i + 1] == names[..i] + [names[i]];
  }

  /** Every call writes to a seeded group and reads outputs of the expected shape. */
  lemma CallsWellFormed(tf: Output)
    requires WellShaped(tf)
    ensures forall j :: 0 <= j < |Calls| ==> Calls[j].group in ServiceGroups && CallShaped(tf, Calls[j])
  {
    CallsFollowServiceGroups();
    forall j | 0 <= j < |Calls|
      ensures Calls[j].group in ServiceGroups && CallShaped(tf, Calls[j])
    {
      assert Calls[j].group == ServiceGroups[j];
    }
  }

  /** A service group is present whatever calls have run. */
  lemma GroupsAfterHas(tf: Output, env: Option<string>, calls: seq<GroupCall>, g: string)
    requires g in ServiceGroups
    ensures g in GroupsAfter(tf, env, calls)
  {
    GroupsAfterKeys(tf, env, calls);
  }

  /** Running calls never adds or removes a group. */
  lemma {:induction false} GroupsAfterKeys(tf: Output, env: Option<string>, calls: seq<GroupCall>)
    ensures forall g :: g in GroupsAfter(tf, env, calls) <==> g in ServiceGroups
  {
    if calls != [] {
      GroupsAfterKeys(tf, env, calls[..|calls| - 1]);
    }
  }

  /** A group no call names keeps its seeded value. */
  lemma {:induction false} GroupsAfterUntouched(tf: Output, env: Option<string>, calls: seq<GroupCall>, g: string)
    requires g in ServiceGroups
    requires forall l :: 0 <= l < |calls| ==> calls[l].group != g
    ensures g in GroupsAfter(tf, env, calls)
    ensures GroupsAfter(tf, env, calls)[g] == Group([], DefaultVars(IncusRemote(env)))
  {
    if calls != [] {
      var m := |calls| - 1;
      forall l | 0 <= l < m
        ensures calls[..m][l].group != g
      {
        assert calls[..m][l] == calls[l];
      }
      GroupsAfterUntouched(tf, env, calls[..m], g);
    }
  }

  /**
   * After all calls, each group holds exactly its own instances, in order,
   * and the connection defaults merged with its own overrides.
   */
  lemma GroupsAfterCalls(tf: Output, env: Option<string>, j: nat)
    requires j < |Calls|
    ensures Calls[j].group in GroupsAfter(tf, env, Calls)
    ensures GroupsAfter(tf, env, Calls)[Calls[j].group] == ExpectedGroup(tf, env, Calls[j])
  {
    CallsFollowServiceGroups();
    forall l | 0 <= l < |Calls| && l != j
      ensures Calls[l].group != Calls[j].group
    {
      CallGroupsDiffer(l, j);
    }
    GroupsAfterAt(tf, env, Calls, j);
  }

  /** A group that only call `j` names ends up with the value that call gives it. */
  lemma {:induction false} GroupsAfterAt(tf: Output, env: Option<string>, calls: seq<GroupCall>, j: nat)
    requires j < |calls|
    requires calls[j].group in ServiceGroups
    requires forall l :: 0 <= l < |calls| && l != j ==> calls[l].group != calls[j].group
    ensures calls[j].group in GroupsAfter(tf, env, calls)
    ensures GroupsAfter(tf, env, calls)[calls[j].group] == ExpectedGroup(tf, env, calls[j])
  {
    var g := calls[j].group;
    var m := |calls| - 1;
    var before := calls[..m];
    GroupsAfterKeys(tf, env, before);
    if j == m {
      forall l | 0 <= l < m
        ensures before[l].group != g
      {
        assert before[l] == calls[l];
      }
      GroupsAfterUntouched(tf, env, before, g);
    } else {
      assert before[j] == calls[j];
      forall l | 0 <= l < m && l != j
        ensures before[l].group != before[j].group
      {
        assert before[l] == calls[l];
      }
      GroupsAfterAt(tf, env, before, j);
      assert calls[m].group != g;
    }
  }

  /** One more call: its host-vars assignments follow those of the earlier calls. */
  lemma HostVarsStep(tf: Output, calls: seq<GroupCall>, k: nat, before: map<string, HostVars>, after: map<string, HostVars>)
    requires k < |calls|
    requires before == Update(map[], HostVarUpdates(tf, calls[..k]))
    requires after == Update(before, HostVarEntries(InstanceEntries(tf, calls[k].instancesKey)))
    ensures after == Update(map[], HostVarUpdates(tf, calls[..k + 1]))
  {
    HostVarUpdatesSnoc(tf, calls, k);
    UpdateAppend(map[], HostVarUpdates(tf, calls[..k]),
                 HostVarEntries(InstanceEntries(tf, calls[k].instancesKey)));
  }

  /** The assignments of one more call follow those of the earlier ones. */
  lemma HostVarUpdatesSnoc(tf: Output, calls: seq<GroupCall>, k: nat)
    requires k < |calls|
    ensures HostVarUpdates(tf, calls[..k + 1])
         == HostVarUpdates(tf, calls[..k]) + HostVarEntries(InstanceEntries(tf, calls[k].instancesKey))
  {
    assert calls[..k + 1][..k] == calls[..k];
  }

  /** The host-vars assignments of a list of instances: same names, the host vars of each. */
  lemma {:induction false} HostVarEntriesFound(entries: seq<(string, Json)>)
    ensures Keys(HostVarEntries(entries)) == Keys(entries)
    ensures forall n :: n in Keys(entries) ==>
      Get(HostVarEntries(entries), n) == Some(HostVarsFor(n, Get(entries, n).value))
  {
    if entries != [] {
      var m := |entries| - 1;
      assert HostVarEntries(entries)[..m] == HostVarEntries(entries[..m]);
      HostVarEntriesFound(entries[..m]);
      KeysSnoc(entries);
      KeysSnoc(HostVarEntries(entries));
    }
  }

  /** A name that gets a host-vars assignment is listed by one of the calls. */
  lemma {:induction false} UpdatedIsListed(tf: Output, calls: seq<GroupCall>, n: string) returns (j: nat)
    requires n in Keys(HostVarUpdates(tf, calls))
    ensures j < |calls| && n in Keys(InstanceEntries(tf, calls[j].instancesKey))
  {
    var m := |calls| - 1;
    var prefix := HostVarUpdates(tf, calls[..m]);
    var last := InstanceEntries(tf, calls[m].instancesKey);
    KeysAppend(prefix, HostVarEntries(last));
    HostVarEntriesFound(last);
    if n in Keys(last) {
      j := m;
    } else {
      j := UpdatedIsListed(tf, calls[..m], n);
      assert calls[..m][j] == calls[j];
    }
  }

  /** A name listed by one of the calls gets a host-vars assignment. */
  lemma {:induction false} ListedIsUpdated(tf: Output, calls: seq<GroupCall>, n: string, j: nat)
    requires j < |calls| && n in Keys(InstanceEntries(tf, calls[j].instancesKey))
    ensures n in Keys(HostVarUpdates(tf, calls))
  {
    var m := |calls| - 1;
    var prefix := HostVarUpdates(tf, calls[..m]);
    var last := InstanceEntries(tf, calls[m].instancesKey);
    KeysAppend(prefix, HostVarEntries(last));
    HostVarEntriesFound(last);
    if j < m {
      assert calls[..m][j] == calls[j];
      ListedIsUpdated(tf, calls[..m], n, j);
    }
  }

  /** A name gets a host-vars assignment exactly when some call lists it. */
  lemma HostVarUpdatesKeys(tf: Output, calls: seq<GroupCall>, n: string)
    ensures n in Keys(HostVarUpdates(tf, calls)) <==>
      exists j :: 0 <= j < |calls| && n in Keys(InstanceEntries(tf, calls[j].instancesKey))
  {
    if n in Keys(HostVarUpdates(tf, calls)) {
      var j := UpdatedIsListed(tf, calls, n);
    }
    forall j | 0 <= j < |calls| && n in Keys(InstanceEntries(tf, calls[j].instancesKey)) {
      ListedIsUpdated(tf, calls, n, j);
    }
  }

  /**
   * `_meta.hostvars` holds exactly the instances listed by some group, so
   * every listed host has host vars and no host vars belong to no group.
   */
  lemma HostVarsAreListedHosts(tf: Output, n: string)
    ensures n in ExpectedHostVars(tf) <==>
      exists j :: 0 <= j < |Calls| && n in Keys(InstanceEntries(tf, Calls[j].instancesKey))
  {
    HostVarUpdatesKeys(tf, Calls, n);
  }

  /** Every host a group lists has an entry in `_meta.hostvars`. */
  lemma ListedHostHasHostVars(tf: Output, j: nat, n: string)
    requires j < |Calls|
    requires n in Keys(InstanceEntries(tf, Calls[j].instancesKey))
    ensures n in ExpectedHostVars(tf)
  {
    HostVarUpdatesKeys(tf, Calls, n);
  }

  /** Within one group each instance name is listed once. */
  lemma GroupHostsDistinct(tf: Output, env: Option<string>, j: nat)
    requires WellShaped(tf)
    requires j < |Calls|
    ensures Distinct(ExpectedGroup(tf, env, Calls[j]).hosts)
  {
    assert CallShaped(tf, Calls[j]);
  }

  /** On any call sequence, the last call listing a name decides its host vars. */
  lemma {:induction false} LastWriteWinsIn(tf: Output, calls: seq<GroupCall>, n: string, j: nat)
    requires j < |calls|
    requires n in Keys(InstanceEntries(tf, calls[j].instancesKey))
    requires forall l :: j < l < |calls| ==> n !in Keys(InstanceEntries(tf, calls[l].instancesKey))
    ensures Get(HostVarUpdates(tf, calls), n)
         == Some(HostVarsFor(n, Get(InstanceEntries(tf, calls[j].instancesKey), n).value))
  {
    var m := |calls| - 1;
    var prefix := HostVarUpdates(tf, calls[..m]);
    var last := InstanceEntries(tf, calls[m].instancesKey);
    assert HostVarUpdates(tf, calls) == prefix + HostVarEntries(last);
    GetAfterEntries(prefix, last, n);
    if j == m {
      assert Get(HostVarUpdates(tf, calls), n) == Some(HostVarsFor(n, Get(last, n).value));
    } else {
      assert n !in Keys(last);
      assert Get(HostVarUpdates(tf, calls), n) == Get(prefix, n);
      assert calls[..m][j] == calls[j];
      forall l | j < l < m
        ensures n !in Keys(InstanceEntries(tf, calls[..m][l].instancesKey))
      {
        assert calls[..m][l] == calls[l];
      }
      LastWriteWinsIn(tf, calls[..m], n, j);
    }
  }

  /** A lookup after one more call's assignments: that call's value if it lists the name. */
  lemma GetAfterEntries(prefix: seq<(string, HostVars)>, entries: seq<(string, Json)>, n: string)
    ensures Get(prefix + HostVarEntries(entries), n)
         == if n in Keys(entries) then Some(HostVarsFor(n, Get(entries, n).value)) else Get(prefix, n)
  {
    HostVarEntriesFound(entries);
    GetAppend(prefix, HostVarEntries(entries), n);
  }

  /**
   * When a name is listed by several groups, its host vars are those written
   * by the last call that lists it.
   */
  lemma LastWriteWins(tf: Output, n: string, j: nat)
    requires j < |Calls|
    requires n in Keys(InstanceEntries(tf, Calls[j].instancesKey))
    requires forall l :: j < l < |Calls| ==> n !in Keys(InstanceEntries(tf, Calls[l].instancesKey))
    ensures n in ExpectedHostVars(tf)
    ensures ExpectedHostVars(tf)[n]
         == HostVarsFor(n, Get(InstanceEntries(tf, Calls[j].instancesKey), n).value)
  {
    LastWriteWinsIn(tf, Calls, n, j);
    KeysAppend(HostVarUpdates(tf, Calls), []);
    HostVarUpdatesKeys(tf, Calls, n);
  }

  /**
   * A group whose instances output is missing, null or an empty dict lists
   * no hosts and contributes no host vars.
   */
  lemma SkippedInstances(tf: Output, env: Option<string>, j: nat)
    requires j < |Calls|
    requires Value(tf, Calls[j].instancesKey) in {None, Some(JNull), Some(JObject([]))}
    ensures ExpectedGroup(tf, env, Calls[j]).hosts == []
    ensures HostVarEntries(InstanceEntries(tf, Calls[j].instancesKey)) == []
  {
  }

  /** A missing or null vars output leaves the group's defaults as they are. */
  lemma NullOverridesKeepDefaults(tf: Output, env: Option<string>, j: nat)
    requires j < |Calls|
    requires Value(tf, Calls[j].varsKey) in {None, Some(JNull)}
    ensures ExpectedGroup(tf, env, Calls[j]).vars == DefaultVars(IncusRemote(env))
  {
  }

  /**
   * One instance "web-1" at 10.0.0.5 under `forgejo_instances`: the forgejo
   * group lists it and its host vars carry the address.
   */
  lemma SingleForgejoInstance(env: Option<string>)
    ensures var tf := map["forgejo_instances" := JObject([("value", JObject([
                ("web-1", JObject([("ipv4_address", JString("10.0.0.5"))]))]))])];
      && ExpectedGroup(tf, env, Calls[2]).hosts == ["web-1"]
      && "web-1" in ExpectedHostVars(tf)
      && ExpectedHostVars(tf)["web-1"] == HostVars("web-1", JString("10.0.0.5"))
  {
    var tf := map["forgejo_instances" := JObject([("value", JObject([
                ("web-1", JObject([("ipv4_address", JString("10.0.0.5"))]))]))])];
    var attrs := JObject([("ipv4_address", JString("10.0.0.5"))]);
    var instances := [("web-1", attrs)];
    assert Calls[2].group == "forgejo" && Calls[2].instancesKey == "forgejo_instances";
    assert Get(tf["forgejo_instances"].fields, "value") == Some(JObject(instances));
    assert InstanceEntries(tf, "forgejo_instances") == instances;
    assert Keys(instances) == ["web-1"];
    assert Get(instances, "web-1") == Some(attrs);
    assert Get(attrs.fields, "ipv4_address") == Some(JString("10.0.0.5"));
    forall l | 2 < l < |Calls|
      ensures "web-1" !in Keys(InstanceEntries(tf, Calls[l].instancesKey))
    {
      assert Calls[l].instancesKey != "forgejo_instances";
    }
    LastWriteWins(tf, "web-1", 2);
  }
}
