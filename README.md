# Dynamic Ansible inventory from OpenTofu outputs — Dafny model

This project models the core of `ansible/inventory/terraform.py`: the
function `build_inventory`, its inner helper `add_instances_to_group`, and
`get_incus_remote`. Together they turn the parsed output of
`tofu output -json` into an Ansible dynamic-inventory document.

The document has three parts:

- `_meta.hostvars`: instance name to `{ansible_incus_host, ipv4_address}`.
- `all.children`: the fixed list of 13 service groups.
- One entry per service group: a `hosts` list and a `vars` map. The vars
  are seeded with the Incus connection settings and then merged with the
  group's `<x>_ansible_vars` output.

Files and modules:

- `wrappers.dfy` (`Wrappers`): `Option`, used for a missing key or an
  unset `ENV`.
- `dicts.dfy` (`Dicts`): Python dicts as ordered `(key, value)` lists, with
  lookup (`Get`; a later pair for the same key wins) and `dict.update`
  (`Update`). Their contracts state the lookup and merge semantics.
- `json.dfy` (`Json`): parsed JSON values, Python truthiness, and
  `dict.get` on an object.
- `terraform_inventory.dfy` (`TerraformInventory`): the inventory builder.

How the model is built:

- `build_inventory` and `add_instances_to_group` are methods with loops.
  They thread the inventory through as a value, because the source's
  `inventory` is a local dict that only the enclosing function mutates.
- Each method is proved against specification functions:
  - `RunCall` and `GroupsAfter`: what the calls do to the groups.
  - `HostVarUpdates` and `ExpectedHostVars`: what they write into
    `_meta.hostvars`.
  - `ExpectedGroup`: each group's final value.
- Lemmas prove the source's promises about those functions.
- The 13 explicit `add_instances_to_group(...)` calls (lines 125-189)
  become the table `Calls`, run in order by `RunCalls`.
  `CallsFollowServiceGroups` proves the table names the service groups of
  lines 68-82 in the same order. So every group a call writes to has been
  seeded.
- The environment name (`ENV`) is a parameter `env: Option<string>`;
  `None` means unset.
- The OpenTofu output is `map<string, Json>`, from output key to its
  wrapper object.
- Inputs that make Python raise are excluded by the precondition
  `WellShaped`:
  - a present key whose wrapper has no `"value"` (lines 106 and 120);
  - a truthy instances value that is not a dict of dicts;
  - a non-null vars value that is not a dict.

When `ENV` is unset, `get_incus_remote` falls back to `cluster01` (line 54).
So the default environment gets the remote `"cluster01"`, not an empty one.
Only other environments, such as the local `iapetus` one, get `""`
(lines 56-59).

## Model

| member | source | states |
|---|---|---|
| `Dicts.Get` | ansible/inventory/terraform.py:115 | A dict lookup finds a value exactly when the key is present, and the value found is one paired with that key. |
| `Dicts.GetAppend` | ansible/inventory/terraform.py:113-116 | Looking up a key after two runs of assignments finds the later run's value if it set the key, and the earlier run's value otherwise. |
| `Dicts.Update` | ansible/inventory/terraform.py:122 | `dict.update` is a right-biased merge. The result's keys are the union. Override keys take the override's value. The other keys keep their old value. |
| `Dicts.UpdateAppend` | ansible/inventory/terraform.py:109-116 | Applying a concatenation of assignments is the same as applying each part in turn. |
| `TerraformInventory.IncusRemote` | ansible/inventory/terraform.py:52-59 | The remote is `"cluster01"` exactly when `ENV` is unset or `"cluster01"`, and `""` otherwise. |
| `TerraformInventory.AddInstances` | ansible/inventory/terraform.py:105-116 | For a present, truthy instances output, appends its instance names to the hosts in dict order and applies one host-vars assignment per instance, in the same order. A missing or falsy output changes neither. |
| `TerraformInventory.AddInstancesToGroup` | ansible/inventory/terraform.py:104-122 | Changes only the named group and `_meta.hostvars`. The group's hosts gain its instance names in dict order. Its vars are updated with the overrides; a missing or null vars output leaves them unchanged. The hostvars receive the group's host-vars assignments. |
| `TerraformInventory.CallHostVars` | ansible/inventory/terraform.py:109-116 | After one call, every instance it lists maps to `{name, ipv4_address or ""}` of its own attributes, and every other hostvars entry keeps its value. |
| `TerraformInventory.RunCalls` | ansible/inventory/terraform.py:125-189 | Running the calls in order on the seeded groups yields `GroupsAfter`, and `HostVarUpdates` applied to an empty hostvars. |
| `TerraformInventory.BuildInventory` | ansible/inventory/terraform.py:62-191 | `all.children` is the 13 service groups, and those are exactly the group entries. Each group is `ExpectedGroup`, `_meta.hostvars` is `ExpectedHostVars`, every listed host has hostvars, and no group lists a host twice. |
| `TerraformInventory.SeededGroups` | ansible/inventory/terraform.py:94-101 | Before any call, exactly the service groups exist, each with `hosts == []` and vars `{ansible_connection: "community.general.incus", ansible_incus_remote: remote}`. |
| `TerraformInventory.CallsFollowServiceGroups` | ansible/inventory/terraform.py:68-82 | There are 13 calls, and call `j` writes to service group `j`. |
| `TerraformInventory.ServiceGroupsDistinct` | ansible/inventory/terraform.py:68-82 | No service group is listed twice. |
| `TerraformInventory.InventoryShape` | ansible/inventory/terraform.py:68-122 | After all calls, every group holds its own instances and merged vars, every listed host has hostvars, and hosts within a group are distinct. |
| `TerraformInventory.GroupsAfterCalls` | ansible/inventory/terraform.py:104-122 | After all calls, group `j` holds exactly its instances in dict order, with the defaults updated by its overrides. Other calls do not touch it. |
| `TerraformInventory.HostVarUpdatesKeys` | ansible/inventory/terraform.py:109-116 | For any sequence of calls, a name receives a host-vars assignment if and only if one of the calls lists it. |
| `TerraformInventory.HostVarsAreListedHosts` | ansible/inventory/terraform.py:109-116 | A name is a key of `_meta.hostvars` if and only if some group's instances output lists it. |
| `TerraformInventory.ListedHostHasHostVars` | ansible/inventory/terraform.py:111-116 | Every instance a group lists has a `_meta.hostvars` entry. |
| `TerraformInventory.GroupHostsDistinct` | ansible/inventory/terraform.py:109-111 | Within one group each instance name appears once. |
| `TerraformInventory.LastWriteWins` | ansible/inventory/terraform.py:113-116 | When several groups list a name, its hostvars come from the last call that lists it. |
| `TerraformInventory.SkippedInstances` | ansible/inventory/terraform.py:105-108 | A missing, null or empty instances output gives no hosts and no hostvars assignments. |
| `TerraformInventory.NullOverridesKeepDefaults` | ansible/inventory/terraform.py:119-122 | A missing or null vars output leaves the group's vars equal to the defaults. |
| `TerraformInventory.SingleForgejoInstance` | ansible/inventory/terraform.py:135-139 | One instance `web-1` at `10.0.0.5` under `forgejo_instances` gives `forgejo.hosts == ["web-1"]` and `hostvars["web-1"] == {web-1, 10.0.0.5}`. |

## Left out

- `get_env_dir` (lines 20-30): a filesystem existence check followed by a
  process exit. It is I/O with nothing to verify.
- `get_terraform_output` (lines 33-49): runs the `tofu` subprocess and
  parses its text with `json.loads`. The model starts from the parsed value.
- `main` (lines 194-207): argument dispatch, printing to standard output
  and exit codes. This includes `--host <name>` printing `{}`.
- Reads of `os.environ`: the environment name is a parameter instead. The
  unused local `env` at line 64 has no counterpart.
- JSON serialisation (`json.dumps`, `indent=2`) and the key order of the
  emitted objects. `hostvars`, the group table and each group's `vars` are
  Dafny maps. Hosts lists and instance iteration keep their order.
- Inputs on which Python raises are excluded by precondition, not modelled
  as errors:
  - a present output key without `"value"`;
  - a truthy instances value that is not a dict of dicts;
  - a non-null vars value that is not a dict.
- A vars value that `dict.update` accepts without being a dict, such as a
  list of pairs or an empty list, is excluded by the same precondition.
- JSON numbers are integers; fractional numbers are not modelled.
- The 13 explicit calls are modelled by running a table of calls in a loop.
  The model does not keep 13 separate call statements.
