# Ansible module decision logic, in Dafny

This project models the decision logic of eight Ansible modules from the Ansible 11.3.0 collections. In each module the vendor API, SDK or command-line calls are replaced by their answers, given as inputs. What is left is proved: how each module turns its parameters and the observed state into the calls it makes and the result it reports.

| Dafny module | file | models |
|---|---|---|
| `IbmSvcVolume` | `ibm_volume.dfy` | `ibm_svc_manage_volume`: unit conversion, I/O group assembly, the parameter validators, target volume selection, the probe of an existing volume, `update_volume` and `volume_rename` on a `VolumeModule` object |
| `GcpRegionAutoscaler` | `gcp_autoscaler.dfy` | `gcp_compute_region_autoscaler`: the field-mapping classes and their round trip, `resource_to_request`, `is_different`, `response_to_hash`, the URLs, `return_if_object` and the decision table of `main` |
| `MsoSchemaTemplateBd` | `mso_bd.dfy` | `mso_schema_template_bd`: the choice mapping, the JSON Patch operations (section 4 of RFC 6902) `main` builds, the route-map filter search and its error message, the `MSOModule` fields `main` updates |
| `FortiosReplacemsgMm7` | `fortios_mm7.dfy` | `fortios_system_replacemsg_mm7`: the whitelist filter, the underscore-to-hyphen rewrite, the special attribute rename, the success test and the result tuple, the request made outside check mode |
| `AzureServiceBus` | `azure_servicebus.dfy` | `azure_rm_servicebus`: `exec_module` on a `ServiceBus` object, with its merge and change detection, the immutable zone redundancy, create, delete and check mode; `is_valid_timedelta` |
| `GcpTargetPoolInfo` | `gcp_target_pool.dfy` | `gcp_compute_target_pool_info`: `query_options` and `return_if_object` |
| `PurefbSyslog` | `purefb_syslog.dfy` | `purefb_syslog`: the server URI, `update_syslog`, `delete_syslog`, `add_syslog` and the dispatch in `main` |
| `DladmVlan` | `dladm_vlan.dfy` | `dladm_vlan`: the VLAN id range (the 12-bit VID of clause 9.6 of IEEE 802.1Q), the `create-vlan` and `delete-vlan` command lines, and the outcome of `main` |
| `JsonValues` | `json_values.dfy` | Python values as the modules see them: JSON-like values, dicts as ordered member lists with Python's assignment, truthiness, `dict.get`, `==` |
| `PyInt` | `py_int.dfy` | Python's `int()` on a decimal string and `str()` of an int |
| `Common` | `common.dfy` | `Option`, string split, join, strip and lower |

Conventions:
- A string parameter whose `None` and `""` behave alike in the module is a `string` with `""` for `None`.
- An exception (`fail_json`, a `KeyError`, a `ValueError` of `int()`) is a value of the result: a `Failure` or `Exit` case, or `None`.
- Where the source loops or updates an object in place, the model is a method, proved against a function that specifies it.

## Model

| member | source | states |
|---|---|---|
| IbmSvcVolume.UnitIndex | ansible_offline/ansible-11.3.0-py3-none-any.whl_FILES/ansible_collections/ibm/storage_virtualize/plugins/modules/ibm_svc_manage_volume.py:640 | The unit's position in [b, kb, mb, gb, tb, pb]; the unit at that position is the unit itself. |
| IbmSvcVolume.ConvertToBytes | ansible_offline/ansible-11.3.0-py3-none-any.whl_FILES/ansible_collections/ibm/storage_virtualize/plugins/modules/ibm_svc_manage_volume.py:639-640 | The conversion succeeds exactly when `int(size)` does; a failure is the ValueError. |
| IbmSvcVolume.BytesAsGiven | ansible_offline/ansible-11.3.0-py3-none-any.whl_FILES/ansible_collections/ibm/storage_virtualize/plugins/modules/ibm_svc_manage_volume.py:640 | With unit b the byte count is the number itself. |
| IbmSvcVolume.UnitScale | ansible_offline/ansible-11.3.0-py3-none-any.whl_FILES/ansible_collections/ibm/storage_virtualize/plugins/modules/ibm_svc_manage_volume.py:640 | Between any two units the byte counts differ by 1024 to the distance between their positions, so each unit is 1024 of the one before it. |
| IbmSvcVolume.PositiveSize | ansible_offline/ansible-11.3.0-py3-none-any.whl_FILES/ansible_collections/ibm/storage_virtualize/plugins/modules/ibm_svc_manage_volume.py:640 | A positive size gives a positive byte count in every unit. |
| IbmSvcVolume.DistinctCard | ansible_offline/ansible-11.3.0-py3-none-any.whl_FILES/ansible_collections/ibm/storage_virtualize/plugins/modules/ibm_svc_manage_volume.py:413-414 | The set of a list is never larger than the list, and it is as large exactly when no name repeats: the duplicate test catches exactly the lists with a repeat. |
| IbmSvcVolume.StripNonEmpty | ansible_offline/ansible-11.3.0-py3-none-any.whl_FILES/ansible_collections/ibm/storage_virtualize/plugins/modules/ibm_svc_manage_volume.py:407 | Splitting and stripping keeps at most one name per piece, and every name it keeps is already stripped. |
| IbmSvcVolume.ActiveIogrps | ansible_offline/ansible-11.3.0-py3-none-any.whl_FILES/ansible_collections/ibm/storage_virtualize/plugins/modules/ibm_svc_manage_volume.py:408-410 | A name is active exactly when some group of that name has at least one node. |
| IbmSvcVolume.AllActive | ansible_offline/ansible-11.3.0-py3-none-any.whl_FILES/ansible_collections/ibm/storage_virtualize/plugins/modules/ibm_svc_manage_volume.py:415-421 | No invalid name is collected exactly when every requested name is active, and then the kept list is the whole request in its order. |
| IbmSvcVolume.PartitionIogrps | ansible_offline/ansible-11.3.0-py3-none-any.whl_FILES/ansible_collections/ibm/storage_virtualize/plugins/modules/ibm_svc_manage_volume.py:415-419 | The loop sends each name to the kept list when active and to the invalid list otherwise, in order. |
| IbmSvcVolume.VolumeModule.AssembleIogrp | ansible_offline/ansible-11.3.0-py3-none-any.whl_FILES/ansible_collections/ibm/storage_virtualize/plugins/modules/ibm_svc_manage_volume.py:401-421 | An empty parameter is accepted untouched; a repeated name fails; otherwise it fails exactly when some name is not active, naming the inactive ones in order, and on success iogrp becomes the requested names in the order given. Nothing else changes. |
| IbmSvcVolume.SetParamsEmpty | ansible_offline/ansible-11.3.0-py3-none-any.whl_FILES/ansible_collections/ibm/storage_virtualize/plugins/modules/ibm_svc_manage_volume.py:434-442 | No parameter is named exactly when none of the listed parameters is set. |
| IbmSvcVolume.SetParamsComplete | ansible_offline/ansible-11.3.0-py3-none-any.whl_FILES/ansible_collections/ibm/storage_virtualize/plugins/modules/ibm_svc_manage_volume.py:434-442 | Every set parameter is named, and the names keep the order of the list. |
| IbmSvcVolume.MandatoryFailure | ansible_offline/ansible-11.3.0-py3-none-any.whl_FILES/ansible_collections/ibm/storage_virtualize/plugins/modules/ibm_svc_manage_volume.py:424-429 | Validation passes exactly when a name is given and volumegroup is not combined with novolumegroup; a missing name is reported as such. |
| IbmSvcVolume.DeletionFailure | ansible_offline/ansible-11.3.0-py3-none-any.whl_FILES/ansible_collections/ibm/storage_virtualize/plugins/modules/ibm_svc_manage_volume.py:432-442 | Removal fails exactly when one of the fifteen listed parameters is set, and the message names exactly the set ones, in list order. |
| IbmSvcVolume.CreationFailure | ansible_offline/ansible-11.3.0-py3-none-any.whl_FILES/ansible_collections/ibm/storage_virtualize/plugins/modules/ibm_svc_manage_volume.py:445-468 | Creation is accepted exactly when no cloud snapshot setting and no old_name is given, type and fromsourcevolume come together, a pool is given, and a size is given for a plain volume and not for a clone; a missing-parameter failure names what is missing. |
| IbmSvcVolume.RenameFailure | ansible_offline/ansible-11.3.0-py3-none-any.whl_FILES/ansible_collections/ibm/storage_virtualize/plugins/modules/ibm_svc_manage_volume.py:471-490 | A rename without old_name fails; otherwise it fails exactly when one of the eleven listed parameters is set, naming those in list order. |
| IbmSvcVolume.VolumeTypeFailure | ansible_offline/ansible-11.3.0-py3-none-any.whl_FILES/ansible_collections/ibm/storage_virtualize/plugins/modules/ibm_svc_manage_volume.py:492-506 | A volume with several copies, or in an active-active relationship without allow_hs, is refused; nothing else is. |
| IbmSvcVolume.MissingVolumes | ansible_offline/ansible-11.3.0-py3-none-any.whl_FILES/ansible_collections/ibm/storage_virtualize/plugins/modules/ibm_svc_manage_volume.py:537-541 | A requested name is reported missing exactly when the listing does not have it. |
| IbmSvcVolume.ThinclonesExactly | ansible_offline/ansible-11.3.0-py3-none-any.whl_FILES/ansible_collections/ibm/storage_virtualize/plugins/modules/ibm_svc_manage_volume.py:543-548 | A name is a target exactly when it was requested and a listed volume of that name is a thinclone. |
| IbmSvcVolume.ListedNames | ansible_offline/ansible-11.3.0-py3-none-any.whl_FILES/ansible_collections/ibm/storage_virtualize/plugins/modules/ibm_svc_manage_volume.py:533-535 | The first loop collects the name of every listed volume, in listing order. |
| IbmSvcVolume.SelectThinclones | ansible_offline/ansible-11.3.0-py3-none-any.whl_FILES/ansible_collections/ibm/storage_virtualize/plugins/modules/ibm_svc_manage_volume.py:543-547 | The second loop collects exactly the requested thinclones, in listing order. |
| IbmSvcVolume.VolumeModule.GetAllTargetVolumes | ansible_offline/ansible-11.3.0-py3-none-any.whl_FILES/ansible_collections/ibm/storage_virtualize/plugins/modules/ibm_svc_manage_volume.py:513-551 | Check mode only sets changed and leaves the target string empty; otherwise the call fails exactly when a requested name is not listed, and on success the target string is the ':'-joined requested thinclones in listing order. |
| IbmSvcVolume.Minus | ansible_offline/ansible-11.3.0-py3-none-any.whl_FILES/ansible_collections/ibm/storage_virtualize/plugins/modules/ibm_svc_manage_volume.py:651-652 | A name is in the difference exactly when it is in the first list and not the second, and no name repeats. |
| IbmSvcVolume.SymmetricDifference | ansible_offline/ansible-11.3.0-py3-none-any.whl_FILES/ansible_collections/ibm/storage_virtualize/plugins/modules/ibm_svc_manage_volume.py:650 | The two differences are the set differences, and one of them is non-empty exactly when the sets differ. |
| IbmSvcVolume.IogrpDiff | ansible_offline/ansible-11.3.0-py3-none-any.whl_FILES/ansible_collections/ibm/storage_virtualize/plugins/modules/ibm_svc_manage_volume.py:646-659 | As written: an entry exactly when the sets differ; when there are groups to remove the entry holds only those, otherwise only the groups to add. |
| IbmSvcVolume.IogrpAddLost | ansible_offline/ansible-11.3.0-py3-none-any.whl_FILES/ansible_collections/ibm/storage_virtualize/plugins/modules/ibm_svc_manage_volume.py:653-659 | As written, requesting io0,io2 for a volume in io0,io1 yields only the removal of io1, so the volume never reaches the requested groups. |
| IbmSvcVolume.IogrpDiffBoth | ansible_offline/ansible-11.3.0-py3-none-any.whl_FILES/ansible_collections/ibm/storage_virtualize/plugins/modules/ibm_svc_manage_volume.py:646-659 | An entry exactly when the sets differ, holding both the groups to add and the groups to remove. |
| IbmSvcVolume.IogrpDiffBothReaches | ansible_offline/ansible-11.3.0-py3-none-any.whl_FILES/ansible_collections/ibm/storage_virtualize/plugins/modules/ibm_svc_manage_volume.py:646-659 | Adding and removing the groups of the entry leaves the volume with exactly the requested groups. |
| IbmSvcVolume.SizeDiff | ansible_offline/ansible-11.3.0-py3-none-any.whl_FILES/ansible_collections/ibm/storage_virtualize/plugins/modules/ibm_svc_manage_volume.py:661-672 | No size entry exactly when the sizes are equal; otherwise a positive amount, an expansion exactly when the request is larger. |
| IbmSvcVolume.SizeDiffReaches | ansible_offline/ansible-11.3.0-py3-none-any.whl_FILES/ansible_collections/ibm/storage_virtualize/plugins/modules/ibm_svc_manage_volume.py:661-672 | Expanding or shrinking by the amount found reaches the requested size. |
| IbmSvcVolume.ProbeSize | ansible_offline/ansible-11.3.0-py3-none-any.whl_FILES/ansible_collections/ibm/storage_virtualize/plugins/modules/ibm_svc_manage_volume.py:661-672 | In the probe, the size entry is there exactly when the requested bytes differ from the capacity, and resizing by it gives the requested bytes. |
| IbmSvcVolume.ProbeIogrp | ansible_offline/ansible-11.3.0-py3-none-any.whl_FILES/ansible_collections/ibm/storage_virtualize/plugins/modules/ibm_svc_manage_volume.py:646-659 | In the probe, with the corrected entry (IogrpDiffBoth) in place of the overwriting one the source writes, the iogrp entry is there exactly when the groups differ, and acting on it leaves the volume with the requested groups. |
| IbmSvcVolume.ProbeVolume | ansible_offline/ansible-11.3.0-py3-none-any.whl_FILES/ansible_collections/ibm/storage_virtualize/plugins/modules/ibm_svc_manage_volume.py:643-740 | The probe fills the change entries one test at a time and ends with exactly the entries of the specification of probe_volume, or with the ValueError of `int()`. |
| IbmSvcVolume.PresentKeys | ansible_offline/ansible-11.3.0-py3-none-any.whl_FILES/ansible_collections/ibm/storage_virtualize/plugins/modules/ibm_svc_manage_volume.py:821-825 | The loop collects exactly the refused keys that have an entry, in list order. |
| IbmSvcVolume.UpdateFailure | ansible_offline/ansible-11.3.0-py3-none-any.whl_FILES/ansible_collections/ibm/storage_virtualize/plugins/modules/ibm_svc_manage_volume.py:819-827 | An update is refused exactly when the change has a pool, thin, compressed, deduplicated or fromsourcevolume entry. |
| IbmSvcVolume.UpdateCommandsFor | ansible_offline/ansible-11.3.0-py3-none-any.whl_FILES/ansible_collections/ibm/storage_virtualize/plugins/modules/ibm_svc_manage_volume.py:833-861 | Every command acts on the named volume; no command is sent exactly when the change has nothing update_volume handles; an expansion or shrink is sent with its amount. |
| IbmSvcVolume.VolumeModule.constructor | ansible_offline/ansible-11.3.0-py3-none-any.whl_FILES/ansible_collections/ibm/storage_virtualize/plugins/modules/ibm_svc_manage_volume.py:329-399 | A fresh module holds the parameters, has not changed anything, has the iogrp text unparsed, an empty target string and no command sent. |
| IbmSvcVolume.VolumeModule.Send | ansible_offline/ansible-11.3.0-py3-none-any.whl_FILES/ansible_collections/ibm/storage_virtualize/plugins/modules/ibm_svc_manage_volume.py:743-797 | Each command-sending helper appends its command and sets changed. |
| IbmSvcVolume.VolumeModule.UpdateIogrp | ansible_offline/ansible-11.3.0-py3-none-any.whl_FILES/ansible_collections/ibm/storage_virtualize/plugins/modules/ibm_svc_manage_volume.py:833-838 | The add command and then the remove command of the entry are sent, and changed is set when one is. |
| IbmSvcVolume.VolumeModule.UpdateSize | ansible_offline/ansible-11.3.0-py3-none-any.whl_FILES/ansible_collections/ibm/storage_virtualize/plugins/modules/ibm_svc_manage_volume.py:840-844 | The expand or shrink command of the entry is sent, and changed is set when it is. |
| IbmSvcVolume.VolumeModule.UpdateVolume | ansible_offline/ansible-11.3.0-py3-none-any.whl_FILES/ansible_collections/ibm/storage_virtualize/plugins/modules/ibm_svc_manage_volume.py:819-861 | A refused change sends nothing and leaves changed alone; check mode only sets changed; otherwise the commands sent are exactly those of the change, and changed records whether any was sent. |
| IbmSvcVolume.Rename | ansible_offline/ansible-11.3.0-py3-none-any.whl_FILES/ansible_collections/ibm/storage_virtualize/plugins/modules/ibm_svc_manage_volume.py:864-882 | A failed validation or a failed case sends nothing; with valid parameters the rename fails exactly when both or neither volume exist; the rename command is sent exactly when only the old volume exists outside check mode, and then sets changed. |
| IbmSvcVolume.RenameConverges | ansible_offline/ansible-11.3.0-py3-none-any.whl_FILES/ansible_collections/ibm/storage_virtualize/plugins/modules/ibm_svc_manage_volume.py:864-882 | After the rename ran, a second run finds the new name only, sends nothing and reports the volume as already there. |
| IbmSvcVolume.VolumeModule.VolumeRename | ansible_offline/ansible-11.3.0-py3-none-any.whl_FILES/ansible_collections/ibm/storage_virtualize/plugins/modules/ibm_svc_manage_volume.py:864-882 | The method reports the message and failure of the rename specification, sends exactly its commands and sets changed as it says. |
| GcpRegionAutoscaler.ArrayItems | ansible_offline/ansible-11.3.0-py3-none-any.whl_FILES/ansible_collections/google/cloud/plugins/modules/gcp_compute_region_autoscaler.py:862-891 | The element class yields one converted item per input item, in order, and its list is the specification's conversion. |
| GcpRegionAutoscaler.BuildRoundTrip | ansible_offline/ansible-11.3.0-py3-none-any.whl_FILES/ansible_collections/google/cloud/plugins/modules/gcp_compute_region_autoscaler.py:758-910 | to_request on playbook names and from_response on the same values under API names give the same dict, for every class of the module, at every nesting level. |
| GcpRegionAutoscaler.ConvertRoundTrip | ansible_offline/ansible-11.3.0-py3-none-any.whl_FILES/ansible_collections/google/cloud/plugins/modules/gcp_compute_region_autoscaler.py:758-910 | The same round trip for one field's value: plain, nested object, or list of objects. |
| GcpRegionAutoscaler.TablesWellFormed | ansible_offline/ansible-11.3.0-py3-none-any.whl_FILES/ansible_collections/google/cloud/plugins/modules/gcp_compute_region_autoscaler.py:758-910 | No class of the module maps two fields to the same API name, at any depth. |
| GcpRegionAutoscaler.PolicyRoundTrip | ansible_offline/ansible-11.3.0-py3-none-any.whl_FILES/ansible_collections/google/cloud/plugins/modules/gcp_compute_region_autoscaler.py:766-800 | The round trip for the autoscaling policy itself. |
| GcpRegionAutoscaler.FilterDict | ansible_offline/ansible-11.3.0-py3-none-any.whl_FILES/ansible_collections/google/cloud/plugins/modules/gcp_compute_region_autoscaler.py:650-653 | The filtering loop produces the members of the dict that pass the filter, in order. |
| GcpRegionAutoscaler.FilteredLookup | ansible_offline/ansible-11.3.0-py3-none-any.whl_FILES/ansible_collections/google/cloud/plugins/modules/gcp_compute_region_autoscaler.py:650-653 | For a dict without repeated keys, a key keeps its entry after filtering exactly when its entry passes, and is absent otherwise. |
| GcpRegionAutoscaler.FilteredKeys | ansible_offline/ansible-11.3.0-py3-none-any.whl_FILES/ansible_collections/google/cloud/plugins/modules/gcp_compute_region_autoscaler.py:697-705 | A key survives the filter exactly when it was there and passed. |
| GcpRegionAutoscaler.ResourceToRequest | ansible_offline/ansible-11.3.0-py3-none-any.whl_FILES/ansible_collections/google/cloud/plugins/modules/gcp_compute_region_autoscaler.py:641-655 | The request is the request dict of the parameters filtered by "truthy or exactly False". |
| GcpRegionAutoscaler.RequestDictUnique | ansible_offline/ansible-11.3.0-py3-none-any.whl_FILES/ansible_collections/google/cloud/plugins/modules/gcp_compute_region_autoscaler.py:642-649 | The request dict has no repeated key. |
| GcpRegionAutoscaler.RequestKeeps | ansible_offline/ansible-11.3.0-py3-none-any.whl_FILES/ansible_collections/google/cloud/plugins/modules/gcp_compute_region_autoscaler.py:650-653 | A request key is present, with its value, exactly when its value is truthy or False; None, empty strings, 0 and empty containers are dropped. |
| GcpRegionAutoscaler.ReducedUnique | ansible_offline/ansible-11.3.0-py3-none-any.whl_FILES/ansible_collections/google/cloud/plugins/modules/gcp_compute_region_autoscaler.py:712-720 | The reduced response has no repeated key. |
| GcpRegionAutoscaler.IsDifferent | ansible_offline/ansible-11.3.0-py3-none-any.whl_FILES/ansible_collections/google/cloud/plugins/modules/gcp_compute_region_autoscaler.py:692-709 | The method gives the verdict of the specification: the comparison of the request restricted to the response's keys with the reduced response restricted to the request's keys. |
| GcpRegionAutoscaler.ComparedKeys | ansible_offline/ansible-11.3.0-py3-none-any.whl_FILES/ansible_collections/google/cloud/plugins/modules/gcp_compute_region_autoscaler.py:697-705 | Both compared dicts have exactly the keys that the request and the reduced response share. |
| GcpRegionAutoscaler.OutputOnlyNotRequested | ansible_offline/ansible-11.3.0-py3-none-any.whl_FILES/ansible_collections/google/cloud/plugins/modules/gcp_compute_region_autoscaler.py:642-649 | id and creationTimestamp are never request keys. |
| GcpRegionAutoscaler.RequestOnlyNotReduced | ansible_offline/ansible-11.3.0-py3-none-any.whl_FILES/ansible_collections/google/cloud/plugins/modules/gcp_compute_region_autoscaler.py:712-720 | kind and region are never keys of the reduced response. |
| GcpRegionAutoscaler.ComparisonLeavesOut | ansible_offline/ansible-11.3.0-py3-none-any.whl_FILES/ansible_collections/google/cloud/plugins/modules/gcp_compute_region_autoscaler.py:692-720 | The output-only id and creationTimestamp and the request-only kind and region never take part in the comparison. |
| GcpRegionAutoscaler.EchoedPolicy | ansible_offline/ansible-11.3.0-py3-none-any.whl_FILES/ansible_collections/google/cloud/plugins/modules/gcp_compute_region_autoscaler.py:712-720 | A fetched policy that carries the requested one under API names reads back as the requested policy. |
| GcpRegionAutoscaler.EchoIsNotDifferent | ansible_offline/ansible-11.3.0-py3-none-any.whl_FILES/ansible_collections/google/cloud/plugins/modules/gcp_compute_region_autoscaler.py:692-720 | A resource that already holds what the playbook asks for gives two compared dicts with the same entries. |
| GcpRegionAutoscaler.SelfLinkInCollection | ansible_offline/ansible-11.3.0-py3-none-any.whl_FILES/ansible_collections/google/cloud/plugins/modules/gcp_compute_region_autoscaler.py:663-668 | The autoscaler's URL is its collection's URL, a slash and its name. |
| GcpRegionAutoscaler.ParamsWin | ansible_offline/ansible-11.3.0-py3-none-any.whl_FILES/ansible_collections/google/cloud/plugins/modules/gcp_compute_region_autoscaler.py:723-729 | When extra_data and the parameters share a key the parameter wins; other keys of extra_data are kept. |
| GcpRegionAutoscaler.ParamsDictKeys | ansible_offline/ansible-11.3.0-py3-none-any.whl_FILES/ansible_collections/google/cloud/plugins/modules/gcp_compute_region_autoscaler.py:723-729 | The parameters have no repeated key and no op_id, so op_id comes from extra_data. |
| GcpRegionAutoscaler.ParamsLookup | ansible_offline/ansible-11.3.0-py3-none-any.whl_FILES/ansible_collections/google/cloud/plugins/modules/gcp_compute_region_autoscaler.py:723-729 | project and region are read from the parameters. |
| GcpRegionAutoscaler.PolledUrl | ansible_offline/ansible-11.3.0-py3-none-any.whl_FILES/ansible_collections/google/cloud/plugins/modules/gcp_compute_region_autoscaler.py:741-743 | The URL polled for an operation is the operations URL of the project and region, ending in the operation's name. |
| GcpRegionAutoscaler.ReturnIfObject | ansible_offline/ansible-11.3.0-py3-none-any.whl_FILES/ansible_collections/google/cloud/plugins/modules/gcp_compute_region_autoscaler.py:671-689 | No object exactly for 204, or 404 when a missing resource is allowed; otherwise a failing `raise_for_status` fails with its message before the body is read, a body that is not JSON fails with the raw response text, one that carries a truthy error.errors fails with it, and any other body is the result. |
| GcpRegionAutoscaler.ReturnIfObjectAllowing | ansible_offline/ansible-11.3.0-py3-none-any.whl_FILES/ansible_collections/google/cloud/plugins/modules/gcp_compute_region_autoscaler.py:671-689 | With a missing resource allowed this is the target pool info module's reading for every JSON body; for a body that is not JSON the two agree only when the raw text equals the decoder's message, since this module reports the text and the other the decoder's message. |
| GcpRegionAutoscaler.Reply | ansible_offline/ansible-11.3.0-py3-none-any.whl_FILES/ansible_collections/google/cloud/plugins/modules/gcp_compute_region_autoscaler.py:621-623 | The result is the fetched dict with changed assigned; every other key is kept. |
| GcpRegionAutoscaler.Execute | ansible_offline/ansible-11.3.0-py3-none-any.whl_FILES/ansible_collections/google/cloud/plugins/modules/gcp_compute_region_autoscaler.py:595-623 | At most one create, update or delete is sent, and a result always carries changed, true exactly when one was sent. |
| GcpRegionAutoscaler.DecisionTable | ansible_offline/ansible-11.3.0-py3-none-any.whl_FILES/ansible_collections/google/cloud/plugins/modules/gcp_compute_region_autoscaler.py:601-619 | Exists and present: update exactly when is_different, changed exactly then; exists and absent: delete, changed, result {changed}; missing and present: create; missing and absent: nothing, not changed. |
| GcpRegionAutoscaler.RunModule | ansible_offline/ansible-11.3.0-py3-none-any.whl_FILES/ansible_collections/google/cloud/plugins/modules/gcp_compute_region_autoscaler.py:595-623 | The method makes the calls of the decision table and exits as it says. |
| GcpTargetPoolInfo.Bracket | ansible_offline/ansible-11.3.0-py3-none-any.whl_FILES/ansible_collections/google/cloud/plugins/modules/gcp_compute_target_pool_info.py:255-258 | A filter is wrapped in parentheses exactly when it neither starts with "(" nor ends with ")"; otherwise it is kept. |
| GcpTargetPoolInfo.Bracketed | ansible_offline/ansible-11.3.0-py3-none-any.whl_FILES/ansible_collections/google/cloud/plugins/modules/gcp_compute_target_pool_info.py:253-258 | One piece per filter, in order, each bracketed. |
| GcpTargetPoolInfo.BracketShape | ansible_offline/ansible-11.3.0-py3-none-any.whl_FILES/ansible_collections/google/cloud/plugins/modules/gcp_compute_target_pool_info.py:255-258 | Every piece starts with "(" or ends with ")". |
| GcpTargetPoolInfo.BracketIdempotent | ansible_offline/ansible-11.3.0-py3-none-any.whl_FILES/ansible_collections/google/cloud/plugins/modules/gcp_compute_target_pool_info.py:255-258 | Bracketing a piece again changes nothing. |
| GcpTargetPoolInfo.QueryOptions | ansible_offline/ansible-11.3.0-py3-none-any.whl_FILES/ansible_collections/google/cloud/plugins/modules/gcp_compute_target_pool_info.py:245-260 | No filters give "", one filter is returned as it is; several fail exactly when one is empty and otherwise give the bracketed pieces joined by single spaces. |
| GcpTargetPoolInfo.ReturnIfObject | ansible_offline/ansible-11.3.0-py3-none-any.whl_FILES/ansible_collections/google/cloud/plugins/modules/gcp_compute_target_pool_info.py:263-281 | 404 and 204 give nothing before any parsing; otherwise a failing `raise_for_status` fails with its message before the body is read, a body that is not JSON fails with the decoder's message, one that carries a truthy error.errors fails with it, and any other body is the result. |
| MsoSchemaTemplateBd.MissingRequired | ansible_offline/ansible-11.3.0-py3-none-any.whl_FILES/ansible_collections/cisco/mso/plugins/modules/mso_schema_template_bd.py:442-445 | Nothing is missing exactly when absent has a bd and present has a bd and a vrf. |
| MsoSchemaTemplateBd.MulticastAction | ansible_offline/ansible-11.3.0-py3-none-any.whl_FILES/ansible_collections/cisco/mso/plugins/modules/mso_schema_template_bd.py:477-480 | Only "optimized_flooding" changes, and it becomes "opt-flood". |
| MsoSchemaTemplateBd.DestinationAction | ansible_offline/ansible-11.3.0-py3-none-any.whl_FILES/ansible_collections/cisco/mso/plugins/modules/mso_schema_template_bd.py:481-482 | Only "flood_in_bd" changes, and it becomes "bd-flood". |
| MsoSchemaTemplateBd.ChoicesStayDistinct | ansible_offline/ansible-11.3.0-py3-none-any.whl_FILES/ansible_collections/cisco/mso/plugins/modules/mso_schema_template_bd.py:477-482 | Distinct choices stay distinct after the mapping, and mapping twice is mapping once. |
| MsoSchemaTemplateBd.ArpFlooding | ansible_offline/ansible-11.3.0-py3-none-any.whl_FILES/ansible_collections/cisco/mso/plugins/modules/mso_schema_template_bd.py:484-485 | Flooding unknown unicast forces ARP flooding on; otherwise ARP flooding is as given. |
| MsoSchemaTemplateBd.RemoveSpaces | ansible_offline/ansible-11.3.0-py3-none-any.whl_FILES/ansible_collections/cisco/mso/plugins/modules/mso_schema_template_bd.py:449 | The result has no space and is no longer than the input. |
| MsoSchemaTemplateBd.RemoveSpacesKeeps | ansible_offline/ansible-11.3.0-py3-none-any.whl_FILES/ansible_collections/cisco/mso/plugins/modules/mso_schema_template_bd.py:449 | Every other character is kept, as often as it occurred. |
| MsoSchemaTemplateBd.RemoveSpacesNoSpace | ansible_offline/ansible-11.3.0-py3-none-any.whl_FILES/ansible_collections/cisco/mso/plugins/modules/mso_schema_template_bd.py:449 | A name without spaces is left as it is, so removal is idempotent. |
| MsoSchemaTemplateBd.NormalizedVrfEntries | ansible_offline/ansible-11.3.0-py3-none-any.whl_FILES/ansible_collections/cisco/mso/plugins/modules/mso_schema_template_bd.py:459-460 | The vrf's template loses its spaces and every other entry of the reference stays as given. |
| MsoSchemaTemplateBd.Settle | ansible_offline/ansible-11.3.0-py3-none-any.whl_FILES/ansible_collections/cisco/mso/plugins/modules/mso_schema_template_bd.py:448-485 | The head of main gives the settled template, vrf and flooding values of the specification. |
| MsoSchemaTemplateBd.IndexOf | ansible_offline/ansible-11.3.0-py3-none-any.whl_FILES/ansible_collections/cisco/mso/plugins/modules/mso_schema_template_bd.py:494-500 | `list.index` gives the first position holding the value. |
| MsoSchemaTemplateBd.Existing | ansible_offline/ansible-11.3.0-py3-none-any.whl_FILES/ansible_collections/cisco/mso/plugins/modules/mso_schema_template_bd.py:497-501 | The existing BD is non-empty exactly when the template has a BD of that name, and then it carries that name. |
| MsoSchemaTemplateBd.SameTenant | ansible_offline/ansible-11.3.0-py3-none-any.whl_FILES/ansible_collections/cisco/mso/plugins/modules/mso_schema_template_bd.py:642-644 | Exactly the tenant templates of the schema template's tenant, in order. |
| MsoSchemaTemplateBd.FilterError | ansible_offline/ansible-11.3.0-py3-none-any.whl_FILES/ansible_collections/cisco/mso/plugins/modules/mso_schema_template_bd.py:658-668 | The message is empty exactly when every wanted filter was resolved; otherwise the missing source, then the missing destination, on separate lines. |
| MsoSchemaTemplateBd.ScanTemplate | ansible_offline/ansible-11.3.0-py3-none-any.whl_FILES/ansible_collections/cisco/mso/plugins/modules/mso_schema_template_bd.py:648-654 | The inner loop with its break gives the uuids of the policy scan specification. |
| MsoSchemaTemplateBd.MissingFilters | ansible_offline/ansible-11.3.0-py3-none-any.whl_FILES/ansible_collections/cisco/mso/plugins/modules/mso_schema_template_bd.py:658-668 | The tail of the search builds exactly the error message of the specification. |
| MsoSchemaTemplateBd.RouteMapFilterUuids | ansible_offline/ansible-11.3.0-py3-none-any.whl_FILES/ansible_collections/cisco/mso/plugins/modules/mso_schema_template_bd.py:637-670 | The nested loops with both breaks give the uuids of the scan over the tenant's templates, and the error message for them. |
| MsoSchemaTemplateBd.ScanPoliciesAppend | ansible_offline/ansible-11.3.0-py3-none-any.whl_FILES/ansible_collections/cisco/mso/plugins/modules/mso_schema_template_bd.py:647-656 | Scanning two runs of policies scans the second only when the first did not finish the search. |
| MsoSchemaTemplateBd.ScanTemplatesFlat | ansible_offline/ansible-11.3.0-py3-none-any.whl_FILES/ansible_collections/cisco/mso/plugins/modules/mso_schema_template_bd.py:647-656 | The two nested loops search the policies of all templates as one run. |
| MsoSchemaTemplateBd.ScanSound | ansible_offline/ansible-11.3.0-py3-none-any.whl_FILES/ansible_collections/cisco/mso/plugins/modules/mso_schema_template_bd.py:649-652 | Every uuid found belongs to a policy named like its filter. |
| MsoSchemaTemplateBd.ScanComplete | ansible_offline/ansible-11.3.0-py3-none-any.whl_FILES/ansible_collections/cisco/mso/plugins/modules/mso_schema_template_bd.py:647-656 | With unique policy names a wanted filter naming a policy gets exactly that policy's uuid. |
| MsoSchemaTemplateBd.FilterErrorIffUnresolved | ansible_offline/ansible-11.3.0-py3-none-any.whl_FILES/ansible_collections/cisco/mso/plugins/modules/mso_schema_template_bd.py:637-668 | The search fails exactly when a wanted filter names no policy with a uuid among the tenant's templates. |
| MsoSchemaTemplateBd.ReplaceOrderCovers | ansible_offline/ansible-11.3.0-py3-none-any.whl_FILES/ansible_collections/cisco/mso/plugins/modules/mso_schema_template_bd.py:583-616 | Each of the eighteen attributes is tested, once. |
| MsoSchemaTemplateBd.Sent | ansible_offline/ansible-11.3.0-py3-none-any.whl_FILES/ansible_collections/cisco/mso/plugins/modules/mso_schema_template_bd.py:539-575 | The payload's value of an attribute is its local, except dhcpLabels and description, which enter only when truthy. |
| MsoSchemaTemplateBd.Compared | ansible_offline/ansible-11.3.0-py3-none-any.whl_FILES/ansible_collections/cisco/mso/plugins/modules/mso_schema_template_bd.py:583-619 | vrfRef is always compared; every other attribute only when its local is not None, against that local. |
| MsoSchemaTemplateBd.BdPath | ansible_offline/ansible-11.3.0-py3-none-any.whl_FILES/ansible_collections/cisco/mso/plugins/modules/mso_schema_template_bd.py:517-518 | A BD's path is the template's BD path, a slash and the BD name. |
| MsoSchemaTemplateBd.ReplaceChanged | ansible_offline/ansible-11.3.0-py3-none-any.whl_FILES/ansible_collections/cisco/mso/plugins/modules/mso_schema_template_bd.py:583-619 | The run of tests appends exactly the replace operations of the specification, in test order. |
| MsoSchemaTemplateBd.ReplaceOpsSound | ansible_offline/ansible-11.3.0-py3-none-any.whl_FILES/ansible_collections/cisco/mso/plugins/modules/mso_schema_template_bd.py:583-619 | Every operation replaces a tested attribute that changed, under the BD's path, with its payload value. |
| MsoSchemaTemplateBd.ReplaceOpsPaths | ansible_offline/ansible-11.3.0-py3-none-any.whl_FILES/ansible_collections/cisco/mso/plugins/modules/mso_schema_template_bd.py:583-619 | Every operation is a replace below the BD's path. |
| MsoSchemaTemplateBd.ReplaceOpsComplete | ansible_offline/ansible-11.3.0-py3-none-any.whl_FILES/ansible_collections/cisco/mso/plugins/modules/mso_schema_template_bd.py:583-619 | Every changed attribute gets its operation, at the position given by the changed attributes tested before it. |
| MsoSchemaTemplateBd.ReplaceOpsOrdered | ansible_offline/ansible-11.3.0-py3-none-any.whl_FILES/ansible_collections/cisco/mso/plugins/modules/mso_schema_template_bd.py:583-619 | Operations keep the order of the tests. |
| MsoSchemaTemplateBd.ReplaceOpsNone | ansible_offline/ansible-11.3.0-py3-none-any.whl_FILES/ansible_collections/cisco/mso/plugins/modules/mso_schema_template_bd.py:583-619 | No operation at all exactly when no tested attribute changed. |
| MsoSchemaTemplateBd.NothingToReplace | ansible_offline/ansible-11.3.0-py3-none-any.whl_FILES/ansible_collections/cisco/mso/plugins/modules/mso_schema_template_bd.py:583-619 | A BD that already holds every tested value needs no operation: a second run after the patch changes nothing. |
| MsoSchemaTemplateBd.PresentLocals | ansible_offline/ansible-11.3.0-py3-none-any.whl_FILES/ansible_collections/cisco/mso/plugins/modules/mso_schema_template_bd.py:528-536 | For a missing BD display_name defaults to the BD name and subnets to []; otherwise they are as given; vrfRef is the helper's reference. |
| MsoSchemaTemplateBd.CleanedLookup | ansible_offline/ansible-11.3.0-py3-none-any.whl_FILES/ansible_collections/cisco/mso/plugins/modules/mso_schema_template_bd.py:626-629 | Tidying removes bdRef, converts vrfRef and keeps every other entry. |
| MsoSchemaTemplateBd.AllBds | ansible_offline/ansible-11.3.0-py3-none-any.whl_FILES/ansible_collections/cisco/mso/plugins/modules/mso_schema_template_bd.py:504-505 | A query of all BDs reports each BD of the template, in order. |
| MsoSchemaTemplateBd.EmptyDictEqual | ansible_offline/ansible-11.3.0-py3-none-any.whl_FILES/ansible_collections/cisco/mso/plugins/modules/mso_schema_template_bd.py:631 | Comparing with the empty dict holds only for the empty dict. |
| MsoSchemaTemplateBd.ChangeApplies | ansible_offline/ansible-11.3.0-py3-none-any.whl_FILES/ansible_collections/cisco/mso/plugins/modules/mso_schema_template_bd.py:488-632 | A run that passes the early failures applies the absent or present branch to the BD found in the named template with the filter the search produced; a run that fails sends nothing. |
| MsoSchemaTemplateBd.ChangeExits | ansible_offline/ansible-11.3.0-py3-none-any.whl_FILES/ansible_collections/cisco/mso/plugins/modules/mso_schema_template_bd.py:510-632 | A change either fails before any operation or is the applied branch. |
| MsoSchemaTemplateBd.AbsentRemovesBd | ansible_offline/ansible-11.3.0-py3-none-any.whl_FILES/ansible_collections/cisco/mso/plugins/modules/mso_schema_template_bd.py:521-632 | State absent gives one remove at /templates/{template}/bds/{bd} when the BD exists and no operation otherwise; the request goes out exactly when the BD existed and check mode is off. |
| MsoSchemaTemplateBd.PresentOps | ansible_offline/ansible-11.3.0-py3-none-any.whl_FILES/ansible_collections/cisco/mso/plugins/modules/mso_schema_template_bd.py:527-622 | A missing BD gets one add at the BDs path with "/-" carrying what sanitize sends; for an existing BD every operation is a replace of one of its attributes. |
| MsoSchemaTemplateBd.FiltersNeedLayer3Multicast | ansible_offline/ansible-11.3.0-py3-none-any.whl_FILES/ansible_collections/cisco/mso/plugins/modules/mso_schema_template_bd.py:510-512 | Route-map filters without layer3_multicast make a change fail. |
| MsoSchemaTemplateBd.QueryReports | ansible_offline/ansible-11.3.0-py3-none-any.whl_FILES/ansible_collections/cisco/mso/plugins/modules/mso_schema_template_bd.py:503-508 | A query sends nothing; without a BD it reports all BDs, otherwise the named BD, failing exactly when there is none. |
| MsoSchemaTemplateBd.CheckModeSendsNothing | ansible_offline/ansible-11.3.0-py3-none-any.whl_FILES/ansible_collections/cisco/mso/plugins/modules/mso_schema_template_bd.py:631-632 | In check mode no request is sent. |
| MsoSchemaTemplateBd.MsoModule.constructor | ansible_offline/ansible-11.3.0-py3-none-any.whl_FILES/ansible_collections/cisco/mso/plugins/modules/mso_schema_template_bd.py:474 | A fresh module object starts with empty existing, previous, sent and proposed. |
| MsoSchemaTemplateBd.MsoModule.ForgetReferences | ansible_offline/ansible-11.3.0-py3-none-any.whl_FILES/ansible_collections/cisco/mso/plugins/modules/mso_schema_template_bd.py:626-629 | previous loses bdRef and has vrfRef converted; the other fields are unchanged. |
| MsoSchemaTemplateBd.MsoModule.Apply | ansible_offline/ansible-11.3.0-py3-none-any.whl_FILES/ansible_collections/cisco/mso/plugins/modules/mso_schema_template_bd.py:521-632 | The branches on the module object produce the operations, the request and the new state of the applied specification. |
| MsoSchemaTemplateBd.RunModule | ansible_offline/ansible-11.3.0-py3-none-any.whl_FILES/ansible_collections/cisco/mso/plugins/modules/mso_schema_template_bd.py:411-634 | main on a fresh module object makes exactly the run of the specification. |
| MsoSchemaTemplateBd.ChangeModule | ansible_offline/ansible-11.3.0-py3-none-any.whl_FILES/ansible_collections/cisco/mso/plugins/modules/mso_schema_template_bd.py:510-634 | The route-map check and search, then the change, as the specification of a change says. |
| FortiosReplacemsgMm7.FilterData | ansible_offline/ansible-11.3.0-py3-none-any.whl_FILES/ansible_collections/fortinet/fortios/plugins/modules/fortios_system_replacemsg_mm7.py:336-363 | The filter yields the whitelist of the option list over the cleaned input. |
| FortiosReplacemsgMm7.CopyOptions | ansible_offline/ansible-11.3.0-py3-none-any.whl_FILES/ansible_collections/fortinet/fortios/plugins/modules/fortios_system_replacemsg_mm7.py:357-363 | The loop copies exactly the whitelist of the option list, in list order. |
| FortiosReplacemsgMm7.SelectedFacts | ansible_offline/ansible-11.3.0-py3-none-any.whl_FILES/ansible_collections/fortinet/fortios/plugins/modules/fortios_system_replacemsg_mm7.py:359-361 | Every assignment is a listed option with the input's non-None value, and every listed option with a non-None value is assigned. |
| FortiosReplacemsgMm7.WhitelistEntries | ansible_offline/ansible-11.3.0-py3-none-any.whl_FILES/ansible_collections/fortinet/fortios/plugins/modules/fortios_system_replacemsg_mm7.py:357-363 | Every entry of the filtered dict is a listed option with the input's non-None value. |
| FortiosReplacemsgMm7.SelectedAt | ansible_offline/ansible-11.3.0-py3-none-any.whl_FILES/ansible_collections/fortinet/fortios/plugins/modules/fortios_system_replacemsg_mm7.py:357-363 | Each entry the comprehension keeps is a listed option whose non-None value is the input's value for that key. |
| FortiosReplacemsgMm7.WhitelistLookup | ansible_offline/ansible-11.3.0-py3-none-any.whl_FILES/ansible_collections/fortinet/fortios/plugins/modules/fortios_system_replacemsg_mm7.py:359-361 | A listed option is in the filtered dict, with the input's value, exactly when the input has it with a non-None value. |
| FortiosReplacemsgMm7.WhitelistFacts | ansible_offline/ansible-11.3.0-py3-none-any.whl_FILES/ansible_collections/fortinet/fortios/plugins/modules/fortios_system_replacemsg_mm7.py:336-363 | The filtered dict holds only listed options, no None value, every listed non-None option unchanged, and no key twice. |
| FortiosReplacemsgMm7.Hyphenate | ansible_offline/ansible-11.3.0-py3-none-any.whl_FILES/ansible_collections/fortinet/fortios/plugins/modules/fortios_system_replacemsg_mm7.py:375 | A key keeps its length, every underscore becomes a hyphen and nothing else changes. |
| FortiosReplacemsgMm7.UnderscoreToHyphen | ansible_offline/ansible-11.3.0-py3-none-any.whl_FILES/ansible_collections/fortinet/fortios/plugins/modules/fortios_system_replacemsg_mm7.py:366-378 | Values other than lists and dicts come back as they are; lists keep their length; dicts stay dicts. |
| FortiosReplacemsgMm7.HyphenMembers | ansible_offline/ansible-11.3.0-py3-none-any.whl_FILES/ansible_collections/fortinet/fortios/plugins/modules/fortios_system_replacemsg_mm7.py:373-375 | One rewritten member per member, in order, with its key hyphenated and its value rewritten. |
| FortiosReplacemsgMm7.HyphenClean | ansible_offline/ansible-11.3.0-py3-none-any.whl_FILES/ansible_collections/fortinet/fortios/plugins/modules/fortios_system_replacemsg_mm7.py:366-378 | No key at any depth contains an underscore, and every dict built has distinct keys. |
| FortiosReplacemsgMm7.HyphenFixed | ansible_offline/ansible-11.3.0-py3-none-any.whl_FILES/ansible_collections/fortinet/fortios/plugins/modules/fortios_system_replacemsg_mm7.py:366-378 | A value whose keys are already hyphenated and distinct is left as it is. |
| FortiosReplacemsgMm7.UnderscoreToHyphenIdempotent | ansible_offline/ansible-11.3.0-py3-none-any.whl_FILES/ansible_collections/fortinet/fortios/plugins/modules/fortios_system_replacemsg_mm7.py:366-378 | Rewriting twice is the same as rewriting once. |
| FortiosReplacemsgMm7.RenameKey | ansible_offline/ansible-11.3.0-py3-none-any.whl_FILES/ansible_collections/fortinet/fortios/plugins/modules/fortios_system_replacemsg_mm7.py:381-388 | Exactly "fos_message" becomes "message"; every other key is kept. |
| FortiosReplacemsgMm7.RenameValue | ansible_offline/ansible-11.3.0-py3-none-any.whl_FILES/ansible_collections/fortinet/fortios/plugins/modules/fortios_system_replacemsg_mm7.py:381-388 | Exactly the string "fos_message" becomes "message"; every other value is kept. |
| FortiosReplacemsgMm7.RenameMembers | ansible_offline/ansible-11.3.0-py3-none-any.whl_FILES/ansible_collections/fortinet/fortios/plugins/modules/fortios_system_replacemsg_mm7.py:398-401 | One renamed member per member, in order. |
| FortiosReplacemsgMm7.RenameAttrsClean | ansible_offline/ansible-11.3.0-py3-none-any.whl_FILES/ansible_collections/fortinet/fortios/plugins/modules/fortios_system_replacemsg_mm7.py:391-404 | After the rename no dict at any depth has a "fos_message" key and the value itself is not the string "fos_message". |
| FortiosReplacemsgMm7.IsSuccessfulStatus | ansible_offline/ansible-11.3.0-py3-none-any.whl_FILES/ansible_collections/fortinet/fortios/plugins/modules/fortios_system_replacemsg_mm7.py:516-525 | Success exactly when status is "success", http_status is 200, or a DELETE came back with 404; a DELETE reply without http_status raises. |
| FortiosReplacemsgMm7.ReportReply | ansible_offline/ansible-11.3.0-py3-none-any.whl_FILES/ansible_collections/fortinet/fortios/plugins/modules/fortios_system_replacemsg_mm7.py:534-541 | is_error is the negated success; changed holds exactly when the reply succeeded and its revision_changed is missing or true; the reply is the meta and the diff is empty. |
| FortiosReplacemsgMm7.Mm7Request | ansible_offline/ansible-11.3.0-py3-none-any.whl_FILES/ansible_collections/fortinet/fortios/plugins/modules/fortios_system_replacemsg_mm7.py:505-533 | A missing task body fails; "present" sets the converted record; any state other than present or absent fails. |
| FortiosReplacemsgMm7.DeleteKeyIsMsgType | ansible_offline/ansible-11.3.0-py3-none-any.whl_FILES/ansible_collections/fortinet/fortios/plugins/modules/fortios_system_replacemsg_mm7.py:508-511 | With state absent the delete key is the whitelisted msg_type after the rename and hyphen steps; without a msg_type the lookup raises. |
| FortiosReplacemsgMm7.DeleteKeyOfString | ansible_offline/ansible-11.3.0-py3-none-any.whl_FILES/ansible_collections/fortinet/fortios/plugins/modules/fortios_system_replacemsg_mm7.py:508-511 | For a string msg_type the delete key is that string after the special-attribute rename. |
| FortiosReplacemsgMm7.ConvertedMsgType | ansible_offline/ansible-11.3.0-py3-none-any.whl_FILES/ansible_collections/fortinet/fortios/plugins/modules/fortios_system_replacemsg_mm7.py:414-415 | The "msg-type" entry of the converted dict is the input's msg_type, renamed and hyphenated. |
| AzureServiceBus.MergeField | ansible_offline/ansible-11.3.0-py3-none-any.whl_FILES/ansible_collections/azure/azcollection/plugins/modules/azure_rm_servicebus.py:210-221 | A given value that differs from the existing one is a change and is kept; otherwise the existing value is taken. |
| AzureServiceBus.MergeTruth | ansible_offline/ansible-11.3.0-py3-none-any.whl_FILES/ansible_collections/azure/azcollection/plugins/modules/azure_rm_servicebus.py:222-230 | A given flag whose truth differs from the existing one is a change; otherwise the existing value is taken. |
| AzureServiceBus.ExistingPlan | ansible_offline/ansible-11.3.0-py3-none-any.whl_FILES/ansible_collections/azure/azcollection/plugins/modules/azure_rm_servicebus.py:203-230 | A zone redundancy flip is the immutable clash; changed is a tag or identity update or any merged change; the settings sent keep the existing zone redundancy and take the requested identity and, when updated, the new tags. |
| AzureServiceBus.PlanSettingsFrom | ansible_offline/ansible-11.3.0-py3-none-any.whl_FILES/ansible_collections/azure/azcollection/plugins/modules/azure_rm_servicebus.py:210-230 | Each setting sent is the requested or the existing one, and the existing one when the request leaves it unset. |
| AzureServiceBus.PlanSettles | ansible_offline/ansible-11.3.0-py3-none-any.whl_FILES/ansible_collections/azure/azcollection/plugins/modules/azure_rm_servicebus.py:203-230 | Comparing the same request against the namespace the update wrote finds nothing to change and no clash. |
| AzureServiceBus.Returned | ansible_offline/ansible-11.3.0-py3-none-any.whl_FILES/ansible_collections/azure/azcollection/plugins/modules/azure_rm_servicebus.py:245-248 | The returned dict has changed set as decided, and every other key from the base. |
| AzureServiceBus.NameCheckedFirst | ansible_offline/ansible-11.3.0-py3-none-any.whl_FILES/ansible_collections/azure/azcollection/plugins/modules/azure_rm_servicebus.py:189-192 | A missing namespace has its name checked before anything else, and a taken name ends the run with nothing else called. |
| AzureServiceBus.CheckModeOnlyReports | ansible_offline/ansible-11.3.0-py3-none-any.whl_FILES/ansible_collections/azure/azcollection/plugins/modules/azure_rm_servicebus.py:200-243 | Check mode creates and deletes nothing and reports a change exactly for state present or an existing namespace. |
| AzureServiceBus.PresentCreatesWhenNeeded | ansible_offline/ansible-11.3.0-py3-none-any.whl_FILES/ansible_collections/azure/azcollection/plugins/modules/azure_rm_servicebus.py:200-235 | Outside check mode, state present creates a missing namespace; for an existing one a zone redundancy flip fails without any call, and otherwise create_or_update is called exactly when the comparison finds a change. |
| AzureServiceBus.AbsentDeletesExisting | ansible_offline/ansible-11.3.0-py3-none-any.whl_FILES/ansible_collections/azure/azcollection/plugins/modules/azure_rm_servicebus.py:236-248 | Delete is called exactly for state absent, outside check mode, on an existing namespace; a successful delete records deleted, and changed is always in the result. |
| AzureServiceBus.UpdateSettles | ansible_offline/ansible-11.3.0-py3-none-any.whl_FILES/ansible_collections/azure/azcollection/plugins/modules/azure_rm_servicebus.py:178-248 | Running the same request against the namespace an update wrote changes nothing and calls nothing. |
| AzureServiceBus.ServiceBus.constructor | ansible_offline/ansible-11.3.0-py3-none-any.whl_FILES/ansible_collections/azure/azcollection/plugins/modules/azure_rm_servicebus.py:127-167 | The object starts with the result dict {changed: False, id: None} and no identity update pending. |
| AzureServiceBus.ServiceBus.MergeExisting | ansible_offline/ansible-11.3.0-py3-none-any.whl_FILES/ansible_collections/azure/azcollection/plugins/modules/azure_rm_servicebus.py:203-230 | The fields are merged into the object as the comparison says; a clash fails with changed set. |
| AzureServiceBus.ServiceBus.Prepare | ansible_offline/ansible-11.3.0-py3-none-any.whl_FILES/ansible_collections/azure/azcollection/plugins/modules/azure_rm_servicebus.py:178-196 | Arguments are copied in, a missing location comes from the resource group, a missing namespace has its name checked and a given identity goes through the identity helper. |
| AzureServiceBus.ServiceBus.PresentBranch | ansible_offline/ansible-11.3.0-py3-none-any.whl_FILES/ansible_collections/azure/azcollection/plugins/modules/azure_rm_servicebus.py:200-235 | The state-present branch makes the calls and reaches the outcome of its specification. |
| AzureServiceBus.ServiceBus.AbsentBranch | ansible_offline/ansible-11.3.0-py3-none-any.whl_FILES/ansible_collections/azure/azcollection/plugins/modules/azure_rm_servicebus.py:236-243 | The state-absent branch makes the calls and reaches the outcome of its specification. |
| AzureServiceBus.ServiceBus.ExecModule | ansible_offline/ansible-11.3.0-py3-none-any.whl_FILES/ansible_collections/azure/azcollection/plugins/modules/azure_rm_servicebus.py:178-248 | exec_module makes exactly the calls and exit of the run's specification. |
| AzureServiceBus.IsValidTimedelta | ansible_offline/ansible-11.3.0-py3-none-any.whl_FILES/ansible_collections/azure/azcollection/plugins/modules/azure_rm_servicebus.py:312-315 | The no-limit sentinel becomes None and any other value is returned as it is. |
| PurefbSyslog.FullAddress | ansible_offline/ansible-11.3.0-py3-none-any.whl_FILES/ansible_collections/purestorage/flashblade/plugins/modules/purefb_syslog.py:144-149 | protocol, "://" and the address, then ":" and the port exactly when a port is given. |
| PurefbSyslog.FullAddressPort | ansible_offline/ansible-11.3.0-py3-none-any.whl_FILES/ansible_collections/purestorage/flashblade/plugins/modules/purefb_syslog.py:144-149 | With a port the URI ends in ":" and the port, and what comes before is the port-less URI. |
| PurefbSyslog.UpdateSyslog | ansible_offline/ansible-11.3.0-py3-none-any.whl_FILES/ansible_collections/purestorage/flashblade/plugins/modules/purefb_syslog.py:184-220 | Without API 2.14 nothing is sent and nothing changes; otherwise changed exactly when the URI or the services differ, the patch carries the new URI and services and is sent exactly when changed outside check mode, and a rejected patch fails. |
| PurefbSyslog.UpdateSettles | ansible_offline/ansible-11.3.0-py3-none-any.whl_FILES/ansible_collections/purestorage/flashblade/plugins/modules/purefb_syslog.py:184-220 | An update finds a difference exactly when the stored server is not the one its patch writes, so after the patch a second update changes nothing (and, by UpdateSyslog's contract, sends nothing). |
| PurefbSyslog.DeleteSyslog | ansible_offline/ansible-11.3.0-py3-none-any.whl_FILES/ansible_collections/purestorage/flashblade/plugins/modules/purefb_syslog.py:117-138 | The delete call is made exactly for a found server outside check mode; changed exactly when found; a failed delete fails. |
| PurefbSyslog.AddSyslog | ansible_offline/ansible-11.3.0-py3-none-any.whl_FILES/ansible_collections/purestorage/flashblade/plugins/modules/purefb_syslog.py:141-181 | Add always reports changed; outside check mode it posts through the v2 API exactly when the array has it, else creates through v1, and fails exactly when that call fails. |
| PurefbSyslog.FindServer | ansible_offline/ansible-11.3.0-py3-none-any.whl_FILES/ansible_collections/purestorage/flashblade/plugins/modules/purefb_syslog.py:263-266 | The scan finds the name exactly when a configured server has it. |
| PurefbSyslog.Choose | ansible_offline/ansible-11.3.0-py3-none-any.whl_FILES/ansible_collections/purestorage/flashblade/plugins/modules/purefb_syslog.py:268-273 | absent deletes, a name not configured is added, a configured one is updated. |
| PurefbSyslog.Dispatched | ansible_offline/ansible-11.3.0-py3-none-any.whl_FILES/ansible_collections/purestorage/flashblade/plugins/modules/purefb_syslog.py:247-273 | As written, main stops exactly when an SDK or the API version is missing or exactly three servers are configured. |
| PurefbSyslog.DeleteBlockedAtLimit | ansible_offline/ansible-11.3.0-py3-none-any.whl_FILES/ansible_collections/purestorage/flashblade/plugins/modules/purefb_syslog.py:256-269 | As written, a configured server cannot be deleted while three are configured. |
| PurefbSyslog.DispatchedWithLimitOnAdd | ansible_offline/ansible-11.3.0-py3-none-any.whl_FILES/ansible_collections/purestorage/flashblade/plugins/modules/purefb_syslog.py:247-273 | With the SDK and API conditions met, main stops exactly when a new server would be added to three, and otherwise dispatches as the rule says. |
| PurefbSyslog.LimitOnlyBlocksAdd | ansible_offline/ansible-11.3.0-py3-none-any.whl_FILES/ansible_collections/purestorage/flashblade/plugins/modules/purefb_syslog.py:256-273 | At the limit a configured server can still be deleted or updated, and a new one is still refused. |
| PurefbSyslog.RunModule | ansible_offline/ansible-11.3.0-py3-none-any.whl_FILES/ansible_collections/purestorage/flashblade/plugins/modules/purefb_syslog.py:223-275 | main makes the decision of the corrected dispatch rule. |
| DladmVlan.CreateVlan | ansible_offline/ansible-11.3.0-py3-none-any.whl_FILES/ansible_collections/community/network/plugins/modules/dladm_vlan.py:115-129 | The create command line is built argument by argument and ends with the VLAN name. |
| DladmVlan.DeleteVlan | ansible_offline/ansible-11.3.0-py3-none-any.whl_FILES/ansible_collections/community/network/plugins/modules/dladm_vlan.py:131-140 | The delete command line is built argument by argument. |
| DladmVlan.CreateArgvRoundTrip | ansible_offline/ansible-11.3.0-py3-none-any.whl_FILES/ansible_collections/community/network/plugins/modules/dladm_vlan.py:115-129 | Reading the create command line back gives exactly the temporary flag, link, VLAN id and name. |
| DladmVlan.DeleteArgvRoundTrip | ansible_offline/ansible-11.3.0-py3-none-any.whl_FILES/ansible_collections/community/network/plugins/modules/dladm_vlan.py:131-140 | Reading the delete command line back gives exactly the temporary flag and name. |
| DladmVlan.FillResult | ansible_offline/ansible-11.3.0-py3-none-any.whl_FILES/ansible_collections/community/network/plugins/modules/dladm_vlan.py:180-206 | The assignments to the result give a dict with changed and name, and with vlan_id, stdout and stderr exactly when shown or non-empty. |
| DladmVlan.ExitResultFacts | ansible_offline/ansible-11.3.0-py3-none-any.whl_FILES/ansible_collections/community/network/plugins/modules/dladm_vlan.py:164-206 | The result always has changed and name; vlan_id, stdout and stderr appear exactly when shown or non-empty. |
| DladmVlan.BaseResultFacts | ansible_offline/ansible-11.3.0-py3-none-any.whl_FILES/ansible_collections/community/network/plugins/modules/dladm_vlan.py:167-171 | The first entries carry the name and none of vlan_id, changed, stdout or stderr. |
| DladmVlan.ExitResultEntry | ansible_offline/ansible-11.3.0-py3-none-any.whl_FILES/ansible_collections/community/network/plugins/modules/dladm_vlan.py:167-206 | Each key of the result holds its last assignment or its starting entry. |
| DladmVlan.OutcomeCommands | ansible_offline/ansible-11.3.0-py3-none-any.whl_FILES/ansible_collections/community/network/plugins/modules/dladm_vlan.py:182-196 | main runs a command exactly when the id is valid, a change is due and it is not check mode, and then it runs the delete command for absent and the create command for present. |
| DladmVlan.OutcomeExit | ansible_offline/ansible-11.3.0-py3-none-any.whl_FILES/ansible_collections/community/network/plugins/modules/dladm_vlan.py:173-196 | A vlan_id that is not a number raises ValueError, and nothing else does. A non-zero id outside 0..4095 fails with "Invalid VLAN id value". The run fails exactly for such an id or for a command whose rc is non-zero, and then the message is the command's stderr. |
| DladmVlan.OutcomeCheckMode | ansible_offline/ansible-11.3.0-py3-none-any.whl_FILES/ansible_collections/community/network/plugins/modules/dladm_vlan.py:182-192 | Check mode exits with just changed=True exactly when the id is valid and a change is due. No other run exits with that dict. |
| DladmVlan.OutcomeResult | ansible_offline/ansible-11.3.0-py3-none-any.whl_FILES/ansible_collections/community/network/plugins/modules/dladm_vlan.py:164-208 | Every other exit is normal and carries the result dict: changed tells whether a command ran, the name is always there, vlan_id is there unless it is 0, and stdout and stderr are there when the command wrote them. |
| DladmVlan.RunModule | ansible_offline/ansible-11.3.0-py3-none-any.whl_FILES/ansible_collections/community/network/plugins/modules/dladm_vlan.py:147-208 | The commands the method runs and the way it exits are those of Outcome for the id `int()` reads, so the four Outcome lemmas above describe main. |
| PyInt.ToInt | ansible_offline/ansible-11.3.0-py3-none-any.whl_FILES/ansible_collections/community/network/plugins/modules/dladm_vlan.py:173 | `int(s)` succeeds exactly when, after Unicode whitespace and an optional sign are stripped, the rest is decimal digits with single underscores only between two digits, and at most 4300 digits. |
| PyInt.ToIntRoundTrip | ansible_offline/ansible-11.3.0-py3-none-any.whl_FILES/ansible_collections/community/network/plugins/modules/dladm_vlan.py:173 | `int(str(i)) == i` for every int of at most 4300 digits, which is every int `str()` writes. |
| PyInt.ReadsDigits | ansible_offline/ansible-11.3.0-py3-none-any.whl_FILES/ansible_collections/community/network/plugins/modules/dladm_vlan.py:173 | A string of at most 4300 ASCII digits reads as its value. |
| PyInt.ReadsNegated | ansible_offline/ansible-11.3.0-py3-none-any.whl_FILES/ansible_collections/community/network/plugins/modules/dladm_vlan.py:173 | The same digits after a minus sign read as the negated value. |
| PyInt.ReadsMinus | ansible_offline/ansible-11.3.0-py3-none-any.whl_FILES/ansible_collections/community/network/plugins/modules/dladm_vlan.py:173 | A minus sign before a grouped body within the digit limit gives the negated value of the body. |
| PyInt.DigitCountAll | ansible_offline/ansible-11.3.0-py3-none-any.whl_FILES/ansible_collections/community/network/plugins/modules/dladm_vlan.py:173 | Without underscores, the number of digits counted against the limit is the length of the string. |
| PyInt.UnderscoreGrouping | ansible_offline/ansible-11.3.0-py3-none-any.whl_FILES/ansible_collections/ibm/storage_virtualize/plugins/modules/ibm_svc_manage_volume.py:639-640 | `int("1_024")` is 1024. |
| PyInt.MisplacedUnderscore | ansible_offline/ansible-11.3.0-py3-none-any.whl_FILES/ansible_collections/ibm/storage_virtualize/plugins/modules/ibm_svc_manage_volume.py:639-640 | A doubled, leading or trailing underscore is a ValueError. |
| PyInt.UnicodeDigits | ansible_offline/ansible-11.3.0-py3-none-any.whl_FILES/ansible_collections/community/network/plugins/modules/dladm_vlan.py:173 | Non-ASCII decimal digits (Arabic-Indic one, two) read as their values (12). |

## Left out

- Calls to the vendor services are not modelled; their answers are inputs. This covers the IBM REST client, `GcpSession`, the FortiOS handler, `mso.request` and the MSO template queries, the Service Bus client, the FlashBlade clients and `run_command`. What the model records is which calls are made and with what arguments.
- Helpers whose code is not part of this model are function parameters or already-evaluated inputs:
  - `remove_nones_from_dict` (the `tidy` parameter) and `GcpRequest` inequality (the `differ` parameter);
  - `remove_invalid_fields`;
  - `make_reference`, `make_subnets`, `make_dhcp_label`, `sanitize` and `vrf_dict_from_ref`;
  - `update_tags`, `update_managed_identity` and `to_dict`;
  - `strtobool` (the volume's cloud backup flag is given as a boolean).
- GcpRegionAutoscaler: `wait_for_completion` polls with `time.sleep` until the operation is done. Its outcome is an input, and only the URL it polls is modelled (PolledUrl).
- GcpTargetPoolInfo.ReturnIfObject and GcpRegionAutoscaler.ReturnIfObject: `module.raise_for_status` belongs to the shared GCP utilities, which are not part of this model. Its outcome is the `raised` input: the fail_json message it ends with, or None when the status is not an error. Its own reading of an error body is not modelled.
- GcpRegionAutoscaler: `str.format` of a list or dict value in a URL is not rendered; OperationUrl gives None for such a value.
- GcpRegionAutoscaler: an int of any length is rendered in a URL. `str.format` raises ValueError for an int of more than 4300 digits, and that error is not modelled.
- FortiosReplacemsgMm7: the check-mode branch of `system_replacemsg_mm7` is not modelled. It depends on `find_current_values`, `is_same_comparison` and `serialize`. `do_member_operation` and `main`'s connection and version checks are not modelled either.
- FortiosReplacemsgMm7: a reply that is already a 4-tuple is passed through unchanged by `fortios_system_replacemsg`. The model covers dict replies only.
- IbmSvcVolume: the following are outside the model:
  - `apply`'s orchestration;
  - `create_volume`, `remove_volume` and `convert_to_clone`;
  - `create_transient_snapshot`, which uses random snapshot names;
  - the bodies of `get_existing_volume` and `get_existing_iogrp` (their answers are inputs);
  - the option dictionary of `update_cloud_backup` (one ChangeCloudBackup command stands for it).
- IbmSvcVolume: `list(set(...))` has no defined order in Python. Minus keeps the first-occurrence order of its first argument.
- IbmSvcVolume: `probe_volume` reads `data[1]` for the copy attributes. The model takes them as fields of VolumeData, so the IndexError of a one-row answer is not modelled.
- IbmSvcVolume: repr of a name list is written without quote escaping (Repr). Names with quotes or backslashes render differently.
- IbmSvcVolume.ProbeVolume: follows the corrected iogrp entry (IogrpDiffBoth), not the entry as written (IogrpDiff); see Findings.
- IbmSvcVolume.ProbeIogrp: states the corrected iogrp entry (IogrpDiffBoth), not the overwriting entry the source writes (IogrpDiff); see Findings.
- PurefbSyslog.RunModule: follows the corrected server limit (DispatchedWithLimitOnAdd), not the check as written (Dispatched); see Findings.
- PurefbSyslog: `update_syslog` reads the first server of the listing by name. The model takes that server as an input, so an empty listing (an IndexError) is not modelled.
- DladmVlan.DeleteArgvRoundTrip: assumes a VLAN name that does not start with "-". dladm would read such a name as an option.
- AzureServiceBus: the SDK models (`SBSku`, `SBNamespace`) are reduced to the fields the module sets. `to_dict` is a parameter.
- PyInt.ToInt: the decimal digits are those of Unicode 15.0, as Python 3.12 and 3.13 have them. Other Python versions know a different set of non-ASCII digits.
- PyInt.ToInt: the digit limit is the default 4300 of Python 3.11 and later, and of the security releases that brought it to older versions. `sys.set_int_max_str_digits` and PYTHONINTMAXSTRDIGITS can change it, and Python versions without it have no limit at all.
- PyInt.ToIntRoundTrip: holds for ints of at most 4300 digits. For a longer int `str()` itself raises ValueError, so there is no string to read back.
- Logging is not modelled.

## Findings

| source | as written | input that shows it | evidently intended | confidence | as-written member | corrected member |
|---|---|---|---|---|---|---|
| ansible_offline/ansible-11.3.0-py3-none-any.whl_FILES/ansible_collections/ibm/storage_virtualize/plugins/modules/ibm_svc_manage_volume.py:653-659 | When a volume must both gain and lose I/O groups, the `remove` entry replaces the `add` entry. `update_volume` then only removes. | iogrp "io0,io2" on a volume in io0 and io1: the entry is only remove [io1], and the volume ends in io0 alone | one entry holding both lists, so that the add and then the remove leave exactly the requested groups | not executed | IbmSvcVolume.IogrpAddLost | IbmSvcVolume.IogrpDiffBothReaches |
| ansible_offline/ansible-11.3.0-py3-none-any.whl_FILES/ansible_collections/purestorage/flashblade/plugins/modules/purefb_syslog.py:256-257 | `main` fails whenever exactly three servers are configured, before looking at the state. | state absent for one of three configured servers: the run fails with "Maximum number of syslog servers (3) already configured." and nothing is deleted | the limit stops only the adding of a new server; deleting and updating go ahead | not executed | PurefbSyslog.DeleteBlockedAtLimit | PurefbSyslog.LimitOnlyBlocksAdd |
