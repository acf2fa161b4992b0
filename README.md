# Swarmchestrate TOSCA tooling: a verified model of its data transformations

The Swarmchestrate TOSCA tooling reads TOSCA service templates, already parsed from YAML, and projects them onto other formats:

- **Capacities.** It unwraps `$primitive`/`$list`/`$map`-tagged capacity values. It then extracts either the absolute capacity of an "overall" node or per-node instance counts, plus a table of flavour definitions.
- **Resource asks.** It turns the `$and` node filters of node templates into a resource ask: capability → `properties` → value.
- **Kubernetes manifests.** It projects every `*Application` node onto a Deployment and, when the node declares ports, a Service.
- **DotDict.** It wraps templates in `DotDict`, an attribute-access dictionary. It reads back the QoS policies and a per-node "cluster" view.
- **Documentation data.** It extracts the field and type tables that the documentation pages are rendered from.

This project models those transformations in Dafny and proves what each promises: defaults, filters, last-write-wins, output order, and which keys are present or absent. The modules are:

- `Values` (values.dfy) models parsed YAML/Python values with their Python operations.
  - A `Value` is `Null`, `Bool`, `Int`, `Str`, `List` or `Map`.
  - A dict is an ordered list of entries, because insertion order decides output order.
  - The Python operations are `dict.get`, `in`, `[]`, `str()`, `int()`, `.upper()`, `.lower()` and truthiness.
  - A Python exception is an `Err` of a `Result`.
- `Capacities` (capacities.dfy) models sardou/capacities.py.
- `ResourceAsk` (resource_ask.dfy) models extract-resource-requirements.py.
- `Manifests` (manifests.dfy) models `get_kubernetes_manifest` in sardou/manifestGenerator.py.
- `Sardou` (sardou.dfy) models `DotDict`, `get_qos` and `get_cluster` in sardou/sardou.py.
  - `DotDict` is a class whose `attrs` field is the instance's `__dict__`.
- `Docsgen` (docsgen.dfy) models the extraction helpers and the page rules of tools/docsgen.py.

Where the source works by loops that fill dicts and lists, the model is a `method` with a `while` loop. Each such method is proved equal to a specification function about which the properties are proved as lemmas. The pure parts are functions. The clock (`datetime.now()`) and the image-pull secret are parameters.

## Model

| member | source | states |
|---|---|---|
| Capacities.Unwrap | sardou/capacities.py:1-9 | A non-dict is returned unchanged. A dict with `$primitive` gives exactly its payload, tested first. A dict with none of the three tags is returned unchanged. |
| Capacities.UnwrapDict | sardou/capacities.py:2-9 | For a dict (optionally without its `$key`), `$primitive` wins, and an untagged dict comes back as it is. |
| Capacities.UnwrapList | sardou/capacities.py:5-6 | Iterating a string payload gives its characters; a scalar payload raises TypeError. |
| Capacities.UnwrapItems | sardou/capacities.py:5-6 | The comprehension yields one item per visited member. |
| Capacities.UnwrapItemsIsMap | sardou/capacities.py:5-6 | The list comprehension unwraps the members one after another, failing iff one fails. |
| Capacities.UnwrapListWrapper | sardou/capacities.py:5-6 | A `$list` wrapper gives a list of the same length and order, element-wise unwrapped, and fails iff some element fails. |
| Capacities.UnwrapMap | sardou/capacities.py:7-8 | Over a string payload only the empty string unwraps (to `{}`); a scalar payload raises TypeError; a result has no repeated key. |
| Capacities.UnwrapEntries | sardou/capacities.py:7-8 | The dict the comprehension builds has no repeated key. |
| Capacities.UnwrapEntry | sardou/capacities.py:8 | A non-dict entry raises TypeError and one without `$key` raises KeyError; a produced key is hashable. |
| Capacities.UnwrapEntriesIsPutAll | sardou/capacities.py:7-8 | The comprehension is the in-order assignment of the unwrapped entries. |
| Capacities.UnwrapEntryMeaning | sardou/capacities.py:7-8 | An entry's key is its unwrapped `$key` and its value is `_unwrap` of the entry without `$key`. |
| Capacities.UnwrapWithoutKey | sardou/capacities.py:7-8 | Unwrapping an entry without its `$key` is `_unwrap` of that smaller dict. |
| Capacities.UnwrapMapWrapper | sardou/capacities.py:7-8 | A `$map` wrapper gives, for each unwrapped key, the value unwrapped from its entry, and fails iff some entry fails. |
| Capacities.UnwrapMapKeys | sardou/capacities.py:7-8 | The keys of the result are exactly the unwrapped `$key`s of the entries. |
| Capacities.UnwrapMapLastWins | sardou/capacities.py:7-8 | When two entries have the same unwrapped key, the later entry's value is kept. |
| Capacities.UnwrapNotIdempotent | sardou/capacities.py:3-4 | `{"$primitive": {"$primitive": 1}}` unwraps to a still-tagged dict, so `_unwrap` is not idempotent. |
| Capacities.AnyOverallMeaning | sardou/capacities.py:12-14 | `any(...)` is true iff some type name contains `OverallCapacity`, stopping at the first such name. |
| Capacities.IsOverallMeaning | sardou/capacities.py:11-14 | A node is overall iff one of its type names contains `OverallCapacity`. A missing or null `types` gives false. |
| Capacities.IsOverall | sardou/capacities.py:12-14 | Only a dict node can be judged; any other node raises. |
| Capacities.UnwrapProps | sardou/capacities.py:27-40 | A properties value that is not a dict raises AttributeError; a result is a dict. |
| Capacities.UnwrapPropsAt | sardou/capacities.py:27 | Every key is kept with its value unwrapped; the result fails iff some value fails. |
| Capacities.FindOverall | sardou/capacities.py:22-28 | The search loop returns the unwrapped capacity of the first overall node, or none. |
| Capacities.FirstOverallNone | sardou/capacities.py:24-28 | The search finds nothing iff no node is overall. |
| Capacities.FirstOverallSome | sardou/capacities.py:24-28 | A found capacity comes from an overall node with no overall node before it. |
| Capacities.FirstOverallAt | sardou/capacities.py:24-28 | The search stops at the first overall node and takes that node's capacity. |
| Capacities.FirstOverall | sardou/capacities.py:24-28 | A capacity is found only when some node is overall. |
| Capacities.CapabilityFlavours | sardou/capacities.py:35-40 | The inner loop keeps every capability other than `capacity` whose properties are non-empty, unwrapped. |
| Capacities.CapabilityFlavourAt | sardou/capacities.py:35-40 | A node's flavour holds exactly its non-`capacity` capabilities with non-empty properties, each unwrapped. |
| Capacities.CapabilityFlavourKeys | sardou/capacities.py:37-40 | A node's flavour has no key its capabilities lack, and never `capacity`. |
| Capacities.CapabilityFlavour | sardou/capacities.py:38-40 | The `capacity` capability is never stored as a flavour. |
| Capacities.FlavourDefinitions | sardou/capacities.py:31-40 | The second loop gives every non-overall node a flavour entry, possibly empty, and none to overall nodes. |
| Capacities.FlavourAt | sardou/capacities.py:31-40 | The entry of each non-overall node is the dict its capability loop builds. |
| Capacities.NodeFlavour | sardou/capacities.py:31-40 | A node gets a flavour entry iff it is not overall. |
| Capacities.InstanceCounts | sardou/capacities.py:44-48 | The third loop maps every node to its instance count. |
| Capacities.InstanceCountAt | sardou/capacities.py:44-48 | Each count is the unwrapped `capacity.properties.instances`, or 1 when that is absent or null. |
| Capacities.InstanceCount | sardou/capacities.py:46-48 | Every node that does not raise gets a count. |
| Capacities.InstanceCountKeys | sardou/capacities.py:44-48 | The counts have an entry for every node and for nothing else. |
| Capacities.ExtractCapacities | sardou/capacities.py:17-52 | The method computes the extract-capacities specification. |
| Capacities.CapacitiesShape | sardou/capacities.py:42-50 | The result holds `flavour` first and then exactly one other key: `capacity_raw` when some node is overall, `capacity_flavour` otherwise. |
| Capacities.RecordCases | sardou/capacities.py:42-50 | A result takes one of the two forms. |
| Capacities.AllJudged | sardou/capacities.py:24-28 | A successful result means every node was tested for being overall. |
| Capacities.CapacityRawFromFirst | sardou/capacities.py:24-43 | With several overall nodes only the first supplies `capacity_raw`, even when its properties are empty. |
| ResourceAsk.PropertyInfo | extract-resource-requirements.py:13-30 | Gives `(path[3], path[4])` when the argument is a dict whose `$get_property` list has at least 5 elements, `(None, None)` for a shorter list or a non-reference, and raises TypeError for a null path. |
| ResourceAsk.MapConstraint | extract-resource-requirements.py:33-55 | Fewer than two args give `None`; `$equal` gives `args[1]`; any other function `f` gives `{f: args[1]}`; it raises only when `len` or `args[1]` does. |
| ResourceAsk.Target | extract-resource-requirements.py:78-82 | A pair with fewer than 2 args addresses nothing; otherwise it addresses the path's (capability, property) when both are truthy, and nothing when either is falsy. |
| ResourceAsk.ApplyConstraint | extract-resource-requirements.py:77-90 | A pair that addresses nothing leaves the dict unchanged; an addressed one stores the mapped value under its capability and property. |
| ResourceAsk.Store | extract-resource-requirements.py:84-90 | After storing, the capability is present, no other capability changes, and no other key is added. |
| ResourceAsk.StoreShape | extract-resource-requirements.py:84-87 | Storing keeps every capability a `{'properties': ...}` dict and adds exactly the addressed capability. |
| ResourceAsk.StoreValues | extract-resource-requirements.py:88-90 | Storing sets the one (capability, property) pair to its non-None value and leaves every other pair unchanged. |
| ResourceAsk.CreatedProps | extract-resource-requirements.py:84-87 | Creating a capability adds no properties. |
| ResourceAsk.ConstraintEffect | extract-resource-requirements.py:84-90 | The capability exists afterwards, and the property is set exactly when the mapped value is not None. |
| ResourceAsk.FilterCapabilities | extract-resource-requirements.py:58-92 | A dict filter without `$and` converts to `{}`; a result is a dict. |
| ResourceAsk.ConstraintStores | extract-resource-requirements.py:84-90 | An addressed constraint with hashable names is stored. |
| ResourceAsk.EqualConverts | extract-resource-requirements.py:51-90 | `{$and: [{$equal: [ref, x]}]}` converts to `{cap: {properties: {prop: x}}}`. |
| ResourceAsk.LaterConditionWins | extract-resource-requirements.py:55-90 | Another operator is kept as `{op: value}`, and a later condition on the same pair replaces the earlier value. |
| ResourceAsk.ConstraintsGrow | extract-resource-requirements.py:77-90 | Capabilities are only added, never removed, and the dict keeps its shape. |
| ResourceAsk.ConditionsGrow | extract-resource-requirements.py:75-90 | The same holds over a whole list of conditions. |
| ResourceAsk.ApplyConstraints | extract-resource-requirements.py:77-90 | The loop over one condition's pairs never removes a capability. |
| ResourceAsk.ApplyConditions | extract-resource-requirements.py:75-90 | The loop over the conditions never removes a capability, and succeeds only when every condition is a dict. |
| ResourceAsk.FilterShape | extract-resource-requirements.py:58-92 | Every output capability is a `{'properties': {...}}` dict with no repeated capability or property names. |
| ResourceAsk.ConvertCondition | extract-resource-requirements.py:77-90 | The inner loop over one condition's pairs computes the specification. |
| ResourceAsk.ConvertNodeFilter | extract-resource-requirements.py:58-92 | The method computes the converter's specification. |
| ResourceAsk.KeepFiltered | extract-resource-requirements.py:112-113 | A node is kept iff `'node_filter' in node_data`. |
| ResourceAsk.NodesWithFilter | extract-resource-requirements.py:95-115 | The result is `{}` when the document has no `service_template`, or a dict `service_template` without `node_templates`. |
| ResourceAsk.NodesWithFilterExactly | extract-resource-requirements.py:108-113 | Over dict node templates, the result is exactly the templates with a `node_filter`, unchanged and in order. |
| ResourceAsk.Filtered | extract-resource-requirements.py:111-113 | The kept templates are at most as many as the templates, and each is a dict with a `node_filter`. |
| ResourceAsk.KeptExactly | extract-resource-requirements.py:112-113 | A template is in the result iff it has a `node_filter`. |
| ResourceAsk.ExtractNodesWithFilter | extract-resource-requirements.py:95-115 | The method computes the specification of `extract_nodes_with_filter`. |
| ResourceAsk.Metadata | extract-resource-requirements.py:130-137 | The metadata has four entries, the description `Generated from node <name>` and the version `1.0`. |
| ResourceAsk.AskEntry | extract-resource-requirements.py:128-145 | A template without `node_filter` gets only its metadata. |
| ResourceAsk.AskEntryFiltered | extract-resource-requirements.py:140-145 | A template with a filter gets `capabilities` exactly when the filter converts to a non-empty dict, and then holds that dict. |
| ResourceAsk.AskData | extract-resource-requirements.py:118-145 | A node collection that is not a dict raises AttributeError; a result is a dict. |
| ResourceAsk.AskDataAt | extract-resource-requirements.py:126-145 | Each node's entry is built from its own template, under its own name. |
| ResourceAsk.AskDataKeys | extract-resource-requirements.py:126-145 | Exactly the given nodes get an entry. |
| ResourceAsk.AskStep | extract-resource-requirements.py:128-145 | A node gets an entry iff its ask entry can be built, and the entry is that ask entry. |
| ResourceAsk.BuildAskEntry | extract-resource-requirements.py:128-145 | The loop body computes the node's ask entry. |
| ResourceAsk.GenerateAsk | extract-resource-requirements.py:118-145 | The method computes `AskData`, up to the file write. |
| Manifests.EnvRecord | sardou/manifestGenerator.py:57-61 | An env entry without `value` gets the value `""`; the name is `str(e["name"])`. |
| Manifests.EnvFoldIsRecords | sardou/manifestGenerator.py:55-61 | The env loop appends the records of the kept items, in order. |
| Manifests.EnvRecordsAll | sardou/manifestGenerator.py:56-61 | When every item is a dict with `name`, each becomes its record, in order. |
| Manifests.EnvRecordsNone | sardou/manifestGenerator.py:57 | Items that are not dicts with a `name` are dropped. |
| Manifests.EnvList | sardou/manifestGenerator.py:55-61 | The method computes the env records of the items. |
| Manifests.PortNumbers | sardou/manifestGenerator.py:70-71 | `port` falls back to `targetPort` and `targetPort` to `port`; with neither, `int(None)` raises. |
| Manifests.ServicePortFields | sardou/manifestGenerator.py:82-92 | The service port holds the name, both numbers and the protocol, and `nodePort` exactly when one is given. |
| Manifests.ServicePort | sardou/manifestGenerator.py:82-92 | The service port is a dict; its fields are stated by ServicePortFields. |
| Manifests.NodePortOf | sardou/manifestGenerator.py:73-90 | A falsy `nodePort` adds nothing; a truthy one is converted with `int()`. |
| Manifests.PortRecord | sardou/manifestGenerator.py:69-92 | One declared port succeeds iff it is a dict whose numbers and `nodePort` convert. |
| Manifests.ContainerPortFields | sardou/manifestGenerator.py:72-79 | `containerPort` is the target, and the protocol is upper-cased, `TCP` by default. |
| Manifests.PortRecordFields | sardou/manifestGenerator.py:70-92 | The name defaults to `port-<port>`. `port` and `targetPort` are the resolved numbers. `nodePort` is present iff the declared one is truthy. |
| Manifests.PortListsAt | sardou/manifestGenerator.py:66-92 | The ports loop succeeds iff every port does; the i-th container port and the i-th service port both come from the i-th declared port. |
| Manifests.PortLists | sardou/manifestGenerator.py:66-92 | The method computes both port lists in one pass. |
| Manifests.VolumeFound | sardou/manifestGenerator.py:105-111 | A `volume` requirement naming a node with a truthy `path` mounts that path under that name. |
| Manifests.VolumeMissing | sardou/manifestGenerator.py:107-111 | A requirement naming a missing node, or one without a truthy `path`, mounts nothing. |
| Manifests.HostStep | sardou/manifestGenerator.py:102-103 | Without `host` the selector is unchanged; with it, `kubernetes.io/hostname` is `r["host"]`; no other key changes and none is removed. |
| Manifests.VolumeStep | sardou/manifestGenerator.py:105-111 | Without `volume` nothing is mounted; a mount is named by `r["volume"]` and has a truthy path. |
| Manifests.ReqStepParts | sardou/manifestGenerator.py:101-122 | A requirement succeeds iff its host part and its volume part do; it updates the selector and appends its mount. |
| Manifests.ReqFoldMounts | sardou/manifestGenerator.py:101-122 | The loop mounts, in order, exactly the volumes the requirements name. |
| Manifests.ReqFoldNoHost | sardou/manifestGenerator.py:102-103 | Requirements naming no host leave the node selector unchanged. |
| Manifests.ReqFoldLastHost | sardou/manifestGenerator.py:102-103 | The last `host` requirement decides `kubernetes.io/hostname`. |
| Manifests.ReqFoldSelectorKeys | sardou/manifestGenerator.py:99-103 | Only `kubernetes.io/hostname` is ever written into the selector. |
| Manifests.ReqFold | sardou/manifestGenerator.py:101-122 | The requirements loop only appends mounts and never removes a selector key. |
| Manifests.VolumeAndMount | sardou/manifestGenerator.py:112-122 | The volume is a `DirectoryOrCreate` hostPath, and its mount has the same name and path. |
| Manifests.PlaceRequirement | sardou/manifestGenerator.py:101-122 | One pass of the requirements loop advances the specification fold by one requirement, or raises its error. |
| Manifests.Requirements | sardou/manifestGenerator.py:97-122 | The loop yields the selector, volumes and mounts of the requirements fold, or its error. |
| Manifests.ContainerFields | sardou/manifestGenerator.py:154-162 | The container has the node's name and image, and `args`, `env`, `ports` and `volumeMounts` exactly when non-empty. |
| Manifests.Container | sardou/manifestGenerator.py:154-162 | The container is a dict; its fields are stated by ContainerFields. |
| Manifests.PodSpecFields | sardou/manifestGenerator.py:127-165 | `imagePullSecrets` is always exactly the given secret; `nodeSelector` and `volumes` appear exactly when non-empty; there is one container. |
| Manifests.PodSpec | sardou/manifestGenerator.py:151-165 | The pod spec is a dict; its fields are stated by PodSpecFields. |
| Manifests.DeploymentFields | sardou/manifestGenerator.py:132-168 | An `apps/v1` Deployment named after the node, with its replicas, whose selector and pod labels are both `app: <name>`. |
| Manifests.Deployment | sardou/manifestGenerator.py:132-168 | The Deployment is a dict of four keys: `apiVersion`, `kind`, `metadata` and `spec`. |
| Manifests.ServiceFields | sardou/manifestGenerator.py:176-191 | A `v1` Service named after the node, selecting `app: <name>`, with the service ports; NodePort iff some port has `nodePort`, else ClusterIP. |
| Manifests.Service | sardou/manifestGenerator.py:178-191 | The Service is a dict of four keys: `apiVersion`, `kind`, `metadata` and `spec`. |
| Manifests.ServiceTypeByPorts | sardou/manifestGenerator.py:89-176 | The Service is NodePort iff some declared port has a truthy `nodePort`. |
| Manifests.PortNodePort | sardou/manifestGenerator.py:89-92 | The i-th service port has `nodePort` iff the i-th declared port's is truthy. |
| Manifests.IsApplication | sardou/manifestGenerator.py:35-37 | The gate holds iff the type string ends with `Application`; a non-dict node or a non-string type raises. |
| Manifests.Props | sardou/manifestGenerator.py:39 | A node's properties can be read iff the node is a dict. |
| Manifests.Image | sardou/manifestGenerator.py:45-47 | A missing or falsy `image` raises ValueError. |
| Manifests.Replicas | sardou/manifestGenerator.py:49 | `replicas` is 1 unless given; a given integer is used as it is. |
| Manifests.ListItems | sardou/manifestGenerator.py:50-69 | A missing list reads as `[]`; a given list gives its items. |
| Manifests.NodeSettings | sardou/manifestGenerator.py:39-50 | The image, replicas, env and ports items are read as the source reads them. |
| Manifests.NodeParts | sardou/manifestGenerator.py:39-122 | The service ports and container ports both come from the ports loop, one per declared port. |
| Manifests.HostVolumes | sardou/manifestGenerator.py:112-118 | One host-path volume per mount, in order. |
| Manifests.VolumeMounts | sardou/manifestGenerator.py:119-122 | One volume mount per mount, in order. |
| Manifests.MountsSnoc | sardou/manifestGenerator.py:111-122 | One more mount appends one volume and one volume mount. |
| Manifests.NodeObjects | sardou/manifestGenerator.py:170-193 | The Deployment comes first, then the Service exactly when there are service ports. |
| Manifests.NonApplicationSkipped | sardou/manifestGenerator.py:35-37 | A node that is not an application contributes nothing. |
| Manifests.UntypedNotApplication | sardou/manifestGenerator.py:35-36 | A dict node without `type` is not an application. |
| Manifests.MissingImageRaises | sardou/manifestGenerator.py:45-47 | An application without a truthy image raises ValueError. |
| Manifests.PortWithoutNumberRaises | sardou/manifestGenerator.py:70 | A port with neither `port` nor `targetPort` makes the node raise. |
| Manifests.ReplicasDefault | sardou/manifestGenerator.py:49 | `replicas` defaults to 1. |
| Manifests.ReplicasGiven | sardou/manifestGenerator.py:49 | A given integer `replicas` is used as it is. |
| Manifests.ApplicationObjects | sardou/manifestGenerator.py:170-193 | A successful node yields its Deployment and, exactly when it declares a port, a Service that is NodePort iff some port has a truthy `nodePort`. |
| Manifests.ApplicationDeployment | sardou/manifestGenerator.py:127-168 | The Deployment is named after the node, has its replicas and exactly the given pull secret, and holds the node's container. |
| Manifests.ManifestsOfAppend | sardou/manifestGenerator.py:33-196 | The output is per-node and concatenates in node order; a node that raises does not stop the later ones. |
| Manifests.Contribution | sardou/manifestGenerator.py:34-196 | A node contributes at most two objects, and nothing when it raises. |
| Manifests.ManifestsOf | sardou/manifestGenerator.py:33-196 | The output has at most two objects per node. |
| Manifests.NodeManifestsSteps | sardou/manifestGenerator.py:34-193 | The `try` body ends at the type gate, at the first raise, or with the node's objects. |
| Manifests.NodePartsSteps | sardou/manifestGenerator.py:39-122 | Gathering the parts stops at the first error of the reads, the ports loop or the requirements loop. |
| Manifests.GatherParts | sardou/manifestGenerator.py:39-122 | The env, ports and requirements loops compute the node's parts. |
| Manifests.NodeManifest | sardou/manifestGenerator.py:34-193 | The method computes the `try` body for one node. |
| Manifests.KubernetesManifests | sardou/manifestGenerator.py:24-33 | The projection succeeds iff the document, its `service_template` and its `node_templates` are dicts (missing ones default to `{}`). |
| Manifests.NoNodeTemplates | sardou/manifestGenerator.py:24-33 | A document without `service_template`, or whose `service_template` is a dict without `node_templates`, yields no manifests. |
| Manifests.GetKubernetesManifest | sardou/manifestGenerator.py:24-198 | The node loop computes the per-node contributions, skipping nodes that raise. |
| Sardou.Convert | sardou/sardou.py:11-17 | A dict becomes a DotDict and a list a list of the same length; anything else is kept; the only error is TypeError, and a result is well formed. |
| Sardou.RoundTrip | sardou/sardou.py:11-39 | `DotDict(**d)._to_dict() == d` for every string-keyed dict, including nested dicts and dicts directly inside lists. |
| Sardou.ConvertedAttribute | sardou/sardou.py:12-17 | After construction, each key of `d` is an attribute holding `d[k]` converted. |
| Sardou.ConstructedMember | sardou/sardou.py:18-25 | For every key `k` of `d`, `k in dd` holds and `dd[k]` is the converted value. |
| Sardou.NonStringKeyRaises | sardou/sardou.py:11 | A non-string key makes `DotDict(**d)` raise TypeError. |
| Sardou.PutAttr | sardou/sardou.py:17-21 | `setattr` replaces an existing attribute in place or appends a new one; the other attributes keep their values. |
| Sardou.RemoveAttr | sardou/sardou.py:23 | `delattr` leaves no attribute of that name and adds no attribute. |
| Sardou.DotDict.constructor | sardou/sardou.py:11 | A new DotDict has no attributes. |
| Sardou.DotDict.GetItem | sardou/sardou.py:18-19 | `dd[k]` is the attribute `k`; a missing one raises AttributeError, and a non-string key raises TypeError. |
| Sardou.DotDict.Contains | sardou/sardou.py:24-25 | `k in dd` iff `dd[k]` succeeds. |
| Sardou.DotDict.SetItem | sardou/sardou.py:20-21 | `dd[k] = v` makes `dd[k]` give `v` and changes no other key. |
| Sardou.DotDict.DelItem | sardou/sardou.py:22-23 | `del dd[k]` removes `k`, raising AttributeError when it is absent, and changes no other key. |
| Sardou.DotDict.ToDict | sardou/sardou.py:28-39 | `_to_dict` gives the plain value of the DotDict, recursively. |
| Sardou.ToValue | sardou/sardou.py:28-39 | A DotDict becomes a dict with one entry per attribute, and a list keeps its length. |
| Sardou.NewDotDict | sardou/sardou.py:11-17 | `DotDict(**d)` succeeds iff `d` is a dict that converts; it raises TypeError otherwise. |
| Sardou.ConvertAttrs | sardou/sardou.py:12-17 | The `setattr` loop raises only TypeError, and keeps the attributes distinct, well formed and converted. |
| Sardou.GetQos | sardou/sardou.py:63-67 | Without `raw` or `raw.service_template`, the call raises AttributeError. |
| Sardou.GetQosSteps | sardou/sardou.py:64-67 | Without `policies` the result is `[]`; otherwise it is the policies, with DotDicts turned into dicts. |
| Sardou.QosOfRaw | sardou/sardou.py:58-67 | On a raw template loaded into a DotDict, `get_qos` gives back its policy list unchanged. |
| Sardou.QosWithoutPolicies | sardou/sardou.py:64-65 | A service template without `policies` gives `[]`. |
| Sardou.NodeTemplates | sardou/sardou.py:71-74 | A missing `service_template` or `node_templates` raises ValueError. |
| Sardou.KeepRelevant | sardou/sardou.py:81-82 | Only `type`, `directives`, `properties`, `requirements` and `capabilities` are kept. |
| Sardou.NodeInfo | sardou/sardou.py:78-82 | A node's info can be built iff the node is a dict. |
| Sardou.NodeInfoFields | sardou/sardou.py:78-82 | The info of a node holds exactly the whitelisted keys it has, with their values unchanged. |
| Sardou.ClusterEntries | sardou/sardou.py:76-83 | The cluster has exactly the node names, each mapped to its node's info; it fails iff some node is not a dict. |
| Sardou.Cluster | sardou/sardou.py:76-83 | A built cluster is a dict. |
| Sardou.GetClusterAsWritten | sardou/sardou.py:69-85 | As written, a missing `service_template` raises ValueError, and a result is possible only when the node templates are a plain value, never for a DotDict. |
| Sardou.AsWrittenAlwaysRaises | sardou/sardou.py:72-77 | As written, calling `.items()` on the DotDict of node templates always raises. |
| Sardou.ClusterOf | sardou/sardou.py:69-85 | The corrected `get_cluster` raises ValueError without node templates and otherwise builds a dict. |
| Sardou.ClusterOfTemplate | sardou/sardou.py:69-85 | On a template converted into the Sardou object, the cluster is the cluster of its node templates. |
| Sardou.ClusterExample | sardou/sardou.py:69-85 | For node `web` of type `T`, the code as written raises AttributeError, and the corrected code gives `{"web": {"type": "T"}}`. |
| Sardou.GetCluster | sardou/sardou.py:76-85 | The loops compute the corrected cluster view. |
| Docsgen.Schema | tools/docsgen.py:35-43 | A string `entry_schema` is itself; a dict gives its `type` or `""`; anything else raises AttributeError. |
| Docsgen.FieldRecord | tools/docsgen.py:35-45 | A field record succeeds iff the property is a dict whose schema can be read. |
| Docsgen.FieldDefaults | tools/docsgen.py:36-45 | A record has exactly `required`, `type`, `schema` and `description`, defaulting to `False`, `""` and `No description available`. |
| Docsgen.FieldsOfEntries | tools/docsgen.py:31-46 | There is one entry per property name; the call fails iff some record fails. |
| Docsgen.ExtractFields | tools/docsgen.py:31-46 | The loop computes `extract_fields`. |
| Docsgen.FieldsOf | tools/docsgen.py:31-46 | Properties that are not a dict raise AttributeError; a result is a dict. |
| Docsgen.PropRecord | tools/docsgen.py:56-63 | A property record succeeds iff the property is a dict. |
| Docsgen.PropRecordFields | tools/docsgen.py:56-63 | The record has `name`, `required`, `type` and `description`, with the stated defaults. |
| Docsgen.TypeRecord | tools/docsgen.py:53-66 | A type value that is not a dict raises AttributeError. |
| Docsgen.TypeRecordFields | tools/docsgen.py:53-66 | The description has its default, and `fields` has one record per property, in source order. |
| Docsgen.TypesOfEntries | tools/docsgen.py:49-67 | There is one entry per type name; the call fails iff some record fails. |
| Docsgen.ExtractTypes | tools/docsgen.py:49-67 | The loop computes `extract_types`. |
| Docsgen.TypesOf | tools/docsgen.py:49-67 | Types that are not a dict raise AttributeError; a result is a dict. |
| Docsgen.CapProps | tools/docsgen.py:81-85 | Truthy inline properties are preferred; otherwise a known type gives its properties, and an unknown one keeps the inline value. |
| Docsgen.CapFieldNames | tools/docsgen.py:87-97 | Field names are `<cap>.<prop>`, ordered by capability and then by property. |
| Docsgen.NodeRecordFields | tools/docsgen.py:99-102 | A node type's record has its description (with default) and its capability fields. |
| Docsgen.CapabilityTypesEntries | tools/docsgen.py:70-103 | There is one entry per node type; the call fails iff some record fails. |
| Docsgen.AppendCapFields | tools/docsgen.py:87-97 | The inner loop appends exactly the capability's fields to those gathered so far. |
| Docsgen.NodeTypeFields | tools/docsgen.py:78-97 | The capability loop gives the fields of all the node's capabilities, in order. |
| Docsgen.ExtractCapabilityTypes | tools/docsgen.py:70-103 | The loop computes `extract_capability_types`. |
| Docsgen.CapabilityTypesOf | tools/docsgen.py:70-103 | Node types that are not a dict raise AttributeError; a result is a dict. |
| Docsgen.PolicyFieldsKeys | tools/docsgen.py:111-115 | The Policy page keeps exactly the policy types whose names start with `QoS.`, each with its description or the default. |
| Docsgen.PolicyFields | tools/docsgen.py:111-115 | Policy types that are not a dict raise AttributeError; a result is a dict. |
| Docsgen.PageFileName | tools/docsgen.py:148 | The file name is the page name lower-cased with spaces replaced by `_`, of the same length. |
| Docsgen.PageFileNameIdempotent | tools/docsgen.py:148 | Applying the rule twice gives the same name as applying it once. |
| Values.Lookup | sardou/capacities.py:3-4 | A key is found iff it is present, and then the dict holds an entry with that key and value. |
| Values.Put | extract-resource-requirements.py:90 | `d[k] = v` keeps the position of an existing key or appends; afterwards `d[k]` is `v` and nothing else changes. |
| Values.Get | sardou/manifestGenerator.py:35 | `dict.get`: it succeeds iff the receiver is a dict and the key is hashable, giving the value or the default. |
| Values.Items | sardou/capacities.py:24 | `.items()` succeeds iff the receiver is a dict, and gives its entries in order. |
| Values.Iterate | sardou/capacities.py:6 | A `for` visits the items of a list, the characters of a string or the keys of a dict; it raises exactly on null, booleans and integers. |
| Values.In | sardou/capacities.py:3 | `in` is a key test on a dict, membership on a list and a substring test on a string; it raises exactly on an unhashable key, a non-string needle in a string, or a scalar container. |
| Values.Item | sardou/capacities.py:4 | `c[k]` gives a dict's value or raises KeyError for a missing key; on a list or string it takes an integer index and raises TypeError for another key. |
| Values.Len | extract-resource-requirements.py:44 | `len` is the length of a list, string or dict, and raises exactly on a scalar. |
| Values.Truthy | sardou/capacities.py:39 | The definition of `bool(v)`: null, `False`, `0` and empty strings, lists and dicts are falsy. |
| Values.Or | sardou/capacities.py:13 | `v or d` is `v` when `v` is truthy, and `d` otherwise. |
| Values.PyInt | sardou/manifestGenerator.py:49 | `int()` keeps an integer and raises TypeError on null, lists and dicts. |
| Values.PyStr | sardou/manifestGenerator.py:59-60 | `str()` keeps a string and renders an integer in decimal. |
| Values.Upper | sardou/manifestGenerator.py:72 | `.upper()` keeps the length and upper-cases each character. |
| Values.Hashable | sardou/capacities.py:8 | The definition of a dict key: anything but a list or a dict. |
| Values.IntStringRoundTrip | sardou/manifestGenerator.py:70-83 | The `int()` of a string inverts the `str()` of an integer: `int(str(n)) == n`. |

## Left out

- YAML and JSON loading and dumping, file reads and writes, `print` warnings, and the `Sardou` constructor are not modelled. The constructor needs file checks, a validation subprocess and two YAML loads. The functions take already-parsed values instead.
- `get_requirements` calls sardou/requirements.py, which is not part of this model.
- `generate_ask_yaml` calls `datetime.now()` once per node (extract-resource-requirements.py:133), so nodes may get different timestamps. The model takes one `createdAt` parameter that all nodes share. The `main` functions and the command-line programs are not modelled.
- In tools/docsgen.py, module-level loading, the Jinja environment, `setdefault` and page rendering are not modelled. Only the file name is.
- Floats are not modelled; values are null, booleans, integers, strings, lists and dicts.
- Python's `1 == True` key equality is not modelled: keys compare structurally.
- Dict equality in the model depends on order, where Python's does not.
- `str()` of lists and dicts uses a simplified `repr` without escaping.
- Case mapping (`.upper()`, `.lower()`) is ASCII-only.
- `int()` accepts integers, booleans and decimal strings with an optional sign. It does not accept surrounding whitespace, underscores or floats.
- When several exceptions could be raised, the model fixes which one is reported. Python's exception class names are reduced to a few kinds.
- `DotDict` holds nested DotDicts by value, so aliasing between nested DotDicts is not modelled.
- Sardou.DotDict.Contains: class attributes (the method names) and reserved attribute names counted by `hasattr`/`setattr`/`delattr` are not modelled. Only instance attributes are.
- `__repr__`, `_to_json` and lists nested in lists inside a DotDict are not modelled. Lists are converted one level deep, as the source does.
- Sardou.GetQos: its own contract states only the error cases and that a non-empty result needs `raw`. The full result is stated by GetQosSteps, QosOfRaw and QosWithoutPolicies.
- Manifests.KubernetesManifests: the warning printed for empty node templates is not modelled.

## Findings

| source | as written | input that shows it | evidently intended | confidence | as-written member | corrected member |
|---|---|---|---|---|---|---|
| sardou/sardou.py:72-77 | the node templates are read from the DotDict tree, so they are a DotDict, and the loop calls `.items()` on them, which DotDict does not define (a node named `items` makes it a non-callable attribute instead) | a template whose `service_template.node_templates` is `{"web": {"type": "T"}}` | iterate the node templates as a dict and keep each node's whitelisted keys, giving `{"web": {"type": "T"}}` | not executed | Sardou.AsWrittenAlwaysRaises | Sardou.ClusterEntries |
