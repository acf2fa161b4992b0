// The Kubernetes manifest projector: every node template whose type ends
// with "Application" becomes a Deployment and, when it declares ports, a
// Service. A node whose processing raises is skipped and the others go on.

module Manifests {
  import opened Values

  const SERVICE_TEMPLATE := Str("service_template")
  const NODE_TEMPLATES := Str("node_templates")
  const TYPE := Str("type")
  const PROPERTIES := Str("properties")
  const REQUIREMENTS := Str("requirements")
  const IMAGE := Str("image")
  const REPLICAS := Str("replicas")
  const ARGS := Str("args")
  const ENV := Str("env")
  const NAME := Str("name")
  const VALUE := Str("value")
  const PORTS := Str("ports")
  const PORT := Str("port")
  const TARGET_PORT := Str("targetPort")
  const PROTOCOL := Str("protocol")
  const NODE_PORT := Str("nodePort")
  const HOST := Str("host")
  const VOLUME := Str("volume")
  const PATH := Str("path")
  const HOSTNAME := Str("kubernetes.io/hostname")
  const VOLUME_MOUNTS := Str("volumeMounts")
  const IMAGE_PULL_SECRETS := Str("imagePullSecrets")
  const NODE_SELECTOR := Str("nodeSelector")
  const CONTAINERS := Str("containers")
  const VOLUMES := Str("volumes")
  const APPLICATION: string := "Application"

  /** `v[k]` on a dict with string keys, as an Option. */
  function Field(v: Value, k: string): Option<Value> {
    if v.Map? then Lookup(v.entries, Str(k)) else None
  }

  /** Following a path of string keys through nested dicts. */
  function At(v: Value, path: seq<string>): Option<Value>
    decreases |path|
  {
    if path == [] then Some(v)
    else
      match Field(v, path[0])
      case None => None
      case Some(x) => At(x, path[1..])
  }

  // ---------------------------------------------------------------------------
  // Environment variables
  // ---------------------------------------------------------------------------

  /** An env item is kept when it is a dict with a `name`. */
  predicate IsEnvEntry(e: Value) {
    e.Map? && HasKey(e.entries, NAME)
  }

  /** `{"name": str(e["name"]), "value": str(e.get("value", ""))}`. */
  function EnvRecord(e: Value): (r: Value)
    requires IsEnvEntry(e)
    ensures !HasKey(e.entries, VALUE) ==>
      r == Dict([("name", Str(PyStr(Lookup(e.entries, NAME).value))), ("value", Str(""))])
  {
    Dict([("name", Str(PyStr(Lookup(e.entries, NAME).value))),
          ("value", Str(PyStr(GetOr(e.entries, VALUE, Str("")))))])
  }

  /** What one item contributes to the env list. */
  function EnvItem(e: Value): seq<Value> {
    if IsEnvEntry(e) then [EnvRecord(e)] else []
  }

  /** The env loop, with the list built so far. */
  function EnvFold(xs: seq<Value>, acc: seq<Value>): seq<Value>
    decreases xs
  {
    if xs == [] then acc
    else EnvFold(xs[1..], acc + EnvItem(xs[0]))
  }

  /** Reference definition: the records of the kept items, in order. */
  function EnvRecords(xs: seq<Value>): seq<Value> {
    if xs == [] then [] else EnvItem(xs[0]) + EnvRecords(xs[1..])
  }

  lemma {:induction false} EnvFoldIsRecords(xs: seq<Value>, acc: seq<Value>)
    ensures EnvFold(xs, acc) == acc + EnvRecords(xs)
    decreases xs
  {
    if xs != [] {
      var head := EnvItem(xs[0]);
      assert EnvFold(xs, acc) == EnvFold(xs[1..], acc + head);
      assert EnvRecords(xs) == head + EnvRecords(xs[1..]);
      EnvFoldIsRecords(xs[1..], acc + head);
      SeqAssoc(acc, head, EnvRecords(xs[1..]));
    }
  }

  /** Items that are not dicts with a `name` are dropped; when every item is
      one, each becomes its record, in order. */
  lemma {:induction false} EnvRecordsAll(xs: seq<Value>)
    requires forall i :: 0 <= i < |xs| ==> IsEnvEntry(xs[i])
    ensures |EnvRecords(xs)| == |xs|
    ensures forall i :: 0 <= i < |xs| ==> EnvRecords(xs)[i] == EnvRecord(xs[i])
  {
    if xs != [] {
      EnvRecordsAll(xs[1..]);
      assert forall i :: 1 <= i < |xs| ==> xs[1..][i - 1] == xs[i];
    }
  }

  lemma {:induction false} EnvRecordsNone(xs: seq<Value>)
    requires forall i :: 0 <= i < |xs| ==> !IsEnvEntry(xs[i])
    ensures EnvRecords(xs) == []
  {
    if xs != [] {
      EnvRecordsNone(xs[1..]);
      assert forall i :: 1 <= i < |xs[1..]| ==> xs[1..][i] == xs[i + 1];
    }
  }

  /** The env loop of `get_kubernetes_manifest`. */
  method EnvList(xs: seq<Value>) returns (env: seq<Value>)
    ensures env == EnvRecords(xs)
  {
    env := [];
    var i := 0;
    while i < |xs|
      invariant 0 <= i <= |xs|
      invariant EnvFold(xs[i..], env) == EnvFold(xs, [])
    {
      assert xs[i..][1..] == xs[i + 1..];
      ghost var old_env := env;
      var e := xs[i];
      if e.Map? && HasKey(e.entries, NAME) {
        env := env + [EnvRecord(e)];
      }
      assert EnvFold(xs[i..], old_env) == EnvFold(xs[i + 1..], env) by { assert env == old_env + EnvItem(e); }
      i := i + 1;
    }
    EnvFoldIsRecords(xs, []);
    assert [] + EnvRecords(xs) == EnvRecords(xs);
  }

  // ---------------------------------------------------------------------------
  // Ports
  // ---------------------------------------------------------------------------

  /** `port = int(p.get("port", p.get("targetPort")))` and
      `target = int(p.get("targetPort", port))`: each falls back to the other. */
  function PortNumbers(p: seq<Entry>): (r: Result<(int, int)>)
    ensures forall a, b :: Lookup(p, PORT) == Some(Int(a)) && Lookup(p, TARGET_PORT) == Some(Int(b)) ==> r == Ok((a, b))
    ensures forall a :: Lookup(p, PORT) == Some(Int(a)) && !HasKey(p, TARGET_PORT) ==> r == Ok((a, a))
    ensures forall b :: !HasKey(p, PORT) && Lookup(p, TARGET_PORT) == Some(Int(b)) ==> r == Ok((b, b))
    ensures !HasKey(p, PORT) && !HasKey(p, TARGET_PORT) ==> r == Err(TypeError)
  {
    var port :- PyInt(GetOr(p, PORT, GetOr(p, TARGET_PORT, Null)));
    var target :- PyInt(GetOr(p, TARGET_PORT, Int(port)));
    Ok((port, target))
  }

  /** `{"containerPort": target, "protocol": protocol}`. */
  function ContainerPort(target: int, protocol: string): Value {
    Dict([("containerPort", Int(target)), ("protocol", Str(protocol))])
  }

  /** The service port record; `nodePort` comes last and only when given. */
  function ServicePort(name: Value, port: int, target: int, protocol: string, nodePort: Option<int>): (r: Value)
    ensures r.Map?
  {
    Map([Entry(NAME, name), Entry(PORT, Int(port)), Entry(TARGET_PORT, Int(target)), Entry(PROTOCOL, Str(protocol))]
        + (if nodePort.Some? then [Entry(NODE_PORT, Int(nodePort.value))] else []))
  }

  /** The service port holds the name, both port numbers and the protocol,
      and a `nodePort` exactly when one is given. */
  lemma ServicePortFields(name: Value, port: int, target: int, protocol: string, nodePort: Option<int>)
    ensures var sp := ServicePort(name, port, target, protocol, nodePort).entries;
      && Lookup(sp, NAME) == Some(name)
      && Lookup(sp, PORT) == Some(Int(port))
      && Lookup(sp, TARGET_PORT) == Some(Int(target))
      && Lookup(sp, PROTOCOL) == Some(Str(protocol))
      && (nodePort.Some? ==> Lookup(sp, NODE_PORT) == Some(Int(nodePort.value)))
      && (nodePort.None? ==> !HasKey(sp, NODE_PORT))
  {
    ServicePortBase(name, port, target, protocol, nodePort);
    ServicePortNodePort(name, port, target, protocol, nodePort);
  }

  lemma ServicePortBase(name: Value, port: int, target: int, protocol: string, nodePort: Option<int>)
    ensures var sp := ServicePort(name, port, target, protocol, nodePort).entries;
      && Lookup(sp, NAME) == Some(name)
      && Lookup(sp, PORT) == Some(Int(port))
      && Lookup(sp, TARGET_PORT) == Some(Int(target))
      && Lookup(sp, PROTOCOL) == Some(Str(protocol))
  {
    ServicePortAt(name, port, target, protocol, nodePort, 0, NAME);
    ServicePortAt(name, port, target, protocol, nodePort, 1, PORT);
    ServicePortAt(name, port, target, protocol, nodePort, 2, TARGET_PORT);
    ServicePortAt(name, port, target, protocol, nodePort, 3, PROTOCOL);
  }

  lemma ServicePortAt(name: Value, port: int, target: int, protocol: string, nodePort: Option<int>, i: nat, k: Value)
    requires i < 4 && k == [NAME, PORT, TARGET_PORT, PROTOCOL][i]
    ensures var sp := ServicePort(name, port, target, protocol, nodePort).entries;
      Lookup(sp, k) == Some(sp[i].val)
  {
    LookupAt(ServicePort(name, port, target, protocol, nodePort).entries, i, k);
  }

  lemma ServicePortNodePort(name: Value, port: int, target: int, protocol: string, nodePort: Option<int>)
    ensures var sp := ServicePort(name, port, target, protocol, nodePort).entries;
      && (nodePort.Some? ==> Lookup(sp, NODE_PORT) == Some(Int(nodePort.value)))
      && (nodePort.None? ==> !HasKey(sp, NODE_PORT))
  {
    var sp := ServicePort(name, port, target, protocol, nodePort).entries;
    if nodePort.Some? {
      LookupAt(sp, 4, NODE_PORT);
    } else {
      NoKey(sp, NODE_PORT);
    }
  }

  /** `p.get("nodePort")`, converted only when truthy. */
  function NodePortOf(p: seq<Entry>): (r: Result<Option<int>>)
    ensures !Truthy(GetOr(p, NODE_PORT, Null)) ==> r == Ok(None)
    ensures r.Ok? && r.value.Some? ==> PyInt(GetOr(p, NODE_PORT, Null)) == Ok(r.value.value)
  {
    var nodePort := GetOr(p, NODE_PORT, Null);
    if Truthy(nodePort) then
      var np :- PyInt(nodePort);
      Ok(Some(np))
    else Ok(None)
  }

  /** `p.get("protocol", "TCP").upper()`. */
  function Protocol(p: seq<Entry>): string {
    Upper(PyStr(GetOr(p, PROTOCOL, Str("TCP"))))
  }

  /** The container port and the service port of one declared port. */
  function PortRecord(p: Value): (r: Result<(Value, Value)>)
    ensures r.Ok? <==> p.Map? && PortNumbers(p.entries).Ok? && NodePortOf(p.entries).Ok?
    ensures r.Ok? ==> r.value.0.Map? && r.value.1.Map?
  {
    if !p.Map? then Err(AttributeError)
    else
      var nums :- PortNumbers(p.entries);
      var np :- NodePortOf(p.entries);
      var name := GetOr(p.entries, NAME, Str("port-" + IntToString(nums.0)));
      Ok((ContainerPort(nums.1, Protocol(p.entries)), ServicePort(name, nums.0, nums.1, Protocol(p.entries), np)))
  }

  /** The container port exposes the target port with the upper-cased
      protocol (TCP by default). */
  lemma ContainerPortFields(p: Value)
    requires PortRecord(p).Ok?
    ensures var cp := PortRecord(p).value.0.entries;
      && Lookup(cp, Str("containerPort")) == Some(Int(PortNumbers(p.entries).value.1))
      && Lookup(cp, Str("protocol")) == Some(Str(Protocol(p.entries)))
  {
    var cp := PortRecord(p).value.0.entries;
    LookupAt(cp, 0, Str("containerPort"));
    LookupAt(cp, 1, Str("protocol"));
  }

  /** The service port is named `port-<port>` unless a name is given,
      forwards the port to the target port with the container's protocol,
      and has a `nodePort` exactly when the declared one is truthy. */
  lemma PortRecordFields(p: Value)
    requires PortRecord(p).Ok?
    ensures var nums := PortNumbers(p.entries).value;
      var sp := PortRecord(p).value.1.entries;
      && Lookup(sp, NAME) == Some(GetOr(p.entries, NAME, Str("port-" + IntToString(nums.0))))
      && Lookup(sp, PORT) == Some(Int(nums.0))
      && Lookup(sp, TARGET_PORT) == Some(Int(nums.1))
      && Lookup(sp, PROTOCOL) == Some(Str(Protocol(p.entries)))
      && (HasKey(sp, NODE_PORT) <==> Truthy(GetOr(p.entries, NODE_PORT, Null)))
  {
    var nums := PortNumbers(p.entries).value;
    var np := NodePortOf(p.entries).value;
    assert PortRecord(p).value.1 == ServicePort(GetOr(p.entries, NAME, Str("port-" + IntToString(nums.0))), nums.0, nums.1, Protocol(p.entries), np);
    ServicePortFields(GetOr(p.entries, NAME, Str("port-" + IntToString(nums.0))), nums.0, nums.1, Protocol(p.entries), np);
  }

  /** The ports loop succeeds exactly when every port does, and then the
      i-th container port and the i-th service port both come from the i-th
      declared port. */
  lemma PortListsAt(ps: seq<Value>, i: nat)
    requires i < |ps|
    ensures FoldPairs(ps, [], [], PortRecord).Ok? <==> forall j :: 0 <= j < |ps| ==> PortRecord(ps[j]).Ok?
    ensures FoldPairs(ps, [], [], PortRecord).Ok? ==>
      var r := FoldPairs(ps, [], [], PortRecord).value;
      && |r.0| == |ps| && |r.1| == |ps|
      && r.0[i] == PortRecord(ps[i]).value.0
      && r.1[i] == PortRecord(ps[i]).value.1
  {
    FoldPairsOk(ps, [], [], PortRecord);
    if FoldPairs(ps, [], [], PortRecord).Ok? {
      FoldPairsAt(ps, [], [], PortRecord, i);
    }
  }

  /** The ports loop of `get_kubernetes_manifest`: container ports and
      service ports are appended in the same pass. */
  method PortLists(ps: seq<Value>) returns (r: Result<(seq<Value>, seq<Value>)>)
    ensures r == FoldPairs(ps, [], [], PortRecord)
  {
    var containerPorts: seq<Value> := [];
    var servicePorts: seq<Value> := [];
    var i := 0;
    while i < |ps|
      invariant 0 <= i <= |ps|
      invariant FoldPairs(ps[i..], containerPorts, servicePorts, PortRecord) == FoldPairs(ps, [], [], PortRecord)
    {
      assert ps[i..][1..] == ps[i + 1..];
      var pr := PortRecord(ps[i]);
      if pr.Err? {
        return Err(pr.error);
      }
      containerPorts := containerPorts + [pr.value.0];
      servicePorts := servicePorts + [pr.value.1];
      i := i + 1;
    }
    return Ok((containerPorts, servicePorts));
  }

  // ---------------------------------------------------------------------------
  // Requirements: the node selector and host-path volumes
  // ---------------------------------------------------------------------------

  /** What the requirements loop has gathered: the node selector and, for
      every mounted volume, its name and host path. */
  datatype Placement = Placement(selector: seq<Entry>, mounts: seq<(Value, Value)>)

  /** `"host" in r` holds. */
  predicate NamesHost(r: Value) {
    In(HOST, r) == Ok(true)
  }

  /** `node_selector["kubernetes.io/hostname"] = r["host"]` when `r` names a host. */
  function HostStep(r: Value, sel: seq<Entry>): (res: Result<seq<Entry>>)
    ensures In(HOST, r) == Ok(false) ==> res == Ok(sel)
    ensures In(HOST, r) == Ok(true) && res.Ok? ==> Item(r, HOST).Ok? && Lookup(res.value, HOSTNAME) == Some(Item(r, HOST).value)
    ensures res.Ok? ==> forall k :: k != HOSTNAME ==> Lookup(res.value, k) == Lookup(sel, k)
    ensures res.Ok? ==> forall k :: HasKey(sel, k) ==> HasKey(res.value, k)
  {
    var has :- In(HOST, r);
    if has then
      var h :- Item(r, HOST);
      Ok(Put(sel, HOSTNAME, h))
    else Ok(sel)
  }

  /** The volume a requirement mounts: the name it gives and the `path`
      property of the node of that name, when that path is truthy. */
  function VolumeStep(r: Value, nts: Value): (res: Result<Option<(Value, Value)>>)
    ensures In(VOLUME, r) == Ok(false) ==> res == Ok(None)
    ensures res.Ok? && res.value.Some? ==> In(VOLUME, r) == Ok(true) && Item(r, VOLUME).Ok? && res.value.value.0 == Item(r, VOLUME).value
    ensures res.Ok? && res.value.Some? ==> Truthy(res.value.value.1)
  {
    var has :- In(VOLUME, r);
    if !has then Ok(None)
    else
      var volName :- Item(r, VOLUME);
      var volDef :- Get(nts, volName, Map([]));
      var propsV :- Get(volDef, PROPERTIES, Map([]));
      var path :- Get(propsV, PATH, Null);
      if Truthy(path) then Ok(Some((volName, path))) else Ok(None)
  }

  /** A volume requirement naming a node whose `path` property is truthy
      mounts that path under the requirement's name. */
  lemma VolumeFound(r: Value, nts: Value, volDef: Value, propsV: Value)
    requires r.Map? && nts.Map? && volDef.Map? && propsV.Map?
    requires HasKey(r.entries, VOLUME) && Hashable(Lookup(r.entries, VOLUME).value)
    requires Lookup(nts.entries, Lookup(r.entries, VOLUME).value) == Some(volDef)
    requires Lookup(volDef.entries, PROPERTIES) == Some(propsV)
    requires Truthy(GetOr(propsV.entries, PATH, Null))
    ensures VolumeStep(r, nts) == Ok(Some((Lookup(r.entries, VOLUME).value, GetOr(propsV.entries, PATH, Null))))
  {
    var n := Lookup(r.entries, VOLUME).value;
    assert In(VOLUME, r) == Ok(true);
    assert Item(r, VOLUME) == Ok(n);
    assert Get(nts, n, Map([])) == Ok(volDef);
    assert Get(volDef, PROPERTIES, Map([])) == Ok(propsV);
  }

  /** A volume requirement naming no node, or a node without a truthy
      `path`, mounts nothing. */
  lemma VolumeMissing(r: Value, nts: Value)
    requires r.Map? && nts.Map?
    requires HasKey(r.entries, VOLUME) && Hashable(Lookup(r.entries, VOLUME).value)
    requires var volDef := GetOr(nts.entries, Lookup(r.entries, VOLUME).value, Map([]));
      volDef.Map? && (var propsV := GetOr(volDef.entries, PROPERTIES, Map([]));
        propsV.Map? && !Truthy(GetOr(propsV.entries, PATH, Null)))
    ensures VolumeStep(r, nts) == Ok(None)
  {
    var n := Lookup(r.entries, VOLUME).value;
    assert In(VOLUME, r) == Ok(true);
    assert Item(r, VOLUME) == Ok(n);
    var volDef := GetOr(nts.entries, n, Map([]));
    GetIsGetOr(nts, n, Map([]));
    var propsV := GetOr(volDef.entries, PROPERTIES, Map([]));
    GetIsGetOr(volDef, PROPERTIES, Map([]));
    GetIsGetOr(propsV, PATH, Null);
  }

  /** One requirement: the host first, then the volume. */
  function ReqStep(r: Value, nts: Value, pl: Placement): Result<Placement> {
    var sel :- HostStep(r, pl.selector);
    var vol :- VolumeStep(r, nts);
    Ok(Placement(sel, if vol.Some? then pl.mounts + [vol.value] else pl.mounts))
  }

  /** A requirement succeeds when both its parts do; it updates the
      selector and appends what it mounts. */
  lemma ReqStepParts(r: Value, nts: Value, pl: Placement)
    ensures ReqStep(r, nts, pl).Ok? <==> HostStep(r, pl.selector).Ok? && VolumeStep(r, nts).Ok?
    ensures ReqStep(r, nts, pl).Ok? ==>
      ReqStep(r, nts, pl).value == Placement(HostStep(r, pl.selector).value, pl.mounts + MountOf(r, nts))
  {
    if VolumeStep(r, nts).Ok? && VolumeStep(r, nts).value.None? {
      assert pl.mounts + MountOf(r, nts) == pl.mounts;
    }
  }

  /** The requirements loop, with what was gathered so far. */
  function ReqFold(rs: seq<Value>, nts: Value, pl: Placement): (r: Result<Placement>)
    ensures r.Ok? ==> pl.mounts <= r.value.mounts
    ensures r.Ok? ==> forall k :: HasKey(pl.selector, k) ==> HasKey(r.value.selector, k)
    decreases rs
  {
    if rs == [] then Ok(pl)
    else
      var pl' :- ReqStep(rs[0], nts, pl);
      ReqFold(rs[1..], nts, pl')
  }

  /** What one requirement mounts, nothing when it mounts nothing or raises. */
  function MountOf(r: Value, nts: Value): seq<(Value, Value)> {
    var v := VolumeStep(r, nts);
    if v.Ok? && v.value.Some? then [v.value.value] else []
  }

  /** Reference definition: the mounts of the requirements, in order. */
  function MountsOf(rs: seq<Value>, nts: Value): seq<(Value, Value)> {
    if rs == [] then [] else MountOf(rs[0], nts) + MountsOf(rs[1..], nts)
  }

  /** The loop mounts, in order, exactly the volumes the requirements name. */
  lemma {:induction false} ReqFoldMounts(rs: seq<Value>, nts: Value, pl: Placement)
    requires ReqFold(rs, nts, pl).Ok?
    ensures ReqFold(rs, nts, pl).value.mounts == pl.mounts + MountsOf(rs, nts)
    decreases rs
  {
    if rs == [] {
      assert pl.mounts + [] == pl.mounts;
    } else {
      var pl' := ReqFoldFirst(rs, nts, pl);
      ReqFoldMounts(rs[1..], nts, pl');
      MountsAssoc(pl.mounts, MountOf(rs[0], nts), MountsOf(rs[1..], nts));
    }
  }

  /** The first step of a loop that succeeds. */
  lemma ReqFoldFirst(rs: seq<Value>, nts: Value, pl: Placement) returns (pl': Placement)
    requires rs != [] && ReqFold(rs, nts, pl).Ok?
    ensures ReqFold(rs[1..], nts, pl') == ReqFold(rs, nts, pl)
    ensures pl' == ReqStep(rs[0], nts, pl).value
    ensures pl'.mounts == pl.mounts + MountOf(rs[0], nts)
    ensures pl'.selector == HostStep(rs[0], pl.selector).value
  {
    pl' := ReqStep(rs[0], nts, pl).value;
    ReqStepParts(rs[0], nts, pl);
  }

  /** One step of the loop, whether it succeeds or raises. */
  lemma ReqFoldStep(rs: seq<Value>, nts: Value, pl: Placement)
    requires rs != []
    ensures ReqStep(rs[0], nts, pl).Err? ==> ReqFold(rs, nts, pl) == Err(ReqStep(rs[0], nts, pl).error)
    ensures ReqStep(rs[0], nts, pl).Ok? ==> ReqFold(rs, nts, pl) == ReqFold(rs[1..], nts, ReqStep(rs[0], nts, pl).value)
  {
  }

  /** One pass of the requirements loop over `rs[i]`: the host part may
      raise, then the volume part may raise, else the loop goes on. */
  lemma ReqLoopStep(rs: seq<Value>, i: nat, nts: Value, pl: Placement)
    requires i < |rs|
    ensures HostStep(rs[i], pl.selector).Err? ==>
      ReqFold(rs[i..], nts, pl) == Err(HostStep(rs[i], pl.selector).error)
    ensures HostStep(rs[i], pl.selector).Ok? && VolumeStep(rs[i], nts).Err? ==>
      ReqFold(rs[i..], nts, pl) == Err(VolumeStep(rs[i], nts).error)
    ensures HostStep(rs[i], pl.selector).Ok? && VolumeStep(rs[i], nts).Ok? ==>
      ReqFold(rs[i..], nts, pl)
      == ReqFold(rs[i + 1..], nts, Placement(HostStep(rs[i], pl.selector).value, pl.mounts + MountOf(rs[i], nts)))
  {
    assert rs[i..][1..] == rs[i + 1..];
    assert rs[i..][0] == rs[i];
    ReqFoldStep(rs[i..], nts, pl);
    ReqStepParts(rs[i], nts, pl);
  }

  lemma MountsAssoc(a: seq<(Value, Value)>, b: seq<(Value, Value)>, c: seq<(Value, Value)>)
    ensures (a + b) + c == a + (b + c)
  {
  }

  /** Requirements that name no host leave the selector as it was. */
  lemma {:induction false} ReqFoldNoHost(rs: seq<Value>, nts: Value, pl: Placement)
    requires ReqFold(rs, nts, pl).Ok?
    requires forall j :: 0 <= j < |rs| ==> !NamesHost(rs[j])
    ensures ReqFold(rs, nts, pl).value.selector == pl.selector
    decreases rs
  {
    if rs != [] {
      var pl' := ReqFoldFirst(rs, nts, pl);
      assert pl'.selector == pl.selector;
      assert forall j :: 0 <= j < |rs[1..]| ==> rs[1..][j] == rs[j + 1];
      ReqFoldNoHost(rs[1..], nts, pl');
    }
  }

  /** The last requirement naming a host decides `kubernetes.io/hostname`. */
  lemma {:induction false} ReqFoldLastHost(rs: seq<Value>, nts: Value, pl: Placement, i: nat)
    requires ReqFold(rs, nts, pl).Ok?
    requires i < |rs| && NamesHost(rs[i])
    requires forall j :: i < j < |rs| ==> !NamesHost(rs[j])
    ensures Item(rs[i], HOST).Ok?
    ensures Lookup(ReqFold(rs, nts, pl).value.selector, HOSTNAME) == Some(Item(rs[i], HOST).value)
    decreases rs
  {
    var pl' := ReqFoldFirst(rs, nts, pl);
    assert forall j :: 0 <= j < |rs[1..]| ==> rs[1..][j] == rs[j + 1];
    if i == 0 {
      assert pl'.selector == Put(pl.selector, HOSTNAME, Item(rs[0], HOST).value);
      ReqFoldNoHost(rs[1..], nts, pl');
    } else {
      ReqFoldLastHost(rs[1..], nts, pl', i - 1);
    }
  }

  /** Only `kubernetes.io/hostname` is ever written into the selector. */
  lemma {:induction false} ReqFoldSelectorKeys(rs: seq<Value>, nts: Value, pl: Placement)
    requires ReqFold(rs, nts, pl).Ok?
    ensures forall k :: HasKey(ReqFold(rs, nts, pl).value.selector, k) ==> HasKey(pl.selector, k) || k == HOSTNAME
    decreases rs
  {
    if rs != [] {
      var pl' := ReqFoldFirst(rs, nts, pl);
      assert forall k :: HasKey(pl'.selector, k) ==> HasKey(pl.selector, k) || k == HOSTNAME;
      ReqFoldSelectorKeys(rs[1..], nts, pl');
    }
  }

  /** `{"name": vol_name, "hostPath": {"path": path, "type": "DirectoryOrCreate"}}`. */
  function HostVolume(m: (Value, Value)): Value {
    Dict([("name", m.0), ("hostPath", Dict([("path", m.1), ("type", Str("DirectoryOrCreate"))]))])
  }

  /** `{"name": vol_name, "mountPath": path}`. */
  function VolumeMount(m: (Value, Value)): Value {
    Dict([("name", m.0), ("mountPath", m.1)])
  }

  /** The volume is a host-path volume created on demand, and its mount
      uses the same name and the same path. */
  lemma VolumeAndMount(m: (Value, Value))
    ensures Field(HostVolume(m), "name") == Some(m.0) && Field(VolumeMount(m), "name") == Some(m.0)
    ensures At(HostVolume(m), ["hostPath", "path"]) == Some(m.1)
    ensures At(HostVolume(m), ["hostPath", "type"]) == Some(Str("DirectoryOrCreate"))
    ensures Field(VolumeMount(m), "mountPath") == Some(m.1)
  {
    HostVolumeFields(m);
    VolumeMountFields(m);
  }

  lemma HostVolumeFields(m: (Value, Value))
    ensures Field(HostVolume(m), "name") == Some(m.0)
    ensures At(HostVolume(m), ["hostPath", "path"]) == Some(m.1)
    ensures At(HostVolume(m), ["hostPath", "type"]) == Some(Str("DirectoryOrCreate"))
  {
    var hp := Dict([("path", m.1), ("type", Str("DirectoryOrCreate"))]);
    LookupAt(HostVolume(m).entries, 0, NAME);
    LookupAt(HostVolume(m).entries, 1, Str("hostPath"));
    LookupAt(hp.entries, 0, PATH);
    LookupAt(hp.entries, 1, TYPE);
    assert At(HostVolume(m), ["hostPath", "path"]) == At(hp, ["path"]);
    assert At(HostVolume(m), ["hostPath", "type"]) == At(hp, ["type"]);
  }

  lemma VolumeMountFields(m: (Value, Value))
    ensures Field(VolumeMount(m), "name") == Some(m.0)
    ensures Field(VolumeMount(m), "mountPath") == Some(m.1)
  {
    LookupAt(VolumeMount(m).entries, 0, NAME);
    LookupAt(VolumeMount(m).entries, 1, Str("mountPath"));
  }

  /** The node selector, volumes and volume mounts a placement gives. */
  function Placed(r: Result<Placement>): Result<(seq<Entry>, seq<Value>, seq<Value>)> {
    if r.Ok? then Ok((r.value.selector, HostVolumes(r.value.mounts), VolumeMounts(r.value.mounts)))
    else Err(r.error)
  }

  /** One pass of the requirements loop over `rs[i]`: the host part updates
      the node selector, then the volume part appends a volume and its
      mount; `pl'` is the placement the rest of the loop starts from. */
  method PlaceRequirement(rs: seq<Value>, i: nat, nts: Value, sel: seq<Entry>, volumes: seq<Value>, volumeMounts: seq<Value>,
                          ghost mounts: seq<(Value, Value)>)
    returns (res: Result<(seq<Entry>, seq<Value>, seq<Value>)>, ghost pl': Placement)
    requires i < |rs|
    requires volumes == HostVolumes(mounts) && volumeMounts == VolumeMounts(mounts)
    ensures res.Err? ==> ReqFold(rs[i..], nts, Placement(sel, mounts)) == Err(res.error)
    ensures res.Ok? ==> ReqFold(rs[i..], nts, Placement(sel, mounts)) == ReqFold(rs[i + 1..], nts, pl')
    ensures res.Ok? ==> res.value == (pl'.selector, HostVolumes(pl'.mounts), VolumeMounts(pl'.mounts))
  {
    ReqLoopStep(rs, i, nts, Placement(sel, mounts));
    pl' := Placement(sel, mounts);
    var r := rs[i];
    var sel' := HostStep(r, sel);
    if sel'.Err? {
      return Err(sel'.error), pl';
    }
    var vol := VolumeStep(r, nts);
    if vol.Err? {
      return Err(vol.error), pl';
    }
    pl' := Placement(sel'.value, mounts + MountOf(r, nts));
    if vol.value.Some? {
      MountsSnoc(mounts, vol.value.value);
      return Ok((sel'.value, volumes + [HostVolume(vol.value.value)], volumeMounts + [VolumeMount(vol.value.value)])), pl';
    }
    assert mounts + MountOf(r, nts) == mounts;
    return Ok((sel'.value, volumes, volumeMounts)), pl';
  }

  /** The requirements loop of `get_kubernetes_manifest`: the node selector
      is updated in place and volumes and their mounts are appended. */
  method Requirements(rs: seq<Value>, nts: Value) returns (r: Result<(seq<Entry>, seq<Value>, seq<Value>)>)
    ensures r == Placed(ReqFold(rs, nts, Placement([], [])))
  {
    var nodeSelector: seq<Entry> := [];
    var volumes: seq<Value> := [];
    var volumeMounts: seq<Value> := [];
    ghost var mounts: seq<(Value, Value)> := [];
    var i := 0;
    while i < |rs|
      invariant 0 <= i <= |rs|
      invariant ReqFold(rs[i..], nts, Placement(nodeSelector, mounts)) == ReqFold(rs, nts, Placement([], []))
      invariant volumes == HostVolumes(mounts) && volumeMounts == VolumeMounts(mounts)
    {
      var next, pl' := PlaceRequirement(rs, i, nts, nodeSelector, volumes, volumeMounts, mounts);
      if next.Err? {
        return Err(next.error);
      }
      nodeSelector, volumes, volumeMounts, mounts := next.value.0, next.value.1, next.value.2, pl'.mounts;
      i := i + 1;
    }
    assert rs[i..] == [];
    return Ok((nodeSelector, volumes, volumeMounts));
  }

  // ---------------------------------------------------------------------------
  // The Deployment and the Service
  // ---------------------------------------------------------------------------

  /** The container: its name and image, then `args`, `env`, `ports` and
      `volumeMounts`, each only when non-empty. */
  function Container(name: Value, image: Value, args: Value, env: seq<Value>, cps: seq<Value>, mounts: seq<Value>): (r: Value)
    ensures r.Map?
  {
    Map([Entry(NAME, name), Entry(IMAGE, image)]
        + EntryIf(Truthy(args), ARGS, args)
        + EntryIf(env != [], ENV, List(env))
        + EntryIf(cps != [], PORTS, List(cps))
        + EntryIf(mounts != [], VOLUME_MOUNTS, List(mounts)))
  }

  /** The container carries the node's name and image, and each optional
      key exactly when its list is non-empty (`args` when truthy). */
  lemma ContainerFields(name: Value, image: Value, args: Value, env: seq<Value>, cps: seq<Value>, mounts: seq<Value>)
    ensures var c := Container(name, image, args, env, cps, mounts).entries;
      && Lookup(c, NAME) == Some(name)
      && Lookup(c, IMAGE) == Some(image)
      && (Truthy(args) ==> Lookup(c, ARGS) == Some(args)) && (!Truthy(args) ==> !HasKey(c, ARGS))
      && (env != [] ==> Lookup(c, ENV) == Some(List(env))) && (env == [] ==> !HasKey(c, ENV))
      && (cps != [] ==> Lookup(c, PORTS) == Some(List(cps))) && (cps == [] ==> !HasKey(c, PORTS))
      && (mounts != [] ==> Lookup(c, VOLUME_MOUNTS) == Some(List(mounts))) && (mounts == [] ==> !HasKey(c, VOLUME_MOUNTS))
  {
    ContainerHead(name, image, args, env, cps, mounts);
    ContainerArgs(name, image, args, env, cps, mounts);
    ContainerEnv(name, image, args, env, cps, mounts);
    ContainerPorts(name, image, args, env, cps, mounts);
    ContainerMounts(name, image, args, env, cps, mounts);
  }

  lemma ContainerHead(name: Value, image: Value, args: Value, env: seq<Value>, cps: seq<Value>, mounts: seq<Value>)
    ensures var c := Container(name, image, args, env, cps, mounts).entries;
      Lookup(c, NAME) == Some(name) && Lookup(c, IMAGE) == Some(image)
  {
    var c := Container(name, image, args, env, cps, mounts).entries;
    LookupAt(c, 0, NAME);
    LookupAt(c, 1, IMAGE);
  }

  /** The regroupings of five entry lists the container lemmas use. */
  lemma Regroup(s1: seq<Entry>, s2: seq<Entry>, s3: seq<Entry>, s4: seq<Entry>, s5: seq<Entry>)
    ensures s1 + s2 + s3 + s4 + s5 == s1 + s2 + (s3 + s4 + s5)
    ensures s1 + s2 + s3 + s4 + s5 == (s1 + s2) + s3 + (s4 + s5)
  {
  }

  lemma ContainerArgs(name: Value, image: Value, args: Value, env: seq<Value>, cps: seq<Value>, mounts: seq<Value>)
    ensures var c := Container(name, image, args, env, cps, mounts).entries;
      (Truthy(args) ==> Lookup(c, ARGS) == Some(args)) && (!Truthy(args) ==> !HasKey(c, ARGS))
  {
    var base := [Entry(NAME, name), Entry(IMAGE, image)];
    var e := EntryIf(env != [], ENV, List(env));
    var p := EntryIf(cps != [], PORTS, List(cps));
    var m := EntryIf(mounts != [], VOLUME_MOUNTS, List(mounts));
    NoKey(base, ARGS);
    NoKeyEntryIf(env != [], ENV, List(env), ARGS);
    NoKeyEntryIf(cps != [], PORTS, List(cps), ARGS);
    NoKeyEntryIf(mounts != [], VOLUME_MOUNTS, List(mounts), ARGS);
    NoKeyAppend(e, p, ARGS);
    NoKeyAppend(e + p, m, ARGS);
    var a := EntryIf(Truthy(args), ARGS, args);
    Regroup(base, a, e, p, m);
    EntryIfLookup(base, Truthy(args), ARGS, args, e + p + m);
  }

  lemma ContainerEnv(name: Value, image: Value, args: Value, env: seq<Value>, cps: seq<Value>, mounts: seq<Value>)
    ensures var c := Container(name, image, args, env, cps, mounts).entries;
      (env != [] ==> Lookup(c, ENV) == Some(List(env))) && (env == [] ==> !HasKey(c, ENV))
  {
    var base := [Entry(NAME, name), Entry(IMAGE, image)];
    var a := EntryIf(Truthy(args), ARGS, args);
    var p := EntryIf(cps != [], PORTS, List(cps));
    var m := EntryIf(mounts != [], VOLUME_MOUNTS, List(mounts));
    NoKey(base, ENV);
    NoKeyEntryIf(Truthy(args), ARGS, args, ENV);
    NoKeyEntryIf(cps != [], PORTS, List(cps), ENV);
    NoKeyEntryIf(mounts != [], VOLUME_MOUNTS, List(mounts), ENV);
    NoKeyAppend(base, a, ENV);
    NoKeyAppend(p, m, ENV);
    var e := EntryIf(env != [], ENV, List(env));
    Regroup(base, a, e, p, m);
    EntryIfLookup(base + a, env != [], ENV, List(env), p + m);
  }

  lemma ContainerPorts(name: Value, image: Value, args: Value, env: seq<Value>, cps: seq<Value>, mounts: seq<Value>)
    ensures var c := Container(name, image, args, env, cps, mounts).entries;
      (cps != [] ==> Lookup(c, PORTS) == Some(List(cps))) && (cps == [] ==> !HasKey(c, PORTS))
  {
    var base := [Entry(NAME, name), Entry(IMAGE, image)];
    var a := EntryIf(Truthy(args), ARGS, args);
    var e := EntryIf(env != [], ENV, List(env));
    var m := EntryIf(mounts != [], VOLUME_MOUNTS, List(mounts));
    NoKey(base, PORTS);
    NoKeyEntryIf(Truthy(args), ARGS, args, PORTS);
    NoKeyEntryIf(env != [], ENV, List(env), PORTS);
    NoKeyEntryIf(mounts != [], VOLUME_MOUNTS, List(mounts), PORTS);
    NoKeyAppend(base, a, PORTS);
    NoKeyAppend(base + a, e, PORTS);
    var p := EntryIf(cps != [], PORTS, List(cps));
    EntryIfLookup(base + a + e, cps != [], PORTS, List(cps), m);
  }

  lemma ContainerMounts(name: Value, image: Value, args: Value, env: seq<Value>, cps: seq<Value>, mounts: seq<Value>)
    ensures var c := Container(name, image, args, env, cps, mounts).entries;
      (mounts != [] ==> Lookup(c, VOLUME_MOUNTS) == Some(List(mounts))) && (mounts == [] ==> !HasKey(c, VOLUME_MOUNTS))
  {
    var base := [Entry(NAME, name), Entry(IMAGE, image)];
    var a := EntryIf(Truthy(args), ARGS, args);
    var e := EntryIf(env != [], ENV, List(env));
    var p := EntryIf(cps != [], PORTS, List(cps));
    NoKey(base, VOLUME_MOUNTS);
    NoKeyEntryIf(Truthy(args), ARGS, args, VOLUME_MOUNTS);
    NoKeyEntryIf(env != [], ENV, List(env), VOLUME_MOUNTS);
    NoKeyEntryIf(cps != [], PORTS, List(cps), VOLUME_MOUNTS);
    NoKeyAppend(base, a, VOLUME_MOUNTS);
    NoKeyAppend(base + a, e, VOLUME_MOUNTS);
    NoKeyAppend(base + a + e, p, VOLUME_MOUNTS);
    var m := EntryIf(mounts != [], VOLUME_MOUNTS, List(mounts));
    assert base + a + e + p + m == base + a + e + p + m + [];
    EntryIfLookup(base + a + e + p, mounts != [], VOLUME_MOUNTS, List(mounts), []);
  }

  /** `[{"name": image_pull_secret}]`. */
  function PullSecrets(secret: string): Value {
    List([Dict([("name", Str(secret))])])
  }

  /** The pod spec: the pull secrets, the node selector when non-empty, the
      one container, and the volumes when non-empty. */
  function PodSpec(secret: string, selector: seq<Entry>, container: Value, volumes: seq<Value>): (r: Value)
    ensures r.Map?
  {
    Map([Entry(IMAGE_PULL_SECRETS, PullSecrets(secret))]
        + EntryIf(selector != [], NODE_SELECTOR, Map(selector))
        + [Entry(CONTAINERS, List([container]))]
        + EntryIf(volumes != [], VOLUMES, List(volumes)))
  }

  /** The pull secrets are always exactly the given one; `nodeSelector` and
      `volumes` are there exactly when non-empty; the container list holds
      the one container. */
  lemma PodSpecFields(secret: string, selector: seq<Entry>, container: Value, volumes: seq<Value>)
    ensures var ps := PodSpec(secret, selector, container, volumes).entries;
      && Lookup(ps, IMAGE_PULL_SECRETS) == Some(PullSecrets(secret))
      && (selector != [] ==> Lookup(ps, NODE_SELECTOR) == Some(Map(selector))) && (selector == [] ==> !HasKey(ps, NODE_SELECTOR))
      && Lookup(ps, CONTAINERS) == Some(List([container]))
      && (volumes != [] ==> Lookup(ps, VOLUMES) == Some(List(volumes))) && (volumes == [] ==> !HasKey(ps, VOLUMES))
  {
    PodSpecSecrets(secret, selector, container, volumes);
    PodSpecSelector(secret, selector, container, volumes);
    PodSpecContainers(secret, selector, container, volumes);
    PodSpecVolumes(secret, selector, container, volumes);
  }

  lemma PodSpecSecrets(secret: string, selector: seq<Entry>, container: Value, volumes: seq<Value>)
    ensures Lookup(PodSpec(secret, selector, container, volumes).entries, IMAGE_PULL_SECRETS) == Some(PullSecrets(secret))
  {
    LookupAt(PodSpec(secret, selector, container, volumes).entries, 0, IMAGE_PULL_SECRETS);
  }

  lemma PodSpecSelector(secret: string, selector: seq<Entry>, container: Value, volumes: seq<Value>)
    ensures var ps := PodSpec(secret, selector, container, volumes).entries;
      (selector != [] ==> Lookup(ps, NODE_SELECTOR) == Some(Map(selector))) && (selector == [] ==> !HasKey(ps, NODE_SELECTOR))
  {
    var head := [Entry(IMAGE_PULL_SECRETS, PullSecrets(secret))];
    var c := [Entry(CONTAINERS, List([container]))];
    var v := EntryIf(volumes != [], VOLUMES, List(volumes));
    NoKey(head, NODE_SELECTOR);
    NoKey(c, NODE_SELECTOR);
    NoKeyEntryIf(volumes != [], VOLUMES, List(volumes), NODE_SELECTOR);
    NoKeyAppend(c, v, NODE_SELECTOR);
    var s := EntryIf(selector != [], NODE_SELECTOR, Map(selector));
    assert PodSpec(secret, selector, container, volumes).entries == head + s + (c + v);
    EntryIfLookup(head, selector != [], NODE_SELECTOR, Map(selector), c + v);
  }

  lemma PodSpecContainers(secret: string, selector: seq<Entry>, container: Value, volumes: seq<Value>)
    ensures Lookup(PodSpec(secret, selector, container, volumes).entries, CONTAINERS) == Some(List([container]))
  {
    var head := [Entry(IMAGE_PULL_SECRETS, PullSecrets(secret))];
    var s := EntryIf(selector != [], NODE_SELECTOR, Map(selector));
    NoKey(head, CONTAINERS);
    NoKeyEntryIf(selector != [], NODE_SELECTOR, Map(selector), CONTAINERS);
    NoKeyAppend(head, s, CONTAINERS);
    EntryIfLookup(head + s, true, CONTAINERS, List([container]), EntryIf(volumes != [], VOLUMES, List(volumes)));
  }

  lemma PodSpecVolumes(secret: string, selector: seq<Entry>, container: Value, volumes: seq<Value>)
    ensures var ps := PodSpec(secret, selector, container, volumes).entries;
      (volumes != [] ==> Lookup(ps, VOLUMES) == Some(List(volumes))) && (volumes == [] ==> !HasKey(ps, VOLUMES))
  {
    var head := [Entry(IMAGE_PULL_SECRETS, PullSecrets(secret))];
    var s := EntryIf(selector != [], NODE_SELECTOR, Map(selector));
    var c := [Entry(CONTAINERS, List([container]))];
    NoKey(head, VOLUMES);
    NoKey(c, VOLUMES);
    NoKeyEntryIf(selector != [], NODE_SELECTOR, Map(selector), VOLUMES);
    NoKeyAppend(head, s, VOLUMES);
    NoKeyAppend(head + s, c, VOLUMES);
    assert PodSpec(secret, selector, container, volumes).entries
        == (head + s + c) + EntryIf(volumes != [], VOLUMES, List(volumes)) + [];
    EntryIfLookup(head + s + c, volumes != [], VOLUMES, List(volumes), []);
  }

  /** `{"app": name}`. */
  function AppLabel(name: Value): Value {
    Dict([("app", name)])
  }

  /** The Deployment, keys in the standard order. */
  function Deployment(name: Value, replicas: int, pod: Value): (r: Value)
    ensures r.Map? && |r.entries| == 4
  {
    Dict([("apiVersion", Str("apps/v1")),
          ("kind", Str("Deployment")),
          ("metadata", Dict([("name", name)])),
          ("spec", DeploymentSpec(name, replicas, pod))])
  }

  function DeploymentSpec(name: Value, replicas: int, pod: Value): Value {
    Dict([("replicas", Int(replicas)),
          ("selector", Dict([("matchLabels", AppLabel(name))])),
          ("template", Dict([("metadata", Dict([("labels", AppLabel(name))])), ("spec", pod)]))])
  }

  /** A Deployment in `apps/v1` named after the node, with the given
      replicas, whose selector and pod labels are both `app: <name>` and
      whose pod template holds the pod spec. */
  lemma DeploymentFields(name: Value, replicas: int, pod: Value)
    ensures var d := Deployment(name, replicas, pod);
      && At(d, ["apiVersion"]) == Some(Str("apps/v1"))
      && At(d, ["kind"]) == Some(Str("Deployment"))
      && At(d, ["metadata", "name"]) == Some(name)
      && At(d, ["spec", "replicas"]) == Some(Int(replicas))
      && At(d, ["spec", "selector", "matchLabels", "app"]) == Some(name)
      && At(d, ["spec", "template", "metadata", "labels", "app"]) == Some(name)
      && At(d, ["spec", "template", "spec"]) == Some(pod)
  {
    DeploymentKind(name, replicas, pod);
    DeploymentName(name, replicas, pod);
    DeploymentReplicas(name, replicas, pod);
    DeploymentSelector(name, replicas, pod);
    DeploymentLabels(name, replicas, pod);
    DeploymentPod(name, replicas, pod);
  }

  lemma DeploymentKind(name: Value, replicas: int, pod: Value)
    ensures var d := Deployment(name, replicas, pod);
      At(d, ["apiVersion"]) == Some(Str("apps/v1")) && At(d, ["kind"]) == Some(Str("Deployment"))
  {
    var d := Deployment(name, replicas, pod);
    LookupAt(d.entries, 0, Str("apiVersion"));
    LookupAt(d.entries, 1, Str("kind"));
  }

  lemma DeploymentName(name: Value, replicas: int, pod: Value)
    ensures At(Deployment(name, replicas, pod), ["metadata", "name"]) == Some(name)
  {
    var d := Deployment(name, replicas, pod);
    var md := Dict([("name", name)]);
    LookupAt(d.entries, 2, Str("metadata"));
    LookupAt(md.entries, 0, NAME);
    assert At(d, ["metadata", "name"]) == At(md, ["name"]);
  }

  lemma DeploymentSpecAt(name: Value, replicas: int, pod: Value)
    ensures Field(Deployment(name, replicas, pod), "spec") == Some(DeploymentSpec(name, replicas, pod))
  {
    LookupAt(Deployment(name, replicas, pod).entries, 3, Str("spec"));
  }

  lemma DeploymentReplicas(name: Value, replicas: int, pod: Value)
    ensures At(Deployment(name, replicas, pod), ["spec", "replicas"]) == Some(Int(replicas))
  {
    var spec := DeploymentSpec(name, replicas, pod);
    DeploymentSpecAt(name, replicas, pod);
    assert At(Deployment(name, replicas, pod), ["spec", "replicas"]) == At(spec, ["replicas"]);
    LookupAt(spec.entries, 0, Str("replicas"));
  }

  lemma DeploymentSelector(name: Value, replicas: int, pod: Value)
    ensures At(Deployment(name, replicas, pod), ["spec", "selector", "matchLabels", "app"]) == Some(name)
  {
    var spec := DeploymentSpec(name, replicas, pod);
    var sel := Dict([("matchLabels", AppLabel(name))]);
    DeploymentSpecAt(name, replicas, pod);
    assert At(Deployment(name, replicas, pod), ["spec", "selector", "matchLabels", "app"])
        == At(spec, ["selector", "matchLabels", "app"]);
    LookupAt(spec.entries, 1, Str("selector"));
    assert At(spec, ["selector", "matchLabels", "app"]) == At(sel, ["matchLabels", "app"]);
    LookupAt(sel.entries, 0, Str("matchLabels"));
    assert At(sel, ["matchLabels", "app"]) == At(AppLabel(name), ["app"]);
    LookupAt(AppLabel(name).entries, 0, Str("app"));
  }

  lemma DeploymentTemplate(name: Value, replicas: int, pod: Value)
    ensures At(Deployment(name, replicas, pod), ["spec", "template"])
         == Some(Dict([("metadata", Dict([("labels", AppLabel(name))])), ("spec", pod)]))
  {
    var spec := DeploymentSpec(name, replicas, pod);
    DeploymentSpecAt(name, replicas, pod);
    assert At(Deployment(name, replicas, pod), ["spec", "template"]) == At(spec, ["template"]);
    LookupAt(spec.entries, 2, Str("template"));
  }

  lemma DeploymentLabels(name: Value, replicas: int, pod: Value)
    ensures At(Deployment(name, replicas, pod), ["spec", "template", "metadata", "labels", "app"]) == Some(name)
  {
    var md := Dict([("labels", AppLabel(name))]);
    var tmpl := Dict([("metadata", md), ("spec", pod)]);
    DeploymentTemplate(name, replicas, pod);
    AtAppend(Deployment(name, replicas, pod), ["spec", "template"], ["metadata", "labels", "app"]);
    LookupAt(tmpl.entries, 0, Str("metadata"));
    assert At(tmpl, ["metadata", "labels", "app"]) == At(md, ["labels", "app"]);
    LookupAt(md.entries, 0, Str("labels"));
    assert At(md, ["labels", "app"]) == At(AppLabel(name), ["app"]);
    LookupAt(AppLabel(name).entries, 0, Str("app"));
  }

  lemma DeploymentPod(name: Value, replicas: int, pod: Value)
    ensures At(Deployment(name, replicas, pod), ["spec", "template", "spec"]) == Some(pod)
  {
    var tmpl := Dict([("metadata", Dict([("labels", AppLabel(name))])), ("spec", pod)]);
    DeploymentTemplate(name, replicas, pod);
    AtAppend(Deployment(name, replicas, pod), ["spec", "template"], ["spec"]);
    LookupAt(tmpl.entries, 1, Str("spec"));
  }

  /** Following a path in two pieces. */
  lemma {:induction false} AtAppend(v: Value, p: seq<string>, q: seq<string>)
    ensures At(v, p + q) == if At(v, p).Some? then At(At(v, p).value, q) else None
    decreases |p|
  {
    if p == [] {
      assert p + q == q;
    } else {
      assert (p + q)[0] == p[0] && (p + q)[1..] == p[1..] + q;
      if Field(v, p[0]).Some? {
        AtAppend(Field(v, p[0]).value, p[1..], q);
      }
    }
  }

  /** `any("nodePort" in p for p in service_ports)`. */
  predicate AnyNodePort(sps: seq<Value>) {
    exists i :: 0 <= i < |sps| && In(NODE_PORT, sps[i]) == Ok(true)
  }

  /** The Service, exposing the service ports of the node's pods. */
  function Service(name: Value, sps: seq<Value>): (r: Value)
    ensures r.Map? && |r.entries| == 4
  {
    Dict([("apiVersion", Str("v1")),
          ("kind", Str("Service")),
          ("metadata", Dict([("name", name)])),
          ("spec", ServiceSpec(name, sps))])
  }

  /** A `v1` Service named after the node, selecting `app: <name>`, with
      the service ports, of type NodePort exactly when one of the ports has a
      `nodePort`, and ClusterIP otherwise. */
  lemma ServiceFields(name: Value, sps: seq<Value>)
    ensures var s := Service(name, sps);
      && At(s, ["apiVersion"]) == Some(Str("v1"))
      && At(s, ["kind"]) == Some(Str("Service"))
      && At(s, ["metadata", "name"]) == Some(name)
      && At(s, ["spec", "type"]) == Some(Str(if AnyNodePort(sps) then "NodePort" else "ClusterIP"))
      && At(s, ["spec", "selector", "app"]) == Some(name)
      && At(s, ["spec", "ports"]) == Some(List(sps))
  {
    ServiceKind(name, sps);
    ServiceName(name, sps);
    ServiceType(name, sps);
    ServiceSelector(name, sps);
    ServicePorts(name, sps);
  }

  lemma ServiceKind(name: Value, sps: seq<Value>)
    ensures var s := Service(name, sps);
      At(s, ["apiVersion"]) == Some(Str("v1")) && At(s, ["kind"]) == Some(Str("Service"))
  {
    var s := Service(name, sps);
    LookupAt(s.entries, 0, Str("apiVersion"));
    LookupAt(s.entries, 1, Str("kind"));
  }

  lemma ServiceName(name: Value, sps: seq<Value>)
    ensures At(Service(name, sps), ["metadata", "name"]) == Some(name)
  {
    var s := Service(name, sps);
    var md := Dict([("name", name)]);
    LookupAt(s.entries, 2, Str("metadata"));
    LookupAt(md.entries, 0, NAME);
    assert At(s, ["metadata", "name"]) == At(md, ["name"]);
  }

  /** NodePort when some port asks for a node port, ClusterIP otherwise. */
  function ServiceTypeName(sps: seq<Value>): string {
    if AnyNodePort(sps) then "NodePort" else "ClusterIP"
  }

  /** The `spec` of the Service. */
  function ServiceSpec(name: Value, sps: seq<Value>): Value {
    Dict([("type", Str(ServiceTypeName(sps))),
          ("selector", AppLabel(name)),
          ("ports", List(sps))])
  }

  lemma ServiceSpecAt(name: Value, sps: seq<Value>)
    ensures Field(Service(name, sps), "spec") == Some(ServiceSpec(name, sps))
  {
    LookupAt(Service(name, sps).entries, 3, Str("spec"));
  }

  lemma ServiceType(name: Value, sps: seq<Value>)
    ensures At(Service(name, sps), ["spec", "type"]) == Some(Str(ServiceTypeName(sps)))
  {
    var spec := ServiceSpec(name, sps);
    ServiceSpecAt(name, sps);
    assert At(Service(name, sps), ["spec", "type"]) == At(spec, ["type"]);
    LookupAt(spec.entries, 0, TYPE);
  }

  lemma ServiceSelector(name: Value, sps: seq<Value>)
    ensures At(Service(name, sps), ["spec", "selector", "app"]) == Some(name)
  {
    var spec := ServiceSpec(name, sps);
    ServiceSpecAt(name, sps);
    assert At(Service(name, sps), ["spec", "selector", "app"]) == At(spec, ["selector", "app"]);
    LookupAt(spec.entries, 1, Str("selector"));
    assert At(spec, ["selector", "app"]) == At(AppLabel(name), ["app"]);
    LookupAt(AppLabel(name).entries, 0, Str("app"));
  }

  lemma ServicePorts(name: Value, sps: seq<Value>)
    ensures At(Service(name, sps), ["spec", "ports"]) == Some(List(sps))
  {
    var spec := ServiceSpec(name, sps);
    ServiceSpecAt(name, sps);
    assert At(Service(name, sps), ["spec", "ports"]) == At(spec, ["ports"]);
    LookupAt(spec.entries, 2, PORTS);
  }

  /** The service is of type NodePort exactly when some declared port has a
      truthy `nodePort`. */
  lemma ServiceTypeByPorts(ps: seq<Value>)
    requires FoldPairs(ps, [], [], PortRecord).Ok?
    ensures forall i :: 0 <= i < |ps| ==> ps[i].Map?
    ensures ServiceTypeName(FoldPairs(ps, [], [], PortRecord).value.1) == "NodePort"
        <==> exists i :: 0 <= i < |ps| && Truthy(GetOr(ps[i].entries, NODE_PORT, Null))
  {
    var sps := FoldPairs(ps, [], [], PortRecord).value.1;
    FoldPairsKeeps(ps, [], [], PortRecord);
    forall i | 0 <= i < |ps|
      ensures ps[i].Map? && In(NODE_PORT, sps[i]) == Ok(Truthy(GetOr(ps[i].entries, NODE_PORT, Null)))
    {
      PortNodePort(ps, i);
    }
    if AnyNodePort(sps) {
      var i :| 0 <= i < |sps| && In(NODE_PORT, sps[i]) == Ok(true);
      assert Truthy(GetOr(ps[i].entries, NODE_PORT, Null));
    }
  }

  /** The i-th service port has `nodePort` exactly when the i-th declared
      port's is truthy. */
  lemma PortNodePort(ps: seq<Value>, i: nat)
    requires FoldPairs(ps, [], [], PortRecord).Ok? && i < |ps|
    ensures |FoldPairs(ps, [], [], PortRecord).value.1| == |ps|
    ensures ps[i].Map?
    ensures In(NODE_PORT, FoldPairs(ps, [], [], PortRecord).value.1[i]) == Ok(Truthy(GetOr(ps[i].entries, NODE_PORT, Null)))
  {
    PortListsAt(ps, i);
    PortRecordFields(ps[i]);
  }

  // ---------------------------------------------------------------------------
  // One node template
  // ---------------------------------------------------------------------------

  /** `node.get("type", "").endswith("Application")`; a node that is not a
      dict, or whose type is not a string, raises AttributeError. */
  function IsApplication(node: Value): (r: Result<bool>)
    ensures r.Ok? <==> node.Map? && GetOr(node.entries, TYPE, Str("")).Str?
    ensures r.Ok? ==> (r.value <==> EndsWith(GetOr(node.entries, TYPE, Str("")).s, APPLICATION))
  {
    var t :- Get(node, TYPE, Str(""));
    if t.Str? then Ok(EndsWith(t.s, APPLICATION)) else Err(AttributeError)
  }

  /** The straight-line reads of a node: its image, replicas and args, the
      items of its env and ports lists, and its requirements. */
  datatype Settings = Settings(image: Value, replicas: int, args: Value, env: seq<Value>, ports: seq<Value>, reqs: Value)

  /** The node's `properties`, `{}` when missing or falsy. */
  function Props(node: Value): (r: Result<Value>)
    ensures r.Ok? <==> node.Map?
  {
    var props :- Get(node, PROPERTIES, Map([]));
    Ok(Or(props, Map([])))
  }

  /** `props.get("image")`, which must be truthy. */
  function Image(props: Value): (r: Result<Value>)
    ensures r.Ok? <==> props.Map? && Truthy(GetOr(props.entries, IMAGE, Null))
    ensures r.Ok? ==> Some(r.value) == Lookup(props.entries, IMAGE)
  {
    var image :- Get(props, IMAGE, Null);
    if Truthy(image) then Ok(image) else Err(ValueError)
  }

  /** `int(props.get("replicas", 1))`. */
  function Replicas(props: Value): (r: Result<int>)
    requires props.Map?
    ensures !HasKey(props.entries, REPLICAS) ==> r == Ok(1)
    ensures forall n :: Lookup(props.entries, REPLICAS) == Some(Int(n)) ==> r == Ok(n)
  {
    PyInt(GetOr(props.entries, REPLICAS, Int(1)))
  }

  /** The items of `props.get(k, []) or []`. */
  function ListItems(props: Value, k: Value): (r: Result<seq<Value>>)
    requires props.Map? && Hashable(k)
    ensures !HasKey(props.entries, k) ==> r == Ok([])
    ensures forall xs :: Lookup(props.entries, k) == Some(List(xs)) ==> r == Ok(xs)
  {
    Iterate(Or(GetOr(props.entries, k, List([])), List([])))
  }

  /** Everything read from `node` before the ports loop, in the order the
      source reads it; the requirements are iterated only after the ports. */
  function NodeSettings(node: Value): (r: Result<Settings>)
    ensures r.Ok? ==> Props(node).Ok? && Props(node).value.Map?
    ensures r.Ok? ==> Some(r.value.image) == Lookup(Props(node).value.entries, IMAGE) && Truthy(r.value.image)
    ensures r.Ok? ==> Replicas(Props(node).value) == Ok(r.value.replicas)
    ensures r.Ok? ==> ListItems(Props(node).value, ENV) == Ok(r.value.env)
    ensures r.Ok? ==> ListItems(Props(node).value, PORTS) == Ok(r.value.ports)
  {
    var props :- Props(node);
    var reqs :- Get(node, REQUIREMENTS, List([]));
    var image :- Image(props);
    var replicas :- Replicas(props);
    var args := GetOr(props.entries, ARGS, List([]));
    var envs :- ListItems(props, ENV);
    var portItems :- ListItems(props, PORTS);
    Ok(Settings(image, replicas, Or(args, List([])), envs, portItems, Or(reqs, List([]))))
  }

  /** What a node's manifests are built from. */
  datatype Parts = Parts(settings: Settings, env: seq<Value>, containerPorts: seq<Value>, servicePorts: seq<Value>,
                         selector: seq<Entry>, volumes: seq<Value>, volumeMounts: seq<Value>)

  /** The reads, then the env, ports and requirements loops. */
  function NodeParts(node: Value, nts: Value): (r: Result<Parts>)
    ensures r.Ok? ==> NodeSettings(node).Ok? && r.value.settings == NodeSettings(node).value
    ensures r.Ok? ==> |r.value.servicePorts| == |r.value.containerPorts| == |r.value.settings.ports|
    ensures r.Ok? ==> FoldPairs(r.value.settings.ports, [], [], PortRecord) == Ok((r.value.containerPorts, r.value.servicePorts))
  {
    var s :- NodeSettings(node);
    var pr :- FoldPairs(s.ports, [], [], PortRecord);
    var rs :- Iterate(s.reqs);
    var pl :- ReqFold(rs, nts, Placement([], []));
    FoldPairsKeeps(s.ports, [], [], PortRecord);
    Ok(Parts(s, EnvRecords(s.env), pr.0, pr.1, pl.selector, HostVolumes(pl.mounts), VolumeMounts(pl.mounts)))
  }

  /** The volumes of the mounts, in order. */
  function HostVolumes(ms: seq<(Value, Value)>): (r: seq<Value>)
    ensures |r| == |ms| && forall j :: 0 <= j < |ms| ==> r[j] == HostVolume(ms[j])
  {
    seq(|ms|, j requires 0 <= j < |ms| => HostVolume(ms[j]))
  }

  /** One more mount adds its volume and its volume mount at the end. */
  lemma MountsSnoc(ms: seq<(Value, Value)>, m: (Value, Value))
    ensures HostVolumes(ms + [m]) == HostVolumes(ms) + [HostVolume(m)]
    ensures VolumeMounts(ms + [m]) == VolumeMounts(ms) + [VolumeMount(m)]
  {
  }

  /** The container's volume mounts, in order. */
  function VolumeMounts(ms: seq<(Value, Value)>): (r: seq<Value>)
    ensures |r| == |ms| && forall j :: 0 <= j < |ms| ==> r[j] == VolumeMount(ms[j])
  {
    seq(|ms|, j requires 0 <= j < |ms| => VolumeMount(ms[j]))
  }

  /** The node's one container. */
  function ContainerOf(name: Value, p: Parts): Value {
    Container(name, p.settings.image, p.settings.args, p.env, p.containerPorts, p.volumeMounts)
  }

  /** The Deployment of a node built from its parts. */
  function NodeDeployment(name: Value, secret: string, p: Parts): Value {
    Deployment(name, p.settings.replicas, PodSpec(secret, p.selector, ContainerOf(name, p), p.volumes))
  }

  /** The Deployment, then the Service when there are service ports. */
  function NodeObjects(name: Value, secret: string, p: Parts): (r: seq<Value>)
    ensures 1 <= |r| <= 2 && r[0] == NodeDeployment(name, secret, p)
    ensures |r| == 2 <==> p.servicePorts != []
    ensures |r| == 2 ==> r[1] == Service(name, p.servicePorts)
  {
    [NodeDeployment(name, secret, p)] + (if p.servicePorts != [] then [Service(name, p.servicePorts)] else [])
  }

  /** The body of the `try` for one node: nothing for a node that is not
      an application, its objects otherwise, or the error it raises. */
  function NodeManifests(name: Value, node: Value, nts: Value, secret: string): Result<seq<Value>> {
    var app :- IsApplication(node);
    if !app then Ok([])
    else
      var p :- NodeParts(node, nts);
      Ok(NodeObjects(name, secret, p))
  }

  /** What a node adds to the output: a node that raises adds nothing. */
  function Contribution(e: Entry, nts: Value, secret: string): (r: seq<Value>)
    ensures |r| <= 2
  {
    var r := NodeManifests(e.key, e.val, nts, secret);
    if r.Ok? then r.value else []
  }

  /** Reference definition: the contributions of the nodes, in order. */
  function ManifestsOf(es: seq<Entry>, nts: Value, secret: string): (r: seq<Value>)
    ensures |r| <= 2 * |es|
  {
    if es == [] then [] else Contribution(es[0], nts, secret) + ManifestsOf(es[1..], nts, secret)
  }

  /** A node whose type is missing, not a string, or does not end with
      `Application`, and a node that is not a dict, contribute nothing. */
  lemma NonApplicationSkipped(e: Entry, nts: Value, secret: string)
    requires IsApplication(e.val) != Ok(true)
    ensures Contribution(e, nts, secret) == []
  {
  }

  /** A dict node without a `type` is not an application. */
  lemma UntypedNotApplication(node: Value)
    requires node.Map? && !HasKey(node.entries, TYPE)
    ensures IsApplication(node) == Ok(false)
  {
    assert !EndsWith("", APPLICATION);
  }

  /** An application whose `image` is missing or falsy raises ValueError. */
  lemma MissingImageRaises(name: Value, node: Value, nts: Value, secret: string)
    requires IsApplication(node) == Ok(true)
    requires Props(node).Ok? && Props(node).value.Map?
    requires !Truthy(GetOr(Props(node).value.entries, IMAGE, Null))
    ensures NodeManifests(name, node, nts, secret) == Err(ValueError)
  {
    SettingsWithoutImage(node);
    NodePartsSteps(node, nts);
    NodeManifestsSteps(name, node, nts, secret);
  }

  lemma SettingsWithoutImage(node: Value)
    requires node.Map? && Props(node).Ok? && Props(node).value.Map?
    requires !Truthy(GetOr(Props(node).value.entries, IMAGE, Null))
    ensures NodeSettings(node) == Err(ValueError)
  {
    assert Get(node, REQUIREMENTS, List([])).Ok?;
    assert Image(Props(node).value) == Err(ValueError);
  }

  /** A port with neither `port` nor `targetPort` makes the node raise. */
  lemma PortWithoutNumberRaises(name: Value, node: Value, nts: Value, secret: string, i: nat)
    requires IsApplication(node) == Ok(true) && NodeSettings(node).Ok?
    requires i < |NodeSettings(node).value.ports|
    requires var p := NodeSettings(node).value.ports[i];
      p.Map? && !HasKey(p.entries, PORT) && !HasKey(p.entries, TARGET_PORT)
    ensures NodeManifests(name, node, nts, secret).Err?
  {
    var ps := NodeSettings(node).value.ports;
    FoldPairsOk(ps, [], [], PortRecord);
    assert PortRecord(ps[i]).Err?;
  }

  /** `replicas` is 1 unless the properties give it. */
  lemma ReplicasDefault(node: Value)
    requires NodeSettings(node).Ok?
    requires !HasKey(Props(node).value.entries, REPLICAS)
    ensures NodeSettings(node).value.replicas == 1
  {
  }

  /** A given integer `replicas` is used as it is. */
  lemma ReplicasGiven(node: Value, n: int)
    requires NodeSettings(node).Ok?
    requires Lookup(Props(node).value.entries, REPLICAS) == Some(Int(n))
    ensures NodeSettings(node).value.replicas == n
  {
  }

  /** A successful application node yields its Deployment and then, exactly
      when it declares at least one port, its Service, whose type is
      NodePort exactly when some port has a truthy `nodePort`. */
  lemma ApplicationObjects(name: Value, node: Value, nts: Value, secret: string)
    requires IsApplication(node) == Ok(true) && NodeManifests(name, node, nts, secret).Ok?
    ensures var objs := NodeManifests(name, node, nts, secret).value;
      var s := NodeSettings(node).value;
      && NodeSettings(node).Ok?
      && (|objs| == 2 <==> s.ports != [])
      && (forall i :: 0 <= i < |s.ports| ==> s.ports[i].Map?)
      && (|objs| == 2 ==>
           (At(objs[1], ["spec", "type"]) == Some(Str("NodePort"))
            <==> exists i :: 0 <= i < |s.ports| && Truthy(GetOr(s.ports[i].entries, NODE_PORT, Null))))
  {
    NodeManifestsSteps(name, node, nts, secret);
    PartsObjects(name, secret, NodeParts(node, nts).value);
  }

  /** The objects built from parts whose service ports come from the ports
      loop. */
  lemma PartsObjects(name: Value, secret: string, p: Parts)
    requires FoldPairs(p.settings.ports, [], [], PortRecord) == Ok((p.containerPorts, p.servicePorts))
    ensures var objs := NodeObjects(name, secret, p);
      var ps := p.settings.ports;
      && (|objs| == 2 <==> ps != [])
      && (forall i :: 0 <= i < |ps| ==> ps[i].Map?)
      && (|objs| == 2 ==>
           (At(objs[1], ["spec", "type"]) == Some(Str("NodePort"))
            <==> exists i :: 0 <= i < |ps| && Truthy(GetOr(ps[i].entries, NODE_PORT, Null))))
  {
    FoldPairsKeeps(p.settings.ports, [], [], PortRecord);
    ServiceTypeByPorts(p.settings.ports);
    if p.servicePorts != [] {
      var objs := NodeObjects(name, secret, p);
      ServiceType(name, p.servicePorts);
      assert At(objs[1], ["spec", "type"]) == Some(Str(ServiceTypeName(p.servicePorts)));
    }
  }

  /** The Deployment of a successful application node is named after the
      node, has the node's replicas, always carries exactly the given pull
      secret, and holds the node's one container. */
  lemma ApplicationDeployment(name: Value, node: Value, nts: Value, secret: string)
    requires IsApplication(node) == Ok(true) && NodeManifests(name, node, nts, secret).Ok?
    ensures var d := NodeManifests(name, node, nts, secret).value[0];
      var s := NodeSettings(node).value;
      && NodeSettings(node).Ok?
      && At(d, ["metadata", "name"]) == Some(name)
      && At(d, ["spec", "replicas"]) == Some(Int(s.replicas))
      && At(d, ["spec", "template", "spec", "imagePullSecrets"]) == Some(PullSecrets(secret))
      && At(d, ["spec", "template", "spec", "containers"]) == Some(List([ContainerOf(name, NodeParts(node, nts).value)]))
  {
    NodeManifestsSteps(name, node, nts, secret);
    PartsDeployment(name, secret, NodeParts(node, nts).value);
  }

  lemma PartsDeployment(name: Value, secret: string, p: Parts)
    ensures var d := NodeDeployment(name, secret, p);
      && At(d, ["metadata", "name"]) == Some(name)
      && At(d, ["spec", "replicas"]) == Some(Int(p.settings.replicas))
      && At(d, ["spec", "template", "spec", "imagePullSecrets"]) == Some(PullSecrets(secret))
      && At(d, ["spec", "template", "spec", "containers"]) == Some(List([ContainerOf(name, p)]))
  {
    var d := NodeDeployment(name, secret, p);
    var c := ContainerOf(name, p);
    var pod := PodSpec(secret, p.selector, c, p.volumes);
    DeploymentName(name, p.settings.replicas, pod);
    DeploymentReplicas(name, p.settings.replicas, pod);
    DeploymentPod(name, p.settings.replicas, pod);
    PodSpecSecrets(secret, p.selector, c, p.volumes);
    PodSpecContainers(secret, p.selector, c, p.volumes);
    DeploymentReaches(name, p.settings.replicas, pod, "imagePullSecrets", PullSecrets(secret));
    DeploymentReaches(name, p.settings.replicas, pod, "containers", List([c]));
  }

  /** A field of the pod spec, seen from the Deployment. */
  lemma DeploymentReaches(name: Value, replicas: int, pod: Value, key: string, x: Value)
    requires Field(pod, key) == Some(x)
    ensures At(Deployment(name, replicas, pod), ["spec", "template", "spec", key]) == Some(x)
  {
    DeploymentPod(name, replicas, pod);
    AtBelow(Deployment(name, replicas, pod), ["spec", "template", "spec"], pod, key, x);
    assert ["spec", "template", "spec"] + [key] == ["spec", "template", "spec", key];
  }

  /** One more key below a path. */
  lemma AtBelow(d: Value, path: seq<string>, v: Value, key: string, x: Value)
    requires At(d, path) == Some(v) && Field(v, key) == Some(x)
    ensures At(d, path + [key]) == Some(x)
  {
    AtAppend(d, path, [key]);
    assert [key][1..] == [];
  }

  /** The output over a list of nodes is the output over its parts, one
      after the other: what one node contributes does not depend on the
      others, and a node that raises does not stop the ones after it. */
  lemma {:induction false} ManifestsOfAppend(a: seq<Entry>, b: seq<Entry>, nts: Value, secret: string)
    ensures ManifestsOf(a + b, nts, secret) == ManifestsOf(a, nts, secret) + ManifestsOf(b, nts, secret)
    decreases a
  {
    if a == [] {
      assert a + b == b;
    } else {
      assert (a + b)[0] == a[0] && (a + b)[1..] == a[1..] + b;
      ManifestsOfAppend(a[1..], b, nts, secret);
      assert Contribution(a[0], nts, secret) + (ManifestsOf(a[1..], nts, secret) + ManifestsOf(b, nts, secret))
          == (Contribution(a[0], nts, secret) + ManifestsOf(a[1..], nts, secret)) + ManifestsOf(b, nts, secret);
    }
  }

  /** One pass of the node loop. */
  lemma ManifestsOfStep(es: seq<Entry>, i: nat, nts: Value, secret: string)
    requires i < |es|
    ensures ManifestsOf(es[i..], nts, secret) == Contribution(es[i], nts, secret) + ManifestsOf(es[i + 1..], nts, secret)
  {
    assert es[i..][0] == es[i] && es[i..][1..] == es[i + 1..];
  }

  lemma ContributionIs(e: Entry, nts: Value, secret: string, m: Result<seq<Value>>)
    requires m == NodeManifests(e.key, e.val, nts, secret)
    ensures Contribution(e, nts, secret) == if m.Ok? then m.value else []
  {
  }

  lemma SeqAssoc(a: seq<Value>, b: seq<Value>, c: seq<Value>)
    ensures (a + b) + c == a + (b + c)
  {
  }

  /** How the body of the `try` ends: the type gate, then the parts. */
  lemma NodeManifestsSteps(name: Value, node: Value, nts: Value, secret: string)
    ensures IsApplication(node).Err? ==> NodeManifests(name, node, nts, secret) == Err(IsApplication(node).error)
    ensures IsApplication(node) == Ok(false) ==> NodeManifests(name, node, nts, secret) == Ok([])
    ensures IsApplication(node) == Ok(true) && NodeParts(node, nts).Err? ==>
      NodeManifests(name, node, nts, secret) == Err(NodeParts(node, nts).error)
    ensures IsApplication(node) == Ok(true) && NodeParts(node, nts).Ok? ==>
      NodeManifests(name, node, nts, secret) == Ok(NodeObjects(name, secret, NodeParts(node, nts).value))
  {
    var app := IsApplication(node);
    if app.Ok? && app.value {
      var p := NodeParts(node, nts);
      if p.Ok? {
        var objects := NodeObjects(name, secret, p.value);
        assert NodeManifests(name, node, nts, secret) == Ok(objects);
      }
    }
  }

  /** How gathering the parts ends: the reads, then each loop in turn. */
  lemma NodePartsSteps(node: Value, nts: Value)
    ensures NodeSettings(node).Err? ==> NodeParts(node, nts) == Err(NodeSettings(node).error)
    ensures NodeSettings(node).Ok? ==>
      var s := NodeSettings(node).value;
      var pr := FoldPairs(s.ports, [], [], PortRecord);
      && (pr.Err? ==> NodeParts(node, nts) == Err(pr.error))
      && (pr.Ok? && Iterate(s.reqs).Err? ==> NodeParts(node, nts) == Err(Iterate(s.reqs).error))
      && (pr.Ok? && Iterate(s.reqs).Ok? ==>
           var pl := ReqFold(Iterate(s.reqs).value, nts, Placement([], []));
           && (pl.Err? ==> NodeParts(node, nts) == Err(pl.error))
           && (pl.Ok? ==>
                NodeParts(node, nts) == Ok(Parts(s, EnvRecords(s.env), pr.value.0, pr.value.1, pl.value.selector,
                           HostVolumes(pl.value.mounts), VolumeMounts(pl.value.mounts)))))
  {
  }

  /** The env, ports and requirements loops of one application node. */
  method GatherParts(node: Value, nts: Value) returns (r: Result<Parts>)
    ensures r == NodeParts(node, nts)
  {
    NodePartsSteps(node, nts);
    var s := NodeSettings(node);
    if s.Err? {
      return Err(s.error);
    }
    var env := EnvList(s.value.env);
    var ports := PortLists(s.value.ports);
    if ports.Err? {
      return Err(ports.error);
    }
    var rs := Iterate(s.value.reqs);
    if rs.Err? {
      return Err(rs.error);
    }
    var placed := Requirements(rs.value, nts);
    if placed.Err? {
      return Err(placed.error);
    }
    return Ok(Parts(s.value, env, ports.value.0, ports.value.1, placed.value.0, placed.value.1, placed.value.2));
  }

  /** The body of the `try` for one node. */
  method NodeManifest(name: Value, node: Value, nts: Value, secret: string) returns (r: Result<seq<Value>>)
    ensures r == NodeManifests(name, node, nts, secret)
  {
    NodeManifestsSteps(name, node, nts, secret);
    var app := IsApplication(node);
    if app.Err? {
      return Err(app.error);
    }
    if !app.value {
      return Ok([]);
    }
    var parts := GatherParts(node, nts);
    if parts.Err? {
      return Err(parts.error);
    }
    var manifests := [NodeDeployment(name, secret, parts.value)];
    if parts.value.servicePorts != [] {
      manifests := manifests + [Service(name, parts.value.servicePorts)];
    } else {
      assert manifests == manifests + [];
    }
    return Ok(manifests);
  }

  // ---------------------------------------------------------------------------
  // The whole template
  // ---------------------------------------------------------------------------

  /** `get_kubernetes_manifest` on an already parsed template: the node
      templates under `service_template`, each projected in turn. */
  function KubernetesManifests(data: Value, secret: string): (r: Result<seq<Value>>)
    ensures r.Ok? <==> (data.Map? && Get(data, SERVICE_TEMPLATE, Map([])).value.Map?
      && Get(Get(data, SERVICE_TEMPLATE, Map([])).value, NODE_TEMPLATES, Map([])).value.Map?)
  {
    var st :- Get(data, SERVICE_TEMPLATE, Map([]));
    var nts :- Get(st, NODE_TEMPLATES, Map([]));
    var es :- Items(nts);
    Ok(ManifestsOf(es, nts, secret))
  }

  /** A template without node templates yields no manifests: one without
      `service_template`, or whose `service_template` is a dict without
      `node_templates`. */
  lemma NoNodeTemplates(data: Value, secret: string)
    requires data.Map?
    requires !HasKey(data.entries, SERVICE_TEMPLATE)
      || (Lookup(data.entries, SERVICE_TEMPLATE).value.Map?
          && !HasKey(Lookup(data.entries, SERVICE_TEMPLATE).value.entries, NODE_TEMPLATES))
    ensures KubernetesManifests(data, secret) == Ok([])
  {
  }

  /** The node loop: each node's `try` runs on its own, and a node that
      raises is skipped. */
  method GetKubernetesManifest(data: Value, secret: string) returns (r: Result<seq<Value>>)
    ensures r == KubernetesManifests(data, secret)
  {
    var st := Get(data, SERVICE_TEMPLATE, Map([]));
    if st.Err? {
      return Err(st.error);
    }
    var nts := Get(st.value, NODE_TEMPLATES, Map([]));
    if nts.Err? {
      return Err(nts.error);
    }
    var es := Items(nts.value);
    if es.Err? {
      return Err(es.error);
    }
    var manifests: seq<Value> := [];
    var i := 0;
    while i < |es.value|
      invariant 0 <= i <= |es.value|
      invariant manifests + ManifestsOf(es.value[i..], nts.value, secret) == ManifestsOf(es.value, nts.value, secret)
    {
      ManifestsOfStep(es.value, i, nts.value, secret);
      var m := NodeManifest(es.value[i].key, es.value[i].val, nts.value, secret);
      ghost var before := manifests;
      ContributionIs(es.value[i], nts.value, secret, m);
      if m.Ok? {
        manifests := manifests + m.value;
      } else {
        assert manifests == before + [];
      }
      SeqAssoc(before, Contribution(es.value[i], nts.value, secret), ManifestsOf(es.value[i + 1..], nts.value, secret));
      i := i + 1;
    }
    assert es.value[i..] == [];
    assert manifests + [] == manifests;
    assert KubernetesManifests(data, secret) == Ok(ManifestsOf(es.value, nts.value, secret));
    return Ok(manifests);
  }
}
