/** The capacity extractor of the processed node templates: the unwrapper of
    the tagged values written by the policy processor (`$primitive`, `$list`,
    `$map`), the test for the node that states the overall capacity, and the
    extraction of either the absolute capacity or the per-node instance
    counts, beside the flavour (per-capability properties) of every other
    node. */
module Capacities {
  import opened Values

  const PRIMITIVE: Value := Str("$primitive")
  const LIST: Value := Str("$list")
  const MAP: Value := Str("$map")
  const KEY: Value := Str("$key")
  const OVERALL: string := "OverallCapacity"
  const TYPES: Value := Str("types")
  const CAPABILITIES: Value := Str("capabilities")
  const CAPACITY: Value := Str("capacity")
  const PROPERTIES: Value := Str("properties")
  const INSTANCES: Value := Str("instances")
  const FLAVOUR: Value := Str("flavour")
  const CAPACITY_RAW: Value := Str("capacity_raw")
  const CAPACITY_FLAVOUR: Value := Str("capacity_flavour")

  // ---------------------------------------------------------------------------
  // _unwrap
  // ---------------------------------------------------------------------------

  /** `_unwrap(v)`: a dict tagged `$primitive` gives its payload as it is, one
      tagged `$list` the unwrapped items of its payload, one tagged `$map` the
      dict built from its payload's entries; the tags are tested in that
      order, and anything else is returned unchanged. */
  function Unwrap(v: Value): (r: Result<Value>)
    ensures !v.Map? ==> r == Ok(v)
    ensures v.Map? && HasKey(v.entries, PRIMITIVE) ==> r == Ok(Lookup(v.entries, PRIMITIVE).value)
    ensures v.Map? && !HasKey(v.entries, PRIMITIVE) && !HasKey(v.entries, LIST) && !HasKey(v.entries, MAP) ==> r == Ok(v)
    decreases v, 1, 0
  {
    if v.Map? then UnwrapDict(v, false) else Ok(v)
  }

  /** `_unwrap` of the dict `d`, or, when `dropKey` holds, of `d` without its
      `$key` entry (the tags differ from `$key`, so they are looked up in `d`
      itself). */
  function UnwrapDict(d: Value, dropKey: bool): (r: Result<Value>)
    requires d.Map?
    ensures HasKey(d.entries, PRIMITIVE) ==> r == Ok(Lookup(d.entries, PRIMITIVE).value)
    ensures !HasKey(d.entries, PRIMITIVE) && !HasKey(d.entries, LIST) && !HasKey(d.entries, MAP) ==>
      r == Ok(if dropKey then Map(Without(d.entries, KEY)) else d)
    decreases d, 0, 0
  {
    match Find(d.entries, PRIMITIVE)
    case Some(i) => Ok(d.entries[i].val)
    case None =>
      match Find(d.entries, LIST)
      case Some(i) => UnwrapList(d.entries[i].val)
      case None =>
        match Find(d.entries, MAP)
        case Some(i) => UnwrapMap(d.entries[i].val)
        case None => Ok(if dropKey then Map(Without(d.entries, KEY)) else d)
  }

  /** The number of things `for x in p` visits in a list or a dict. */
  function Count(p: Value): nat
    requires p.List? || p.Map?
  {
    if p.List? then |p.items| else |p.entries|
  }

  /** `[_unwrap(x) for x in p]`: the items of a list, the keys of a dict, the
      characters of a string (which unwrap to themselves). */
  function UnwrapList(p: Value): (r: Result<Value>)
    ensures p.Str? ==> r == Ok(List(Chars(p.s)))
    ensures p.Null? || p.Bool? || p.Int? ==> r == Err(TypeError)
    decreases p, 2, 0
  {
    match p
    case Str(s) => Ok(List(Chars(s)))
    case List(_) => UnwrapItems(p, 0, [])
    case Map(_) => UnwrapItems(p, 0, [])
    case _ => Err(TypeError)
  }

  function UnwrapItems(p: Value, i: nat, acc: seq<Value>): (r: Result<Value>)
    requires (p.List? || p.Map?) && i <= Count(p)
    ensures r.Ok? ==> r.value.List? && |r.value.items| == |acc| + Count(p) - i
    decreases p, 1, Count(p) - i
  {
    if i == Count(p) then Ok(List(acc))
    else
      var x := if p.List? then p.items[i] else p.entries[i].key;
      var u :- Unwrap(x);
      UnwrapItems(p, i + 1, acc + [u])
  }

  /** The dict comprehension over `p`'s entries: each must be a dict with a
      `$key`; a string payload has one-character strings as its entries, so
      only the empty string passes. */
  function UnwrapMap(p: Value): (r: Result<Value>)
    ensures p.Str? ==> r == if p.s == "" then Ok(Map([])) else Err(TypeError)
    ensures p.Null? || p.Bool? || p.Int? ==> r == Err(TypeError)
    ensures r.Ok? ==> r.value.Map? && DistinctKeys(r.value.entries)
    decreases p, 2, 0
  {
    match p
    case Str(s) => if s == "" then Ok(Map([])) else Err(TypeError)
    case List(_) => UnwrapEntries(p, 0, [])
    case Map(_) => UnwrapEntries(p, 0, [])
    case _ => Err(TypeError)
  }

  function UnwrapEntries(p: Value, i: nat, acc: seq<Entry>): (r: Result<Value>)
    requires (p.List? || p.Map?) && i <= Count(p)
    ensures r.Ok? && DistinctKeys(acc) ==> r.value.Map? && DistinctKeys(r.value.entries)
    decreases p, 1, Count(p) - i
  {
    if i == Count(p) then Ok(Map(acc))
    else
      var x := if p.List? then p.items[i] else p.entries[i].key;
      var kv :- UnwrapEntry(x);
      UnwrapEntries(p, i + 1, Put(acc, kv.key, kv.val))
  }

  /** One entry of a `$map`: `_unwrap(entry["$key"])` first, then `_unwrap` of
      the entry without `$key`, and last the key must be hashable. */
  function UnwrapEntry(e: Value): (r: Result<Entry>)
    ensures !e.Map? ==> r == Err(TypeError)
    ensures e.Map? && !HasKey(e.entries, KEY) ==> r == Err(KeyError)
    ensures r.Ok? ==> Hashable(r.value.key)
    decreases e, 2, 0
  {
    if !e.Map? then Err(TypeError)
    else match Find(e.entries, KEY)
      case None => Err(KeyError)
      case Some(j) =>
        var k :- Unwrap(e.entries[j].val);
        var v :- UnwrapDict(e, true);
        if Hashable(k) then Ok(Entry(k, v)) else Err(TypeError)
  }

  // ---------------------------------------------------------------------------
  // What _unwrap promises
  // ---------------------------------------------------------------------------

  /** The `j`-th thing `for x in p` visits in a list or a dict. */
  function Member(p: Value, j: nat): Value
    requires (p.List? || p.Map?) && j < Count(p)
  {
    if p.List? then p.items[j] else p.entries[j].key
  }

  /** Everything `for x in p` visits in a list or a dict. */
  function Members(p: Value): (xs: seq<Value>)
    requires p.List? || p.Map?
    ensures |xs| == Count(p)
  {
    if p.List? then p.items else Keys(p.entries)
  }

  /** A list of `acc` followed by what a sequence of unwraps gave, or the
      first error among them. */
  function WithPrefix(acc: seq<Value>, r: Result<seq<Value>>): Result<Value> {
    if r.Ok? then Ok(List(acc + r.value)) else Err(r.error)
  }

  lemma PrefixCons(acc: seq<Value>, u: Value, rest: Result<seq<Value>>)
    ensures WithPrefix(acc + [u], rest) ==
      WithPrefix(acc, if rest.Ok? then Ok([u] + rest.value) else Err(rest.error))
  {
    if rest.Ok? {
      assert acc + [u] + rest.value == acc + ([u] + rest.value);
    }
  }

  /** The list comprehension unwraps the members one after another. */
  lemma {:induction false} UnwrapItemsIsMap(p: Value, i: nat, acc: seq<Value>)
    requires (p.List? || p.Map?) && i <= Count(p)
    ensures UnwrapItems(p, i, acc) == WithPrefix(acc, MapEach(Members(p)[i..], Unwrap))
    decreases Count(p) - i
  {
    var xs := Members(p)[i..];
    if i < Count(p) {
      assert xs[0] == Member(p, i);
      assert xs[1..] == Members(p)[i + 1..];
      var u := Unwrap(Member(p, i));
      if u.Ok? {
        assert UnwrapItems(p, i, acc) == UnwrapItems(p, i + 1, acc + [u.value]);
        UnwrapItemsIsMap(p, i + 1, acc + [u.value]);
        var rest := MapEach(xs[1..], Unwrap);
        assert MapEach(xs, Unwrap) == if rest.Ok? then Ok([u.value] + rest.value) else Err(rest.error);
        PrefixCons(acc, u.value, rest);
      } else {
        assert UnwrapItems(p, i, acc) == Err(u.error);
        assert MapEach(xs, Unwrap) == Err(u.error);
      }
    } else {
      assert xs == [];
      assert acc + [] == acc;
    }
  }

  /** A `$list` wrapper (and no `$primitive`) unwraps to a list of the same
      length whose items are the payload's items unwrapped in order; it fails
      iff one of them fails. */
  lemma UnwrapListWrapper(v: Value, xs: seq<Value>)
    requires v.Map? && !HasKey(v.entries, PRIMITIVE) && Lookup(v.entries, LIST) == Some(List(xs))
    ensures Unwrap(v).Ok? <==> forall j :: 0 <= j < |xs| ==> Unwrap(xs[j]).Ok?
    ensures Unwrap(v).Ok? ==>
      (Unwrap(v).value.List? && |Unwrap(v).value.items| == |xs| &&
       forall j :: 0 <= j < |xs| ==> Unwrap(v).value.items[j] == Unwrap(xs[j]).value)
  {
    var p := List(xs);
    var n := Find(v.entries, LIST).value;
    assert v.entries[n].val == p;
    assert UnwrapDict(v, false) == UnwrapList(p);
    assert Unwrap(v) == UnwrapItems(p, 0, []);
    UnwrapItemsIsMap(p, 0, []);
    assert Members(p)[0..] == xs;
    MapEachOk(xs, Unwrap);
    var rs := MapEach(xs, Unwrap);
    if rs.Ok? {
      assert [] + rs.value == rs.value;
      forall j | 0 <= j < |xs| ensures rs.value[j] == Unwrap(xs[j]).value {
        MapEachAt(xs, Unwrap, j);
      }
    }
  }

  /** The comprehension assigns the unwrapped entries one after another. */
  lemma {:induction false} UnwrapEntriesIsPutAll(p: Value, i: nat, acc: seq<Entry>)
    requires (p.List? || p.Map?) && i <= Count(p)
    ensures UnwrapEntries(p, i, acc) ==
      match MapEach(Members(p)[i..], UnwrapEntry) case Ok(ps) => Ok(Map(PutAll(acc, ps))) case Err(e) => Err(e)
    decreases Count(p) - i
  {
    var xs := Members(p)[i..];
    if i < Count(p) {
      assert xs[0] == Member(p, i);
      assert xs[1..] == Members(p)[i + 1..];
      var kv := UnwrapEntry(Member(p, i));
      if kv.Ok? {
        var acc' := Put(acc, kv.value.key, kv.value.val);
        assert UnwrapEntries(p, i, acc) == UnwrapEntries(p, i + 1, acc');
        UnwrapEntriesIsPutAll(p, i + 1, acc');
        var rest := MapEach(xs[1..], UnwrapEntry);
        if rest.Ok? {
          var ps := [kv.value] + rest.value;
          assert MapEach(xs, UnwrapEntry) == Ok(ps);
          assert ps[0] == kv.value && ps[1..] == rest.value;
          assert PutAll(acc, ps) == PutAll(acc', rest.value);
        } else {
          assert MapEach(xs, UnwrapEntry) == Err(rest.error);
        }
      } else {
        assert UnwrapEntries(p, i, acc) == Err(kv.error);
        assert MapEach(xs, UnwrapEntry) == Err(kv.error);
      }
    } else {
      assert xs == [];
    }
  }

  /** What one entry of a `$map` unwraps to: its `$key`, unwrapped and
      hashable, and `_unwrap` of the entry without `$key`. */
  lemma UnwrapEntryMeaning(e: Value, k: Value, val: Value)
    ensures UnwrapEntry(e) == Ok(Entry(k, val)) <==>
      e.Map? && HasKey(e.entries, KEY) &&
      Unwrap(Lookup(e.entries, KEY).value) == Ok(k) && Hashable(k) &&
      Unwrap(Map(Without(e.entries, KEY))) == Ok(val)
  {
    if e.Map? {
      UnwrapWithoutKey(e);
    }
  }

  /** Unwrapping an entry without its `$key` is `_unwrap` of that smaller dict. */
  lemma UnwrapWithoutKey(e: Value)
    requires e.Map?
    ensures UnwrapDict(e, true) == Unwrap(Map(Without(e.entries, KEY)))
  {
    var w := Without(e.entries, KEY);
    assert Lookup(w, PRIMITIVE) == Lookup(e.entries, PRIMITIVE);
    assert Lookup(w, LIST) == Lookup(e.entries, LIST);
    assert Lookup(w, MAP) == Lookup(e.entries, MAP);
  }

  /** A `$map` wrapper (and neither `$primitive` nor `$list`) over a list of
      entries unwraps to a dict that holds exactly the unwrapped keys; an
      entry's value survives unless a later entry has the same key. It fails
      iff one of its entries fails. */
  lemma UnwrapMapWrapper(v: Value, xs: seq<Value>)
    requires v.Map? && !HasKey(v.entries, PRIMITIVE) && !HasKey(v.entries, LIST)
    requires Lookup(v.entries, MAP) == Some(List(xs))
    ensures Unwrap(v) == match MapEach(xs, UnwrapEntry) case Ok(ps) => Ok(Map(PutAll([], ps))) case Err(e) => Err(e)
    ensures Unwrap(v).Ok? <==> forall j :: 0 <= j < |xs| ==> UnwrapEntry(xs[j]).Ok?
  {
    var p := List(xs);
    var n := Find(v.entries, MAP).value;
    assert v.entries[n].val == p;
    assert UnwrapDict(v, false) == UnwrapMap(p);
    assert Unwrap(v) == UnwrapEntries(p, 0, []);
    UnwrapEntriesIsPutAll(p, 0, []);
    assert Members(p)[0..] == xs;
    MapEachOk(xs, UnwrapEntry);
  }

  /** The keys of an unwrapped `$map` are exactly the unwrapped `$key`s of its
      entries. */
  lemma UnwrapMapKeys(v: Value, xs: seq<Value>, k: Value)
    requires v.Map? && !HasKey(v.entries, PRIMITIVE) && !HasKey(v.entries, LIST)
    requires Lookup(v.entries, MAP) == Some(List(xs)) && Unwrap(v).Ok?
    ensures Unwrap(v).value.Map? && DistinctKeys(Unwrap(v).value.entries)
    ensures HasKey(Unwrap(v).value.entries, k) <==>
      exists j :: 0 <= j < |xs| && UnwrapEntry(xs[j]).Ok? && UnwrapEntry(xs[j]).value.key == k
  {
    UnwrapMapWrapper(v, xs);
    var ps := MapEach(xs, UnwrapEntry).value;
    PutAllKeys([], ps, k);
    if HasKey(ps, k) {
      var j :| 0 <= j < |ps| && Keys(ps)[j] == k;
      MapEachAt(xs, UnwrapEntry, j);
    }
    if j :| 0 <= j < |xs| && UnwrapEntry(xs[j]).Ok? && UnwrapEntry(xs[j]).value.key == k {
      MapEachAt(xs, UnwrapEntry, j);
      assert Keys(ps)[j] == k;
    }
  }

  /** Of several `$map` entries with the same unwrapped key the last one wins. */
  lemma UnwrapMapLastWins(v: Value, xs: seq<Value>, i: nat, k: Value, val: Value)
    requires v.Map? && !HasKey(v.entries, PRIMITIVE) && !HasKey(v.entries, LIST)
    requires Lookup(v.entries, MAP) == Some(List(xs)) && Unwrap(v).Ok?
    requires i < |xs| && UnwrapEntry(xs[i]) == Ok(Entry(k, val))
    requires forall j :: i < j < |xs| ==> !(UnwrapEntry(xs[j]).Ok? && UnwrapEntry(xs[j]).value.key == k)
    ensures Unwrap(v).value.Map? && Lookup(Unwrap(v).value.entries, k) == Some(val)
  {
    UnwrapMapWrapper(v, xs);
    var ps := MapEach(xs, UnwrapEntry).value;
    MapEachAt(xs, UnwrapEntry, i);
    forall j | i < j < |ps| ensures ps[j].key != ps[i].key {
      MapEachAt(xs, UnwrapEntry, j);
    }
    PutAllLast([], ps, i);
  }

  /** `_unwrap` is not idempotent: a `$primitive` payload that is itself
      tagged comes out still tagged, so a second pass changes it again. */
  lemma UnwrapNotIdempotent()
    ensures var inner := Dict([("$primitive", Int(1))]);
      var v := Dict([("$primitive", inner)]);
      Unwrap(v) == Ok(inner) && Unwrap(inner) == Ok(Int(1)) && Unwrap(v) != Unwrap(inner)
  {
    var inner := Dict([("$primitive", Int(1))]);
    var v := Dict([("$primitive", inner)]);
    assert Keys(v.entries)[0] == PRIMITIVE;
    assert Keys(inner.entries)[0] == PRIMITIVE;
  }

  // ---------------------------------------------------------------------------
  // _is_overall
  // ---------------------------------------------------------------------------

  /** `any("OverallCapacity" in t for t in names)`, which stops at the first
      name that contains it (a non-string name before that raises). */
  function AnyOverall(names: seq<Value>): Result<bool> {
    if names == [] then Ok(false)
    else
      var b :- In(Str(OVERALL), names[0]);
      if b then Ok(true) else AnyOverall(names[1..])
  }

  lemma {:induction false} AnyOverallMeaning(names: seq<Value>)
    ensures (forall i :: 0 <= i < |names| ==> names[i].Str?) ==>
      AnyOverall(names) == Ok(exists i :: 0 <= i < |names| && Contains(names[i].s, OVERALL))
    ensures AnyOverall(names) == Ok(true) ==> exists i :: 0 <= i < |names| && In(Str(OVERALL), names[i]) == Ok(true)
  {
    if names != [] {
      AnyOverallMeaning(names[1..]);
      assert forall i :: 1 <= i < |names| ==> names[1..][i - 1] == names[i];
    }
  }

  /** `_is_overall(node)`: whether a type name of the node mentions
      `OverallCapacity`; a missing or null `types` counts as none. */
  function IsOverall(node: Value): (r: Result<bool>)
    ensures r.Ok? ==> node.Map?
  {
    var types :- Get(node, TYPES, Null);
    var ts :- Items(Or(types, Map([])));
    AnyOverall(Keys(ts))
  }

  /** A node is an overall one iff one of its type names contains
      `OverallCapacity`; without `types`, or with a null one, it is not. */
  lemma IsOverallMeaning(node: Value)
    ensures !node.Map? ==> IsOverall(node) == Err(AttributeError)
    ensures node.Map? && (Lookup(node.entries, TYPES).None? || Lookup(node.entries, TYPES) == Some(Null)) ==>
      IsOverall(node) == Ok(false)
    ensures node.Map? && Lookup(node.entries, TYPES).Some? && Lookup(node.entries, TYPES).value.Map? ==>
      var ts := Lookup(node.entries, TYPES).value.entries;
      (forall i :: 0 <= i < |ts| ==> ts[i].key.Str?) ==>
        IsOverall(node) == Ok(exists i :: 0 <= i < |ts| && Contains(ts[i].key.s, OVERALL))
  {
    if node.Map? && Lookup(node.entries, TYPES).Some? && Lookup(node.entries, TYPES).value.Map? {
      var ts := Lookup(node.entries, TYPES).value.entries;
      AnyOverallMeaning(Keys(ts));
    }
  }

  // ---------------------------------------------------------------------------
  // extract_capacities
  // ---------------------------------------------------------------------------

  /** `node.get("capabilities", {}) or {}`. */
  function CapabilitiesOf(node: Value): Result<Value> {
    var caps :- Get(node, CAPABILITIES, Map([]));
    Ok(Or(caps, Map([])))
  }

  /** `node.get("capabilities", {}).get("capacity", {}).get("properties", {}) or {}`. */
  function CapacityProps(node: Value): Result<Value> {
    var caps :- Get(node, CAPABILITIES, Map([]));
    var cap :- Get(caps, CAPACITY, Map([]));
    var props :- Get(cap, PROPERTIES, Map([]));
    Ok(Or(props, Map([])))
  }

  /** `caps.get("capacity", {}).get("properties", {}).get("instances")` for the
      capabilities of a node. */
  function Instances(node: Value): Result<Value> {
    var caps :- CapabilitiesOf(node);
    var cap :- Get(caps, CAPACITY, Map([]));
    var props :- Get(cap, PROPERTIES, Map([]));
    Get(props, INSTANCES, Null)
  }

  function UnwrapStep(e: Entry): Result<Option<Value>> {
    var u :- Unwrap(e.val);
    Ok(Some(u))
  }

  /** `{k: _unwrap(v) for k, v in props.items()}`. */
  function UnwrapProps(props: Value): (r: Result<Value>)
    ensures !props.Map? ==> r == Err(AttributeError)
    ensures r.Ok? ==> r.value.Map?
  {
    var es :- Items(props);
    var u :- FoldPut(es, [], UnwrapStep);
    Ok(Map(u))
  }

  /** The absolute capacity an overall node states: its unwrapped capacity
      properties. */
  function OverallCapacity(node: Value): Result<Value> {
    var props :- CapacityProps(node);
    UnwrapProps(props)
  }

  /** The first loop: the absolute capacity of the first overall node, if
      there is one. */
  function FirstOverall(nodes: seq<Entry>): (r: Result<Option<Value>>)
    ensures r.Ok? && r.value.Some? ==> exists i :: 0 <= i < |nodes| && IsOverall(nodes[i].val) == Ok(true)
  {
    if nodes == [] then Ok(None)
    else
      var b :- IsOverall(nodes[0].val);
      if b then
        var u :- OverallCapacity(nodes[0].val);
        Ok(Some(u))
      else FirstOverall(nodes[1..])
  }

  /** What the inner loop of the second loop stores for one capability: its
      unwrapped properties, unless they are empty or it is `capacity`. */
  function CapabilityFlavour(cap: Entry): (r: Result<Option<Value>>)
    ensures r.Ok? && r.value.Some? ==> cap.key != CAPACITY
  {
    var props :- Get(cap.val, PROPERTIES, Map([]));
    var p := Or(props, Map([]));
    if Truthy(p) && cap.key != CAPACITY then
      var u :- UnwrapProps(p);
      Ok(Some(u))
    else Ok(None)
  }

  /** What the second loop stores for one node: nothing for an overall node,
      otherwise the flavours of its capabilities. */
  function NodeFlavour(node: Entry): (r: Result<Option<Value>>)
    ensures r.Ok? ==> (r.value.None? <==> IsOverall(node.val) == Ok(true))
  {
    var b :- IsOverall(node.val);
    if b then Ok(None)
    else
      var caps :- CapabilitiesOf(node.val);
      var ces :- Items(caps);
      var f :- FoldPut(ces, [], CapabilityFlavour);
      Ok(Some(Map(f)))
  }

  /** What the third loop stores for one node: its unwrapped instance count,
      or 1 when it states none. */
  function InstanceCount(node: Entry): (r: Result<Option<Value>>)
    ensures r.Ok? ==> r.value.Some?
  {
    var inst :- Instances(node.val);
    if inst != Null then
      var u :- Unwrap(inst);
      Ok(Some(u))
    else Ok(Some(Int(1)))
  }

  /** `extract_capacities(processed_nodes)`. */
  function CapacityRecord(processedNodes: Value): Result<Value> {
    var nodes :- Items(processedNodes);
    var overall :- FirstOverall(nodes);
    var flavour :- FoldPut(nodes, [], NodeFlavour);
    if overall.Some? then
      Ok(Map([Entry(FLAVOUR, Map(flavour)), Entry(CAPACITY_RAW, overall.value)]))
    else
      var counts :- FoldPut(nodes, [], InstanceCount);
      Ok(Map([Entry(FLAVOUR, Map(flavour)), Entry(CAPACITY_FLAVOUR, Map(counts))]))
  }

  /** The first loop of `extract_capacities`: search for the overall node,
      stopping at the first one. */
  method FindOverall(nodes: seq<Entry>) returns (r: Result<Option<Value>>)
    ensures r == FirstOverall(nodes)
  {
    var i := 0;
    while i < |nodes|
      invariant 0 <= i <= |nodes|
      invariant FirstOverall(nodes[i..]) == FirstOverall(nodes)
    {
      assert nodes[i..][1..] == nodes[i + 1..];
      var b := IsOverall(nodes[i].val);
      if b.Err? {
        return Err(b.error);
      }
      if b.value {
        var props := CapacityProps(nodes[i].val);
        if props.Err? {
          return Err(props.error);
        }
        var u := UnwrapProps(props.value);
        if u.Err? {
          return Err(u.error);
        }
        return Ok(Some(u.value));
      }
      i := i + 1;
    }
    return Ok(None);
  }

  /** The inner loop of the second loop: the flavour of each capability. */
  method CapabilityFlavours(ces: seq<Entry>) returns (r: Result<seq<Entry>>)
    ensures r == FoldPut(ces, [], CapabilityFlavour)
  {
    var inner: seq<Entry> := [];
    var j := 0;
    while j < |ces|
      invariant 0 <= j <= |ces|
      invariant FoldPut(ces[j..], inner, CapabilityFlavour) == FoldPut(ces, [], CapabilityFlavour)
    {
      assert ces[j..][1..] == ces[j + 1..];
      var props := Get(ces[j].val, PROPERTIES, Map([]));
      if props.Err? {
        return Err(props.error);
      }
      var p := Or(props.value, Map([]));
      if Truthy(p) && ces[j].key != CAPACITY {
        var u := UnwrapProps(p);
        if u.Err? {
          return Err(u.error);
        }
        inner := Put(inner, ces[j].key, u.value);
      }
      j := j + 1;
    }
    return Ok(inner);
  }

  /** The second loop: a flavour definition, possibly empty, for every node
      that is not an overall one. */
  method FlavourDefinitions(nodes: seq<Entry>) returns (r: Result<seq<Entry>>)
    ensures r == FoldPut(nodes, [], NodeFlavour)
  {
    var flavour: seq<Entry> := [];
    var i := 0;
    while i < |nodes|
      invariant 0 <= i <= |nodes|
      invariant FoldPut(nodes[i..], flavour, NodeFlavour) == FoldPut(nodes, [], NodeFlavour)
    {
      assert nodes[i..][1..] == nodes[i + 1..];
      var name := nodes[i].key;
      var b := IsOverall(nodes[i].val);
      if b.Err? {
        return Err(b.error);
      }
      if b.value {
        i := i + 1;
        continue;
      }
      var caps := CapabilitiesOf(nodes[i].val);
      if caps.Err? {
        return Err(caps.error);
      }
      var before := flavour;
      flavour := Put(flavour, name, Map([]));
      if !caps.value.Map? {
        return Err(AttributeError);
      }
      var inner := CapabilityFlavours(caps.value.entries);
      if inner.Err? {
        return Err(inner.error);
      }
      PutPut(before, name, Map([]), Map(inner.value));
      flavour := Put(flavour, name, Map(inner.value));
      i := i + 1;
    }
    return Ok(flavour);
  }

  /** The third loop: the instance count of every node. */
  method InstanceCounts(nodes: seq<Entry>) returns (r: Result<seq<Entry>>)
    ensures r == FoldPut(nodes, [], InstanceCount)
  {
    var counts: seq<Entry> := [];
    var i := 0;
    while i < |nodes|
      invariant 0 <= i <= |nodes|
      invariant FoldPut(nodes[i..], counts, InstanceCount) == FoldPut(nodes, [], InstanceCount)
    {
      assert nodes[i..][1..] == nodes[i + 1..];
      var inst := Instances(nodes[i].val);
      if inst.Err? {
        return Err(inst.error);
      }
      if inst.value != Null {
        var u := Unwrap(inst.value);
        if u.Err? {
          return Err(u.error);
        }
        counts := Put(counts, nodes[i].key, u.value);
      } else {
        counts := Put(counts, nodes[i].key, Int(1));
      }
      i := i + 1;
    }
    return Ok(counts);
  }

  /** `extract_capacities(processed_nodes)`. */
  method ExtractCapacities(processedNodes: Value) returns (r: Result<Value>)
    ensures r == CapacityRecord(processedNodes)
  {
    if !processedNodes.Map? {
      return Err(AttributeError);
    }
    var nodes := processedNodes.entries;
    var overall := FindOverall(nodes);
    if overall.Err? {
      return Err(overall.error);
    }
    var flavour := FlavourDefinitions(nodes);
    if flavour.Err? {
      return Err(flavour.error);
    }
    if overall.value.Some? {
      return Ok(Map([Entry(FLAVOUR, Map(flavour.value)), Entry(CAPACITY_RAW, overall.value.value)]));
    }
    var counts := InstanceCounts(nodes);
    if counts.Err? {
      return Err(counts.error);
    }
    return Ok(Map([Entry(FLAVOUR, Map(flavour.value)), Entry(CAPACITY_FLAVOUR, Map(counts.value))]));
  }

  // ---------------------------------------------------------------------------
  // What extract_capacities promises
  // ---------------------------------------------------------------------------

  /** Unwrapping a dict of properties keeps every key and unwraps its value;
      it fails iff one of the values fails. */
  lemma UnwrapPropsAt(props: Value, i: nat)
    requires props.Map? && DistinctKeys(props.entries) && i < |props.entries|
    ensures UnwrapProps(props).Ok? <==> forall j :: 0 <= j < |props.entries| ==> Unwrap(props.entries[j].val).Ok?
    ensures UnwrapProps(props).Ok? ==>
      Lookup(UnwrapProps(props).value.entries, props.entries[i].key) == Some(Unwrap(props.entries[i].val).value)
    ensures UnwrapProps(props).Ok? ==>
      forall k :: HasKey(UnwrapProps(props).value.entries, k) ==> HasKey(props.entries, k)
  {
    var es := props.entries;
    FoldPutOk(es, [], UnwrapStep);
    if UnwrapProps(props).Ok? {
      FoldPutLookup(es, UnwrapStep, i);
      FoldPutKeys(es, UnwrapStep);
    }
  }

  /** The search finds nothing iff no node is an overall one. */
  lemma {:induction false} FirstOverallNone(nodes: seq<Entry>)
    ensures FirstOverall(nodes) == Ok(None) <==> forall i :: 0 <= i < |nodes| ==> IsOverall(nodes[i].val) == Ok(false)
  {
    if nodes != [] {
      FirstOverallNone(nodes[1..]);
      assert forall i :: 1 <= i < |nodes| ==> nodes[1..][i - 1] == nodes[i];
    }
  }

  /** A found capacity comes from the first overall node. */
  lemma {:induction false} FirstOverallSome(nodes: seq<Entry>) returns (i: nat)
    requires FirstOverall(nodes).Ok? && FirstOverall(nodes).value.Some?
    ensures i < |nodes| && IsOverall(nodes[i].val) == Ok(true)
    ensures forall j :: 0 <= j < i ==> IsOverall(nodes[j].val) == Ok(false)
    ensures OverallCapacity(nodes[i].val) == Ok(FirstOverall(nodes).value.value)
  {
    if IsOverall(nodes[0].val) == Ok(true) {
      i := 0;
    } else {
      var k := FirstOverallSome(nodes[1..]);
      i := k + 1;
      assert nodes[1..][k] == nodes[i];
      forall j | 0 <= j < i ensures IsOverall(nodes[j].val) == Ok(false) {
        if j > 0 {
          assert nodes[1..][j - 1] == nodes[j];
        }
      }
    }
  }

  /** The search stops at the first overall node and takes its capacity. */
  lemma {:induction false} FirstOverallAt(nodes: seq<Entry>, i: nat)
    requires i < |nodes| && IsOverall(nodes[i].val) == Ok(true)
    requires forall j :: 0 <= j < i ==> IsOverall(nodes[j].val) == Ok(false)
    ensures FirstOverall(nodes) == match OverallCapacity(nodes[i].val) case Ok(u) => Ok(Some(u)) case Err(e) => Err(e)
  {
    if i > 0 {
      assert forall j :: 0 <= j < i - 1 ==> nodes[1..][j] == nodes[j + 1];
      FirstOverallAt(nodes[1..], i - 1);
    }
  }

  /** A result always holds `flavour` first and then exactly one of
      `capacity_raw`, when some node is an overall one, and
      `capacity_flavour`, when none is. */
  lemma CapacitiesShape(processedNodes: Value)
    requires CapacityRecord(processedNodes).Ok?
    ensures processedNodes.Map?
    ensures var r := CapacityRecord(processedNodes).value;
      r.Map? && |r.entries| == 2 && r.entries[0].key == FLAVOUR &&
      (r.entries[1].key == CAPACITY_RAW <==>
        exists i :: 0 <= i < |processedNodes.entries| && IsOverall(processedNodes.entries[i].val) == Ok(true)) &&
      (r.entries[1].key == CAPACITY_FLAVOUR <==>
        !exists i :: 0 <= i < |processedNodes.entries| && IsOverall(processedNodes.entries[i].val) == Ok(true))
  {
    var nodes := processedNodes.entries;
    AllJudged(processedNodes);
    FirstOverallNone(nodes);
    RecordCases(processedNodes);
    if FirstOverall(nodes).value.Some? {
      var i := FirstOverallSome(nodes);
    }
  }

  /** The two forms a result takes. */
  lemma RecordCases(processedNodes: Value)
    requires CapacityRecord(processedNodes).Ok?
    ensures processedNodes.Map?
    ensures FirstOverall(processedNodes.entries).Ok? && FoldPut(processedNodes.entries, [], NodeFlavour).Ok?
    ensures var overall := FirstOverall(processedNodes.entries).value;
      var flavour := Map(FoldPut(processedNodes.entries, [], NodeFlavour).value);
      (overall.Some? ==> CapacityRecord(processedNodes).value == Map([Entry(FLAVOUR, flavour), Entry(CAPACITY_RAW, overall.value)])) &&
      (overall.None? ==>
        (FoldPut(processedNodes.entries, [], InstanceCount).Ok? &&
         CapacityRecord(processedNodes).value ==
           Map([Entry(FLAVOUR, flavour), Entry(CAPACITY_FLAVOUR, Map(FoldPut(processedNodes.entries, [], InstanceCount).value))])))
  {
  }


  /** A result means every node was tested for being an overall one. */
  lemma AllJudged(processedNodes: Value)
    requires CapacityRecord(processedNodes).Ok?
    ensures processedNodes.Map?
    ensures forall i :: 0 <= i < |processedNodes.entries| ==> IsOverall(processedNodes.entries[i].val).Ok?
  {
    var nodes := processedNodes.entries;
    FoldPutOk(nodes, [], NodeFlavour);
    forall i | 0 <= i < |nodes| ensures IsOverall(nodes[i].val).Ok? {
      assert NodeFlavour(nodes[i]).Ok?;
    }
  }

  /** With several overall nodes only the first supplies `capacity_raw`, even
      when its capacity properties are empty. */
  lemma CapacityRawFromFirst(processedNodes: Value, i: nat)
    requires CapacityRecord(processedNodes).Ok? && processedNodes.Map?
    requires i < |processedNodes.entries| && IsOverall(processedNodes.entries[i].val) == Ok(true)
    requires forall j :: 0 <= j < i ==> IsOverall(processedNodes.entries[j].val) == Ok(false)
    ensures OverallCapacity(processedNodes.entries[i].val).Ok?
    ensures CapacityRecord(processedNodes).value ==
      Map([Entry(FLAVOUR, Map(FoldPut(processedNodes.entries, [], NodeFlavour).value)),
           Entry(CAPACITY_RAW, OverallCapacity(processedNodes.entries[i].val).value)])
  {
    FirstOverallAt(processedNodes.entries, i);
    RecordCases(processedNodes);
  }

  /** The second loop gives no entry to an overall node and, to every other
      node, the dict its capability loop builds. */
  lemma FlavourAt(nodes: seq<Entry>, i: nat)
    requires DistinctKeys(nodes) && FoldPut(nodes, [], NodeFlavour).Ok? && i < |nodes|
    ensures IsOverall(nodes[i].val).Ok?
    ensures IsOverall(nodes[i].val).value ==> !HasKey(FoldPut(nodes, [], NodeFlavour).value, nodes[i].key)
    ensures !IsOverall(nodes[i].val).value ==>
      CapabilitiesOf(nodes[i].val).Ok? && CapabilitiesOf(nodes[i].val).value.Map? &&
      FoldPut(CapabilitiesOf(nodes[i].val).value.entries, [], CapabilityFlavour).Ok? &&
      Lookup(FoldPut(nodes, [], NodeFlavour).value, nodes[i].key) ==
        Some(Map(FoldPut(CapabilitiesOf(nodes[i].val).value.entries, [], CapabilityFlavour).value))
  {
    FoldPutLookup(nodes, NodeFlavour, i);
  }

  /** The flavour of a node holds exactly its capabilities other than
      `capacity` whose properties are non-empty, unwrapped. */
  lemma CapabilityFlavourAt(ces: seq<Entry>, j: nat)
    requires DistinctKeys(ces) && FoldPut(ces, [], CapabilityFlavour).Ok? && j < |ces|
    ensures forall k :: HasKey(FoldPut(ces, [], CapabilityFlavour).value, k) ==> HasKey(ces, k)
    ensures !HasKey(FoldPut(ces, [], CapabilityFlavour).value, CAPACITY)
    ensures Get(ces[j].val, PROPERTIES, Map([])).Ok?
    ensures var props := Or(Get(ces[j].val, PROPERTIES, Map([])).value, Map([]));
      var f := FoldPut(ces, [], CapabilityFlavour).value;
      (!Truthy(props) ==> !HasKey(f, ces[j].key)) &&
      (Truthy(props) && ces[j].key != CAPACITY ==>
        UnwrapProps(props).Ok? && Lookup(f, ces[j].key) == Some(UnwrapProps(props).value))
  {
    CapabilityFlavourKeys(ces);
    FoldPutLookup(ces, CapabilityFlavour, j);
  }

  /** The flavour of a node has no key its capabilities lack, and no
      `capacity`. */
  lemma CapabilityFlavourKeys(ces: seq<Entry>)
    requires DistinctKeys(ces) && FoldPut(ces, [], CapabilityFlavour).Ok?
    ensures forall k :: HasKey(FoldPut(ces, [], CapabilityFlavour).value, k) ==> HasKey(ces, k)
    ensures !HasKey(FoldPut(ces, [], CapabilityFlavour).value, CAPACITY)
  {
    FoldPutKeys(ces, CapabilityFlavour);
    if HasKey(ces, CAPACITY) {
      var m :| 0 <= m < |ces| && Keys(ces)[m] == CAPACITY;
      FoldPutLookup(ces, CapabilityFlavour, m);
    }
  }

  /** The third loop gives every node an instance count: its unwrapped
      `capacity.properties.instances`, or 1 when that is absent or null. */
  lemma InstanceCountAt(nodes: seq<Entry>, i: nat)
    requires DistinctKeys(nodes) && FoldPut(nodes, [], InstanceCount).Ok? && i < |nodes|
    ensures Instances(nodes[i].val).Ok?
    ensures Instances(nodes[i].val).value == Null ==>
      Lookup(FoldPut(nodes, [], InstanceCount).value, nodes[i].key) == Some(Int(1))
    ensures Instances(nodes[i].val).value != Null ==>
      Unwrap(Instances(nodes[i].val).value).Ok? &&
      Lookup(FoldPut(nodes, [], InstanceCount).value, nodes[i].key) == Some(Unwrap(Instances(nodes[i].val).value).value)
  {
    FoldPutLookup(nodes, InstanceCount, i);
  }

  /** The third loop gives an entry to every node and to nothing else. */
  lemma InstanceCountKeys(nodes: seq<Entry>, k: Value)
    requires DistinctKeys(nodes) && FoldPut(nodes, [], InstanceCount).Ok?
    ensures HasKey(FoldPut(nodes, [], InstanceCount).value, k) <==> HasKey(nodes, k)
  {
    FoldPutKeys(nodes, InstanceCount);
    if HasKey(nodes, k) {
      var m :| 0 <= m < |nodes| && Keys(nodes)[m] == k;
      InstanceCountAt(nodes, m);
    }
  }
}
