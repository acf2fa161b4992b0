// The node-filter to resource-ask converter: it reads the `node_filter`
// blocks of a TOSCA service template and turns each TOSCA constraint on a
// `$get_property` capability reference into a per-node "ask" entry.

module ResourceAsk {
  import opened Values

  const GET_PROPERTY := Str("$get_property")
  const AND := Str("$and")
  const EQUAL := Str("$equal")
  const PROPS := Str("properties")
  const NODE_FILTER := Str("node_filter")
  const SERVICE_TEMPLATE := Str("service_template")
  const NODE_TEMPLATES := Str("node_templates")
  const METADATA := Str("metadata")
  const CAPS := Str("capabilities")
  const CREATED_BY: string := "extract-reqs@script.com"
  const DESCRIPTION_PREFIX: string := "Generated from node "
  const ASK_VERSION: string := "1.0"

  // ---------------------------------------------------------------------------
  // One constraint
  // ---------------------------------------------------------------------------

  /** `extract_property_info`: the capability type and property name at
      positions 3 and 4 of a `$get_property` path, or `(None, None)` (here
      `(Null, Null)`) when the reference is not such a dict or the path is
      shorter than five. Indexing and `len` behave as in Python, so a path
      that is not a sequence raises. */
  function PropertyInfo(ref: Value): (r: Result<(Value, Value)>)
    ensures !(ref.Map? && HasKey(ref.entries, GET_PROPERTY)) ==> r == Ok((Null, Null))
    ensures ref.Map? && Lookup(ref.entries, GET_PROPERTY) == Some(Null) ==> r == Err(TypeError)
    ensures ref.Map? && HasKey(ref.entries, GET_PROPERTY) && Lookup(ref.entries, GET_PROPERTY).value.List? ==>
      var path := Lookup(ref.entries, GET_PROPERTY).value.items;
      r == Ok(if |path| >= 5 then (path[3], path[4]) else (Null, Null))
  {
    if ref.Map? && HasKey(ref.entries, GET_PROPERTY) then
      var path := Lookup(ref.entries, GET_PROPERTY).value;
      var n :- Len(path);
      if n >= 5 then
        var cap :- Item(path, Int(3));
        var prop :- Item(path, Int(4));
        Ok((cap, prop))
      else
        Ok((Null, Null))
    else
      Ok((Null, Null))
  }

  /** `map_constraint_to_ask_format`: fewer than two arguments give `None`
      (here Null), `$equal` gives the second argument itself, and any other
      function `f` gives `{f: second argument}`. */
  function MapConstraint(func: Value, args: Value): (r: Result<Value>)
    ensures args.List? && |args.items| < 2 ==> r == Ok(Null)
    ensures args.List? && |args.items| >= 2 && func == EQUAL ==> r == Ok(args.items[1])
    ensures args.List? && |args.items| >= 2 && func != EQUAL ==> r == Ok(Map([Entry(func, args.items[1])]))
    ensures r.Err? <==> Len(args).Err? || (Len(args).value >= 2 && Item(args, Int(1)).Err?)
  {
    var n :- Len(args);
    if n < 2 then Ok(Null)
    else
      var v :- Item(args, Int(1));
      if func == EQUAL then Ok(v) else Ok(Map([Entry(func, v)]))
  }

  /** The `{'properties': ...}` dict created for each capability. */
  function Capability(props: seq<Entry>): (r: Value)
    ensures DistinctKeys(props) ==> IsCapability(r)
  {
    Map([Entry(PROPS, Map(props))])
  }

  /** A `{'properties': {...}}` dict whose property names do not repeat. */
  predicate IsCapability(v: Value) {
    && v.Map? && |v.entries| == 1 && v.entries[0].key == PROPS && v.entries[0].val.Map?
    && DistinctKeys(v.entries[0].val.entries)
  }

  /** Every value of the capability dict is a `{'properties': {...}}`. */
  ghost predicate WellShaped(caps: seq<Entry>) {
    && DistinctKeys(caps)
    && forall k :: HasKey(caps, k) ==> IsCapability(Lookup(caps, k).value)
  }

  /** `capabilities[cap]['properties']`, empty for an absent capability. */
  function PropsOf(caps: seq<Entry>, cap: Value): (r: seq<Entry>)
    ensures DistinctKeys(r)
  {
    match Lookup(caps, cap)
    case Some(v) => if IsCapability(v) then v.entries[0].val.entries else []
    case None => []
  }

  /** What one `(func, args)` pair of a condition addresses: `None` when it
      has fewer than two arguments or its first argument does not name a
      capability and a property (both truthy). */
  function Target(c: Entry): (r: Result<Option<(Value, Value)>>)
    ensures Len(c.val).Ok? && Len(c.val).value < 2 ==> r == Ok(None)
    ensures c.val.List? && |c.val.items| >= 2 && PropertyInfo(c.val.items[0]).Ok? ==>
      var info := PropertyInfo(c.val.items[0]).value;
      r == Ok(if Truthy(info.0) && Truthy(info.1) then Some(info) else None)
  {
    var n :- Len(c.val);
    if n < 2 then Ok(None)
    else
      var first :- Item(c.val, Int(0));
      var info :- PropertyInfo(first);
      if Truthy(info.0) && Truthy(info.1) then Ok(Some(info)) else Ok(None)
  }

  /** `capabilities[cap] = {'properties': {}}` unless `cap` is already there,
      then `capabilities[cap]['properties'][prop] = v` unless `v` is None. */
  function Store(caps: seq<Entry>, cap: Value, prop: Value, v: Value): (r: seq<Entry>)
    ensures HasKey(r, cap)
    ensures forall k :: k != cap ==> Lookup(r, k) == Lookup(caps, k)
    ensures forall k :: HasKey(r, k) <==> HasKey(caps, k) || k == cap
  {
    var created := if HasKey(caps, cap) then caps else Put(caps, cap, Capability([]));
    if v == Null then created
    else Put(created, cap, Capability(Put(PropsOf(created, cap), prop, v)))
  }

  /** One pass of the inner loop of `convert_node_filter_to_capabilities`.
      An unhashable capability or property name raises `TypeError`. */
  function ApplyConstraint(caps: seq<Entry>, c: Entry): (r: Result<seq<Entry>>)
    ensures Target(c) == Ok(None) ==> r == Ok(caps)
    ensures r.Ok? ==> Target(c).Ok?
    ensures r.Ok? && Target(c).value.Some? ==>
      && MapConstraint(c.key, c.val).Ok?
      && r.value == Store(caps, Target(c).value.value.0, Target(c).value.value.1, MapConstraint(c.key, c.val).value)
  {
    var t :- Target(c);
    if t.None? then Ok(caps)
    else
      var cap := t.value.0;
      var prop := t.value.1;
      if !Hashable(cap) then Err(TypeError)
      else
        var v :- MapConstraint(c.key, c.val);
        if v != Null && !Hashable(prop) then Err(TypeError)
        else Ok(Store(caps, cap, prop, v))
  }

  /** Storing keeps the shape of the capability dict and adds exactly `cap`. */
  lemma StoreShape(caps: seq<Entry>, cap: Value, prop: Value, v: Value)
    requires WellShaped(caps)
    ensures WellShaped(Store(caps, cap, prop, v))
    ensures forall k :: HasKey(Store(caps, cap, prop, v), k) <==> HasKey(caps, k) || k == cap
  {
    var created := if HasKey(caps, cap) then caps else Put(caps, cap, Capability([]));
    if !HasKey(caps, cap) {
      PutShape(caps, cap, Capability([]));
    }
    if v != Null {
      PutShape(created, cap, Capability(Put(PropsOf(created, cap), prop, v)));
    }
  }

  lemma PutShape(caps: seq<Entry>, cap: Value, c: Value)
    requires WellShaped(caps) && IsCapability(c)
    ensures WellShaped(Put(caps, cap, c))
  {
  }

  /** Storing sets the one (capability, property) pair to a non-None value and
      leaves every other pair as it was. */
  lemma StoreValues(caps: seq<Entry>, cap: Value, prop: Value, v: Value)
    requires WellShaped(caps)
    ensures v != Null ==> Lookup(PropsOf(Store(caps, cap, prop, v), cap), prop) == Some(v)
    ensures v == Null ==> forall k :: PropsOf(Store(caps, cap, prop, v), k) == PropsOf(caps, k)
    ensures forall k, p :: (k != cap || p != prop) ==>
      Lookup(PropsOf(Store(caps, cap, prop, v), k), p) == Lookup(PropsOf(caps, k), p)
  {
    var created := if HasKey(caps, cap) then caps else Put(caps, cap, Capability([]));
    CreatedProps(caps, cap);
    if v != Null {
      var props := Put(PropsOf(created, cap), prop, v);
      PropsOfPut(created, cap, props);
      assert Store(caps, cap, prop, v) == Put(created, cap, Capability(props));
    }
  }

  /** Creating a capability adds no properties. */
  lemma CreatedProps(caps: seq<Entry>, cap: Value)
    ensures var created := if HasKey(caps, cap) then caps else Put(caps, cap, Capability([]));
      forall k :: PropsOf(created, k) == PropsOf(caps, k)
  {
    if !HasKey(caps, cap) {
      PropsOfPut(caps, cap, []);
    }
  }

  lemma PropsOfPut(caps: seq<Entry>, cap: Value, props: seq<Entry>)
    requires DistinctKeys(props)
    ensures PropsOf(Put(caps, cap, Capability(props)), cap) == props
    ensures forall k :: k != cap ==> PropsOf(Put(caps, cap, Capability(props)), k) == PropsOf(caps, k)
  {
  }

  /** The effect of one addressed constraint: the capability exists
      afterwards, a non-None value is stored under its property (replacing an
      earlier one), and every other (capability, property) pair keeps its
      value; the shape of the dict is kept. */
  lemma ConstraintEffect(caps: seq<Entry>, c: Entry, cap: Value, prop: Value)
    requires WellShaped(caps)
    requires Target(c) == Ok(Some((cap, prop)))
    requires ApplyConstraint(caps, c).Ok?
    ensures WellShaped(ApplyConstraint(caps, c).value)
    ensures forall k :: HasKey(ApplyConstraint(caps, c).value, k) <==> HasKey(caps, k) || k == cap
    ensures MapConstraint(c.key, c.val).value != Null ==>
      Lookup(PropsOf(ApplyConstraint(caps, c).value, cap), prop) == Some(MapConstraint(c.key, c.val).value)
    ensures forall k, p :: (k != cap || p != prop) ==>
      Lookup(PropsOf(ApplyConstraint(caps, c).value, k), p) == Lookup(PropsOf(caps, k), p)
  {
    var v := MapConstraint(c.key, c.val).value;
    StoreShape(caps, cap, prop, v);
    StoreValues(caps, cap, prop, v);
  }

  // ---------------------------------------------------------------------------
  // The whole node filter
  // ---------------------------------------------------------------------------

  /** `for func, args in condition.items()`. */
  function ApplyConstraints(caps: seq<Entry>, cs: seq<Entry>): (r: Result<seq<Entry>>)
    ensures r.Ok? ==> forall k :: HasKey(caps, k) ==> HasKey(r.value, k)
    decreases cs
  {
    if cs == [] then Ok(caps)
    else
      var next :- ApplyConstraint(caps, cs[0]);
      ApplyConstraints(next, cs[1..])
  }

  /** `for condition in conditions`: each condition must be a dict. */
  function ApplyConditions(caps: seq<Entry>, conds: seq<Value>): (r: Result<seq<Entry>>)
    ensures r.Ok? ==> forall k :: HasKey(caps, k) ==> HasKey(r.value, k)
    ensures r.Ok? ==> forall i :: 0 <= i < |conds| ==> conds[i].Map?
    decreases conds
  {
    if conds == [] then Ok(caps)
    else
      var cs :- Items(conds[0]);
      var next :- ApplyConstraints(caps, cs);
      ApplyConditions(next, conds[1..])
  }

  /** `convert_node_filter_to_capabilities`: only an `$and` list of
      conditions is read; anything else yields `{}`. */
  function FilterCapabilities(nf: Value): (r: Result<Value>)
    ensures nf.Map? && !HasKey(nf.entries, AND) ==> r == Ok(Map([]))
    ensures r.Ok? ==> r.value.Map?
  {
    var hasAnd :- In(AND, nf);
    if !hasAnd then Ok(Map([]))
    else
      var conds :- Item(nf, AND);
      var cs :- Iterate(conds);
      var caps :- ApplyConditions([], cs);
      Ok(Map(caps))
  }

  /** A `$get_property` reference whose path names `cap` and `prop`. */
  predicate NamesProperty(ref: Value, cap: Value, prop: Value) {
    && ref.Map?
    && Lookup(ref.entries, GET_PROPERTY).Some?
    && var path := Lookup(ref.entries, GET_PROPERTY).value;
    && path.List? && |path.items| >= 5 && path.items[3] == cap && path.items[4] == prop
  }

  lemma NamedTarget(op: Value, ref: Value, x: Value, cap: Value, prop: Value)
    requires NamesProperty(ref, cap, prop) && Truthy(cap) && Truthy(prop)
    ensures Target(Entry(op, List([ref, x]))) == Ok(Some((cap, prop)))
  {
  }

  /** A filter whose `$and` holds a list of conditions. */
  lemma AndList(conds: seq<Value>, caps: seq<Entry>)
    requires ApplyConditions([], conds) == Ok(caps)
    ensures FilterCapabilities(Map([Entry(AND, List(conds))])) == Ok(Map(caps))
  {
    assert Keys([Entry(AND, List(conds))]) == [AND];
  }

  /** A condition with a single constraint. */
  lemma SingleCondition(prev: seq<Entry>, c: Entry, next: seq<Entry>, rest: seq<Value>)
    requires ApplyConstraint(prev, c) == Ok(next)
    ensures ApplyConditions(prev, [Map([c])] + rest) == ApplyConditions(next, rest)
  {
    var conds := [Map([c])] + rest;
    assert conds[0] == Map([c]) && conds[1..] == rest;
    assert Items(conds[0]) == Ok([c]);
    assert [c][1..] == [];
    assert ApplyConstraints(prev, [c]) == ApplyConstraints(next, []);
  }

  /** An addressed constraint whose names are hashable is stored. */
  lemma ConstraintStores(caps: seq<Entry>, c: Entry, cap: Value, prop: Value, v: Value)
    requires Target(c) == Ok(Some((cap, prop))) && MapConstraint(c.key, c.val) == Ok(v)
    requires Hashable(cap) && (v != Null ==> Hashable(prop))
    ensures ApplyConstraint(caps, c) == Ok(Store(caps, cap, prop, v))
  {
  }

  lemma EqualStep(ref: Value, x: Value, cap: Value, prop: Value)
    requires NamesProperty(ref, cap, prop) && Truthy(cap) && Truthy(prop) && Hashable(cap) && Hashable(prop)
    requires x != Null
    ensures ApplyConstraint([], Entry(EQUAL, List([ref, x]))) == Ok([Entry(cap, Capability([Entry(prop, x)]))])
  {
    NamedTarget(EQUAL, ref, x, cap, prop);
    StoreOnEmpty(cap, prop, x);
    ConstraintStores([], Entry(EQUAL, List([ref, x])), cap, prop, x);
  }

  lemma OtherStep(ref: Value, x: Value, op: Value, y: Value, cap: Value, prop: Value)
    requires NamesProperty(ref, cap, prop) && Truthy(cap) && Truthy(prop) && Hashable(cap) && Hashable(prop)
    requires op != EQUAL
    ensures ApplyConstraint([Entry(cap, Capability([Entry(prop, x)]))], Entry(op, List([ref, y])))
      == Ok([Entry(cap, Capability([Entry(prop, Map([Entry(op, y)]))]))])
  {
    var c := Entry(op, List([ref, y]));
    NamedTarget(op, ref, y, cap, prop);
    assert MapConstraint(c.key, c.val) == Ok(Map([Entry(op, y)]));
    StoreReplace(cap, prop, x, Map([Entry(op, y)]));
    ConstraintStores([Entry(cap, Capability([Entry(prop, x)]))], c, cap, prop, Map([Entry(op, y)]));
  }

  /** `$equal` gives the raw value: `{$and: [{$equal: [ref, x]}]}` converts
      to `{cap: {properties: {prop: x}}}`. */
  lemma EqualConverts(ref: Value, x: Value, cap: Value, prop: Value)
    requires NamesProperty(ref, cap, prop) && Truthy(cap) && Truthy(prop) && Hashable(cap) && Hashable(prop)
    requires x != Null
    ensures FilterCapabilities(Map([Entry(AND, List([Map([Entry(EQUAL, List([ref, x]))])]))]))
      == Ok(Map([Entry(cap, Capability([Entry(prop, x)]))]))
  {
    var c := Entry(EQUAL, List([ref, x]));
    var caps := [Entry(cap, Capability([Entry(prop, x)]))];
    EqualStep(ref, x, cap, prop);
    SingleCondition([], c, caps, []);
    assert [Map([c])] + [] == [Map([c])];
    AndList([Map([c])], caps);
  }

  /** Any other operator is kept as `{op: value}`, and a later condition on
      the same property replaces an earlier one:
      `{$and: [{$equal: [ref, x]}, {op: [ref, y]}]}` converts to
      `{cap: {properties: {prop: {op: y}}}}`. */
  lemma LaterConditionWins(ref: Value, x: Value, op: Value, y: Value, cap: Value, prop: Value)
    requires NamesProperty(ref, cap, prop) && Truthy(cap) && Truthy(prop) && Hashable(cap) && Hashable(prop)
    requires x != Null && op != EQUAL
    ensures FilterCapabilities(Map([Entry(AND, List([Map([Entry(EQUAL, List([ref, x]))]), Map([Entry(op, List([ref, y]))])]))]))
      == Ok(Map([Entry(cap, Capability([Entry(prop, Map([Entry(op, y)]))]))]))
  {
    EqualStep(ref, x, cap, prop);
    OtherStep(ref, x, op, y, cap, prop);
    TwoConditions(Entry(EQUAL, List([ref, x])), Entry(op, List([ref, y])),
      [Entry(cap, Capability([Entry(prop, x)]))], [Entry(cap, Capability([Entry(prop, Map([Entry(op, y)]))]))]);
  }

  /** Two single-constraint conditions are applied in order. */
  lemma TwoConditions(c1: Entry, c2: Entry, caps1: seq<Entry>, caps2: seq<Entry>)
    requires ApplyConstraint([], c1) == Ok(caps1) && ApplyConstraint(caps1, c2) == Ok(caps2)
    ensures FilterCapabilities(Map([Entry(AND, List([Map([c1]), Map([c2])]))])) == Ok(Map(caps2))
  {
    SingleCondition(caps1, c2, caps2, []);
    assert [Map([c2])] + [] == [Map([c2])];
    SingleCondition([], c1, caps1, [Map([c2])]);
    assert [Map([c1])] + [Map([c2])] == [Map([c1]), Map([c2])];
    AndList([Map([c1]), Map([c2])], caps2);
  }

  lemma StoreOnEmpty(cap: Value, prop: Value, v: Value)
    requires v != Null
    ensures Store([], cap, prop, v) == [Entry(cap, Capability([Entry(prop, v)]))]
  {
    PutEmpty(cap, Capability([]));
    var created := [Entry(cap, Capability([]))];
    PropsOfSingle(cap, []);
    PutEmpty(prop, v);
    OneEntryPut(created, cap, Capability([Entry(prop, v)]));
  }

  lemma StoreReplace(cap: Value, prop: Value, v: Value, w: Value)
    requires w != Null
    ensures Store([Entry(cap, Capability([Entry(prop, v)]))], cap, prop, w) == [Entry(cap, Capability([Entry(prop, w)]))]
  {
    var caps := [Entry(cap, Capability([Entry(prop, v)]))];
    PropsOfSingle(cap, [Entry(prop, v)]);
    OneEntryPut([Entry(prop, v)], prop, w);
    OneEntryPut(caps, cap, Capability([Entry(prop, w)]));
  }

  /** The properties of the one capability of a one-entry dict. */
  lemma PropsOfSingle(cap: Value, ps: seq<Entry>)
    requires DistinctKeys(ps)
    ensures PropsOf([Entry(cap, Capability(ps))], cap) == ps
  {
    assert Keys([Entry(cap, Capability(ps))]) == [cap];
  }

  lemma PutEmpty(k: Value, v: Value)
    ensures Put([], k, v) == [Entry(k, v)]
  {
    assert Keys([]) == [];
  }

  /** Assigning the one key of a one-entry dict. */
  lemma OneEntryPut(es: seq<Entry>, k: Value, v: Value)
    requires |es| == 1 && es[0].key == k
    ensures Put(es, k, v) == [Entry(k, v)]
  {
    assert Keys(es) == [k];
  }

  /** Capabilities are only ever added, and the dict keeps its shape. */
  lemma {:induction false} ConstraintsGrow(caps: seq<Entry>, cs: seq<Entry>)
    requires WellShaped(caps) && ApplyConstraints(caps, cs).Ok?
    ensures WellShaped(ApplyConstraints(caps, cs).value)
    ensures forall k :: HasKey(caps, k) ==> HasKey(ApplyConstraints(caps, cs).value, k)
    decreases cs
  {
    if cs != [] {
      var next := ApplyConstraint(caps, cs[0]).value;
      var t := Target(cs[0]).value;
      if t.Some? {
        StoreShape(caps, t.value.0, t.value.1, MapConstraint(cs[0].key, cs[0].val).value);
      }
      ConstraintsGrow(next, cs[1..]);
    }
  }

  lemma {:induction false} ConditionsGrow(caps: seq<Entry>, conds: seq<Value>)
    requires WellShaped(caps) && ApplyConditions(caps, conds).Ok?
    ensures WellShaped(ApplyConditions(caps, conds).value)
    ensures forall k :: HasKey(caps, k) ==> HasKey(ApplyConditions(caps, conds).value, k)
    decreases conds
  {
    if conds != [] {
      var cs := Items(conds[0]).value;
      ConstraintsGrow(caps, cs);
      ConditionsGrow(ApplyConstraints(caps, cs).value, conds[1..]);
    }
  }

  /** Every capability the converter outputs is a `{'properties': {...}}`
      dict, and capability and property names are never repeated. */
  lemma FilterShape(nf: Value)
    requires FilterCapabilities(nf).Ok?
    ensures var m := FilterCapabilities(nf).value;
      DistinctKeys(m.entries) &&
      forall i :: 0 <= i < |m.entries| ==> IsCapability(m.entries[i].val)
  {
    var m := FilterCapabilities(nf).value;
    if m != Map([]) {
      var cs := Iterate(Item(nf, AND).value).value;
      ConditionsGrow([], cs);
      forall i | 0 <= i < |m.entries| ensures IsCapability(m.entries[i].val) {
        LookupDistinct(m.entries, i);
      }
    }
  }

  /** The inner loop of `convert_node_filter_to_capabilities` over the pairs
      of one condition. */
  method ConvertCondition(caps0: seq<Entry>, cs: seq<Entry>) returns (r: Result<seq<Entry>>)
    ensures r == ApplyConstraints(caps0, cs)
  {
    var caps := caps0;
    var j := 0;
    while j < |cs|
      invariant 0 <= j <= |cs|
      invariant ApplyConstraints(caps, cs[j..]) == ApplyConstraints(caps0, cs)
    {
      assert cs[j..][1..] == cs[j + 1..];
      var func := cs[j].key;
      var args := cs[j].val;
      var n := Len(args);
      if n.Err? {
        return Err(n.error);
      }
      if n.value >= 2 {
        var first := Item(args, Int(0));
        if first.Err? {
          return Err(first.error);
        }
        var info := PropertyInfo(first.value);
        if info.Err? {
          return Err(info.error);
        }
        var cap := info.value.0;
        var prop := info.value.1;
        if Truthy(cap) && Truthy(prop) {
          if !Hashable(cap) {
            return Err(TypeError);
          }
          if !HasKey(caps, cap) {
            caps := Put(caps, cap, Capability([]));
          }
          var v := MapConstraint(func, args);
          if v.Err? {
            return Err(v.error);
          }
          if v.value != Null {
            if !Hashable(prop) {
              return Err(TypeError);
            }
            caps := Put(caps, cap, Capability(Put(PropsOf(caps, cap), prop, v.value)));
          }
        }
      }
      j := j + 1;
    }
    return Ok(caps);
  }

  /** `convert_node_filter_to_capabilities`. */
  method ConvertNodeFilter(nf: Value) returns (r: Result<Value>)
    ensures r == FilterCapabilities(nf)
  {
    var hasAnd := In(AND, nf);
    if hasAnd.Err? {
      return Err(hasAnd.error);
    }
    if !hasAnd.value {
      return Ok(Map([]));
    }
    var conds := Item(nf, AND);
    if conds.Err? {
      return Err(conds.error);
    }
    var cs := Iterate(conds.value);
    if cs.Err? {
      return Err(cs.error);
    }
    var caps: seq<Entry> := [];
    var i := 0;
    while i < |cs.value|
      invariant 0 <= i <= |cs.value|
      invariant ApplyConditions(caps, cs.value[i..]) == ApplyConditions([], cs.value)
    {
      assert cs.value[i..][1..] == cs.value[i + 1..];
      var items := Items(cs.value[i]);
      if items.Err? {
        return Err(items.error);
      }
      var next := ConvertCondition(caps, items.value);
      if next.Err? {
        return Err(next.error);
      }
      caps := next.value;
      i := i + 1;
    }
    return Ok(Map(caps));
  }

  // ---------------------------------------------------------------------------
  // Nodes with a node filter
  // ---------------------------------------------------------------------------

  /** Keep a node template when `'node_filter' in node_data`. */
  function KeepFiltered(e: Entry): (r: Result<Option<Value>>)
    ensures e.val.Map? ==> r == Ok(if HasKey(e.val.entries, NODE_FILTER) then Some(e.val) else None)
  {
    var b :- In(NODE_FILTER, e.val);
    Ok(if b then Some(e.val) else None)
  }

  /** `extract_nodes_with_filter`: `{}` unless the document has
      `service_template.node_templates`. */
  function NodesWithFilter(doc: Value): (r: Result<Value>)
    ensures doc.Map? && !HasKey(doc.entries, SERVICE_TEMPLATE) ==> r == Ok(Map([]))
    ensures (doc.Map? && HasKey(doc.entries, SERVICE_TEMPLATE) && Lookup(doc.entries, SERVICE_TEMPLATE).value.Map?
             && !HasKey(Lookup(doc.entries, SERVICE_TEMPLATE).value.entries, NODE_TEMPLATES)) ==> r == Ok(Map([]))
  {
    var hasSt :- In(SERVICE_TEMPLATE, doc);
    if !hasSt then Ok(Map([]))
    else
      var st :- Item(doc, SERVICE_TEMPLATE);
      var hasNt :- In(NODE_TEMPLATES, st);
      if !hasNt then Ok(Map([]))
      else
        var nt :- Item(st, NODE_TEMPLATES);
        var es :- Items(nt);
        var kept :- FoldPut(es, [], KeepFiltered);
        Ok(Map(kept))
  }

  /** Reference definition: the node templates that are dicts holding a
      `node_filter`, in their original order. */
  function Filtered(es: seq<Entry>): (r: seq<Entry>)
    ensures |r| <= |es|
    ensures forall i :: 0 <= i < |r| ==> r[i].val.Map? && HasKey(r[i].val.entries, NODE_FILTER)
  {
    if es == [] then []
    else
      (if es[0].val.Map? && HasKey(es[0].val.entries, NODE_FILTER) then [es[0]] else []) + Filtered(es[1..])
  }

  lemma {:induction false} CollectFiltered(es: seq<Entry>)
    requires forall i :: 0 <= i < |es| ==> es[i].val.Map?
    ensures Collect(es, KeepFiltered) == Ok(Filtered(es))
  {
    if es != [] {
      CollectFiltered(es[1..]);
    }
  }

  /** Over node templates that are all dicts, the result holds exactly the
      templates with a `node_filter`, unchanged and in order. */
  lemma NodesWithFilterExactly(doc: Value, nodes: seq<Entry>)
    requires doc.Map? && Lookup(doc.entries, SERVICE_TEMPLATE).Some?
    requires var st := Lookup(doc.entries, SERVICE_TEMPLATE).value;
      st.Map? && Lookup(st.entries, NODE_TEMPLATES) == Some(Map(nodes))
    requires DistinctKeys(nodes)
    requires forall i :: 0 <= i < |nodes| ==> nodes[i].val.Map?
    ensures NodesWithFilter(doc) == Ok(Map(Filtered(nodes)))
  {
    var st := Lookup(doc.entries, SERVICE_TEMPLATE).value;
    assert In(SERVICE_TEMPLATE, doc) == Ok(true);
    assert Item(doc, SERVICE_TEMPLATE) == Ok(st);
    assert In(NODE_TEMPLATES, st) == Ok(true);
    assert Item(st, NODE_TEMPLATES) == Ok(Map(nodes));
    KeptExactly(nodes);
  }

  lemma KeptExactly(nodes: seq<Entry>)
    requires DistinctKeys(nodes)
    requires forall i :: 0 <= i < |nodes| ==> nodes[i].val.Map?
    ensures FoldPut(nodes, [], KeepFiltered) == Ok(Filtered(nodes))
  {
    CollectFiltered(nodes);
    FoldPutIsCollect(nodes, [], KeepFiltered);
    assert [] + Filtered(nodes) == Filtered(nodes);
  }

  /** `extract_nodes_with_filter`. */
  method ExtractNodesWithFilter(doc: Value) returns (r: Result<Value>)
    ensures r == NodesWithFilter(doc)
  {
    var hasSt := In(SERVICE_TEMPLATE, doc);
    if hasSt.Err? {
      return Err(hasSt.error);
    }
    if !hasSt.value {
      return Ok(Map([]));
    }
    var st := Item(doc, SERVICE_TEMPLATE);
    if st.Err? {
      return Err(st.error);
    }
    var hasNt := In(NODE_TEMPLATES, st.value);
    if hasNt.Err? {
      return Err(hasNt.error);
    }
    if !hasNt.value {
      return Ok(Map([]));
    }
    var nt := Item(st.value, NODE_TEMPLATES);
    if nt.Err? {
      return Err(nt.error);
    }
    var es := Items(nt.value);
    if es.Err? {
      return Err(es.error);
    }
    var nodes := es.value;
    var kept: seq<Entry> := [];
    var i := 0;
    while i < |nodes|
      invariant 0 <= i <= |nodes|
      invariant FoldPut(nodes[i..], kept, KeepFiltered) == FoldPut(nodes, [], KeepFiltered)
    {
      assert nodes[i..][1..] == nodes[i + 1..];
      var b := In(NODE_FILTER, nodes[i].val);
      if b.Err? {
        return Err(b.error);
      }
      if b.value {
        kept := Put(kept, nodes[i].key, nodes[i].val);
      }
      i := i + 1;
    }
    return Ok(Map(kept));
  }

  // ---------------------------------------------------------------------------
  // The ask entries
  // ---------------------------------------------------------------------------

  /** The metadata block of a node's ask entry; the creation time is a
      parameter. */
  function Metadata(name: Value, createdAt: string): (r: Value)
    ensures r.Map? && |r.entries| == 4
    ensures r.entries[2] == Entry(Str("description"), Str(DESCRIPTION_PREFIX + PyStr(name)))
    ensures r.entries[3] == Entry(Str("version"), Str(ASK_VERSION))
  {
    Dict([("created_by", Str(CREATED_BY)),
          ("created_at", Str(createdAt)),
          ("description", Str(DESCRIPTION_PREFIX + PyStr(name))),
          ("version", Str(ASK_VERSION))])
  }

  /** The ask entry of one node: its metadata, plus `capabilities` when the
      node filter converts to a non-empty dict. */
  function AskEntry(data: Value, name: Value, createdAt: string): (r: Result<Value>)
    ensures data.Map? && !HasKey(data.entries, NODE_FILTER) ==> r == Ok(Map([Entry(METADATA, Metadata(name, createdAt))]))
  {
    var meta := Metadata(name, createdAt);
    var hasFilter :- In(NODE_FILTER, data);
    if hasFilter then
      var nf :- Item(data, NODE_FILTER);
      var caps :- FilterCapabilities(nf);
      if Truthy(caps) then Ok(Map([Entry(METADATA, meta), Entry(CAPS, caps)]))
      else Ok(Map([Entry(METADATA, meta)]))
    else
      Ok(Map([Entry(METADATA, meta)]))
  }

  /** A node template with a filter gets `capabilities` exactly when the
      filter converts to a non-empty dict, and then holds that dict. */
  lemma AskEntryFiltered(data: Value, name: Value, createdAt: string, caps: Value)
    requires data.Map? && HasKey(data.entries, NODE_FILTER)
    requires FilterCapabilities(Lookup(data.entries, NODE_FILTER).value) == Ok(caps)
    ensures AskEntry(data, name, createdAt).Ok?
    ensures var entry := AskEntry(data, name, createdAt).value;
      && entry.Map?
      && entry.entries[0] == Entry(METADATA, Metadata(name, createdAt))
      && (HasKey(entry.entries, CAPS) <==> caps != Map([]))
      && (caps != Map([]) ==> entry == Map([Entry(METADATA, Metadata(name, createdAt)), Entry(CAPS, caps)]))
  {
    var entry := AskEntry(data, name, createdAt).value;
    if caps == Map([]) {
      assert entry == Map([Entry(METADATA, Metadata(name, createdAt))]);
      assert Keys(entry.entries) == [METADATA];
    } else {
      assert Keys(entry.entries) == [METADATA, CAPS];
    }
  }

  function AskStep(e: Entry, createdAt: string): (r: Result<Option<Value>>)
    ensures r.Ok? <==> AskEntry(e.val, e.key, createdAt).Ok?
    ensures r.Ok? ==> r.value == Some(AskEntry(e.val, e.key, createdAt).value)
  {
    var entry :- AskEntry(e.val, e.key, createdAt);
    Ok(Some(entry))
  }

  /** The dict `generate_ask_yaml` writes out, before serialisation. */
  function AskData(nodes: Value, createdAt: string): (r: Result<Value>)
    ensures r.Ok? ==> r.value.Map?
    ensures !nodes.Map? ==> r == Err(AttributeError)
  {
    var es :- Items(nodes);
    var d :- FoldPut(es, [], e => AskStep(e, createdAt));
    Ok(Map(d))
  }

  /** Each node gets the ask entry built from its own template, under its
      own name. */
  lemma AskDataAt(nodes: seq<Entry>, createdAt: string, i: nat)
    requires DistinctKeys(nodes) && i < |nodes|
    requires AskData(Map(nodes), createdAt).Ok?
    ensures AskEntry(nodes[i].val, nodes[i].key, createdAt).Ok?
    ensures Lookup(AskData(Map(nodes), createdAt).value.entries, nodes[i].key)
      == Some(AskEntry(nodes[i].val, nodes[i].key, createdAt).value)
  {
    var step := (e: Entry) => AskStep(e, createdAt);
    FoldPutLookup(nodes, step, i);
  }

  /** Exactly the given nodes get an entry. */
  lemma AskDataKeys(nodes: seq<Entry>, createdAt: string, k: Value)
    requires DistinctKeys(nodes) && AskData(Map(nodes), createdAt).Ok?
    ensures HasKey(AskData(Map(nodes), createdAt).value.entries, k) <==> HasKey(nodes, k)
  {
    var step := (e: Entry) => AskStep(e, createdAt);
    FoldPutKeys(nodes, step);
    if HasKey(nodes, k) {
      var i :| 0 <= i < |nodes| && nodes[i].key == k;
      FoldPutLookup(nodes, step, i);
    }
  }

  /** The body of the loop in `generate_ask_yaml`. */
  method BuildAskEntry(name: Value, data: Value, createdAt: string) returns (r: Result<Value>)
    ensures r == AskEntry(data, name, createdAt)
  {
    var meta := Metadata(name, createdAt);
    var entry := Map([Entry(METADATA, meta)]);
    var hasFilter := In(NODE_FILTER, data);
    if hasFilter.Err? {
      return Err(hasFilter.error);
    }
    if hasFilter.value {
      var nf := Item(data, NODE_FILTER);
      if nf.Err? {
        return Err(nf.error);
      }
      var caps := ConvertNodeFilter(nf.value);
      if caps.Err? {
        return Err(caps.error);
      }
      if Truthy(caps.value) {
        entry := Map([Entry(METADATA, meta), Entry(CAPS, caps.value)]);
      }
    }
    return Ok(entry);
  }

  /** `generate_ask_yaml` up to the file write. */
  method GenerateAsk(nodes: Value, createdAt: string) returns (r: Result<Value>)
    ensures r == AskData(nodes, createdAt)
  {
    var es := Items(nodes);
    if es.Err? {
      return Err(es.error);
    }
    var ns := es.value;
    var step := (e: Entry) => AskStep(e, createdAt);
    var ask: seq<Entry> := [];
    var i := 0;
    while i < |ns|
      invariant 0 <= i <= |ns|
      invariant FoldPut(ns[i..], ask, step) == FoldPut(ns, [], step)
    {
      assert ns[i..][1..] == ns[i + 1..];
      var entry := BuildAskEntry(ns[i].key, ns[i].val, createdAt);
      if entry.Err? {
        return Err(entry.error);
      }
      ask := Put(ask, ns[i].key, entry.value);
      i := i + 1;
    }
    return Ok(Map(ask));
  }
}
