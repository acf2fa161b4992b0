/** The extractors of the documentation generator: they turn the property,
    data-type, policy-type and capability sections of the TOSCA profiles into
    the records the documentation pages list. The profiles arrive already
    parsed. */
module Docsgen {
  import opened Values

  const NO_DESCRIPTION := Str("No description available")
  const REQUIRED := Str("required")
  const TYPE := Str("type")
  const SCHEMA := Str("schema")
  const DESCRIPTION := Str("description")
  const NAME := Str("name")
  const FIELDS := Str("fields")
  const PROPERTIES := Str("properties")
  const ENTRY_SCHEMA := Str("entry_schema")
  const CAPABILITIES := Str("capabilities")

  // ---------------------------------------------------------------------------
  // Small dict displays
  // ---------------------------------------------------------------------------

  /** Reading a four-entry dict display back. */
  lemma Lookup4(k1: Value, v1: Value, k2: Value, v2: Value, k3: Value, v3: Value, k4: Value, v4: Value)
    requires k1 != k2 && k1 != k3 && k1 != k4 && k2 != k3 && k2 != k4 && k3 != k4
    ensures var es := [Entry(k1, v1), Entry(k2, v2), Entry(k3, v3), Entry(k4, v4)];
      && Keys(es) == [k1, k2, k3, k4]
      && Lookup(es, k1) == Some(v1) && Lookup(es, k2) == Some(v2)
      && Lookup(es, k3) == Some(v3) && Lookup(es, k4) == Some(v4)
  {
    var es := [Entry(k1, v1), Entry(k2, v2), Entry(k3, v3), Entry(k4, v4)];
    DisplayAt(es, 0, k1, v1);
    DisplayAt(es, 1, k2, v2);
    DisplayAt(es, 2, k3, v3);
    DisplayAt(es, 3, k4, v4);
    DisplayKeys(es, [k1, k2, k3, k4]);
  }

  lemma DisplayKeys(es: seq<Entry>, ks: seq<Value>)
    requires |es| == |ks| && forall i :: 0 <= i < |es| ==> es[i].key == ks[i]
    ensures Keys(es) == ks
  {
  }

  /** An entry of a dict display whose earlier keys differ from its own. */
  lemma DisplayAt(es: seq<Entry>, i: nat, k: Value, v: Value)
    requires i < |es| && es[i] == Entry(k, v)
    requires forall j :: 0 <= j < i ==> es[j].key != k
    ensures Lookup(es, k) == Some(v)
  {
    LookupAt(es, i, k);
  }

  /** Reading a two-entry dict display back. */
  lemma Lookup2(k1: Value, v1: Value, k2: Value, v2: Value)
    requires k1 != k2
    ensures var es := [Entry(k1, v1), Entry(k2, v2)];
      Keys(es) == [k1, k2] && Lookup(es, k1) == Some(v1) && Lookup(es, k2) == Some(v2)
  {
    var es := [Entry(k1, v1), Entry(k2, v2)];
    DisplayAt(es, 0, k1, v1);
    DisplayAt(es, 1, k2, v2);
    DisplayKeys(es, [k1, k2]);
  }

  /** `[f(k, v) for k, v in d.items()]`, stopping at the first exception. */
  function MapEntries(es: seq<Entry>, f: Entry -> Result<Value>): (r: Result<seq<Value>>)
    ensures r.Ok? ==> |r.value| == |es|
  {
    if es == [] then Ok([])
    else
      var x :- f(es[0]);
      var rest :- MapEntries(es[1..], f);
      Ok([x] + rest)
  }

  lemma {:induction false} MapEntriesOk(es: seq<Entry>, f: Entry -> Result<Value>)
    ensures MapEntries(es, f).Ok? <==> forall j :: 0 <= j < |es| ==> f(es[j]).Ok?
  {
    if es != [] {
      MapEntriesOk(es[1..], f);
      assert forall j :: 1 <= j < |es| ==> es[1..][j - 1] == es[j];
    }
  }

  lemma {:induction false} MapEntriesAt(es: seq<Entry>, f: Entry -> Result<Value>, j: nat)
    requires j < |es| && MapEntries(es, f).Ok?
    ensures f(es[j]).Ok? && MapEntries(es, f).value[j] == f(es[j]).value
  {
    var rest := MapEntries(es[1..], f);
    assert f(es[0]).Ok? && rest.Ok?;
    assert MapEntries(es, f).value == [f(es[0]).value] + rest.value;
    if j > 0 {
      MapEntriesAt(es[1..], f, j - 1);
      assert es[1..][j - 1] == es[j];
    }
  }

  /** A list built so far followed by what the rest of a loop appends. */
  function Prefixed(acc: seq<Value>, r: Result<seq<Value>>): Result<seq<Value>> {
    if r.Ok? then Ok(acc + r.value) else Err(r.error)
  }

  lemma PrefixedEmpty(r: Result<seq<Value>>)
    ensures Prefixed([], r) == r
  {
    if r.Ok? {
      assert [] + r.value == r.value;
    }
  }

  /** One more item moved from what remains to the list built so far. */
  lemma PrefixedCons(acc: seq<Value>, x: Value, rest: Result<seq<Value>>)
    ensures Prefixed(acc + [x], rest) == Prefixed(acc, if rest.Ok? then Ok([x] + rest.value) else Err(rest.error))
  {
    if rest.Ok? {
      assert acc + [x] + rest.value == acc + ([x] + rest.value);
    }
  }

  /** The step of a `d[k] = record(v)` loop over a dict. */
  function RecordStep(rec: Value -> Result<Value>): Entry -> Result<Option<Value>> {
    (e: Entry) => (var r :- rec(e.val); Ok(Some(r)))
  }

  /** One turn of a `d[k] = record(v)` loop. */
  lemma RecordLoopStep(es: seq<Entry>, i: nat, acc: seq<Entry>, rec: Value -> Result<Value>)
    requires i < |es|
    ensures rec(es[i].val).Ok? ==>
      FoldPut(es[i + 1..], Put(acc, es[i].key, rec(es[i].val).value), RecordStep(rec)) == FoldPut(es[i..], acc, RecordStep(rec))
    ensures rec(es[i].val).Err? ==> FoldPut(es[i..], acc, RecordStep(rec)) == Err(rec(es[i].val).error)
  {
    assert es[i..][1..] == es[i + 1..];
    assert es[i..][0] == es[i];
  }

  /** A `d[k] = record(v)` loop over a dict fails iff some record fails,
      and otherwise gives one entry per key, holding that key's record. */
  lemma FoldRecords(es: seq<Entry>, rec: Value -> Result<Value>)
    requires DistinctKeys(es)
    ensures FoldPut(es, [], RecordStep(rec)).Ok? <==> forall i :: 0 <= i < |es| ==> rec(es[i].val).Ok?
    ensures FoldPut(es, [], RecordStep(rec)).Ok? ==>
      var r := FoldPut(es, [], RecordStep(rec)).value;
      && DistinctKeys(r)
      && (forall k :: HasKey(r, k) <==> HasKey(es, k))
      && forall i :: 0 <= i < |es| ==> Lookup(r, es[i].key) == Some(rec(es[i].val).value)
  {
    var step := RecordStep(rec);
    FoldPutOk(es, [], step);
    if FoldPut(es, [], step).Ok? {
      FoldPutKeys(es, step);
      RecordsLookup(es, rec);
    }
  }

  lemma RecordsLookup(es: seq<Entry>, rec: Value -> Result<Value>)
    requires DistinctKeys(es) && FoldPut(es, [], RecordStep(rec)).Ok?
    ensures forall i :: 0 <= i < |es| ==> rec(es[i].val).Ok?
    ensures var r := FoldPut(es, [], RecordStep(rec)).value;
      && (forall k :: HasKey(es, k) ==> HasKey(r, k))
      && forall i :: 0 <= i < |es| ==> Lookup(r, es[i].key) == Some(rec(es[i].val).value)
  {
    var step := RecordStep(rec);
    var r := FoldPut(es, [], step).value;
    forall i | 0 <= i < |es| ensures rec(es[i].val).Ok? && Lookup(r, es[i].key) == Some(rec(es[i].val).value) {
      FoldPutLookup(es, step, i);
      RecordStepAt(rec, es[i]);
    }
    forall k | HasKey(es, k) ensures HasKey(r, k) {
      var i := Find(es, k).value;
      FoldPutLookup(es, step, i);
      RecordStepAt(rec, es[i]);
    }
  }

  lemma RecordStepAt(rec: Value -> Result<Value>, e: Entry)
    ensures RecordStep(rec)(e).Ok? <==> rec(e.val).Ok?
    ensures rec(e.val).Ok? ==> RecordStep(rec)(e) == Ok(Some(rec(e.val).value))
  {
  }


  // ---------------------------------------------------------------------------
  // extract_fields
  // ---------------------------------------------------------------------------

  /** The `schema` of a field: the `entry_schema` itself when it is a string,
      else its `type`; only a dict has `get`. */
  function Schema(entrySchema: Value): (r: Result<Value>)
    ensures entrySchema.Str? ==> r == Ok(entrySchema)
    ensures entrySchema.Map? ==> r == Ok(GetOr(entrySchema.entries, TYPE, Str("")))
    ensures !entrySchema.Str? && !entrySchema.Map? ==> r == Err(AttributeError)
  {
    if entrySchema.Str? then Ok(entrySchema)
    else
      var t :- Get(entrySchema, TYPE, Str(""));
      Ok(t)
  }

  /** The record `extract_fields` makes of one property. */
  function FieldRecord(value: Value): (r: Result<Value>)
    ensures !value.Map? ==> r == Err(AttributeError)
    ensures r.Ok? <==> value.Map? && Schema(GetOr(value.entries, ENTRY_SCHEMA, Map([]))).Ok?
  {
    if !value.Map? then Err(AttributeError)
    else
      var es := value.entries;
      var schema :- Schema(GetOr(es, ENTRY_SCHEMA, Map([])));
      Ok(Map([Entry(REQUIRED, GetOr(es, REQUIRED, Bool(false))), Entry(TYPE, GetOr(es, TYPE, Str(""))),
              Entry(SCHEMA, schema), Entry(DESCRIPTION, GetOr(es, DESCRIPTION, NO_DESCRIPTION))]))
  }

  /** A field record holds `required`, `type`, `schema` and `description`,
      each the property's own or its default: `False`, `""`, the entry
      schema's type (or `""`), and "No description available". */
  lemma FieldDefaults(value: Value)
    requires FieldRecord(value).Ok?
    ensures var rec := FieldRecord(value).value.entries;
      && Keys(rec) == [REQUIRED, TYPE, SCHEMA, DESCRIPTION]
      && Lookup(rec, REQUIRED) == Some(GetOr(value.entries, REQUIRED, Bool(false)))
      && Lookup(rec, TYPE) == Some(GetOr(value.entries, TYPE, Str("")))
      && Lookup(rec, SCHEMA) == Some(Schema(GetOr(value.entries, ENTRY_SCHEMA, Map([]))).value)
      && Lookup(rec, DESCRIPTION) == Some(GetOr(value.entries, DESCRIPTION, NO_DESCRIPTION))
  {
    var es := value.entries;
    Lookup4(REQUIRED, GetOr(es, REQUIRED, Bool(false)), TYPE, GetOr(es, TYPE, Str("")),
            SCHEMA, Schema(GetOr(es, ENTRY_SCHEMA, Map([]))).value, DESCRIPTION, GetOr(es, DESCRIPTION, NO_DESCRIPTION));
  }

  /** What `extract_fields(properties)` returns. */
  function FieldsOf(properties: Value): (r: Result<Value>)
    ensures !properties.Map? ==> r == Err(AttributeError)
    ensures r.Ok? ==> r.value.Map?
  {
    var es :- Items(properties);
    var fields :- FoldPut(es, [], RecordStep(FieldRecord));
    Ok(Map(fields))
  }

  /** `extract_fields` has one entry per property name, holding that
      property's record, and fails iff some record fails. */
  lemma FieldsOfEntries(properties: Value)
    requires properties.Map? && DistinctKeys(properties.entries)
    ensures FieldsOf(properties).Ok? <==>
      forall i :: 0 <= i < |properties.entries| ==> FieldRecord(properties.entries[i].val).Ok?
    ensures FieldsOf(properties).Ok? ==>
      var es := properties.entries;
      var fs := FieldsOf(properties).value.entries;
      && (forall k :: HasKey(fs, k) <==> HasKey(es, k))
      && forall i :: 0 <= i < |es| ==> Lookup(fs, es[i].key) == Some(FieldRecord(es[i].val).value)
  {
    FoldRecords(properties.entries, FieldRecord);
  }

  /** `extract_fields(properties)`. */
  method ExtractFields(properties: Value) returns (r: Result<Value>)
    ensures r == FieldsOf(properties)
  {
    var items := Items(properties);
    if items.Err? {
      return Err(items.error);
    }
    var es := items.value;
    var fields: seq<Entry> := [];
    var i := 0;
    while i < |es|
      invariant 0 <= i <= |es|
      invariant FoldPut(es[i..], fields, RecordStep(FieldRecord)) == FoldPut(es, [], RecordStep(FieldRecord))
    {
      RecordLoopStep(es, i, fields, FieldRecord);
      var rec := FieldRecord(es[i].val);
      if rec.Err? {
        return Err(rec.error);
      }
      fields := Put(fields, es[i].key, rec.value);
      i := i + 1;
    }
    assert es[i..] == [];
    return Ok(Map(fields));
  }

  // ---------------------------------------------------------------------------
  // extract_types
  // ---------------------------------------------------------------------------

  /** The record of one property in a `fields` list: its name, then
      `required`, `type` and `description` with their defaults. */
  function PropRecord(name: Value, prop: Value): (r: Result<Value>)
    ensures r.Ok? <==> prop.Map?
    ensures !prop.Map? ==> r == Err(AttributeError)
  {
    if !prop.Map? then Err(AttributeError)
    else
      var es := prop.entries;
      Ok(Map([Entry(NAME, name), Entry(REQUIRED, GetOr(es, REQUIRED, Bool(false))),
              Entry(TYPE, GetOr(es, TYPE, Str(""))), Entry(DESCRIPTION, GetOr(es, DESCRIPTION, NO_DESCRIPTION))]))
  }

  /** A property record holds `name`, `required`, `type` and `description`,
      the last three the property's own or `False`, `""` and
      "No description available". */
  lemma PropRecordFields(name: Value, prop: Value)
    requires prop.Map?
    ensures PropRecord(name, prop).Ok?
    ensures var rec := PropRecord(name, prop).value.entries;
      && Keys(rec) == [NAME, REQUIRED, TYPE, DESCRIPTION]
      && Lookup(rec, NAME) == Some(name)
      && Lookup(rec, REQUIRED) == Some(GetOr(prop.entries, REQUIRED, Bool(false)))
      && Lookup(rec, TYPE) == Some(GetOr(prop.entries, TYPE, Str("")))
      && Lookup(rec, DESCRIPTION) == Some(GetOr(prop.entries, DESCRIPTION, NO_DESCRIPTION))
  {
    var es := prop.entries;
    Lookup4(NAME, name, REQUIRED, GetOr(es, REQUIRED, Bool(false)), TYPE, GetOr(es, TYPE, Str("")),
            DESCRIPTION, GetOr(es, DESCRIPTION, NO_DESCRIPTION));
  }

  function TypeField(e: Entry): Result<Value> {
    PropRecord(e.key, e.val)
  }

  /** The record `extract_types` makes of one type: its description and one
      field per property, in order. */
  function TypeRecord(value: Value): (r: Result<Value>)
    ensures !value.Map? ==> r == Err(AttributeError)
  {
    if !value.Map? then Err(AttributeError)
    else
      var ps :- Items(GetOr(value.entries, PROPERTIES, Map([])));
      var fields :- MapEntries(ps, TypeField);
      Ok(Map([Entry(DESCRIPTION, GetOr(value.entries, DESCRIPTION, NO_DESCRIPTION)), Entry(FIELDS, List(fields))]))
  }

  /** A type whose properties are dicts gets its description (or the
      default) and a `fields` list with one record per property, in order,
      named after the property. */
  lemma TypeRecordFields(value: Value, j: nat)
    requires value.Map?
    requires var props := GetOr(value.entries, PROPERTIES, Map([]));
      props.Map? && j < |props.entries| && forall i :: 0 <= i < |props.entries| ==> props.entries[i].val.Map?
    ensures TypeRecord(value).Ok?
    ensures var rec := TypeRecord(value).value.entries;
      var ps := GetOr(value.entries, PROPERTIES, Map([])).entries;
      && Keys(rec) == [DESCRIPTION, FIELDS]
      && Lookup(rec, DESCRIPTION) == Some(GetOr(value.entries, DESCRIPTION, NO_DESCRIPTION))
      && Lookup(rec, FIELDS).Some? && Lookup(rec, FIELDS).value.List?
      && var fs := Lookup(rec, FIELDS).value.items;
      && |fs| == |ps|
      && fs[j] == PropRecord(ps[j].key, ps[j].val).value
      && Lookup(fs[j].entries, NAME) == Some(ps[j].key)
  {
    var ps := GetOr(value.entries, PROPERTIES, Map([])).entries;
    MapEntriesOk(ps, TypeField);
    var fs := MapEntries(ps, TypeField).value;
    Lookup2(DESCRIPTION, GetOr(value.entries, DESCRIPTION, NO_DESCRIPTION), FIELDS, List(fs));
    MapEntriesAt(ps, TypeField, j);
    PropRecordFields(ps[j].key, ps[j].val);
  }

  /** What `extract_types(types_dict)` returns. */
  function TypesOf(types: Value): (r: Result<Value>)
    ensures !types.Map? ==> r == Err(AttributeError)
    ensures r.Ok? ==> r.value.Map?
  {
    var es :- Items(types);
    var out :- FoldPut(es, [], RecordStep(TypeRecord));
    Ok(Map(out))
  }

  /** `extract_types` has one entry per type name, holding that type's
      record, and fails iff some record fails. */
  lemma TypesOfEntries(types: Value)
    requires types.Map? && DistinctKeys(types.entries)
    ensures TypesOf(types).Ok? <==> forall i :: 0 <= i < |types.entries| ==> TypeRecord(types.entries[i].val).Ok?
    ensures TypesOf(types).Ok? ==>
      var es := types.entries;
      var ts := TypesOf(types).value.entries;
      && (forall k :: HasKey(ts, k) <==> HasKey(es, k))
      && forall i :: 0 <= i < |es| ==> Lookup(ts, es[i].key) == Some(TypeRecord(es[i].val).value)
  {
    FoldRecords(types.entries, TypeRecord);
  }

  /** `extract_types(types_dict)`. */
  method ExtractTypes(types: Value) returns (r: Result<Value>)
    ensures r == TypesOf(types)
  {
    var items := Items(types);
    if items.Err? {
      return Err(items.error);
    }
    var es := items.value;
    var out: seq<Entry> := [];
    var i := 0;
    while i < |es|
      invariant 0 <= i <= |es|
      invariant FoldPut(es[i..], out, RecordStep(TypeRecord)) == FoldPut(es, [], RecordStep(TypeRecord))
    {
      RecordLoopStep(es, i, out, TypeRecord);
      var rec := TypeRecord(es[i].val);
      if rec.Err? {
        return Err(rec.error);
      }
      out := Put(out, es[i].key, rec.value);
      i := i + 1;
    }
    assert es[i..] == [];
    return Ok(Map(out));
  }

  // ---------------------------------------------------------------------------
  // extract_capability_types
  // ---------------------------------------------------------------------------

  /** The properties listed for one capability: the inline ones when they
      are truthy, else those of the capability type it names when that type
      is known, else the inline value as it is. */
  function CapProps(capValue: Value, capTypes: Value): (r: Result<Value>)
    ensures !capValue.Map? ==> r == Err(AttributeError)
    ensures capValue.Map? && Truthy(GetOr(capValue.entries, PROPERTIES, Map([]))) ==>
      r == Ok(GetOr(capValue.entries, PROPERTIES, Map([])))
    ensures capValue.Map? && !Truthy(GetOr(capValue.entries, PROPERTIES, Map([]))) && capTypes.Map? ==>
      var t := GetOr(capValue.entries, TYPE, Str(""));
      Hashable(t) ==>
        && (!HasKey(capTypes.entries, t) ==> r == Ok(GetOr(capValue.entries, PROPERTIES, Map([]))))
        && (HasKey(capTypes.entries, t) && Lookup(capTypes.entries, t).value.Map? ==>
              r == Ok(GetOr(Lookup(capTypes.entries, t).value.entries, PROPERTIES, Map([]))))
  {
    if !capValue.Map? then Err(AttributeError)
    else
      var props := GetOr(capValue.entries, PROPERTIES, Map([]));
      if Truthy(props) then Ok(props)
      else
        var capType := GetOr(capValue.entries, TYPE, Str(""));
        var known :- In(capType, capTypes);
        if known then
          var def :- Item(capTypes, capType);
          Get(def, PROPERTIES, Map([]))
        else Ok(props)
  }

  /** The field name `f"{cap_name}.{prop_name}"`. */
  function CapFieldName(capName: Value, propName: Value): Value {
    Str(PyStr(capName) + "." + PyStr(propName))
  }

  /** The record of one property of capability `capName`. */
  function CapField(capName: Value): Entry -> Result<Value> {
    (e: Entry) => PropRecord(CapFieldName(capName, e.key), e.val)
  }

  /** The fields one capability contributes, one per property, in order. */
  function CapFields(cap: Entry, capTypes: Value): Result<seq<Value>> {
    var props :- CapProps(cap.val, capTypes);
    var ps :- Items(props);
    MapEntries(ps, CapField(cap.key))
  }

  /** The fields of all capabilities of a node type: capability by
      capability, each in property order. */
  function CapsFields(caps: seq<Entry>, capTypes: Value): (r: Result<seq<Value>>)
    ensures caps == [] ==> r == Ok([])
  {
    if caps == [] then Ok([])
    else
      var first :- CapFields(caps[0], capTypes);
      var rest :- CapsFields(caps[1..], capTypes);
      Ok(first + rest)
  }

  /** Every field of a capability is named `<cap>.<prop>` after its
      property, in property order, and carries that property's record. */
  lemma CapFieldNames(cap: Entry, capTypes: Value, j: nat)
    requires CapFields(cap, capTypes).Ok?
    requires var ps := CapProps(cap.val, capTypes).value.entries; j < |ps|
    ensures var ps := CapProps(cap.val, capTypes).value.entries;
      var fs := CapFields(cap, capTypes).value;
      && |fs| == |ps|
      && ps[j].val.Map?
      && fs[j] == PropRecord(CapFieldName(cap.key, ps[j].key), ps[j].val).value
      && Lookup(fs[j].entries, NAME) == Some(Str(PyStr(cap.key) + "." + PyStr(ps[j].key)))
  {
    var ps := CapProps(cap.val, capTypes).value.entries;
    MapEntriesAt(ps, CapField(cap.key), j);
    PropRecordFields(CapFieldName(cap.key, ps[j].key), ps[j].val);
  }

  /** The record `extract_capability_types` makes of one node type. */
  function NodeRecord(nodeValue: Value, capTypes: Value): (r: Result<Value>)
    ensures !nodeValue.Map? ==> r == Err(AttributeError)
  {
    if !nodeValue.Map? then Err(AttributeError)
    else
      var caps :- Items(GetOr(nodeValue.entries, CAPABILITIES, Map([])));
      var fields :- CapsFields(caps, capTypes);
      Ok(Map([Entry(DESCRIPTION, GetOr(nodeValue.entries, DESCRIPTION, NO_DESCRIPTION)), Entry(FIELDS, List(fields))]))
  }

  /** A node type's record has its description (or the default) and the
      fields of its capabilities. */
  lemma NodeRecordFields(nodeValue: Value, capTypes: Value)
    requires NodeRecord(nodeValue, capTypes).Ok?
    ensures var rec := NodeRecord(nodeValue, capTypes).value.entries;
      var caps := GetOr(nodeValue.entries, CAPABILITIES, Map([]));
      && caps.Map? && CapsFields(caps.entries, capTypes).Ok?
      && Keys(rec) == [DESCRIPTION, FIELDS]
      && Lookup(rec, DESCRIPTION) == Some(GetOr(nodeValue.entries, DESCRIPTION, NO_DESCRIPTION))
      && Lookup(rec, FIELDS) == Some(List(CapsFields(caps.entries, capTypes).value))
  {
    var caps := GetOr(nodeValue.entries, CAPABILITIES, Map([]));
    Lookup2(DESCRIPTION, GetOr(nodeValue.entries, DESCRIPTION, NO_DESCRIPTION),
            FIELDS, List(CapsFields(caps.entries, capTypes).value));
  }

  /** `NodeRecord` with the capability types fixed. */
  function NodeRecordIn(capTypes: Value): Value -> Result<Value> {
    (v: Value) => NodeRecord(v, capTypes)
  }

  /** What `extract_capability_types(node_types_dict, capability_types_dict)`
      returns. */
  function CapabilityTypesOf(nodeTypes: Value, capTypes: Value): (r: Result<Value>)
    ensures !nodeTypes.Map? ==> r == Err(AttributeError)
    ensures r.Ok? ==> r.value.Map?
  {
    var es :- Items(nodeTypes);
    var out :- FoldPut(es, [], RecordStep(NodeRecordIn(capTypes)));
    Ok(Map(out))
  }

  /** One entry per node type, holding its record; it fails iff some record
      fails. */
  lemma CapabilityTypesEntries(nodeTypes: Value, capTypes: Value)
    requires nodeTypes.Map? && DistinctKeys(nodeTypes.entries)
    ensures CapabilityTypesOf(nodeTypes, capTypes).Ok? <==>
      forall i :: 0 <= i < |nodeTypes.entries| ==> NodeRecord(nodeTypes.entries[i].val, capTypes).Ok?
    ensures CapabilityTypesOf(nodeTypes, capTypes).Ok? ==>
      var es := nodeTypes.entries;
      var ts := CapabilityTypesOf(nodeTypes, capTypes).value.entries;
      && (forall k :: HasKey(ts, k) <==> HasKey(es, k))
      && forall i :: 0 <= i < |es| ==> Lookup(ts, es[i].key) == Some(NodeRecord(es[i].val, capTypes).value)
  {
    FoldRecords(nodeTypes.entries, NodeRecordIn(capTypes));
  }

  /** The properties loop of one capability appends its fields. */
  lemma PropsLoopStep(fields: seq<Value>, ps: seq<Entry>, p: nat, f: Entry -> Result<Value>)
    requires p < |ps|
    ensures f(ps[p]).Ok? ==> Prefixed(fields + [f(ps[p]).value], MapEntries(ps[p + 1..], f)) == Prefixed(fields, MapEntries(ps[p..], f))
    ensures f(ps[p]).Err? ==> MapEntries(ps[p..], f) == Err(f(ps[p]).error)
  {
    assert ps[p..][1..] == ps[p + 1..];
    if f(ps[p]).Ok? {
      PrefixedCons(fields, f(ps[p]).value, MapEntries(ps[p + 1..], f));
    }
  }

  /** The capabilities loop of one node type moves one capability's fields
      into the list. */
  lemma CapsLoopStep(fields: seq<Value>, caps: seq<Entry>, c: nat, capTypes: Value, more: seq<Value>)
    requires c < |caps| && CapFields(caps[c], capTypes) == Ok(more)
    ensures Prefixed(fields + more, CapsFields(caps[c + 1..], capTypes)) == Prefixed(fields, CapsFields(caps[c..], capTypes))
  {
    assert caps[c..][1..] == caps[c + 1..];
    var rest := CapsFields(caps[c + 1..], capTypes);
    if rest.Ok? {
      assert fields + more + rest.value == fields + (more + rest.value);
    }
  }

  /** A capability whose fields fail stops the node type's loop. */
  lemma CapsLoopFails(caps: seq<Entry>, c: nat, capTypes: Value)
    requires c < |caps| && CapFields(caps[c], capTypes).Err?
    ensures CapsFields(caps[c..], capTypes) == Err(CapFields(caps[c], capTypes).error)
  {
    assert caps[c..][1..] == caps[c + 1..];
  }

  /** The properties loop of one capability: its records appended to
      `fields` one at a time. */
  method AppendCapFields(fields: seq<Value>, cap: Entry, capTypes: Value) returns (r: Result<seq<Value>>)
    ensures r == Prefixed(fields, CapFields(cap, capTypes))
  {
    var props := CapProps(cap.val, capTypes);
    if props.Err? {
      return Err(props.error);
    }
    var items := Items(props.value);
    if items.Err? {
      return Err(items.error);
    }
    var ps := items.value;
    ghost var f := CapField(cap.key);
    var out := fields;
    var p := 0;
    while p < |ps|
      invariant 0 <= p <= |ps|
      invariant Prefixed(out, MapEntries(ps[p..], f)) == Prefixed(fields, MapEntries(ps, f))
    {
      var rec := PropRecord(CapFieldName(cap.key, ps[p].key), ps[p].val);
      PropsLoopStep(out, ps, p, f);
      if rec.Err? {
        return Err(rec.error);
      }
      out := out + [rec.value];
      p := p + 1;
    }
    assert ps[p..] == [];
    assert out + [] == out;
    return Ok(out);
  }

  /** The fields loop of one node type: for every capability, its
      properties. */
  method NodeTypeFields(caps: seq<Entry>, capTypes: Value) returns (r: Result<seq<Value>>)
    ensures r == CapsFields(caps, capTypes)
  {
    var fields: seq<Value> := [];
    var c := 0;
    assert caps[c..] == caps;
    PrefixedEmpty(CapsFields(caps, capTypes));
    while c < |caps|
      invariant 0 <= c <= |caps|
      invariant Prefixed(fields, CapsFields(caps[c..], capTypes)) == CapsFields(caps, capTypes)
    {
      var next := AppendCapFields(fields, caps[c], capTypes);
      if next.Err? {
        CapsLoopFails(caps, c, capTypes);
        return Err(next.error);
      }
      CapsLoopStep(fields, caps, c, capTypes, CapFields(caps[c], capTypes).value);
      fields := next.value;
      c := c + 1;
    }
    assert caps[c..] == [];
    assert fields + [] == fields;
    return Ok(fields);
  }

  /** `extract_capability_types(node_types_dict, capability_types_dict)`. */
  method ExtractCapabilityTypes(nodeTypes: Value, capTypes: Value) returns (r: Result<Value>)
    ensures r == CapabilityTypesOf(nodeTypes, capTypes)
  {
    var items := Items(nodeTypes);
    if items.Err? {
      return Err(items.error);
    }
    var es := items.value;
    var step := RecordStep(NodeRecordIn(capTypes));
    var out: seq<Entry> := [];
    var i := 0;
    while i < |es|
      invariant 0 <= i <= |es|
      invariant FoldPut(es[i..], out, step) == FoldPut(es, [], step)
    {
      RecordLoopStep(es, i, out, NodeRecordIn(capTypes));
      var nodeValue := es[i].val;
      assert NodeRecordIn(capTypes)(nodeValue) == NodeRecord(nodeValue, capTypes);
      var capsV := Get(nodeValue, CAPABILITIES, Map([]));
      if capsV.Err? {
        return Err(capsV.error);
      }
      var caps := Items(capsV.value);
      if caps.Err? {
        return Err(caps.error);
      }
      var fields := NodeTypeFields(caps.value, capTypes);
      if fields.Err? {
        return Err(fields.error);
      }
      var description := GetOr(nodeValue.entries, DESCRIPTION, NO_DESCRIPTION);
      out := Put(out, es[i].key, Map([Entry(DESCRIPTION, description), Entry(FIELDS, List(fields.value))]));
      i := i + 1;
    }
    assert es[i..] == [];
    return Ok(Map(out));
  }

  // ---------------------------------------------------------------------------
  // The Policy page and page file names
  // ---------------------------------------------------------------------------

  const QOS_PREFIX: string := "QoS."

  /** One policy type in the Policy page's comprehension. */
  function PolicyStep(e: Entry): (r: Result<Option<Value>>)
    ensures !e.key.Str? ==> r == Err(AttributeError)
  {
    if !e.key.Str? then Err(AttributeError)
    else if !StartsWith(e.key.s, QOS_PREFIX) then Ok(None)
    else
      var description :- Get(e.val, DESCRIPTION, NO_DESCRIPTION);
      Ok(Some(Map([Entry(DESCRIPTION, description)])))
  }

  /** The Policy page's `fields`: `{name: {"description": ...}}` for the
      policy types whose name starts with `QoS.`. */
  function PolicyFields(policyTypes: Value): (r: Result<Value>)
    ensures !policyTypes.Map? ==> r == Err(AttributeError)
    ensures r.Ok? ==> r.value.Map?
  {
    var es :- Items(policyTypes);
    var fields :- FoldPut(es, [], PolicyStep);
    Ok(Map(fields))
  }

  /** The Policy page lists exactly the `QoS.` policy types, each with its
      description or the default; a name that is not a string, or a `QoS.`
      type that is not a dict, raises. */
  lemma PolicyFieldsKeys(policyTypes: Value)
    requires policyTypes.Map? && DistinctKeys(policyTypes.entries)
    ensures PolicyFields(policyTypes).Ok? <==>
      forall i :: 0 <= i < |policyTypes.entries| ==> var e := policyTypes.entries[i];
        e.key.Str? && (StartsWith(e.key.s, QOS_PREFIX) ==> e.val.Map?)
    ensures PolicyFields(policyTypes).Ok? ==>
      var es := policyTypes.entries;
      var fs := PolicyFields(policyTypes).value.entries;
      && (forall k :: HasKey(fs, k) <==> HasKey(es, k) && k.Str? && StartsWith(k.s, QOS_PREFIX))
      && forall i :: 0 <= i < |es| && StartsWith(es[i].key.s, QOS_PREFIX) ==>
           Lookup(fs, es[i].key) == Some(Map([Entry(DESCRIPTION, GetOr(es[i].val.entries, DESCRIPTION, NO_DESCRIPTION))]))
  {
    var es := policyTypes.entries;
    FoldPutOk(es, [], PolicyStep);
    if PolicyFields(policyTypes).Ok? {
      var fs := FoldPut(es, [], PolicyStep).value;
      FoldPutKeys(es, PolicyStep);
      forall i | 0 <= i < |es| ensures Lookup(fs, es[i].key) == PolicyStep(es[i]).value {
        FoldPutLookup(es, PolicyStep, i);
      }
      forall i | 0 <= i < |es| && StartsWith(es[i].key.s, QOS_PREFIX)
        ensures PolicyStep(es[i]).value == Some(Map([Entry(DESCRIPTION, GetOr(es[i].val.entries, DESCRIPTION, NO_DESCRIPTION))]))
      {
        GetIsGetOr(es[i].val, DESCRIPTION, NO_DESCRIPTION);
      }
      forall k ensures HasKey(fs, k) <==> HasKey(es, k) && k.Str? && StartsWith(k.s, QOS_PREFIX) {
        if HasKey(es, k) {
          var i := Find(es, k).value;
          assert Lookup(fs, k) == PolicyStep(es[i]).value;
        }
      }
    } else {
      forall i | 0 <= i < |es| && es[i].key.Str? && StartsWith(es[i].key.s, QOS_PREFIX) && es[i].val.Map?
        ensures PolicyStep(es[i]).Ok?
      {
        GetIsGetOr(es[i].val, DESCRIPTION, NO_DESCRIPTION);
      }
    }
  }

  /** A page's file name: `name.lower().replace(" ", "_")`. */
  function PageFileName(name: string): (r: string)
    ensures |r| == |name|
    ensures forall i :: 0 <= i < |r| ==> r[i] != ' ' && !('A' <= r[i] <= 'Z')
    ensures forall i :: 0 <= i < |r| ==> (name[i] == ' ' ==> r[i] == '_')
    ensures forall i :: 0 <= i < |r| ==> (name[i] != ' ' ==> r[i] == LowerChar(name[i]))
  {
    var lower := Lower(name);
    seq(|lower|, i requires 0 <= i < |lower| => if lower[i] == ' ' then '_' else lower[i])
  }

  /** A file name is its own file name. */
  lemma PageFileNameIdempotent(name: string)
    ensures PageFileName(PageFileName(name)) == PageFileName(name)
  {
  }
}
