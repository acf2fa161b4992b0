/** `DotDict`, the attribute-style wrapper the `Sardou` class puts around a
    loaded template, and the two projections `Sardou` offers on it: the QoS
    policies and the cluster view of the node templates.

    A DotDict keeps its entries as instance attributes, in the order `setattr`
    created them. A nested DotDict is held by value inside its parent's
    attributes. */
module Sardou {
  import opened Values

  /** What an attribute holds: a plain value, a nested DotDict, or a list
      whose items are plain values or DotDicts. */
  datatype DVal =
    | Plain(v: Value)
    | Dot(attrs: seq<Attr>)
    | Elems(elems: seq<DVal>)

  /** One instance attribute. */
  datatype Attr = Attr(name: string, val: DVal)

  // ---------------------------------------------------------------------------
  // Instance attributes as an ordered table (the object's `__dict__`)
  // ---------------------------------------------------------------------------

  function Names(attrs: seq<Attr>): (ns: seq<string>)
    ensures |ns| == |attrs|
    ensures forall i :: 0 <= i < |attrs| ==> ns[i] == attrs[i].name
  {
    seq(|attrs|, i requires 0 <= i < |attrs| => attrs[i].name)
  }

  /** No name occurs twice. */
  predicate DistinctNames(attrs: seq<Attr>) {
    forall i, j :: 0 <= i < j < |attrs| ==> attrs[i].name != attrs[j].name
  }

  predicate HasAttr(attrs: seq<Attr>, n: string) {
    n in Names(attrs)
  }

  /** The position of attribute `n`. */
  function FindAttr(attrs: seq<Attr>, n: string): (r: Option<nat>)
    ensures r.Some? ==> r.value < |attrs| && attrs[r.value].name == n
    ensures r.Some? ==> forall j :: 0 <= j < r.value ==> attrs[j].name != n
    ensures r.None? <==> !HasAttr(attrs, n)
  {
    if attrs == [] then None
    else if attrs[0].name == n then Some(0)
    else
      assert Names(attrs) == [attrs[0].name] + Names(attrs[1..]);
      match FindAttr(attrs[1..], n)
      case None => None
      case Some(j) => Some(j + 1)
  }

  /** `getattr(obj, n)` on the instance attributes. */
  function LookupAttr(attrs: seq<Attr>, n: string): (r: Option<DVal>)
    ensures r.Some? <==> HasAttr(attrs, n)
    ensures r.Some? ==> r.value == attrs[FindAttr(attrs, n).value].val
  {
    match FindAttr(attrs, n)
    case None => None
    case Some(i) => Some(attrs[i].val)
  }

  lemma {:induction false} FindAttrAppend(attrs: seq<Attr>, a: Attr, n: string)
    requires n != a.name
    ensures FindAttr(attrs + [a], n) == FindAttr(attrs, n)
  {
    if attrs != [] {
      assert (attrs + [a])[1..] == attrs[1..] + [a];
      FindAttrAppend(attrs[1..], a, n);
    }
  }

  lemma {:induction false} FindAttrSameNames(a: seq<Attr>, b: seq<Attr>, n: string)
    requires Names(a) == Names(b)
    ensures FindAttr(a, n) == FindAttr(b, n)
  {
    if a != [] {
      assert a[0].name == Names(a)[0] == Names(b)[0] == b[0].name;
      assert Names(a[1..]) == Names(a)[1..];
      assert Names(b[1..]) == Names(b)[1..];
      FindAttrSameNames(a[1..], b[1..], n);
    }
  }

  lemma NamesAppend(attrs: seq<Attr>, a: Attr)
    ensures Names(attrs + [a]) == Names(attrs) + [a.name]
  {
  }

  /** `setattr(obj, n, v)`: an existing attribute keeps its place and takes
      the new value, a new one is added last. */
  function PutAttr(attrs: seq<Attr>, n: string, v: DVal): (r: seq<Attr>)
    ensures !HasAttr(attrs, n) ==> r == attrs + [Attr(n, v)]
    ensures HasAttr(attrs, n) ==> Names(r) == Names(attrs)
    ensures LookupAttr(r, n) == Some(v)
    ensures forall m :: m != n ==> LookupAttr(r, m) == LookupAttr(attrs, m)
    ensures forall m :: HasAttr(r, m) <==> HasAttr(attrs, m) || m == n
    ensures forall j :: 0 <= j < |r| ==> r[j] == Attr(n, v) || r[j] == attrs[j]
    ensures DistinctNames(attrs) ==> DistinctNames(r)
  {
    match FindAttr(attrs, n)
    case None =>
      var r := attrs + [Attr(n, v)];
      NamesAppend(attrs, Attr(n, v));
      assert FindAttr(r, n) == Some(|attrs|) by {
        assert Names(r)[|attrs|] == n;
      }
      assert forall m :: m != n ==> FindAttr(r, m) == FindAttr(attrs, m) by {
        forall m | m != n ensures FindAttr(r, m) == FindAttr(attrs, m) {
          FindAttrAppend(attrs, Attr(n, v), m);
        }
      }
      r
    case Some(i) =>
      var r := attrs[i := Attr(n, v)];
      assert Names(r) == Names(attrs);
      assert forall m :: FindAttr(r, m) == FindAttr(attrs, m) by {
        forall m ensures FindAttr(r, m) == FindAttr(attrs, m) {
          FindAttrSameNames(r, attrs, m);
        }
      }
      r
  }

  /** `delattr(obj, n)`: the attribute goes, the others keep their order. */
  function RemoveAttr(attrs: seq<Attr>, n: string): (r: seq<Attr>)
    ensures forall a :: a in r ==> a in attrs && a.name != n
  {
    if attrs == [] then []
    else
      var rest := RemoveAttr(attrs[1..], n);
      if attrs[0].name == n then rest else [attrs[0]] + rest
  }

  lemma LookupAttrCons(a: Attr, rest: seq<Attr>, m: string)
    ensures LookupAttr([a] + rest, m) == if a.name == m then Some(a.val) else LookupAttr(rest, m)
  {
    var attrs := [a] + rest;
    assert attrs[0] == a;
    if a.name != m {
      FindAttrCons(a, rest, m);
      if HasAttr(rest, m) {
        assert attrs[FindAttr(rest, m).value + 1] == rest[FindAttr(rest, m).value];
      }
    }
  }

  lemma FindAttrCons(a: Attr, rest: seq<Attr>, m: string)
    requires a.name != m
    ensures FindAttr([a] + rest, m) == if HasAttr(rest, m) then Some(FindAttr(rest, m).value + 1) else None
  {
    assert ([a] + rest)[1..] == rest;
  }

  /** After `delattr(obj, n)`, `n` is gone and every other attribute reads
      as before. */
  lemma {:induction false} RemoveAttrLookup(attrs: seq<Attr>, n: string, m: string)
    ensures LookupAttr(RemoveAttr(attrs, n), m) == if m == n then None else LookupAttr(attrs, m)
  {
    if attrs != [] {
      var rest := RemoveAttr(attrs[1..], n);
      RemoveAttrLookup(attrs[1..], n, m);
      assert attrs == [attrs[0]] + attrs[1..];
      LookupAttrCons(attrs[0], attrs[1..], m);
      if attrs[0].name != n {
        LookupAttrCons(attrs[0], rest, m);
      }
    }
  }

  lemma {:induction false} RemoveAttrDistinct(attrs: seq<Attr>, n: string)
    requires DistinctNames(attrs)
    ensures DistinctNames(RemoveAttr(attrs, n))
  {
    if attrs != [] {
      var rest := RemoveAttr(attrs[1..], n);
      RemoveAttrDistinct(attrs[1..], n);
      if attrs[0].name != n {
        forall j | 0 <= j < |rest| ensures rest[j].name != attrs[0].name {
          assert rest[j] in rest;
          var k :| 0 <= k < |attrs[1..]| && attrs[1..][k] == rest[j];
          assert rest[j] == attrs[k + 1];
        }
      }
    }
  }

  // ---------------------------------------------------------------------------
  // What a DotDict may hold
  // ---------------------------------------------------------------------------

  /** Every DotDict in `d` has distinct attribute names, and a list holds
      plain values and DotDicts only. */
  predicate WellFormed(d: DVal)
    decreases d
  {
    match d
    case Plain(_) => true
    case Dot(attrs) => DistinctNames(attrs) && forall i :: 0 <= i < |attrs| ==> WellFormed(attrs[i].val)
    case Elems(es) => forall i :: 0 <= i < |es| ==> !es[i].Elems? && WellFormed(es[i])
  }

  /** What the constructor builds: every dict has become a DotDict, so no
      plain dict or plain list is left except inside a list's items. */
  predicate Converted(d: DVal)
    decreases d
  {
    match d
    case Plain(v) => !v.Map? && !v.List?
    case Dot(attrs) => forall i :: 0 <= i < |attrs| ==> Converted(attrs[i].val)
    case Elems(es) => forall i :: 0 <= i < |es| ==>
      (es[i].Dot? && Converted(es[i])) || (es[i].Plain? && !es[i].v.Map?)
  }

  // ---------------------------------------------------------------------------
  // DotDict(**d): the conversion of a dict
  // ---------------------------------------------------------------------------

  /** The value an attribute receives in `__init__`: a dict becomes a
      DotDict, a list has its dict items made DotDicts, anything else is
      kept. `**d` raises TypeError on a key that is not a string. */
  function Convert(v: Value): (r: Result<DVal>)
    ensures r.Ok? ==> WellFormed(r.value) && Converted(r.value)
    ensures r.Err? ==> r.error == TypeError
    ensures !v.Map? && !v.List? ==> r == Ok(Plain(v))
    ensures v.Map? && r.Ok? ==> r.value.Dot?
    ensures v.List? && r.Ok? ==> r.value.Elems? && |r.value.elems| == |v.items|
    decreases v, 1
  {
    match v
    case Map(_) =>
      var attrs :- ConvertAttrs(v, 0, []);
      Ok(Dot(attrs))
    case List(_) =>
      var items :- ConvertItems(v, 0, []);
      Ok(Elems(items))
    case _ => Ok(Plain(v))
  }

  /** The `setattr` loop of `__init__` over the entries of dict `m` from
      position `i` on. */
  function ConvertAttrs(m: Value, i: nat, acc: seq<Attr>): (r: Result<seq<Attr>>)
    requires m.Map? && i <= |m.entries|
    ensures r.Err? ==> r.error == TypeError
    ensures r.Ok? && AttrsOk(acc) ==> AttrsOk(r.value)
    decreases m, 0, |m.entries| - i
  {
    if i == |m.entries| then Ok(acc)
    else
      var e := m.entries[i];
      if !e.key.Str? then Err(TypeError)
      else
        var cv :- Convert(e.val);
        ConvertAttrs(m, i + 1, PutAttr(acc, e.key.s, cv))
  }

  /** `[DotDict(**i) if isinstance(i, dict) else i for i in v]` from position `i` on. */
  function ConvertItems(l: Value, i: nat, acc: seq<DVal>): (r: Result<seq<DVal>>)
    requires l.List? && i <= |l.items|
    ensures r.Err? ==> r.error == TypeError
    ensures r.Ok? ==> |r.value| == |acc| + |l.items| - i
    ensures r.Ok? && ItemsOk(acc) ==> ItemsOk(r.value)
    decreases l, 0, |l.items| - i
  {
    if i == |l.items| then Ok(acc)
    else
      var x := l.items[i];
      if x.Map? then
        var attrs :- ConvertAttrs(x, 0, []);
        ConvertItems(l, i + 1, acc + [Dot(attrs)])
      else
        ConvertItems(l, i + 1, acc + [Plain(x)])
  }

  /** Attributes as the constructor leaves them. */
  predicate AttrsOk(attrs: seq<Attr>) {
    && DistinctNames(attrs)
    && forall j :: 0 <= j < |attrs| ==> WellFormed(attrs[j].val) && Converted(attrs[j].val)
  }

  predicate ItemsOk(items: seq<DVal>) {
    forall j :: 0 <= j < |items| ==> ItemOk(items[j])
  }

  /** A list item as the constructor leaves it. */
  predicate ItemOk(d: DVal) {
    (d.Dot? && WellFormed(d) && Converted(d)) || (d.Plain? && !d.v.Map?)
  }

  // ---------------------------------------------------------------------------
  // _to_dict: back to plain values
  // ---------------------------------------------------------------------------

  /** The plain value `d` stands for: `_to_dict()` of a DotDict, a list with
      its DotDicts turned back into dicts, or the value itself. */
  function ToValue(d: DVal): (r: Value)
    ensures d.Dot? ==> r.Map? && |r.entries| == |d.attrs|
    ensures d.Elems? ==> r.List? && |r.items| == |d.elems|
    decreases d, 1
  {
    match d
    case Plain(v) => v
    case Dot(_) => Map(AttrEntries(d, 0))
    case Elems(_) => List(ItemValues(d, 0))
  }

  function AttrEntries(d: DVal, i: nat): (r: seq<Entry>)
    requires d.Dot? && i <= |d.attrs|
    ensures |r| == |d.attrs| - i
    decreases d, 0, |d.attrs| - i
  {
    if i == |d.attrs| then []
    else [Entry(Str(d.attrs[i].name), ToValue(d.attrs[i].val))] + AttrEntries(d, i + 1)
  }

  function ItemValues(d: DVal, i: nat): (r: seq<Value>)
    requires d.Elems? && i <= |d.elems|
    ensures |r| == |d.elems| - i
    decreases d, 0, |d.elems| - i
  {
    if i == |d.elems| then [] else [ToValue(d.elems[i])] + ItemValues(d, i + 1)
  }

  /** Entry `j` of a DotDict's dict is its `j`-th attribute, converted. */
  lemma {:induction false} AttrEntriesAt(d: DVal, i: nat, j: nat)
    requires d.Dot? && i <= j < |d.attrs|
    ensures AttrEntries(d, i)[j - i] == Entry(Str(d.attrs[j].name), ToValue(d.attrs[j].val))
    decreases j - i
  {
    if i < j {
      AttrEntriesAt(d, i + 1, j);
    }
  }

  lemma {:induction false} ItemValuesAt(d: DVal, i: nat, j: nat)
    requires d.Elems? && i <= j < |d.elems|
    ensures ItemValues(d, i)[j - i] == ToValue(d.elems[j])
    decreases j - i
  {
    if i < j {
      ItemValuesAt(d, i + 1, j);
    }
  }

  // ---------------------------------------------------------------------------
  // The round trip
  // ---------------------------------------------------------------------------

  /** The dicts the constructor converts have string keys, each once. */
  predicate WellKeyed(v: Value)
    decreases v
  {
    match v
    case Map(es) => DistinctKeys(es) && forall i :: 0 <= i < |es| ==> es[i].key.Str? && WellKeyed(es[i].val)
    case List(xs) => forall i :: 0 <= i < |xs| ==> xs[i].Map? ==> WellKeyed(xs[i])
    case _ => true
  }

  /** The keys of `es` from position `i` on are strings whose values
      convert. */
  predicate Convertible(es: seq<Entry>, i: nat) {
    forall j :: i <= j < |es| ==> es[j].key.Str? && Convert(es[j].val).Ok?
  }

  /** The attributes the `setattr` loop appends from position `i` on, one per
      entry, when no key repeats. */
  function AttrsFrom(m: Value, i: nat): (r: seq<Attr>)
    requires m.Map? && i <= |m.entries| && Convertible(m.entries, i)
    ensures |r| == |m.entries| - i
    decreases |m.entries| - i
  {
    if i == |m.entries| then []
    else [Attr(m.entries[i].key.s, Convert(m.entries[i].val).value)] + AttrsFrom(m, i + 1)
  }

  lemma {:induction false} AttrsFromAt(m: Value, i: nat, j: nat)
    requires m.Map? && i <= j < |m.entries| && Convertible(m.entries, i)
    ensures AttrsFrom(m, i)[j - i] == Attr(m.entries[j].key.s, Convert(m.entries[j].val).value)
    decreases j - i
  {
    if i < j {
      AttrsFromAt(m, i + 1, j);
    }
  }

  lemma ConvertAttrsStep(m: Value, i: nat, acc: seq<Attr>)
    requires m.Map? && i < |m.entries| && m.entries[i].key.Str? && Convert(m.entries[i].val).Ok?
    ensures ConvertAttrs(m, i, acc) == ConvertAttrs(m, i + 1, PutAttr(acc, m.entries[i].key.s, Convert(m.entries[i].val).value))
  {
  }

  /** No key of `es` from position `i` on names an attribute of `acc`. */
  predicate FreshNames(acc: seq<Attr>, es: seq<Entry>, i: nat)
    requires forall j :: i <= j < |es| ==> es[j].key.Str?
  {
    forall j :: i <= j < |es| ==> !HasAttr(acc, es[j].key.s)
  }

  lemma FreshNamesStep(acc: seq<Attr>, es: seq<Entry>, i: nat, a: Attr)
    requires DistinctKeys(es) && i < |es| && Convertible(es, i) && es[i].key == Str(a.name)
    requires FreshNames(acc, es, i)
    ensures FreshNames(acc + [a], es, i + 1)
  {
    NamesAppend(acc, a);
    forall j | i + 1 <= j < |es| ensures !HasAttr(acc + [a], es[j].key.s) {
      assert es[j].key != es[i].key;
    }
  }

  lemma AttrsAssoc(acc: seq<Attr>, a: Attr, rest: seq<Attr>)
    ensures acc + [a] + rest == acc + ([a] + rest)
  {
  }

  /** Over distinct string keys, the `setattr` loop appends one attribute per
      entry, in order. */
  lemma {:induction false} ConvertAttrsShape(m: Value, i: nat, acc: seq<Attr>)
    requires m.Map? && i <= |m.entries| && DistinctKeys(m.entries) && Convertible(m.entries, i)
    requires FreshNames(acc, m.entries, i)
    ensures ConvertAttrs(m, i, acc) == Ok(acc + AttrsFrom(m, i))
    decreases |m.entries| - i
  {
    var es := m.entries;
    if i < |es| {
      var a := Attr(es[i].key.s, Convert(es[i].val).value);
      ConvertAttrsStep(m, i, acc);
      assert !HasAttr(acc, a.name);
      assert PutAttr(acc, a.name, a.val) == acc + [a];
      FreshNamesStep(acc, es, i, a);
      ConvertAttrsShape(m, i + 1, acc + [a]);
      var rest := AttrsFrom(m, i + 1);
      assert AttrsFrom(m, i) == [a] + rest;
      AttrsAssoc(acc, a, rest);
    } else {
      assert acc + AttrsFrom(m, i) == acc;
    }
  }

  /** The items of `l` from position `i` on whose dicts convert. */
  predicate ItemsConvertible(xs: seq<Value>, i: nat) {
    forall j :: i <= j < |xs| ==> xs[j].Map? ==> Convert(xs[j]).Ok?
  }

  /** The items the list comprehension builds from position `i` on. */
  function ItemsFrom(l: Value, i: nat): (r: seq<DVal>)
    requires l.List? && i <= |l.items| && ItemsConvertible(l.items, i)
    ensures |r| == |l.items| - i
    decreases |l.items| - i
  {
    if i == |l.items| then []
    else [if l.items[i].Map? then Convert(l.items[i]).value else Plain(l.items[i])] + ItemsFrom(l, i + 1)
  }

  lemma {:induction false} ItemsFromAt(l: Value, i: nat, j: nat)
    requires l.List? && i <= j < |l.items| && ItemsConvertible(l.items, i)
    ensures ItemsFrom(l, i)[j - i] == if l.items[j].Map? then Convert(l.items[j]).value else Plain(l.items[j])
    decreases j - i
  {
    if i < j {
      ItemsFromAt(l, i + 1, j);
    }
  }

  lemma ConvertItemsStep(l: Value, i: nat, acc: seq<DVal>)
    requires l.List? && i < |l.items| && (l.items[i].Map? ==> Convert(l.items[i]).Ok?)
    ensures ConvertItems(l, i, acc) ==
      ConvertItems(l, i + 1, acc + [if l.items[i].Map? then Convert(l.items[i]).value else Plain(l.items[i])])
  {
    var x := l.items[i];
    if x.Map? {
      assert Convert(x) == Ok(Dot(ConvertAttrs(x, 0, []).value));
    }
  }

  /** The list comprehension makes each dict item a DotDict and keeps the rest. */
  lemma {:induction false} ConvertItemsShape(l: Value, i: nat, acc: seq<DVal>)
    requires l.List? && i <= |l.items| && ItemsConvertible(l.items, i)
    ensures ConvertItems(l, i, acc) == Ok(acc + ItemsFrom(l, i))
    decreases |l.items| - i
  {
    if i < |l.items| {
      var x := l.items[i];
      var d := if x.Map? then Convert(x).value else Plain(x);
      ConvertItemsStep(l, i, acc);
      ConvertItemsShape(l, i + 1, acc + [d]);
      assert acc + [d] + ItemsFrom(l, i + 1) == acc + ItemsFrom(l, i);
    } else {
      assert acc + ItemsFrom(l, i) == acc;
    }
  }

  /** The attributes a dict with distinct string keys converts to. */
  lemma ConvertMap(v: Value)
    requires v.Map? && DistinctKeys(v.entries) && Convertible(v.entries, 0)
    ensures Convert(v) == Ok(Dot(AttrsFrom(v, 0)))
  {
    ConvertAttrsShape(v, 0, []);
    assert [] + AttrsFrom(v, 0) == AttrsFrom(v, 0);
  }

  /** The items a list whose dicts convert converts to. */
  lemma ConvertList(v: Value)
    requires v.List? && ItemsConvertible(v.items, 0)
    ensures Convert(v) == Ok(Elems(ItemsFrom(v, 0)))
  {
    ConvertItemsShape(v, 0, []);
    assert [] + ItemsFrom(v, 0) == ItemsFrom(v, 0);
  }

  /** `DotDict(**d)._to_dict() == d` for a dict with string keys, nested dicts
      and dicts directly inside lists included. */
  lemma {:induction false} RoundTrip(v: Value)
    requires WellKeyed(v)
    ensures Convert(v).Ok? && ToValue(Convert(v).value) == v
    decreases v
  {
    match v
    case Map(es) =>
      forall j | 0 <= j < |es| ensures Convert(es[j].val).Ok? && ToValue(Convert(es[j].val).value) == es[j].val {
        RoundTrip(es[j].val);
      }
      ConvertMap(v);
      var d := Dot(AttrsFrom(v, 0));
      var out := AttrEntries(d, 0);
      forall j | 0 <= j < |es| ensures out[j] == es[j] {
        AttrEntriesAt(d, 0, j);
        AttrsFromAt(v, 0, j);
      }
      assert out == es;
    case List(xs) =>
      forall j | 0 <= j < |xs| && xs[j].Map? ensures Convert(xs[j]).Ok? && ToValue(Convert(xs[j]).value) == xs[j] {
        RoundTrip(xs[j]);
      }
      ConvertList(v);
      var d := Elems(ItemsFrom(v, 0));
      var out := ItemValues(d, 0);
      forall j | 0 <= j < |xs| ensures out[j] == xs[j] {
        ItemValuesAt(d, 0, j);
        ItemsFromAt(v, 0, j);
      }
      assert out == xs;
    case _ =>
  }

  /** The values of a well-keyed dict convert. */
  lemma EntriesConvert(v: Value)
    requires v.Map? && WellKeyed(v)
    ensures DistinctKeys(v.entries) && Convertible(v.entries, 0)
  {
    forall k | 0 <= k < |v.entries| ensures Convert(v.entries[k].val).Ok? {
      RoundTrip(v.entries[k].val);
    }
  }

  /** After `DotDict(**d)`, every key `k` of `d` is an attribute holding
      `d[k]` converted. */
  lemma ConvertedAttribute(v: Value, j: nat)
    requires v.Map? && WellKeyed(v) && j < |v.entries|
    ensures Convert(v).Ok? && Convert(v.entries[j].val).Ok?
    ensures LookupAttr(Convert(v).value.attrs, v.entries[j].key.s) == Some(Convert(v.entries[j].val).value)
  {
    EntriesConvert(v);
    ConvertMap(v);
    var attrs := AttrsFrom(v, 0);
    AttrsFromAt(v, 0, j);
    assert DistinctNames(attrs) by { assert WellFormed(Convert(v).value); }
    LookupAttrAt(attrs, j);
  }

  /** With distinct names, the `j`-th attribute is the one its name finds. */
  lemma LookupAttrAt(attrs: seq<Attr>, j: nat)
    requires DistinctNames(attrs) && j < |attrs|
    ensures LookupAttr(attrs, attrs[j].name) == Some(attrs[j].val)
  {
    assert HasAttr(attrs, attrs[j].name) by { assert Names(attrs)[j] == attrs[j].name; }
  }

  /** In a DotDict built from `d`, `k in dd` holds for every key `k` of `d`
      and `dd[k]` is `d[k]` converted. */
  lemma ConstructedMember(dd: DotDict, v: Value, j: nat)
    requires v.Map? && WellKeyed(v) && j < |v.entries| && Convert(v) == Ok(Dot(dd.attrs))
    ensures Convert(v.entries[j].val).Ok?
    ensures dd.Contains(v.entries[j].key) == Ok(true)
    ensures dd.GetItem(v.entries[j].key) == Ok(Convert(v.entries[j].val).value)
  {
    ConvertedAttribute(v, j);
  }

  /** A key that is not a string makes `DotDict(**d)` raise TypeError. */
  lemma {:induction false} NonStringKeyRaises(m: Value, i: nat, acc: seq<Attr>, j: nat)
    requires m.Map? && i <= j < |m.entries| && !m.entries[j].key.Str?
    ensures ConvertAttrs(m, i, acc) == Err(TypeError)
    decreases j - i
  {
    var e := m.entries[i];
    if i < j && e.key.Str? && Convert(e.val).Ok? {
      NonStringKeyRaises(m, i + 1, PutAttr(acc, e.key.s, Convert(e.val).value), j);
    }
  }

  // ---------------------------------------------------------------------------
  // The DotDict object
  // ---------------------------------------------------------------------------

  class DotDict {
    /** The instance attributes, in creation order. */
    var attrs: seq<Attr>

    predicate Valid()
      reads this
    {
      WellFormed(Dot(attrs))
    }

    /** The object before `__init__` has set any attribute. */
    constructor ()
      ensures Valid() && attrs == []
    {
      attrs := [];
    }

    /** `dd[key]`, that is `getattr(dd, key)`. */
    function GetItem(key: Value): (r: Result<DVal>)
      reads this
      ensures !key.Str? ==> r == Err(TypeError)
      ensures key.Str? ==> (r.Ok? <==> HasAttr(attrs, key.s))
      ensures key.Str? && !HasAttr(attrs, key.s) ==> r == Err(AttributeError)
      ensures r.Ok? ==> LookupAttr(attrs, key.s) == Some(r.value)
    {
      if !key.Str? then Err(TypeError)
      else match LookupAttr(attrs, key.s)
        case None => Err(AttributeError)
        case Some(x) => Ok(x)
    }

    /** `key in dd`, that is `hasattr(dd, key)`. */
    function Contains(key: Value): (r: Result<bool>)
      reads this
      ensures !key.Str? ==> r == Err(TypeError)
      ensures r == Ok(true) <==> GetItem(key).Ok?
    {
      if !key.Str? then Err(TypeError) else Ok(HasAttr(attrs, key.s))
    }

    /** `dd[key] = value`, that is `setattr(dd, key, value)`: only `key`
        changes. */
    method SetItem(key: Value, value: DVal) returns (r: Result<()>)
      requires Valid() && WellFormed(value)
      modifies this
      ensures Valid()
      ensures !key.Str? ==> r == Err(TypeError) && attrs == old(attrs)
      ensures key.Str? ==> r == Ok(()) && attrs == PutAttr(old(attrs), key.s, value)
      ensures key.Str? ==> GetItem(key) == Ok(value)
      ensures forall k :: k != key ==> GetItem(k) == old(GetItem(k))
    {
      if !key.Str? {
        return Err(TypeError);
      }
      attrs := PutAttr(attrs, key.s, value);
      return Ok(());
    }

    /** `del dd[key]`, that is `delattr(dd, key)`: only `key` goes. */
    method DelItem(key: Value) returns (r: Result<()>)
      requires Valid()
      modifies this
      ensures Valid()
      ensures !key.Str? ==> r == Err(TypeError) && attrs == old(attrs)
      ensures key.Str? && !HasAttr(old(attrs), key.s) ==> r == Err(AttributeError) && attrs == old(attrs)
      ensures key.Str? && HasAttr(old(attrs), key.s) ==> r == Ok(()) && attrs == RemoveAttr(old(attrs), key.s)
      ensures key.Str? ==> Contains(key) == Ok(false)
      ensures forall k :: k != key ==> GetItem(k) == old(GetItem(k))
    {
      if !key.Str? {
        return Err(TypeError);
      }
      if !HasAttr(attrs, key.s) {
        return Err(AttributeError);
      }
      ghost var before := attrs;
      attrs := RemoveAttr(attrs, key.s);
      RemoveAttrDistinct(before, key.s);
      forall m ensures LookupAttr(attrs, m) == if m == key.s then None else LookupAttr(before, m) {
        RemoveAttrLookup(before, key.s, m);
      }
      forall j | 0 <= j < |attrs| ensures WellFormed(attrs[j].val) {
        assert attrs[j] in before;
        var k :| 0 <= k < |before| && before[k] == attrs[j];
      }
      return Ok(());
    }

    /** `_to_dict`: one entry per attribute, in order, with DotDicts (also
        those directly inside lists) turned back into dicts. */
    method ToDict() returns (d: Value)
      requires Valid()
      ensures d == ToValue(Dot(attrs))
    {
      ghost var out := AttrEntries(Dot(attrs), 0);
      var result: seq<Entry> := [];
      var i := 0;
      while i < |attrs|
        invariant 0 <= i <= |attrs|
        invariant result == out[..i]
      {
        var value := attrs[i].val;
        var converted: Value;
        if value.Dot? {
          converted := ToValue(value);
        } else if value.Elems? {
          converted := List(PlainItems(value.elems));
          ElemsToValue(value);
        } else {
          converted := value.v;
        }
        ToDictStep(attrs, i, result, converted);
        result := Put(result, Str(attrs[i].name), converted);
        i := i + 1;
      }
      assert out[..|attrs|] == out;
      d := Map(result);
    }
  }

  /** The comprehension over a list attribute is its `ToValue`. */
  lemma ElemsToValue(d: DVal)
    requires d.Elems?
    ensures List(PlainItems(d.elems)) == ToValue(d)
  {
    forall j | 0 <= j < |d.elems| ensures PlainItems(d.elems)[j] == ItemValues(d, 0)[j] {
      ItemValuesAt(d, 0, j);
    }
  }

  /** One round of the `_to_dict` loop adds the next entry of the dict. */
  lemma ToDictStep(attrs: seq<Attr>, i: nat, result: seq<Entry>, converted: Value)
    requires DistinctNames(attrs) && i < |attrs|
    requires result == AttrEntries(Dot(attrs), 0)[..i]
    requires converted == ToValue(attrs[i].val)
    ensures Put(result, Str(attrs[i].name), converted) == AttrEntries(Dot(attrs), 0)[..i + 1]
  {
    var out := AttrEntries(Dot(attrs), 0);
    AttrEntriesAt(Dot(attrs), 0, i);
    forall j | 0 <= j < i ensures result[j].key != Str(attrs[i].name) {
      AttrEntriesAt(Dot(attrs), 0, j);
    }
    assert !HasKey(result, Str(attrs[i].name));
    assert out[..i + 1] == out[..i] + [out[i]];
  }

  /** `DotDict(**entries)`: `**` needs a dict with string keys, and
      `__init__` sets one attribute per entry, in order. */
  method NewDotDict(entries: Value) returns (r: Result<DotDict>)
    ensures r.Ok? <==> entries.Map? && Convert(entries).Ok?
    ensures r.Err? ==> r.error == TypeError
    ensures r.Ok? ==> fresh(r.value) && r.value.Valid() && Convert(entries) == Ok(Dot(r.value.attrs))
  {
    if !entries.Map? {
      return Err(TypeError);
    }
    var es := entries.entries;
    var dd := new DotDict();
    var i := 0;
    while i < |es|
      invariant 0 <= i <= |es|
      invariant fresh(dd) && dd.Valid()
      invariant Converted(Dot(dd.attrs))
      invariant ConvertAttrs(entries, i, dd.attrs) == ConvertAttrs(entries, 0, [])
    {
      var e := es[i];
      if !e.key.Str? {
        return Err(TypeError);
      }
      var cv := Convert(e.val);
      if cv.Err? {
        return Err(cv.error);
      }
      var _ := dd.SetItem(e.key, cv.value);
      i := i + 1;
    }
    return Ok(dd);
  }

  // ---------------------------------------------------------------------------
  // Sardou.get_qos
  // ---------------------------------------------------------------------------

  /** `obj.name` on an attribute value: only a DotDict has the attributes a
      template names. */
  function Attribute(d: DVal, n: string): (r: Result<DVal>)
    ensures r.Ok? <==> d.Dot? && HasAttr(d.attrs, n)
    ensures r.Err? ==> r.error == AttributeError
    ensures r.Ok? ==> LookupAttr(d.attrs, n) == Some(r.value)
  {
    if d.Dot? && HasAttr(d.attrs, n) then Ok(LookupAttr(d.attrs, n).value) else Err(AttributeError)
  }

  /** What `for p in d` visits: a list's items; a plain value as Python
      iterates it; a DotDict is not iterable (its `__getitem__(0)` raises). */
  function IterateD(d: DVal): (r: Result<seq<DVal>>)
    ensures d.Elems? ==> r == Ok(d.elems)
    ensures d.Dot? ==> r == Err(TypeError)
  {
    match d
    case Elems(es) => Ok(es)
    case Dot(_) => Err(TypeError)
    case Plain(v) =>
      var xs :- Iterate(v);
      Ok(seq(|xs|, j requires 0 <= j < |xs| => Plain(xs[j])))
  }

  /** `[p._to_dict() if isinstance(p, DotDict) else p for p in ps]`. */
  function PlainItems(ps: seq<DVal>): (r: seq<Value>)
    ensures |r| == |ps|
  {
    seq(|ps|, j requires 0 <= j < |ps| => if ps[j].Plain? then ps[j].v else ToValue(ps[j]))
  }

  /** `Sardou.get_qos`: the policies of the raw template, as plain values,
      or `[]` when its service template has no `policies`. */
  function GetQos(self: DotDict): (r: Result<seq<Value>>)
    reads self
    ensures !HasAttr(self.attrs, "raw") ==> r == Err(AttributeError)
    ensures HasAttr(self.attrs, "raw") && Attribute(LookupAttr(self.attrs, "raw").value, "service_template").Err? ==>
      r == Err(AttributeError)
    ensures r.Ok? && r.value != [] ==> HasAttr(self.attrs, "raw")
  {
    var raw :- Attribute(Dot(self.attrs), "raw");
    var st :- Attribute(raw, "service_template");
    if !(st.Dot? && HasAttr(st.attrs, "policies")) then Ok([])
    else
      var ps :- IterateD(LookupAttr(st.attrs, "policies").value);
      Ok(PlainItems(ps))
  }

  /** `get_qos` once `raw` and its `service_template` are found. */
  lemma GetQosSteps(self: DotDict, rawD: DVal, stD: DVal)
    requires LookupAttr(self.attrs, "raw") == Some(rawD) && rawD.Dot?
    requires LookupAttr(rawD.attrs, "service_template") == Some(stD)
    ensures !(stD.Dot? && HasAttr(stD.attrs, "policies")) ==> GetQos(self) == Ok([])
    ensures stD.Dot? && LookupAttr(stD.attrs, "policies").Some? && LookupAttr(stD.attrs, "policies").value.Elems? ==>
      GetQos(self) == Ok(PlainItems(LookupAttr(stD.attrs, "policies").value.elems))
  {
    assert Attribute(Dot(self.attrs), "raw") == Ok(rawD);
    assert Attribute(rawD, "service_template") == Ok(stD);
  }

  /** A key the dict lacks is no attribute of its DotDict. */
  lemma ConvertedMissing(v: Value, n: string)
    requires v.Map? && WellKeyed(v) && !HasKey(v.entries, Str(n))
    ensures Convert(v).Ok? && !HasAttr(Convert(v).value.attrs, n)
  {
    EntriesConvert(v);
    ConvertMap(v);
    var attrs := AttrsFrom(v, 0);
    forall k | 0 <= k < |attrs| ensures Names(attrs)[k] != n {
      AttrsFromAt(v, 0, k);
      assert Keys(v.entries)[k] == v.entries[k].key;
    }
  }

  /** A key the dict holds is an attribute of its DotDict, holding the value
      converted. */
  lemma ConvertedMember(v: Value, n: string) returns (x: Value)
    requires v.Map? && WellKeyed(v) && HasKey(v.entries, Str(n))
    ensures Lookup(v.entries, Str(n)) == Some(x) && WellKeyed(x)
    ensures Convert(v).Ok? && Convert(x).Ok?
    ensures LookupAttr(Convert(v).value.attrs, n) == Some(Convert(x).value)
  {
    var j := EntryIndex(v.entries, Str(n));
    x := v.entries[j].val;
    ConvertedAttribute(v, j);
  }

  /** A converted policy list reads back as the list itself. */
  lemma PolicyList(ps: Value)
    requires ps.List? && WellKeyed(ps)
    ensures Convert(ps).Ok? && Convert(ps).value.Elems?
    ensures PlainItems(Convert(ps).value.elems) == ps.items
  {
    RoundTrip(ps);
    var psD := Convert(ps).value;
    var out := PlainItems(psD.elems);
    forall i | 0 <= i < |ps.items| ensures out[i] == ps.items[i] {
      ItemValuesAt(psD, 0, i);
    }
  }

  /** The raw template loaded into a DotDict gives back its policy list,
      dicts and all. */
  lemma QosOfRaw(self: DotDict, raw: Value, st: Value, ps: Value)
    requires raw.Map? && WellKeyed(raw)
    requires Convert(raw).Ok? && LookupAttr(self.attrs, "raw") == Some(Convert(raw).value)
    requires Lookup(raw.entries, Str("service_template")) == Some(st) && st.Map?
    requires Lookup(st.entries, Str("policies")) == Some(ps) && ps.List?
    ensures GetQos(self) == Ok(ps.items)
  {
    var st' := ConvertedMember(raw, "service_template");
    var ps' := ConvertedMember(st, "policies");
    PolicyList(ps);
    GetQosSteps(self, Convert(raw).value, Convert(st).value);
  }

  /** Without `policies` in the service template, `get_qos` gives `[]`. */
  lemma QosWithoutPolicies(self: DotDict, raw: Value, st: Value)
    requires raw.Map? && WellKeyed(raw)
    requires Convert(raw).Ok? && LookupAttr(self.attrs, "raw") == Some(Convert(raw).value)
    requires Lookup(raw.entries, Str("service_template")) == Some(st) && st.Map?
    requires !HasKey(st.entries, Str("policies"))
    ensures GetQos(self) == Ok([])
  {
    var st' := ConvertedMember(raw, "service_template");
    ConvertedMissing(st, "policies");
    GetQosSteps(self, Convert(raw).value, Convert(st).value);
  }

  /** The position of a key a dict holds. */
  lemma EntryIndex(es: seq<Entry>, k: Value) returns (j: nat)
    requires HasKey(es, k)
    ensures j < |es| && es[j].key == k && Lookup(es, k) == Some(es[j].val)
  {
    j := Find(es, k).value;
  }

  // ---------------------------------------------------------------------------
  // Sardou.get_cluster
  // ---------------------------------------------------------------------------

  /** The node parameters the cluster view keeps. */
  const RELEVANT: seq<Value> := [Str("type"), Str("directives"), Str("properties"), Str("requirements"), Str("capabilities")]

  /** `d[key]`: a DotDict looks the attribute up, a plain dict the key;
      a string key on anything else is a TypeError. */
  function Subscript(d: DVal, key: string): (r: Result<DVal>)
    ensures d.Dot? ==> r == (if HasAttr(d.attrs, key) then Ok(LookupAttr(d.attrs, key).value) else Err(AttributeError))
    ensures !d.Dot? && !(d.Plain? && d.v.Map?) ==> r == Err(TypeError)
  {
    match d
    case Dot(attrs) =>
      (match LookupAttr(attrs, key)
       case Some(x) => Ok(x)
       case None => Err(AttributeError))
    case Plain(Map(es)) =>
      (match Lookup(es, Str(key))
       case Some(x) => Ok(Plain(x))
       case None => Err(KeyError))
    case _ => Err(TypeError)
  }

  /** The `try` block: `self.service_template["node_templates"]`, with an
      AttributeError or KeyError turned into ValueError. */
  function NodeTemplates(self: DotDict): (r: Result<DVal>)
    reads self
    ensures !HasAttr(self.attrs, "service_template") ==> r == Err(ValueError)
    ensures HasAttr(self.attrs, "service_template") && LookupAttr(self.attrs, "service_template").value.Dot? ==>
      var st := LookupAttr(self.attrs, "service_template").value;
      (HasAttr(st.attrs, "node_templates") <==> r.Ok?) &&
      (r.Ok? ==> r.value == LookupAttr(st.attrs, "node_templates").value) &&
      (r.Err? ==> r.error == ValueError)
  {
    match LookupAttr(self.attrs, "service_template")
    case None => Err(ValueError)
    case Some(st) =>
      match Subscript(st, "node_templates")
      case Ok(nt) => Ok(nt)
      case Err(e) => if e == AttributeError || e == KeyError then Err(ValueError) else Err(e)
  }

  /** `k in ("type", "directives", ...)`: only those keys are kept. */
  function KeepRelevant(e: Entry): (r: Result<Option<Value>>)
    ensures r.Ok?
    ensures e.key in RELEVANT ==> r.value == Some(e.val)
    ensures e.key !in RELEVANT ==> r.value == None
  {
    Ok(if e.key in RELEVANT then Some(e.val) else None)
  }

  /** `node_info` for one node: its relevant entries; a node that is not a
      dict has no `items` (AttributeError). */
  function NodeInfo(node: Value): (r: Result<Value>)
    ensures r.Ok? <==> node.Map?
    ensures r.Ok? ==> r.value.Map?
  {
    var fields :- Items(node);
    FoldPutOk(fields, [], KeepRelevant);
    Ok(Map(FoldPut(fields, [], KeepRelevant).value))
  }

  function ClusterStep(e: Entry): Result<Option<Value>> {
    var info :- NodeInfo(e.val);
    Ok(Some(info))
  }

  /** The loops over `node_templates.items()` and each node's `items()`. */
  function Cluster(nodes: Value): (r: Result<Value>)
    ensures r.Ok? ==> r.value.Map?
  {
    var es :- Items(nodes);
    var c :- FoldPut(es, [], ClusterStep);
    Ok(Map(c))
  }

  /** `get_cluster` as written: the loop calls `node_templates.items()`, but
      the node templates are a DotDict, which has no `items`; a node named
      `items` makes it an attribute, and calling that raises TypeError. */
  function GetClusterAsWritten(self: DotDict): (r: Result<Value>)
    reads self
    ensures !HasAttr(self.attrs, "service_template") ==> r == Err(ValueError)
    ensures r.Ok? ==> NodeTemplates(self).Ok? && NodeTemplates(self).value.Plain? && r.value.Map?
  {
    var nt :- NodeTemplates(self);
    match nt
    case Plain(v) => Cluster(v)
    case Dot(attrs) => if HasAttr(attrs, "items") then Err(TypeError) else Err(AttributeError)
    case Elems(_) => Err(AttributeError)
  }

  /** On any DotDict the constructor built, `get_cluster` as written raises. */
  lemma AsWrittenAlwaysRaises(self: DotDict)
    requires Converted(Dot(self.attrs))
    ensures GetClusterAsWritten(self).Err?
  {
    var nt := NodeTemplates(self);
    if nt.Ok? {
      var st := LookupAttr(self.attrs, "service_template").value;
      assert Converted(st) by {
        var k := FindAttr(self.attrs, "service_template").value;
        assert st == self.attrs[k].val;
      }
      assert st.Dot?;
      var k := FindAttr(st.attrs, "node_templates").value;
      assert nt.value == st.attrs[k].val;
      assert Converted(nt.value);
    }
  }

  /** `get_cluster` with the node templates read as a dict (`_to_dict()`):
      one entry per node holding that node's relevant entries. */
  function ClusterOf(self: DotDict): (r: Result<Value>)
    reads self
    ensures !HasAttr(self.attrs, "service_template") ==> r == Err(ValueError)
    ensures NodeTemplates(self).Err? ==> r == Err(NodeTemplates(self).error)
    ensures r.Ok? ==> r.value.Map?
  {
    var nt :- NodeTemplates(self);
    Cluster(ToValue(nt))
  }

  /** The cluster has exactly the node names, each mapped to its node's
      relevant entries; it fails iff some node is not a dict. */
  lemma ClusterEntries(nodes: seq<Entry>)
    requires DistinctKeys(nodes)
    ensures Cluster(Map(nodes)).Ok? <==> forall i :: 0 <= i < |nodes| ==> nodes[i].val.Map?
    ensures Cluster(Map(nodes)).Ok? ==>
      var c := Cluster(Map(nodes)).value.entries;
      && DistinctKeys(c)
      && (forall k :: HasKey(c, k) <==> HasKey(nodes, k))
      && forall i :: 0 <= i < |nodes| ==> Lookup(c, nodes[i].key) == Some(NodeInfo(nodes[i].val).value)
  {
    FoldPutOk(nodes, [], ClusterStep);
    if Cluster(Map(nodes)).Ok? {
      var c := FoldPut(nodes, [], ClusterStep).value;
      FoldPutKeys(nodes, ClusterStep);
      forall i | 0 <= i < |nodes| ensures Lookup(c, nodes[i].key) == Some(NodeInfo(nodes[i].val).value) {
        FoldPutLookup(nodes, ClusterStep, i);
      }
      forall k | HasKey(nodes, k) ensures HasKey(c, k) {
        var i := EntryIndex(nodes, k);
        FoldPutLookup(nodes, ClusterStep, i);
      }
    }
  }

  /** A node's info holds exactly the relevant keys the node has, with their
      values unchanged. */
  lemma NodeInfoFields(fields: seq<Entry>, k: Value)
    requires DistinctKeys(fields)
    ensures NodeInfo(Map(fields)).Ok?
    ensures Lookup(NodeInfo(Map(fields)).value.entries, k) == if k in RELEVANT then Lookup(fields, k) else None
  {
    FoldPutOk(fields, [], KeepRelevant);
    var info := FoldPut(fields, [], KeepRelevant).value;
    FoldPutKeys(fields, KeepRelevant);
    if HasKey(fields, k) {
      var i := EntryIndex(fields, k);
      FoldPutLookup(fields, KeepRelevant, i);
    } else {
      assert !HasKey(info, k);
    }
  }

  /** The template a Sardou object was built from: the cluster view reads the
      node templates back as the dict they came from. */
  lemma ClusterOfTemplate(self: DotDict, doc: Value, st: Value, nodes: Value)
    requires doc.Map? && WellKeyed(doc) && Convert(doc) == Ok(Dot(self.attrs))
    requires Lookup(doc.entries, Str("service_template")) == Some(st) && st.Map?
    requires Lookup(st.entries, Str("node_templates")) == Some(nodes)
    ensures ClusterOf(self) == Cluster(nodes)
  {
    var j := EntryIndex(doc.entries, Str("service_template"));
    ConvertedAttribute(doc, j);
    RoundTrip(doc);
    assert WellKeyed(st);
    var k := EntryIndex(st.entries, Str("node_templates"));
    ConvertedAttribute(st, k);
    var stD := Convert(st).value;
    assert LookupAttr(self.attrs, "service_template") == Some(stD);
    assert WellKeyed(nodes);
    RoundTrip(nodes);
    assert NodeTemplates(self) == Ok(Convert(nodes).value);
  }

  /** One node `web` of type `T`: as written `get_cluster` raises
      AttributeError; read as a dict, the node templates give
      `{"web": {"type": "T"}}`. */
  lemma ClusterExample(self: DotDict)
    requires self.attrs == [Attr("service_template", Dot([Attr("node_templates",
      Dot([Attr("web", Dot([Attr("type", Plain(Str("T")))]))]))]))]
    ensures GetClusterAsWritten(self) == Err(AttributeError)
    ensures ClusterOf(self) == Ok(Map([Entry(Str("web"), Map([Entry(Str("type"), Str("T"))]))]))
  {
    var web := Dot([Attr("type", Plain(Str("T")))]);
    var nt := Dot([Attr("web", web)]);
    var st := Dot([Attr("node_templates", nt)]);
    assert LookupAttr(self.attrs, "service_template") == Some(st);
    assert LookupAttr(st.attrs, "node_templates") == Some(nt);
    assert NodeTemplates(self) == Ok(nt);
    assert !HasAttr(nt.attrs, "items");
    var webV := Map([Entry(Str("type"), Str("T"))]);
    assert ToValue(web) == webV by {
      assert AttrEntries(web, 1) == [];
    }
    assert ToValue(nt) == Map([Entry(Str("web"), webV)]) by {
      assert AttrEntries(nt, 1) == [];
    }
    var e := Entry(Str("type"), Str("T"));
    assert RELEVANT[0] == Str("type");
    FoldPutSingle(e, KeepRelevant, Str("T"));
    assert NodeInfo(webV) == Ok(webV);
    FoldPutSingle(Entry(Str("web"), webV), ClusterStep, webV);
    assert Cluster(ToValue(nt)) == Ok(Map([Entry(Str("web"), webV)]));
  }

  /** The loop over a one-entry dict whose step keeps `x`. */
  lemma FoldPutSingle(e: Entry, step: Entry -> Result<Option<Value>>, x: Value)
    requires step(e) == Ok(Some(x))
    ensures FoldPut([e], [], step) == Ok([Entry(e.key, x)])
  {
    assert [e][1..] == [];
    assert [e][0] == e;
    assert Put([], e.key, x) == [Entry(e.key, x)];
    assert FoldPut([e], [], step) == FoldPut([], Put([], e.key, x), step);
  }

  /** `get_cluster` with the node templates read as a dict. */
  method GetCluster(self: DotDict) returns (r: Result<Value>)
    ensures r == ClusterOf(self)
  {
    var nt := NodeTemplates(self);
    if nt.Err? {
      return Err(nt.error);
    }
    var es := Items(ToValue(nt.value));
    if es.Err? {
      return Err(es.error);
    }
    var nodes := es.value;
    var cluster: seq<Entry> := [];
    var i := 0;
    while i < |nodes|
      invariant 0 <= i <= |nodes|
      invariant FoldPut(nodes[i..], cluster, ClusterStep) == FoldPut(nodes, [], ClusterStep)
    {
      assert nodes[i..][1..] == nodes[i + 1..];
      var fields := Items(nodes[i].val);
      if fields.Err? {
        return Err(fields.error);
      }
      var fs := fields.value;
      var info: seq<Entry> := [];
      var j := 0;
      while j < |fs|
        invariant 0 <= j <= |fs|
        invariant FoldPut(fs[j..], info, KeepRelevant) == FoldPut(fs, [], KeepRelevant)
      {
        assert fs[j..][1..] == fs[j + 1..];
        if fs[j].key in RELEVANT {
          info := Put(info, fs[j].key, fs[j].val);
        }
        j := j + 1;
      }
      assert fs[j..] == [];
      cluster := Put(cluster, nodes[i].key, Map(info));
      i := i + 1;
    }
    assert nodes[i..] == [];
    return Ok(Map(cluster));
  }
}
