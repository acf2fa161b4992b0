/** The generic tree that a YAML loader hands to the program: Python's `None`,
    `bool`, `int`, `str`, `list` and `dict`, with a dict held as the ordered list
    of its entries (Python dicts iterate in insertion order, and every output of
    the program is emitted in that order). Beside the tree, the handful of Python
    operations the modelled code applies to it, each with the exception Python
    raises when the operand has the wrong shape. */
module Values {

  datatype Value =
    | Null
    | Bool(b: bool)
    | Int(i: int)
    | Str(s: string)
    | List(items: seq<Value>)
    | Map(entries: seq<Entry>)

  datatype Entry = Entry(key: Value, val: Value)

  datatype Option<+T> = None | Some(value: T)

  /** The Python exceptions the modelled code can raise. */
  datatype PyError = TypeError | KeyError | AttributeError | ValueError | IndexError

  /** The outcome of a Python expression: a value, or the exception it raises. */
  datatype Result<+T> = Ok(value: T) | Err(error: PyError) {
    predicate IsFailure() { Err? }

    function PropagateFailure<U>(): Result<U>
      requires Err?
    {
      Err(error)
    }

    function Extract(): T
      requires Ok?
    {
      value
    }
  }

  // ---------------------------------------------------------------------------
  // Dicts as ordered entry lists
  // ---------------------------------------------------------------------------

  function Keys(es: seq<Entry>): (ks: seq<Value>)
    ensures |ks| == |es|
    ensures forall i :: 0 <= i < |es| ==> ks[i] == es[i].key
  {
    seq(|es|, i requires 0 <= i < |es| => es[i].key)
  }

  /** No key occurs twice: the invariant of every Python dict. */
  predicate DistinctKeys(es: seq<Entry>) {
    forall i, j :: 0 <= i < j < |es| ==> es[i].key != es[j].key
  }

  predicate HasKey(es: seq<Entry>, k: Value) {
    k in Keys(es)
  }

  /** The position of key `k`. */
  function Find(es: seq<Entry>, k: Value): (r: Option<nat>)
    ensures r.Some? ==> r.value < |es| && es[r.value].key == k
    ensures r.Some? ==> forall j :: 0 <= j < r.value ==> es[j].key != k
    ensures r.None? <==> !HasKey(es, k)
  {
    if es == [] then None
    else if es[0].key == k then Some(0)
    else match Find(es[1..], k)
      case None => None
      case Some(j) => Some(j + 1)
  }

  /** `d[k]` for a key that may be absent. */
  function Lookup(es: seq<Entry>, k: Value): (r: Option<Value>)
    ensures r.Some? <==> HasKey(es, k)
    ensures r.Some? ==> exists i :: 0 <= i < |es| && es[i] == Entry(k, r.value)
  {
    match Find(es, k)
    case None => None
    case Some(i) => Some(es[i].val)
  }

  /** `d[k] = v`: an existing key keeps its position and takes the new value,
      a new key is appended. */
  function Put(es: seq<Entry>, k: Value, v: Value): (r: seq<Entry>)
    ensures HasKey(es, k) ==> |r| == |es|
    ensures !HasKey(es, k) ==> r == es + [Entry(k, v)]
    ensures Lookup(r, k) == Some(v)
    ensures forall k' :: k' != k ==> Lookup(r, k') == Lookup(es, k')
    ensures forall k' :: HasKey(r, k') <==> HasKey(es, k') || k' == k
    ensures DistinctKeys(es) ==> DistinctKeys(r)
  {
    match Find(es, k)
    case None =>
      var r := es + [Entry(k, v)];
      assert Keys(r) == Keys(es) + [k];
      assert forall k' :: k' != k ==> Find(r, k') == Find(es, k') by {
        forall k' | k' != k ensures Find(r, k') == Find(es, k') {
          FindAppend(es, Entry(k, v), k');
        }
      }
      r
    case Some(i) =>
      var r := es[i := Entry(k, v)];
      assert Keys(r) == Keys(es);
      assert forall k' :: Find(r, k') == Find(es, k') by {
        forall k' ensures Find(r, k') == Find(es, k') { FindSameKeys(r, es, k'); }
      }
      r
  }

  lemma {:induction false} FindAppend(es: seq<Entry>, e: Entry, k: Value)
    requires e.key != k
    ensures Find(es + [e], k) == Find(es, k)
  {
    if es != [] {
      assert (es + [e])[1..] == es[1..] + [e];
      FindAppend(es[1..], e, k);
    }
  }

  lemma {:induction false} FindSameKeys(a: seq<Entry>, b: seq<Entry>, k: Value)
    requires Keys(a) == Keys(b)
    ensures Find(a, k) == Find(b, k)
  {
    if a != [] {
      assert a[0].key == Keys(a)[0] == Keys(b)[0] == b[0].key;
      assert Keys(a[1..]) == Keys(a)[1..];
      assert Keys(b[1..]) == Keys(b)[1..];
      FindSameKeys(a[1..], b[1..], k);
    }
  }

  /** In a dict the value found under a key is the one stored at its position. */
  lemma LookupDistinct(es: seq<Entry>, i: nat)
    requires DistinctKeys(es) && i < |es|
    ensures Lookup(es, es[i].key) == Some(es[i].val)
  {
    var j := Find(es, es[i].key).value;
    assert j == i;
  }

  // ---------------------------------------------------------------------------
  // Building a dict in a loop
  // ---------------------------------------------------------------------------

  /** The loop `for k, v in es: if <step gives x>: acc[k] = x`, where a step may
      also raise, which ends the loop with that exception. */
  function FoldPut(es: seq<Entry>, acc: seq<Entry>, step: Entry -> Result<Option<Value>>): Result<seq<Entry>>
  {
    if es == [] then Ok(acc)
    else
      var o :- step(es[0]);
      FoldPut(es[1..], if o.Some? then Put(acc, es[0].key, o.value) else acc, step)
  }

  /** The entries the steps keep, in order: a reference for FoldPut over the
      distinct keys of a dict. */
  function Collect(es: seq<Entry>, step: Entry -> Result<Option<Value>>): (r: Result<seq<Entry>>)
    ensures r.Ok? <==> forall i :: 0 <= i < |es| ==> step(es[i]).Ok?
  {
    if es == [] then Ok([])
    else
      var o :- step(es[0]);
      var rest :- Collect(es[1..], step);
      Ok((if o.Some? then [Entry(es[0].key, o.value)] else []) + rest)
  }

  lemma KeysAppend(a: seq<Entry>, b: seq<Entry>)
    ensures Keys(a + b) == Keys(a) + Keys(b)
  {
  }

  lemma KeysTail(es: seq<Entry>)
    requires es != []
    ensures Keys(es) == [es[0].key] + Keys(es[1..])
  {
  }

  lemma DistinctTail(es: seq<Entry>)
    requires es != [] && DistinctKeys(es)
    ensures DistinctKeys(es[1..]) && !HasKey(es[1..], es[0].key)
  {
    assert forall a :: 0 <= a < |es[1..]| ==> es[1..][a] == es[a + 1];
  }

  /** The kept entries come from `es`, and keep its keys distinct. */
  lemma {:induction false} CollectKeys(es: seq<Entry>, step: Entry -> Result<Option<Value>>)
    requires Collect(es, step).Ok?
    ensures forall k :: HasKey(Collect(es, step).value, k) ==> HasKey(es, k)
    ensures DistinctKeys(es) ==> DistinctKeys(Collect(es, step).value)
  {
    if es != [] {
      var o := step(es[0]).value;
      var rest := Collect(es[1..], step).value;
      var head := if o.Some? then [Entry(es[0].key, o.value)] else [];
      assert Collect(es, step).value == head + rest;
      CollectKeys(es[1..], step);
      KeysAppend(head, rest);
      KeysTail(es);
      forall k | HasKey(head + rest, k) ensures HasKey(es, k) {
        if k in Keys(head) {
          assert k == es[0].key;
        } else {
          assert HasKey(es[1..], k);
        }
      }
      if DistinctKeys(es) {
        DistinctTail(es);
        var c := head + rest;
        forall a, b | 0 <= a < b < |c| ensures c[a].key != c[b].key {
          assert c[b] == rest[b - |head|];
          assert HasKey(rest, c[b].key) by { assert Keys(rest)[b - |head|] == c[b].key; }
        }
      }
    }
  }

  /** Over the distinct keys of a dict, the loop leaves `acc` followed by the
      kept entries in their original order. */
  lemma {:induction false} FoldPutIsCollect(es: seq<Entry>, acc: seq<Entry>, step: Entry -> Result<Option<Value>>)
    requires DistinctKeys(es) && Collect(es, step).Ok?
    requires forall k :: HasKey(es, k) ==> !HasKey(acc, k)
    ensures FoldPut(es, acc, step) == Ok(acc + Collect(es, step).value)
    decreases es
  {
    if es == [] {
      assert acc + [] == acc;
    } else {
      assert step(es[0]).Ok?;
      var head := FoldPutHead(es, acc, step);
      var rest := Collect(es[1..], step).value;
      assert Collect(es, step).value == head + rest;
      FoldPutIsCollect(es[1..], acc + head, step);
      assert (acc + head) + rest == acc + (head + rest);
    }
  }

  /** One step of FoldPut on a key the accumulator does not hold appends what
      Collect keeps for it. */
  lemma FoldPutHead(es: seq<Entry>, acc: seq<Entry>, step: Entry -> Result<Option<Value>>) returns (head: seq<Entry>)
    requires es != [] && DistinctKeys(es) && step(es[0]).Ok?
    requires forall k :: HasKey(es, k) ==> !HasKey(acc, k)
    ensures head == (if step(es[0]).value.Some? then [Entry(es[0].key, step(es[0]).value.value)] else [])
    ensures FoldPut(es, acc, step) == FoldPut(es[1..], acc + head, step)
    ensures DistinctKeys(es[1..])
    ensures forall k :: HasKey(es[1..], k) ==> !HasKey(acc + head, k)
  {
    var o := step(es[0]).value;
    head := if o.Some? then [Entry(es[0].key, o.value)] else [];
    DistinctTail(es);
    KeysTail(es);
    assert HasKey(es, es[0].key);
    if o.Some? {
      assert Put(acc, es[0].key, o.value) == acc + head;
    } else {
      assert acc == acc + head;
    }
    FreshAfterHead(es, acc, head);
  }

  lemma FreshAfterHead(es: seq<Entry>, acc: seq<Entry>, head: seq<Entry>)
    requires es != [] && DistinctKeys(es)
    requires forall k :: HasKey(es, k) ==> !HasKey(acc, k)
    requires head == [] || head == [Entry(es[0].key, head[0].val)]
    ensures forall k :: HasKey(es[1..], k) ==> !HasKey(acc + head, k)
  {
    DistinctTail(es);
    KeysTail(es);
    KeysAppend(acc, head);
    forall k | HasKey(es[1..], k) ensures !HasKey(acc + head, k) {
      assert HasKey(es, k);
      assert k != es[0].key;
      assert k !in Keys(head);
    }
  }

  /** The value under `k` is the one at the first position holding `k`. */
  lemma LookupAt(es: seq<Entry>, i: nat, k: Value)
    requires i < |es| && es[i].key == k
    requires forall j :: 0 <= j < i ==> es[j].key != k
    ensures Lookup(es, k) == Some(es[i].val)
  {
    assert HasKey(es, k) by { assert Keys(es)[i] == k; }
    var j := Find(es, k).value;
    assert !(j < i) && !(i < j);
  }

  lemma NoKey(es: seq<Entry>, k: Value)
    requires forall i :: 0 <= i < |es| ==> es[i].key != k
    ensures !HasKey(es, k)
  {
  }

  /** `**({k: v} if c else {})` inside a dict display. */
  function EntryIf(c: bool, k: Value, v: Value): seq<Entry> {
    if c then [Entry(k, v)] else []
  }

  lemma NoKeyAppend(a: seq<Entry>, b: seq<Entry>, k: Value)
    requires !HasKey(a, k) && !HasKey(b, k)
    ensures !HasKey(a + b, k)
  {
    KeysAppend(a, b);
  }

  lemma NoKeyEntryIf(c: bool, k: Value, v: Value, k': Value)
    requires k != k'
    ensures !HasKey(EntryIf(c, k, v), k')
  {
  }

  /** An optional entry between two parts that do not hold its key is found
      when present and absent otherwise. */
  lemma EntryIfLookup(a: seq<Entry>, c: bool, k: Value, v: Value, b: seq<Entry>)
    requires !HasKey(a, k) && !HasKey(b, k)
    ensures c ==> Lookup(a + EntryIf(c, k, v) + b, k) == Some(v)
    ensures !c ==> !HasKey(a + EntryIf(c, k, v) + b, k)
  {
    var es := a + EntryIf(c, k, v) + b;
    if c {
      assert es[|a|] == Entry(k, v);
      forall j | 0 <= j < |a| ensures es[j].key != k {
        assert es[j] == a[j] && Keys(a)[j] == a[j].key;
      }
      LookupAt(es, |a|, k);
    } else {
      assert es == a + b;
      NoKeyAppend(a, b, k);
    }
  }

  lemma LookupCons(e: Entry, rest: seq<Entry>, k: Value)
    requires e.key != k
    ensures Lookup([e] + rest, k) == Lookup(rest, k)
  {
    assert ([e] + rest)[1..] == rest;
  }

  /** What the kept entries say about each key of a dict. */
  lemma {:induction false} CollectLookup(es: seq<Entry>, step: Entry -> Result<Option<Value>>, i: nat)
    requires DistinctKeys(es) && Collect(es, step).Ok? && i < |es|
    ensures Lookup(Collect(es, step).value, es[i].key) == step(es[i]).value
  {
    DistinctTail(es);
    var o := step(es[0]).value;
    var rest := Collect(es[1..], step).value;
    var head := if o.Some? then [Entry(es[0].key, o.value)] else [];
    var c := head + rest;
    assert Collect(es, step).value == c;
    CollectKeys(es[1..], step);
    if i == 0 {
      assert !HasKey(rest, es[0].key);
      if o.Some? {
        assert Find(c, es[0].key) == Some(0);
      }
    } else {
      assert es[1..][i - 1] == es[i];
      CollectLookup(es[1..], step, i - 1);
      assert es[i].key != es[0].key by { assert Keys(es)[i] == es[i].key; }
      if o.Some? {
        assert c == [Entry(es[0].key, o.value)] + rest;
        LookupCons(Entry(es[0].key, o.value), rest, es[i].key);
      } else {
        assert c == rest;
      }
    }
  }

  /** Assigning a key twice leaves the second value at the first one's place. */
  lemma PutPut(es: seq<Entry>, k: Value, v: Value, w: Value)
    ensures Put(Put(es, k, v), k, w) == Put(es, k, w)
  {
    match Find(es, k)
    case None =>
      assert Find(es + [Entry(k, v)], k) == Some(|es|) by { FindAppendNew(es, k, v); }
      assert (es + [Entry(k, v)])[|es| := Entry(k, w)] == es + [Entry(k, w)];
    case Some(i) =>
      var r := es[i := Entry(k, v)];
      assert Keys(r) == Keys(es);
      FindSameKeys(r, es, k);
  }

  lemma FindAppendNew(es: seq<Entry>, k: Value, v: Value)
    requires !HasKey(es, k)
    ensures Find(es + [Entry(k, v)], k) == Some(|es|)
  {
    var r := es + [Entry(k, v)];
    assert Keys(r) == Keys(es) + [k];
    assert Keys(r)[|es|] == k;
  }

  /** Starting from an empty dict, the loop fails iff some step fails, and
      otherwise maps each key of the (distinct-keyed) input to what its step
      chose, and nothing else. */
  lemma FoldPutLookup(es: seq<Entry>, step: Entry -> Result<Option<Value>>, i: nat)
    requires DistinctKeys(es) && i < |es| && FoldPut(es, [], step).Ok?
    ensures step(es[i]).Ok?
    ensures Lookup(FoldPut(es, [], step).value, es[i].key) == step(es[i]).value
  {
    FoldPutOk(es, [], step);
    FoldPutIsCollect(es, [], step);
    assert [] + Collect(es, step).value == Collect(es, step).value;
    CollectLookup(es, step, i);
  }

  lemma FoldPutKeys(es: seq<Entry>, step: Entry -> Result<Option<Value>>)
    requires DistinctKeys(es) && FoldPut(es, [], step).Ok?
    ensures forall k :: HasKey(FoldPut(es, [], step).value, k) ==> HasKey(es, k)
    ensures DistinctKeys(FoldPut(es, [], step).value)
  {
    FoldPutOk(es, [], step);
    FoldPutIsCollect(es, [], step);
    assert [] + Collect(es, step).value == Collect(es, step).value;
    CollectKeys(es, step);
  }

  /** The loop fails iff one of its steps fails. */
  lemma {:induction false} FoldPutOk(es: seq<Entry>, acc: seq<Entry>, step: Entry -> Result<Option<Value>>)
    ensures FoldPut(es, acc, step).Ok? <==> forall i :: 0 <= i < |es| ==> step(es[i]).Ok?
  {
    if es != [] {
      var o := step(es[0]);
      if o.Ok? {
        FoldPutOk(es[1..], if o.value.Some? then Put(acc, es[0].key, o.value.value) else acc, step);
        assert forall i :: 1 <= i < |es| ==> es[1..][i - 1] == es[i];
      }
    }
  }

  /** A loop that appends, for every item, one record to each of two lists,
      stopping at the first exception. */
  function FoldPairs(xs: seq<Value>, a: seq<Value>, b: seq<Value>, f: Value -> Result<(Value, Value)>): Result<(seq<Value>, seq<Value>)>
    decreases xs
  {
    if xs == [] then Ok((a, b))
    else
      var r :- f(xs[0]);
      FoldPairs(xs[1..], a + [r.0], b + [r.1], f)
  }

  /** The loop succeeds exactly when every item does. */
  lemma {:induction false} FoldPairsOk(xs: seq<Value>, a: seq<Value>, b: seq<Value>, f: Value -> Result<(Value, Value)>)
    ensures FoldPairs(xs, a, b, f).Ok? <==> forall i :: 0 <= i < |xs| ==> f(xs[i]).Ok?
    decreases xs
  {
    if xs != [] {
      assert forall i :: 1 <= i < |xs| ==> xs[1..][i - 1] == xs[i];
      var r := f(xs[0]);
      if r.Ok? {
        FoldPairsOk(xs[1..], a + [r.value.0], b + [r.value.1], f);
      }
    }
  }

  /** What was already built stays in front, and each list grows by one
      record per item. */
  lemma {:induction false} FoldPairsKeeps(xs: seq<Value>, a: seq<Value>, b: seq<Value>, f: Value -> Result<(Value, Value)>)
    requires FoldPairs(xs, a, b, f).Ok?
    ensures |FoldPairs(xs, a, b, f).value.0| == |a| + |xs|
    ensures |FoldPairs(xs, a, b, f).value.1| == |b| + |xs|
    ensures FoldPairs(xs, a, b, f).value.0[..|a|] == a
    ensures FoldPairs(xs, a, b, f).value.1[..|b|] == b
    decreases xs
  {
    if xs != [] {
      var r := f(xs[0]).value;
      FoldPairsKeeps(xs[1..], a + [r.0], b + [r.1], f);
      var q := FoldPairs(xs, a, b, f).value;
      assert q.0[..|a|] == q.0[..|a| + 1][..|a|];
      assert q.1[..|b|] == q.1[..|b| + 1][..|b|];
    }
  }

  /** The i-th new record of each list comes from the i-th item. */
  lemma {:induction false} FoldPairsAt(xs: seq<Value>, a: seq<Value>, b: seq<Value>, f: Value -> Result<(Value, Value)>, i: nat)
    requires FoldPairs(xs, a, b, f).Ok? && i < |xs|
    ensures f(xs[i]).Ok?
    ensures |FoldPairs(xs, a, b, f).value.0| == |a| + |xs|
    ensures |FoldPairs(xs, a, b, f).value.1| == |b| + |xs|
    ensures FoldPairs(xs, a, b, f).value.0[|a| + i] == f(xs[i]).value.0
    ensures FoldPairs(xs, a, b, f).value.1[|b| + i] == f(xs[i]).value.1
    decreases xs
  {
    var r := f(xs[0]).value;
    var a' := a + [r.0];
    var b' := b + [r.1];
    assert FoldPairs(xs, a, b, f) == FoldPairs(xs[1..], a', b', f);
    if i == 0 {
      FoldPairsKeeps(xs[1..], a', b', f);
      var q := FoldPairs(xs, a, b, f).value;
      assert q.0[|a|] == q.0[..|a'|][|a|];
      assert q.1[|b|] == q.1[..|b'|][|b|];
    } else {
      assert xs[1..][i - 1] == xs[i];
      FoldPairsAt(xs[1..], a', b', f, i - 1);
    }
  }

  /** `[f(x) for x in xs]`, stopping at the first exception. */
  function MapEach<T>(xs: seq<Value>, f: Value -> Result<T>): (r: Result<seq<T>>)
    ensures r.Ok? ==> |r.value| == |xs|
  {
    if xs == [] then Ok([])
    else
      var e :- f(xs[0]);
      var rest :- MapEach(xs[1..], f);
      Ok([e] + rest)
  }

  lemma {:induction false} MapEachOk<T>(xs: seq<Value>, f: Value -> Result<T>)
    ensures MapEach(xs, f).Ok? <==> forall j :: 0 <= j < |xs| ==> f(xs[j]).Ok?
  {
    if xs != [] {
      MapEachOk(xs[1..], f);
      assert forall j :: 1 <= j < |xs| ==> xs[1..][j - 1] == xs[j];
    }
  }

  lemma {:induction false} MapEachAt<T>(xs: seq<Value>, f: Value -> Result<T>, j: nat)
    requires j < |xs| && MapEach(xs, f).Ok?
    ensures f(xs[j]).Ok? && MapEach(xs, f).value[j] == f(xs[j]).value
  {
    var rest := MapEach(xs[1..], f);
    assert f(xs[0]).Ok? && rest.Ok?;
    assert MapEach(xs, f).value == [f(xs[0]).value] + rest.value;
    if j > 0 {
      MapEachAt(xs[1..], f, j - 1);
      assert xs[1..][j - 1] == xs[j];
    }
  }

  /** The dict `{k: x for k, x in es if k != key}`. */
  function Without(es: seq<Entry>, key: Value): (r: seq<Entry>)
    ensures !HasKey(r, key)
    ensures forall k :: k != key ==> Lookup(r, k) == Lookup(es, k)
  {
    if es == [] then []
    else
      var rest := Without(es[1..], key);
      if es[0].key == key then rest
      else
        assert forall k :: k != es[0].key ==> Lookup([es[0]] + rest, k) == Lookup(rest, k) by {
          forall k | k != es[0].key ensures Lookup([es[0]] + rest, k) == Lookup(rest, k) {
            LookupCons(es[0], rest, k);
          }
        }
        [es[0]] + rest
  }

  /** The loop `for e in ps: acc[e.key] = e.val`, keys computed beforehand. */
  function PutAll(acc: seq<Entry>, ps: seq<Entry>): seq<Entry>
    decreases ps
  {
    if ps == [] then acc else PutAll(Put(acc, ps[0].key, ps[0].val), ps[1..])
  }

  /** The last entry with a key decides its value. */
  lemma {:induction false} PutAllLast(acc: seq<Entry>, ps: seq<Entry>, i: nat)
    requires i < |ps| && forall j :: i < j < |ps| ==> ps[j].key != ps[i].key
    ensures Lookup(PutAll(acc, ps), ps[i].key) == Some(ps[i].val)
    decreases ps
  {
    var acc' := Put(acc, ps[0].key, ps[0].val);
    if i == 0 {
      KeysTail(ps);
      PutAllOther(acc', ps[1..], ps[0].key);
    } else {
      assert ps[1..][i - 1] == ps[i];
      forall j | i - 1 < j < |ps[1..]| ensures ps[1..][j].key != ps[1..][i - 1].key {
        assert ps[1..][j] == ps[j + 1];
      }
      PutAllLast(acc', ps[1..], i - 1);
    }
  }

  /** A key that no entry of `ps` carries keeps its value from `acc`. */
  lemma {:induction false} PutAllOther(acc: seq<Entry>, ps: seq<Entry>, k: Value)
    requires !HasKey(ps, k)
    ensures Lookup(PutAll(acc, ps), k) == Lookup(acc, k)
    decreases ps
  {
    if ps != [] {
      KeysTail(ps);
      PutAllOther(Put(acc, ps[0].key, ps[0].val), ps[1..], k);
    }
  }

  /** The keys afterwards are those of `acc` and of `ps`, each once. */
  lemma {:induction false} PutAllKeys(acc: seq<Entry>, ps: seq<Entry>, k: Value)
    ensures HasKey(PutAll(acc, ps), k) <==> HasKey(acc, k) || HasKey(ps, k)
    ensures DistinctKeys(acc) ==> DistinctKeys(PutAll(acc, ps))
    decreases ps
  {
    if ps != [] {
      KeysTail(ps);
      PutAllKeys(Put(acc, ps[0].key, ps[0].val), ps[1..], k);
    }
  }

  // ---------------------------------------------------------------------------
  // Python operations on values
  // ---------------------------------------------------------------------------

  /** Lists and dicts cannot be dict keys. */
  predicate Hashable(v: Value) {
    !v.List? && !v.Map?
  }

  /** `bool(v)`. */
  predicate Truthy(v: Value) {
    match v
    case Null => false
    case Bool(b) => b
    case Int(i) => i != 0
    case Str(s) => s != ""
    case List(xs) => xs != []
    case Map(es) => es != []
  }

  /** `v or d`. */
  function Or(v: Value, d: Value): (r: Value)
    ensures Truthy(v) ==> r == v
    ensures !Truthy(v) ==> r == d
  {
    if Truthy(v) then v else d
  }

  /** `d.get(k, default)` on a dict whose keys are known to be hashable. */
  function GetOr(es: seq<Entry>, k: Value, default: Value): (r: Value)
    ensures HasKey(es, k) ==> Some(r) == Lookup(es, k)
    ensures !HasKey(es, k) ==> r == default
  {
    match Lookup(es, k)
    case Some(x) => x
    case None => default
  }

  /** `v.get(k, d)`: only a dict has `get`. */
  function Get(v: Value, k: Value, d: Value): (r: Result<Value>)
    ensures r.Ok? <==> v.Map? && Hashable(k)
    ensures r.Ok? ==> r.value == match Lookup(v.entries, k) case Some(x) => x case None => d
  {
    if !v.Map? then Err(AttributeError)
    else if !Hashable(k) then Err(TypeError)
    else match Lookup(v.entries, k)
      case Some(x) => Ok(x)
      case None => Ok(d)
  }

  /** `v.get(k, d)` on a dict with a hashable key. */
  lemma GetIsGetOr(v: Value, k: Value, d: Value)
    requires v.Map? && Hashable(k)
    ensures Get(v, k, d) == Ok(GetOr(v.entries, k, d))
  {
  }

  /** `v.items()`: only a dict has `items`. */
  function Items(v: Value): (r: Result<seq<Entry>>)
    ensures r.Ok? <==> v.Map?
    ensures r.Ok? ==> r.value == v.entries
  {
    if v.Map? then Ok(v.entries) else Err(AttributeError)
  }

  /** The one-character strings of `s`, as iterating a `str` yields them. */
  function Chars(s: string): (r: seq<Value>)
    ensures |r| == |s|
    ensures forall i :: 0 <= i < |s| ==> r[i] == Str([s[i]])
  {
    seq(|s|, i requires 0 <= i < |s| => Str([s[i]]))
  }

  /** What `for x in v` visits: the items of a list, the characters of a
      string, the keys of a dict; anything else is not iterable. */
  function Iterate(v: Value): (r: Result<seq<Value>>)
    ensures v.List? ==> r == Ok(v.items)
    ensures v.Map? ==> r == Ok(Keys(v.entries))
    ensures v.Str? ==> r == Ok(Chars(v.s))
    ensures r.Err? <==> v.Null? || v.Bool? || v.Int?
  {
    match v
    case List(xs) => Ok(xs)
    case Map(es) => Ok(Keys(es))
    case Str(s) => Ok(Chars(s))
    case _ => Err(TypeError)
  }

  /** `t` occurs in `s` at position `i`. */
  ghost predicate OccursAt(t: string, s: string, i: int) {
    0 <= i <= |s| - |t| && s[i..i + |t|] == t
  }

  /** Substring test, as a reference predicate. */
  ghost predicate Occurs(t: string, s: string) {
    exists i :: OccursAt(t, s, i)
  }

  /** `t in s` for strings. */
  function Contains(s: string, t: string): (r: bool)
    ensures r <==> Occurs(t, s)
  {
    if t <= s then
      assert OccursAt(t, s, 0);
      true
    else if s == [] then
      false
    else
      OccursShift(s, t);
      Contains(s[1..], t)
  }

  lemma OccursShift(s: string, t: string)
    requires s != [] && !(t <= s)
    ensures Occurs(t, s) <==> Occurs(t, s[1..])
  {
    if |t| <= |s| {
      assert s[..|t|] != t;
    }
    assert !OccursAt(t, s, 0);
    if i :| OccursAt(t, s, i) {
      assert i != 0;
      assert s[1..][i - 1..i - 1 + |t|] == s[i..i + |t|];
      assert OccursAt(t, s[1..], i - 1);
    }
    if i :| OccursAt(t, s[1..], i) {
      assert s[1..][i..i + |t|] == s[i + 1..i + 1 + |t|];
      assert OccursAt(t, s, i + 1);
    }
  }

  predicate StartsWith(s: string, prefix: string) {
    prefix <= s
  }

  predicate EndsWith(s: string, suffix: string) {
    |suffix| <= |s| && s[|s| - |suffix|..] == suffix
  }

  /** `k in c`: key test on a dict, membership on a list, substring test on a string. */
  function In(k: Value, c: Value): (r: Result<bool>)
    ensures c.Map? && Hashable(k) ==> r == Ok(HasKey(c.entries, k))
    ensures c.List? ==> r == Ok(k in c.items)
    ensures c.Str? && k.Str? ==> r == Ok(Contains(c.s, k.s))
    ensures r.Err? <==> (c.Map? && !Hashable(k)) || (c.Str? && !k.Str?) || c.Null? || c.Bool? || c.Int?
  {
    match c
    case Map(es) => if Hashable(k) then Ok(Find(es, k).Some?) else Err(TypeError)
    case List(xs) => Ok(k in xs)
    case Str(s) => if k.Str? then Ok(Contains(s, k.s)) else Err(TypeError)
    case _ => Err(TypeError)
  }

  /** `c[k]`: a dict looks the key up, a list or a string takes an integer
      index (negative indices count from the end). */
  function Item(c: Value, k: Value): (r: Result<Value>)
    ensures c.Map? && Hashable(k) && HasKey(c.entries, k) ==> r == Ok(Lookup(c.entries, k).value)
    ensures c.Map? && Hashable(k) && !HasKey(c.entries, k) ==> r == Err(KeyError)
    ensures c.List? && k.Int? && 0 <= k.i < |c.items| ==> r == Ok(c.items[k.i])
    ensures c.Str? && k.Int? && 0 <= k.i < |c.s| ==> r == Ok(Str([c.s[k.i]]))
    ensures (c.List? || c.Str?) && !k.Int? ==> r == Err(TypeError)
  {
    match c
    case Map(es) =>
      if !Hashable(k) then Err(TypeError)
      else (match Lookup(es, k)
        case Some(x) => Ok(x)
        case None => Err(KeyError))
    case List(xs) =>
      if !k.Int? then Err(TypeError)
      else if 0 <= k.i < |xs| then Ok(xs[k.i])
      else if -|xs| <= k.i < 0 then Ok(xs[|xs| + k.i])
      else Err(IndexError)
    case Str(s) =>
      if !k.Int? then Err(TypeError)
      else if 0 <= k.i < |s| then Ok(Str([s[k.i]]))
      else if -|s| <= k.i < 0 then Ok(Str([s[|s| + k.i]]))
      else Err(IndexError)
    case _ => Err(TypeError)
  }

  /** `len(v)`. */
  function Len(v: Value): (r: Result<nat>)
    ensures v.List? ==> r == Ok(|v.items|)
    ensures v.Str? ==> r == Ok(|v.s|)
    ensures v.Map? ==> r == Ok(|v.entries|)
    ensures r.Err? <==> v.Null? || v.Bool? || v.Int?
  {
    match v
    case List(xs) => Ok(|xs|)
    case Str(s) => Ok(|s|)
    case Map(es) => Ok(|es|)
    case _ => Err(TypeError)
  }

  // ---------------------------------------------------------------------------
  // Conversions between text and integers
  // ---------------------------------------------------------------------------

  function DigitChar(d: nat): char
    requires d < 10
  {
    "0123456789"[d]
  }

  predicate IsDigit(c: char) {
    '0' <= c <= '9'
  }

  predicate AllDigits(s: string) {
    forall j :: 0 <= j < |s| ==> IsDigit(s[j])
  }

  function NatToString(n: nat): (r: string)
    ensures |r| > 0 && AllDigits(r)
  {
    if n < 10 then [DigitChar(n)] else NatToString(n / 10) + [DigitChar(n % 10)]
  }

  /** `str(i)` for an integer: decimal, with a leading `-` when negative. */
  function IntToString(i: int): string {
    if i < 0 then "-" + NatToString(-i) else NatToString(i)
  }

  function DigitsValue(s: string): nat
    requires AllDigits(s)
  {
    if s == [] then 0
    else
      var c := s[|s| - 1];
      assert IsDigit(c);
      DigitsValue(s[..|s| - 1]) * 10 + (c as int - '0' as int)
  }

  /** `int(s)` for a string: an optional sign followed by decimal digits. */
  function ParseInt(s: string): (r: Option<int>)
    ensures r.Some? ==> s != []
  {
    var signed := s != [] && (s[0] == '-' || s[0] == '+');
    var digits := if signed then s[1..] else s;
    if digits == [] || !AllDigits(digits) then None
    else if s[0] == '-' then Some(-(DigitsValue(digits) as int))
    else Some(DigitsValue(digits))
  }

  lemma {:induction false} DigitsOfNat(n: nat)
    ensures DigitsValue(NatToString(n)) == n
  {
    if n >= 10 {
      var s := NatToString(n);
      assert s[..|s| - 1] == NatToString(n / 10);
      DigitsOfNat(n / 10);
    }
  }

  lemma ParseNat(n: nat)
    ensures ParseInt(NatToString(n)) == Some(n)
  {
    var s := NatToString(n);
    assert IsDigit(s[0]);
    DigitsOfNat(n);
  }

  lemma ParseNegative(n: nat)
    ensures ParseInt("-" + NatToString(n)) == Some(-(n as int))
  {
    var d := NatToString(n);
    var s := "-" + d;
    assert s[0] == '-' && s[1..] == d;
    DigitsOfNat(n);
  }

  /** `int(str(i)) == i`. */
  lemma IntStringRoundTrip(i: int)
    ensures ParseInt(IntToString(i)) == Some(i)
  {
    if i < 0 {
      ParseNegativeInt(i);
    } else {
      ParseNonNegativeInt(i);
    }
  }

  lemma ParseNegativeInt(i: int)
    requires i < 0
    ensures ParseInt(IntToString(i)) == Some(i)
  {
    var n: nat := -i;
    var s := IntToString(i);
    assert s == "-" + NatToString(n);
    ParseNegative(n);
  }

  lemma ParseNonNegativeInt(i: int)
    requires i >= 0
    ensures ParseInt(IntToString(i)) == Some(i)
  {
    ParseNat(i);
  }

  /** `int(v)`: integers as they are, booleans as 0 and 1, decimal strings
      parsed; `int(None)`, `int([])` and `int({})` raise TypeError. */
  function PyInt(v: Value): (r: Result<int>)
    ensures v.Int? ==> r == Ok(v.i)
    ensures v.Null? || v.List? || v.Map? ==> r == Err(TypeError)
  {
    match v
    case Int(i) => Ok(i)
    case Bool(b) => Ok(if b then 1 else 0)
    case Str(s) => (match ParseInt(s) case Some(i) => Ok(i) case None => Err(ValueError))
    case _ => Err(TypeError)
  }

  function UpperChar(c: char): char {
    if 'a' <= c <= 'z' then (c as int - 32) as char else c
  }

  function LowerChar(c: char): char {
    if 'A' <= c <= 'Z' then (c as int + 32) as char else c
  }

  /** `s.upper()`. */
  function Upper(s: string): (r: string)
    ensures |r| == |s| && forall i :: 0 <= i < |s| ==> r[i] == UpperChar(s[i])
  {
    seq(|s|, i requires 0 <= i < |s| => UpperChar(s[i]))
  }

  /** `s.lower()`. */
  function Lower(s: string): (r: string)
    ensures |r| == |s| && forall i :: 0 <= i < |s| ==> r[i] == LowerChar(s[i])
  {
    seq(|s|, i requires 0 <= i < |s| => LowerChar(s[i]))
  }

  /** `", ".join(parts)`. */
  function Join(parts: seq<string>): string {
    if parts == [] then ""
    else if |parts| == 1 then parts[0]
    else parts[0] + ", " + Join(parts[1..])
  }

  /** `repr(v)`, as `str` shows the items of a list or dict. */
  function Repr(v: Value): string {
    match v
    case Str(s) => "'" + s + "'"
    case List(xs) => "[" + Join(ItemReprs(v, 0)) + "]"
    case Map(es) => "{" + Join(EntryReprs(v, 0)) + "}"
    case _ => ScalarStr(v)
  }

  /** `str` of `None`, a boolean or an integer. */
  function ScalarStr(v: Value): string {
    match v
    case Null => "None"
    case Bool(b) => if b then "True" else "False"
    case Int(i) => IntToString(i)
    case _ => ""
  }

  function ItemReprs(v: Value, i: nat): seq<string>
    requires v.List? && i <= |v.items|
    decreases v, |v.items| - i
  {
    if i == |v.items| then [] else [Repr(v.items[i])] + ItemReprs(v, i + 1)
  }

  function EntryReprs(v: Value, i: nat): seq<string>
    requires v.Map? && i <= |v.entries|
    decreases v, |v.entries| - i
  {
    if i == |v.entries| then []
    else [Repr(v.entries[i].key) + ": " + Repr(v.entries[i].val)] + EntryReprs(v, i + 1)
  }

  /** `str(v)`. */
  function PyStr(v: Value): (r: string)
    ensures v.Str? ==> r == v.s
    ensures v.Int? ==> r == IntToString(v.i)
  {
    match v
    case Str(s) => s
    case List(_) => Repr(v)
    case Map(_) => Repr(v)
    case _ => ScalarStr(v)
  }

  /** A dict literal whose keys are all strings, written as pairs. */
  function Dict(pairs: seq<(string, Value)>): (r: Value)
    ensures r.Map?
  {
    Map(seq(|pairs|, i requires 0 <= i < |pairs| => Entry(Str(pairs[i].0), pairs[i].1)))
  }
}
