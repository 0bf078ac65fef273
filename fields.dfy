/** The structured data a logger carries (`Data`, `Loggable`, logger.go) and
    the rule `With` applies to merge incoming data into the pending fields:
    a new key takes the incoming value, a key already holding a slice gets the
    value appended, and a key holding anything else becomes the two-element
    slice [old, new]. */
module Fields {

  /** The non-slice values a caller attaches (Go's `any`, minus `[]any`). */
  datatype Atom = Str(s: string) | Int(i: int) | Bool(b: bool) | Nil

  /** A field value: `Slice` is Go's `[]any`, the only dynamic type the merge
      treats as a sequence to append to; everything else is a `Scalar`. */
  datatype Value = Scalar(atom: Atom) | Slice(items: seq<Value>)

  /** `Data`, and the map a `Loggable` hands out: key to value. */
  type Data = map<string, Value>

  datatype Option<T> = None | Some(value: T)

  function Lookup(m: Data, k: string): Option<Value> {
    if k in m then Some(m[k]) else None
  }

  /** The merge of one incoming `value` into the key's pending value `current`. */
  function Combine(current: Value, value: Value): (r: Value)
    ensures r.Slice? && |r.items| > 0 && r.items[|r.items| - 1] == value
    ensures current.Slice? ==> r.items[..|r.items| - 1] == current.items
    ensures !current.Slice? ==> r.items == [current, value]
  {
    if current.Slice? then Slice(current.items + [value]) else Slice([current, value])
  }

  /** The pending value of a key after one more incoming value (or after none). */
  function Step(current: Option<Value>, value: Value): (r: Value)
    ensures current.None? ==> r == value
    ensures current.Some? ==> r.Slice? && |r.items| > 0 && r.items[|r.items| - 1] == value
  {
    match current
    case None => value
    case Some(c) => Combine(c, value)
  }

  /** Merging one `Loggable` argument into the pending fields `cur`. Within one
      argument every key occurs once, so Go's iteration order does not matter. */
  function MergeOne(cur: Data, node: Data): (r: Data)
    ensures r.Keys == cur.Keys + node.Keys
    ensures forall k :: k in cur && k !in node ==> r[k] == cur[k]
  {
    map k | k in cur.Keys + node.Keys ::
      if k in node then Step(Lookup(cur, k), node[k]) else cur[k]
  }

  /** Merging the arguments of `With`, in argument order. */
  function MergeAll(cur: Data, args: seq<Data>): (r: Data)
    ensures cur.Keys <= r.Keys
    ensures args != [] ==> args[|args| - 1].Keys <= r.Keys
    decreases |args|
  {
    if args == [] then cur
    else MergeOne(MergeAll(cur, args[..|args| - 1]), args[|args| - 1])
  }

  /** The keys any of the arguments carries. */
  function ArgKeys(args: seq<Data>): set<string> {
    set i, k | 0 <= i < |args| && k in args[i] :: k
  }

  /** The values the arguments give to key `k`, in argument order. */
  function Occurrences(args: seq<Data>, k: string): seq<Value>
    decreases |args|
  {
    if args == [] then []
    else
      var last := args[|args| - 1];
      Occurrences(args[..|args| - 1], k) + (if k in last then [last[k]] else [])
  }

  /** The accumulated value, in closed form: starting from `start`, the values
      `vs` gathered into one slice (appended to `start` if it already is one),
      or the single value when there is nothing to gather it with. */
  function Accumulate(start: Option<Value>, vs: seq<Value>): Option<Value> {
    if vs == [] then start
    else match start
      case None =>
        if |vs| == 1 then Some(vs[0]) else Some(Gather(vs[0], vs[1..]))
      case Some(c) => Some(Gather(c, vs))
  }

  function Gather(first: Value, rest: seq<Value>): Value {
    if first.Slice? then Slice(first.items + rest) else Slice([first] + rest)
  }

  /** The part of `node` whose keys lie in `keys`. */
  function Restrict(node: Data, keys: set<string>): Data {
    map k | k in keys && k in node :: node[k]
  }

  /** Merging one more key of an argument updates exactly that key, from its
      pending value. */
  lemma MergeOneInsert(base: Data, node: Data, done: set<string>, key: string)
    requires key in node && key !in done
    ensures Lookup(MergeOne(base, Restrict(node, done)), key) == Lookup(base, key)
    ensures MergeOne(base, Restrict(node, done + {key})) ==
      MergeOne(base, Restrict(node, done))[key := Step(Lookup(base, key), node[key])]
  {
    var before := MergeOne(base, Restrict(node, done));
    var after := MergeOne(base, Restrict(node, done + {key}));
    assert after.Keys == before.Keys + {key};
  }

  /** A new key takes the incoming value as it is. */
  lemma MergeOneNewKey(cur: Data, node: Data, k: string)
    requires k !in cur && k in node
    ensures k in MergeOne(cur, node) && MergeOne(cur, node)[k] == node[k]
  {
  }

  /** A pending value that is not a slice becomes [old, new]. */
  lemma MergeOneScalar(cur: Data, node: Data, k: string)
    requires k in cur && !cur[k].Slice? && k in node
    ensures k in MergeOne(cur, node) && MergeOne(cur, node)[k] == Slice([cur[k], node[k]])
  {
  }

  /** A pending slice gets the new value appended at the end. */
  lemma MergeOneSlice(cur: Data, node: Data, k: string)
    requires k in cur && cur[k].Slice? && k in node
    ensures k in MergeOne(cur, node) && MergeOne(cur, node)[k] == Slice(cur[k].items + [node[k]])
  {
  }

  /** One more value on top of an accumulation is the accumulation of one more value. */
  lemma AccumulateSnoc(start: Option<Value>, vs: seq<Value>, v: Value)
    ensures Accumulate(start, vs + [v]) == Some(Step(Accumulate(start, vs), v))
  {
    if vs == [] {
      assert vs + [v] == [v];
      if start.Some? {
        assert [start.value] + [v] == [start.value, v];
      }
    } else {
      assert (vs + [v])[0] == vs[0];
      assert (vs + [v])[1..] == vs[1..] + [v];
      match start
      case None =>
        if |vs| == 1 {
          assert vs[1..] + [v] == [v];
          assert [vs[0]] + [v] == [vs[0], v];
        } else {
          GatherSnoc(vs[0], vs[1..], v);
        }
      case Some(c) =>
        GatherSnoc(c, vs, v);
    }
  }

  lemma GatherSnoc(first: Value, rest: seq<Value>, v: Value)
    ensures Gather(first, rest + [v]) == Combine(Gather(first, rest), v)
  {
    var front := if first.Slice? then first.items else [first];
    assert Gather(first, rest).items == front + rest;
    assert front + (rest + [v]) == (front + rest) + [v];
  }

  /** Repeated keys accumulate in argument order: the value of a key after all
      of `With`'s arguments is its pending value with the arguments' values
      for that key gathered in after it. A key no argument carries keeps its
      pending value. */
  lemma {:induction false} MergeAllAccumulates(cur: Data, args: seq<Data>, k: string)
    ensures Lookup(MergeAll(cur, args), k) == Accumulate(Lookup(cur, k), Occurrences(args, k))
    decreases |args|
  {
    if args != [] {
      var init, last := args[..|args| - 1], args[|args| - 1];
      MergeAllAccumulates(cur, init, k);
      var m := MergeAll(cur, init);
      assert MergeAll(cur, args) == MergeOne(m, last);
      if k in last {
        assert Lookup(MergeOne(m, last), k) == Some(Step(Lookup(m, k), last[k]));
        assert Occurrences(args, k) == Occurrences(init, k) + [last[k]];
        AccumulateSnoc(Lookup(cur, k), Occurrences(init, k), last[k]);
      } else {
        assert Occurrences(args, k) == Occurrences(init, k) + [] == Occurrences(init, k);
        assert k in m ==> k in MergeOne(m, last) && MergeOne(m, last)[k] == m[k];
        assert k !in m ==> k !in MergeOne(m, last);
      }
    }
  }

  /** The merged keys are the pending keys plus every incoming key. */
  lemma {:induction false} MergeAllKeys(cur: Data, args: seq<Data>)
    ensures MergeAll(cur, args).Keys == cur.Keys + ArgKeys(args)
    decreases |args|
  {
    if args != [] {
      var init := args[..|args| - 1];
      MergeAllKeys(cur, init);
      forall k | k in ArgKeys(args) ensures k in cur.Keys + ArgKeys(init) + args[|args| - 1].Keys {
        var i :| 0 <= i < |args| && k in args[i];
        if i < |args| - 1 {
          assert k in init[i];
        }
      }
      forall k | k in ArgKeys(init) ensures k in ArgKeys(args) {
        var i :| 0 <= i < |init| && k in init[i];
        assert k in args[i];
      }
      assert args[|args| - 1] == args[|args| - 1];
    }
  }

  /** A key that no argument carries keeps its pending value. */
  lemma MergeAllUntouched(cur: Data, args: seq<Data>, k: string)
    requires k in cur && k !in ArgKeys(args)
    ensures k in MergeAll(cur, args) && MergeAll(cur, args)[k] == cur[k]
  {
    MergeAllAccumulates(cur, args, k);
    OccurrencesOfAbsent(args, k);
  }

  lemma {:induction false} OccurrencesOfAbsent(args: seq<Data>, k: string)
    requires k !in ArgKeys(args)
    ensures Occurrences(args, k) == []
    decreases |args|
  {
    if args != [] {
      var init := args[..|args| - 1];
      forall i | 0 <= i < |init| ensures k !in init[i] {
        assert init[i] == args[i];
      }
      OccurrencesOfAbsent(init, k);
      assert k !in args[|args| - 1];
    }
  }

  /** Two chained single-key merges of a fresh key give the two-element slice. */
  lemma MergeTwiceExample(v1: Value, v2: Value)
    requires !v1.Slice?
    ensures MergeAll(map[], [map["k" := v1], map["k" := v2]]) == map["k" := Slice([v1, v2])]
  {
    var args := [map["k" := v1], map["k" := v2]];
    assert args[..1] == [map["k" := v1]];
    assert args[..1][..0] == [];
    assert MergeAll(map[], args[..1]) == map["k" := v1];
  }
}
