/** The MapReduce data path: doMap, doReduce and merge, against a group-by specification.

  Files are modelled by the sequences of pairs written to and read from them, JSON by the identity.
  Sorting is known only as some sorted permutation, so nothing depends on the order in which the
  values of a key arrive.
 */
module MapReduce {
  import opened StringOrder

  datatype KeyValue = KeyValue(key: string, value: string)

  type ReduceFunction = (string, seq<string>) -> string
  type MapFunction = (string, string) -> seq<KeyValue>

  /** Any hash function; the source uses 31 bits of FNV-1a. */
  type Hash = string -> nat

  datatype InputFile = InputFile(name: string, contents: string)

  // ---------------------------------------------------------------- specification

  function Keys(pairs: seq<KeyValue>): seq<string> {
    seq(|pairs|, i requires 0 <= i < |pairs| => pairs[i].key)
  }

  /** The values that occur with a key, in order. */
  function ValuesOf(k: string, pairs: seq<KeyValue>): seq<string> {
    if pairs == [] then []
    else
      var last := pairs[|pairs| - 1];
      ValuesOf(k, pairs[..|pairs| - 1]) + (if last.key == k then [last.value] else [])
  }

  /** `v` is the reduction of all values of `k`, taken in some order. */
  ghost predicate ReducesTo(pairs: seq<KeyValue>, reduceF: ReduceFunction, k: string, v: string) {
    exists vs :: multiset(vs) == multiset(ValuesOf(k, pairs)) && v == reduceF(k, vs)
  }

  /** Group by key and reduce: each key that occurs in `pairs` once, ascending, with its reduction. */
  ghost predicate GroupedBy(pairs: seq<KeyValue>, reduceF: ReduceFunction, out: seq<KeyValue>) {
    && Ascending(Keys(out))
    && (forall k :: k in Keys(out) <==> k in Keys(pairs))
    && (forall i :: 0 <= i < |out| ==> ReducesTo(pairs, reduceF, out[i].key, out[i].value))
  }

  ghost predicate OrderInsensitive(reduceF: ReduceFunction) {
    forall k, vs, ws :: multiset(vs) == multiset(ws) ==> reduceF(k, vs) == reduceF(k, ws)
  }

  // ---------------------------------------------------------------- properties of ValuesOf

  lemma {:induction false} ValuesConcat(k: string, a: seq<KeyValue>, b: seq<KeyValue>)
    ensures ValuesOf(k, a + b) == ValuesOf(k, a) + ValuesOf(k, b)
    decreases |b|
  {
    if b == [] {
      assert a + b == a;
    } else {
      var n := |b| - 1;
      assert (a + b)[..|a + b| - 1] == a + b[..n];
      ValuesConcat(k, a, b[..n]);
    }
  }

  lemma {:induction false} NoValues(k: string, pairs: seq<KeyValue>)
    requires forall i :: 0 <= i < |pairs| ==> pairs[i].key != k
    ensures ValuesOf(k, pairs) == []
  {
    if pairs != [] {
      NoValues(k, pairs[..|pairs| - 1]);
    }
  }

  lemma RemoveCommon<T>(a: seq<T>, x: T, b: seq<T>, c: seq<T>)
    requires multiset(a + [x]) == multiset(b + [x] + c)
    ensures multiset(a) == multiset(b + c)
  {
    assert multiset(a + [x]) == multiset(a) + multiset{x};
    assert multiset(b + [x] + c) == multiset(b + c) + multiset{x};
    assert multiset(a) == multiset(a + [x]) - multiset{x};
  }

  /** A permutation of the pairs permutes the values of each key. */
  lemma {:induction false} ValuesPermuted(k: string, a: seq<KeyValue>, b: seq<KeyValue>)
    requires multiset(a) == multiset(b)
    ensures multiset(ValuesOf(k, a)) == multiset(ValuesOf(k, b))
    decreases |a|
  {
    if a == [] {
      assert |multiset(b)| == 0;
    } else {
      var n := |a| - 1;
      var x := a[n];
      assert a == a[..n] + [x];
      assert x in multiset(b);
      var j :| 0 <= j < |b| && b[j] == x;
      var p, q := b[..j], b[j + 1..];
      assert b == p + [x] + q;
      RemoveCommon(a[..n], x, p, q);
      ValuesPermuted(k, a[..n], p + q);
      ValuesAround(k, p, x, q);
    }
  }

  /** Taking one pair out of the middle. */
  lemma ValuesAround(k: string, p: seq<KeyValue>, x: KeyValue, q: seq<KeyValue>)
    ensures multiset(ValuesOf(k, p + [x] + q)) == multiset(ValuesOf(k, p + q)) + multiset(ValuesOf(k, [x]))
    ensures ValuesOf(k, [x]) == if x.key == k then [x.value] else []
  {
    ValuesConcat(k, p + [x], q);
    ValuesConcat(k, p, [x]);
    ValuesConcat(k, p, q);
    assert [x][..0] == [];
  }

  lemma KeysPermuted(k: string, a: seq<KeyValue>, b: seq<KeyValue>)
    requires multiset(a) == multiset(b) && k in Keys(a)
    ensures k in Keys(b)
  {
    var i :| 0 <= i < |a| && a[i].key == k;
    assert a[i] in multiset(b);
    var j :| 0 <= j < |b| && b[j] == a[i];
    assert Keys(b)[j] == k;
  }

  /** The specification does not see the order of the pairs. */
  lemma GroupedPermuted(a: seq<KeyValue>, b: seq<KeyValue>, reduceF: ReduceFunction, out: seq<KeyValue>)
    requires multiset(a) == multiset(b) && GroupedBy(a, reduceF, out)
    ensures GroupedBy(b, reduceF, out)
  {
    forall k
      ensures k in Keys(out) <==> k in Keys(b)
    {
      if k in Keys(a) { KeysPermuted(k, a, b); }
      if k in Keys(b) { KeysPermuted(k, b, a); }
    }
    forall i | 0 <= i < |out|
      ensures ReducesTo(b, reduceF, out[i].key, out[i].value)
    {
      assert ReducesTo(a, reduceF, out[i].key, out[i].value);
      var vs :| multiset(vs) == multiset(ValuesOf(out[i].key, a)) && out[i].value == reduceF(out[i].key, vs);
      ValuesPermuted(out[i].key, a, b);
    }
  }

  /** For an order-insensitive reduction the specification has exactly one solution. */
  lemma GroupedUnique(a: seq<KeyValue>, b: seq<KeyValue>, reduceF: ReduceFunction, x: seq<KeyValue>, y: seq<KeyValue>)
    requires OrderInsensitive(reduceF) && multiset(a) == multiset(b)
    requires GroupedBy(a, reduceF, x) && GroupedBy(b, reduceF, y)
    ensures x == y
  {
    GroupedPermuted(b, a, reduceF, y);
    assert forall k :: k in Keys(x) <==> k in Keys(y);
    AscendingUnique(Keys(x), Keys(y));
    forall i | 0 <= i < |x|
      ensures x[i] == y[i]
    {
      assert Keys(x)[i] == Keys(y)[i];
      var k := x[i].key;
      assert ReducesTo(a, reduceF, k, x[i].value) && ReducesTo(a, reduceF, k, y[i].value);
      var vs :| multiset(vs) == multiset(ValuesOf(k, a)) && x[i].value == reduceF(k, vs);
      var ws :| multiset(ws) == multiset(ValuesOf(k, a)) && y[i].value == reduceF(k, ws);
    }
  }

  // ---------------------------------------------------------------- doMap

  function Bucket(pairs: seq<KeyValue>, hash: Hash, nReduce: nat, r: nat): seq<KeyValue>
    requires nReduce >= 1
  {
    if pairs == [] then []
    else
      var last := pairs[|pairs| - 1];
      Bucket(pairs[..|pairs| - 1], hash, nReduce, r) + (if hash(last.key) % nReduce == r then [last] else [])
  }

  /** One map task: its pairs, distributed over one file per reduce task. */
  method DoMap(file: InputFile, nReduce: nat, hash: Hash, mapF: MapFunction) returns (files: seq<seq<KeyValue>>)
    requires nReduce >= 1
    ensures |files| == nReduce
    ensures forall r :: 0 <= r < nReduce ==> files[r] == Bucket(mapF(file.name, file.contents), hash, nReduce, r)
  {
    var kvpairs := mapF(file.name, file.contents);
    var tmps := new seq<KeyValue>[nReduce](_ => []);
    var i := 0;
    while i < |kvpairs|
      invariant 0 <= i <= |kvpairs|
      invariant forall r :: 0 <= r < nReduce ==> tmps[r] == Bucket(kvpairs[..i], hash, nReduce, r)
    {
      var kv := kvpairs[i];
      var r := hash(kv.key) % nReduce;
      assert kvpairs[..i + 1][..i] == kvpairs[..i];
      tmps[r] := tmps[r] + [kv];
      i := i + 1;
    }
    assert kvpairs[..i] == kvpairs;
    files := tmps[..];
  }

  /** Partitioning keeps all the values of a key together, in the one bucket its hash selects. */
  lemma {:induction false} BucketValues(pairs: seq<KeyValue>, hash: Hash, nReduce: nat, r: nat, k: string)
    requires nReduce >= 1
    ensures ValuesOf(k, Bucket(pairs, hash, nReduce, r)) == if hash(k) % nReduce == r then ValuesOf(k, pairs) else []
  {
    if pairs != [] {
      var n := |pairs| - 1;
      var last := pairs[n];
      BucketValues(pairs[..n], hash, nReduce, r, k);
      if hash(last.key) % nReduce == r {
        ValuesConcat(k, Bucket(pairs[..n], hash, nReduce, r), [last]);
        assert [last][..0] == [];
      } else {
        assert Bucket(pairs, hash, nReduce, r) == Bucket(pairs[..n], hash, nReduce, r);
      }
    }
  }

  // ---------------------------------------------------------------- sorting

  /** Some sorted permutation; the source's sort is not stable. */
  method SortByKey(data: seq<KeyValue>) returns (sorted: seq<KeyValue>)
    ensures NonDescending(Keys(sorted)) && multiset(sorted) == multiset(data)
  {
    sorted := [];
    var i := 0;
    while i < |data|
      invariant 0 <= i <= |data|
      invariant NonDescending(Keys(sorted)) && multiset(sorted) == multiset(data[..i])
    {
      sorted := InsertPair(sorted, data[i]);
      assert data[..i + 1] == data[..i] + [data[i]];
      i := i + 1;
    }
    assert data[..i] == data;
  }

  method InsertPair(sorted: seq<KeyValue>, kv: KeyValue) returns (out: seq<KeyValue>)
    requires NonDescending(Keys(sorted))
    ensures NonDescending(Keys(out)) && multiset(out) == multiset(sorted) + multiset{kv}
  {
    var j := |sorted|;
    while j > 0 && Less(kv.key, sorted[j - 1].key)
      invariant 0 <= j <= |sorted|
      invariant forall x :: j <= x < |sorted| ==> Less(kv.key, Keys(sorted)[x])
    {
      j := j - 1;
    }
    out := sorted[..j] + [kv] + sorted[j..];
    InsertedPair(sorted, kv, j);
  }

  lemma InsertedPair(sorted: seq<KeyValue>, kv: KeyValue, j: nat)
    requires NonDescending(Keys(sorted)) && j <= |sorted|
    requires forall x :: j <= x < |sorted| ==> Less(kv.key, Keys(sorted)[x])
    requires j > 0 ==> !Less(kv.key, sorted[j - 1].key)
    ensures var out := sorted[..j] + [kv] + sorted[j..];
      NonDescending(Keys(out)) && multiset(out) == multiset(sorted) + multiset{kv}
  {
    hide NonDescending, Less;
    var out := sorted[..j] + [kv] + sorted[j..];
    InsertionSorted(Keys(sorted), kv.key, j);
    assert Keys(out) == Keys(sorted)[..j] + [kv.key] + Keys(sorted)[j..];
    assert sorted == sorted[..j] + sorted[j..];
  }

  lemma InsertionSorted(keys: seq<string>, k: string, j: nat)
    requires NonDescending(keys) && j <= |keys|
    requires forall x :: j <= x < |keys| ==> Less(k, keys[x])
    requires j > 0 ==> !Less(k, keys[j - 1])
    ensures NonDescending(keys[..j] + [k] + keys[j..])
  {
    var out := keys[..j] + [k] + keys[j..];
    forall x, y | 0 <= x < y < |out|
      ensures !Less(out[y], out[x])
    {
      if x < j && y == j {
        NotBelowSorted(keys, k, j, x);
      } else if x == j {
        LessAsymmetric(k, keys[y - 1]);
      } else if x < j && j < y {
        assert out[y] == keys[y - 1];
      } else if j < x {
        assert out[y] == keys[y - 1] && out[x] == keys[x - 1];
      }
    }
  }

  lemma NotBelowSorted(keys: seq<string>, k: string, j: nat, x: nat)
    requires NonDescending(keys) && x < j <= |keys| && !Less(k, keys[j - 1])
    ensures !Less(k, keys[x])
  {
    if x < j - 1 && Less(k, keys[x]) {
      LessTotal(keys[x], keys[j - 1]);
      if Less(keys[x], keys[j - 1]) {
        LessTransitive(k, keys[x], keys[j - 1]);
      }
      assert false;
    }
  }

  // ---------------------------------------------------------------- doReduce

  function Concat(files: seq<seq<KeyValue>>): seq<KeyValue> {
    if files == [] then [] else Concat(files[..|files| - 1]) + files[|files| - 1]
  }

  /** One reduce task: gather its files, sort, and reduce each run of equal keys. */
  method DoReduce(files: seq<seq<KeyValue>>, reduceF: ReduceFunction) returns (out: seq<KeyValue>)
    ensures GroupedBy(Concat(files), reduceF, out)
  {
    var data: seq<KeyValue> := [];
    var i := 0;
    while i < |files|
      invariant 0 <= i <= |files| && multiset(data) == multiset(Concat(files[..i]))
    {
      var tmp := SortByKey(files[i]);
      data := data + tmp;
      assert files[..i + 1][..i] == files[..i];
      i := i + 1;
    }
    assert files[..i] == files;
    data := SortByKey(data);
    out := ReduceRuns(data, reduceF);
    GroupedPermuted(data, Concat(files), reduceF, out);
  }

  /** The reductions of the runs in a prefix of the data. */
  ghost predicate RunsDone(data: seq<KeyValue>, begin: nat, reduceF: ReduceFunction, out: seq<KeyValue>)
    requires begin <= |data|
  {
    && Ascending(Keys(out))
    && (forall k :: k in Keys(out) <==> k in Keys(data[..begin]))
    && (forall x :: 0 <= x < |out| ==> out[x].value == reduceF(out[x].key, ValuesOf(out[x].key, data)))
    && (begin < |data| ==> forall x :: 0 <= x < |out| ==> Less(out[x].key, data[begin].key))
  }

  method ReduceRuns(data: seq<KeyValue>, reduceF: ReduceFunction) returns (out: seq<KeyValue>)
    requires NonDescending(Keys(data))
    ensures GroupedBy(data, reduceF, out)
  {
    out := [];
    var begin := 0;
    assert RunsDone(data, 0, reduceF, []);
    hide NonDescending, RunsDone, IsRun, Less, ValuesOf, Keys, GroupedBy;
    while begin < |data|
      invariant 0 <= begin <= |data| && RunsDone(data, begin, reduceF, out)
    {
      var end := RunEnd(data, begin);
      RunIsForward(data, begin, end);
      var value := Gather(data, begin, end);
      BeforeRun(data, begin, reduceF, out);
      RunValues(data, begin, end);
      RunsDoneNext(data, begin, end, reduceF, out);
      out := out + [KeyValue(data[begin].key, reduceF(data[begin].key, value))];
      begin := end;
    }
    AllRunsDone(data, reduceF, out);
  }

  /** The values of one run. */
  method Gather(data: seq<KeyValue>, begin: nat, end: nat) returns (value: seq<string>)
    requires begin < end && IsRun(data, begin, end)
    ensures value == ValuesOf(data[begin].key, data[begin..end])
  {
    value := [];
    var i := begin;
    assert data[begin..begin] == [];
    while i < end
      invariant begin <= i <= end && value == ValuesOf(data[begin].key, data[begin..i])
    {
      value := value + [data[i].value];
      assert data[begin..i + 1][..i - begin] == data[begin..i];
      i := i + 1;
    }
  }

  lemma RunIsForward(data: seq<KeyValue>, begin: nat, end: nat)
    requires IsRun(data, begin, end)
    ensures begin < end <= |data|
  {
  }

  lemma AllRunsDone(data: seq<KeyValue>, reduceF: ReduceFunction, out: seq<KeyValue>)
    requires RunsDone(data, |data|, reduceF, out)
    ensures GroupedBy(data, reduceF, out)
  {
    assert data[..|data|] == data;
    forall x | 0 <= x < |out|
      ensures ReducesTo(data, reduceF, out[x].key, out[x].value)
    {
      var vs := ValuesOf(out[x].key, data);
      assert multiset(vs) == multiset(ValuesOf(out[x].key, data));
    }
  }

  /** [begin, end) is a maximal run of one key in sorted data. */
  ghost predicate IsRun(data: seq<KeyValue>, begin: nat, end: nat) {
    && begin < end <= |data|
    && (forall x :: begin <= x < end ==> data[x].key == data[begin].key)
    && (end < |data| ==> data[end].key != data[begin].key)
  }

  method RunEnd(data: seq<KeyValue>, begin: nat) returns (end: nat)
    requires begin < |data|
    ensures IsRun(data, begin, end)
  {
    end := begin;
    while end < |data| && data[end].key == data[begin].key
      invariant begin <= end <= |data|
      invariant forall x :: begin <= x < end ==> data[x].key == data[begin].key
    {
      end := end + 1;
    }
  }

  /** After a run only larger keys follow. */
  lemma RunIsLast(data: seq<KeyValue>, begin: nat, end: nat, y: nat)
    requires NonDescending(Keys(data)) && IsRun(data, begin, end) && end <= y < |data|
    ensures Less(data[begin].key, data[y].key)
  {
    var keys := Keys(data);
    assert !Less(keys[end], keys[begin]) && !Less(keys[y], keys[begin]);
    LessTotal(data[begin].key, data[end].key);
    LessTotal(data[begin].key, data[y].key);
    if end < y {
      assert !Less(keys[y], keys[end]);
    }
  }

  lemma BeforeRun(data: seq<KeyValue>, begin: nat, reduceF: ReduceFunction, out: seq<KeyValue>)
    requires begin < |data| && RunsDone(data, begin, reduceF, out)
    ensures forall x :: 0 <= x < begin ==> data[x].key != data[begin].key
  {
    forall x | 0 <= x < begin
      ensures data[x].key != data[begin].key
    {
      assert Keys(data[..begin])[x] == data[x].key;
      assert data[x].key in Keys(out);
      var y :| 0 <= y < |out| && Keys(out)[y] == data[x].key;
      LessAsymmetric(out[y].key, data[begin].key);
    }
  }

  lemma AfterRun(data: seq<KeyValue>, begin: nat, end: nat)
    requires NonDescending(Keys(data)) && IsRun(data, begin, end)
    ensures ValuesOf(data[begin].key, data[end..]) == []
  {
    hide NonDescending;
    forall y | end <= y < |data|
      ensures data[y].key != data[begin].key
    {
      RunIsLast(data, begin, end, y);
      LessAsymmetric(data[begin].key, data[y].key);
    }
    NoValues(data[begin].key, data[end..]);
  }

  /** A run contains all the values of its key. */
  lemma RunValues(data: seq<KeyValue>, begin: nat, end: nat)
    requires NonDescending(Keys(data)) && IsRun(data, begin, end)
    requires forall x :: 0 <= x < begin ==> data[x].key != data[begin].key
    ensures ValuesOf(data[begin].key, data[begin..end]) == ValuesOf(data[begin].key, data)
  {
    hide NonDescending, Less, ValuesOf;
    var k := data[begin].key;
    var p, q, r := data[..begin], data[begin..end], data[end..];
    assert data == p + q + r;
    ValuesConcat(k, p + q, r);
    ValuesConcat(k, p, q);
    NoValues(k, p);
    AfterRun(data, begin, end);
  }

  lemma RunsDoneNext(data: seq<KeyValue>, begin: nat, end: nat, reduceF: ReduceFunction, out: seq<KeyValue>)
    requires NonDescending(Keys(data)) && IsRun(data, begin, end) && RunsDone(data, begin, reduceF, out)
    ensures RunsDone(data, end, reduceF, out + [KeyValue(data[begin].key, reduceF(data[begin].key, ValuesOf(data[begin].key, data)))])
  {
    var k := data[begin].key;
    var out' := out + [KeyValue(k, reduceF(k, ValuesOf(k, data)))];
    assert Keys(out') == Keys(out) + [k];
    forall j
      ensures j in Keys(out') <==> j in Keys(data[..end])
    {
      RunKeys(data, begin, end, j);
    }
    if end < |data| {
      RunIsLast(data, begin, end, end);
      forall x | 0 <= x < |out'|
        ensures Less(out'[x].key, data[end].key)
      {
        if x < |out| {
          LessTransitive(out[x].key, k, data[end].key);
        }
      }
    }
  }

  lemma RunKeys(data: seq<KeyValue>, begin: nat, end: nat, j: string)
    requires IsRun(data, begin, end)
    ensures j in Keys(data[..end]) <==> j in Keys(data[..begin]) || j == data[begin].key
  {
    var a, b := Keys(data[..end]), Keys(data[..begin]);
    assert forall x :: 0 <= x < begin ==> a[x] == b[x];
    assert a[begin] == data[begin].key;
    assert forall x :: begin <= x < end ==> a[x] == data[begin].key;
  }

  // ---------------------------------------------------------------- merge

  /** What the merger's map holds after reading the pairs: the last value of each key. */
  function Table(pairs: seq<KeyValue>): map<string, string> {
    if pairs == [] then map[]
    else
      var last := pairs[|pairs| - 1];
      Table(pairs[..|pairs| - 1])[last.key := last.value]
  }

  lemma {:induction false} TableEntries(pairs: seq<KeyValue>, k: string)
    ensures k in Table(pairs) <==> k in Keys(pairs)
    ensures k in Table(pairs) ==> KeyValue(k, Table(pairs)[k]) in pairs
  {
    if pairs != [] {
      var n := |pairs| - 1;
      TableEntries(pairs[..n], k);
      assert Keys(pairs) == Keys(pairs[..n]) + [pairs[n].key];
      assert pairs == pairs[..n] + [pairs[n]];
    }
  }

  /** The value kept for a key is the one of its last pair. */
  lemma {:induction false} TableLast(pairs: seq<KeyValue>, i: nat)
    requires i < |pairs| && forall j :: i < j < |pairs| ==> pairs[j].key != pairs[i].key
    ensures pairs[i].key in Table(pairs) && Table(pairs)[pairs[i].key] == pairs[i].value
  {
    var n := |pairs| - 1;
    if i < n {
      assert pairs[n].key != pairs[i].key;
      TableLast(pairs[..n], i);
    }
  }

  /** All reduce outputs go into one map, which is written out by ascending key. */
  method Merge(outs: seq<seq<KeyValue>>) returns (lines: seq<KeyValue>)
    ensures Ascending(Keys(lines))
    ensures forall k :: k in Keys(lines) <==> k in Table(Concat(outs))
    ensures forall i :: 0 <= i < |lines| ==> lines[i].key in Table(Concat(outs)) && lines[i].value == Table(Concat(outs))[lines[i].key]
  {
    var kvs: map<string, string> := map[];
    var i := 0;
    while i < |outs|
      invariant 0 <= i <= |outs| && kvs == Table(Concat(outs[..i]))
    {
      kvs := ReadInto(Concat(outs[..i]), kvs, outs[i]);
      assert outs[..i + 1][..i] == outs[..i];
      i := i + 1;
    }
    assert outs[..i] == outs;
    hide Table, Concat, Ascending;
    lines := WriteSorted(kvs);
  }

  lemma TableNext(before: seq<KeyValue>, file: seq<KeyValue>, j: nat)
    requires j < |file|
    ensures Table(before + file[..j + 1]) == Table(before + file[..j])[file[j].key := file[j].value]
  {
    var read := before + file[..j + 1];
    assert read[..|read| - 1] == before + file[..j];
  }

  /** One reduce output is read into the map. */
  method ReadInto(ghost before: seq<KeyValue>, table: map<string, string>, file: seq<KeyValue>) returns (kvs: map<string, string>)
    requires table == Table(before)
    ensures kvs == Table(before + file)
  {
    hide Table;
    kvs := table;
    var j := 0;
    assert before + file[..0] == before;
    while j < |file|
      invariant 0 <= j <= |file| && kvs == Table(before + file[..j])
    {
      TableNext(before, file, j);
      kvs := kvs[file[j].key := file[j].value];
      j := j + 1;
    }
    assert file[..j] == file;
  }

  /** The map is written out by ascending key. */
  method WriteSorted(kvs: map<string, string>) returns (lines: seq<KeyValue>)
    ensures Ascending(Keys(lines)) && forall k :: k in Keys(lines) <==> k in kvs
    ensures forall i :: 0 <= i < |lines| ==> lines[i].key in kvs && lines[i].value == kvs[lines[i].key]
  {
    hide Ascending;
    var keys := SortedKeys(kvs);
    lines := [];
    var i := 0;
    while i < |keys|
      invariant 0 <= i <= |keys| && Keys(lines) == keys[..i]
      invariant forall x :: 0 <= x < |lines| ==> lines[x].key in kvs && lines[x].value == kvs[lines[x].key]
    {
      lines := lines + [KeyValue(keys[i], kvs[keys[i]])];
      i := i + 1;
    }
    assert keys[..i] == keys;
  }

  /** The keys of a map, ranged over in no particular order and then sorted. */
  method SortedKeys(kvs: map<string, string>) returns (keys: seq<string>)
    ensures Ascending(keys) && forall k :: k in keys <==> k in kvs
  {
    keys := [];
    var rest := kvs.Keys;
    while rest != {}
      invariant Ascending(keys) && rest <= kvs.Keys
      invariant forall k :: k in keys <==> k in kvs && k !in rest
      decreases rest
    {
      var k :| k in rest;
      keys := InsertKey(keys, k);
      rest := rest - {k};
    }
  }

  method InsertKey(sorted: seq<string>, k: string) returns (out: seq<string>)
    requires Ascending(sorted) && k !in sorted
    ensures Ascending(out) && forall x :: x in out <==> x in sorted || x == k
  {
    var j := |sorted|;
    while j > 0 && Less(k, sorted[j - 1])
      invariant 0 <= j <= |sorted|
      invariant forall x :: j <= x < |sorted| ==> Less(k, sorted[x])
    {
      j := j - 1;
    }
    forall x | 0 <= x < j
      ensures Less(sorted[x], k)
    {
      LessTotal(sorted[j - 1], k);
      if x < j - 1 {
        LessTransitive(sorted[x], sorted[j - 1], k);
      }
    }
    out := sorted[..j] + [k] + sorted[j..];
    assert sorted == sorted[..j] + sorted[j..];
  }

  // ---------------------------------------------------------------- the whole job

  /** Everything the map function emits, file by file. */
  function Emitted(files: seq<InputFile>, mapF: MapFunction): seq<KeyValue> {
    if files == [] then []
    else
      var f := files[|files| - 1];
      Emitted(files[..|files| - 1], mapF) + mapF(f.name, f.contents)
  }

  /** The intermediate files of one reduce task. */
  function Column(inter: seq<seq<seq<KeyValue>>>, r: nat): seq<seq<KeyValue>>
    requires forall m :: 0 <= m < |inter| ==> r < |inter[m]|
  {
    seq(|inter|, m requires 0 <= m < |inter| => inter[m][r])
  }

  /** The map phase has left each file's pairs in their buckets. */
  ghost predicate Mapped(files: seq<InputFile>, nReduce: nat, hash: Hash, mapF: MapFunction, inter: seq<seq<seq<KeyValue>>>)
    requires nReduce >= 1
  {
    && |inter| == |files|
    && (forall m :: 0 <= m < |inter| ==> |inter[m]| == nReduce)
    && forall m, r :: 0 <= m < |inter| && 0 <= r < nReduce ==>
         inter[m][r] == Bucket(mapF(files[m].name, files[m].contents), hash, nReduce, r)
  }

  /** A reduce task sees all the values of the keys that hash to it, and no others. */
  lemma {:induction false} ColumnValues(files: seq<InputFile>, nReduce: nat, hash: Hash, mapF: MapFunction,
                                        inter: seq<seq<seq<KeyValue>>>, r: nat, k: string)
    requires nReduce >= 1 && r < nReduce && Mapped(files, nReduce, hash, mapF, inter)
    ensures ValuesOf(k, Concat(Column(inter, r))) == if hash(k) % nReduce == r then ValuesOf(k, Emitted(files, mapF)) else []
    decreases |files|
  {
    hide Bucket, ValuesOf;
    if files == [] {
      assert Column(inter, r) == [];
      NoValues(k, []);
    } else {
      var n := |files| - 1;
      var pairs := mapF(files[n].name, files[n].contents);
      ColumnValues(files[..n], nReduce, hash, mapF, inter[..n], r, k);
      assert Column(inter, r)[..n] == Column(inter[..n], r);
      ValuesConcat(k, Concat(Column(inter[..n], r)), inter[n][r]);
      ValuesConcat(k, Emitted(files[..n], mapF), pairs);
      BucketValues(pairs, hash, nReduce, r, k);
    }
  }

  lemma {:induction false} KeysHaveValues(k: string, pairs: seq<KeyValue>)
    ensures k in Keys(pairs) <==> ValuesOf(k, pairs) != []
  {
    if pairs != [] {
      var n := |pairs| - 1;
      KeysHaveValues(k, pairs[..n]);
      assert Keys(pairs) == Keys(pairs[..n]) + [pairs[n].key];
    }
  }

  lemma {:induction false} ConcatMember(files: seq<seq<KeyValue>>, kv: KeyValue)
    ensures kv in Concat(files) <==> exists r :: 0 <= r < |files| && kv in files[r]
  {
    if files != [] {
      var n := |files| - 1;
      ConcatMember(files[..n], kv);
      assert kv in files[n] ==> kv in Concat(files);
      assert forall r :: 0 <= r < n ==> files[..n][r] == files[r];
    }
  }

  ghost predicate Reduced(inter: seq<seq<seq<KeyValue>>>, nReduce: nat, reduceF: ReduceFunction, outs: seq<seq<KeyValue>>) {
    && (forall m :: 0 <= m < |inter| ==> |inter[m]| == nReduce)
    && |outs| <= nReduce
    && forall r :: 0 <= r < |outs| ==> GroupedBy(Concat(Column(inter, r)), reduceF, outs[r])
  }

  /** A pair in a reduce output is the reduction of all values emitted for its key. */
  lemma OutputIsReduction(files: seq<InputFile>, nReduce: nat, hash: Hash, mapF: MapFunction, reduceF: ReduceFunction,
                          inter: seq<seq<seq<KeyValue>>>, outs: seq<seq<KeyValue>>, r: nat, kv: KeyValue)
    requires nReduce >= 1 && Mapped(files, nReduce, hash, mapF, inter) && Reduced(inter, nReduce, reduceF, outs)
    requires r < |outs| && kv in outs[r]
    ensures kv.key in Keys(Emitted(files, mapF)) && ReducesTo(Emitted(files, mapF), reduceF, kv.key, kv.value)
  {
    hide Mapped, Less, Ascending;
    var data := Concat(Column(inter, r));
    var i :| 0 <= i < |outs[r]| && outs[r][i] == kv;
    assert GroupedBy(data, reduceF, outs[r]);
    assert Keys(outs[r])[i] == kv.key;
    KeysHaveValues(kv.key, data);
    ColumnValues(files, nReduce, hash, mapF, inter, r, kv.key);
    KeysHaveValues(kv.key, Emitted(files, mapF));
    assert ReducesTo(data, reduceF, kv.key, kv.value);
  }

  /** An emitted key is in the output of the reduce task its hash selects. */
  lemma KeyIsOutput(files: seq<InputFile>, nReduce: nat, hash: Hash, mapF: MapFunction, reduceF: ReduceFunction,
                    inter: seq<seq<seq<KeyValue>>>, outs: seq<seq<KeyValue>>, k: string)
    requires nReduce >= 1 && Mapped(files, nReduce, hash, mapF, inter) && Reduced(inter, nReduce, reduceF, outs)
    requires |outs| == nReduce && k in Keys(Emitted(files, mapF))
    ensures k in Keys(Concat(outs))
  {
    hide Mapped, Less, Ascending, ReducesTo;
    var r := hash(k) % nReduce;
    var data := Concat(Column(inter, r));
    ColumnValues(files, nReduce, hash, mapF, inter, r, k);
    KeysHaveValues(k, Emitted(files, mapF));
    KeysHaveValues(k, data);
    assert GroupedBy(data, reduceF, outs[r]);
    var i :| 0 <= i < |outs[r]| && Keys(outs[r])[i] == k;
    ConcatMember(outs, outs[r][i]);
    assert outs[r][i] in Concat(outs);
    var j :| 0 <= j < |Concat(outs)| && Concat(outs)[j] == outs[r][i];
    assert Keys(Concat(outs))[j] == k;
  }

  lemma MergedIsGrouped(files: seq<InputFile>, nReduce: nat, hash: Hash, mapF: MapFunction, reduceF: ReduceFunction,
                        inter: seq<seq<seq<KeyValue>>>, outs: seq<seq<KeyValue>>, lines: seq<KeyValue>)
    requires nReduce >= 1 && Mapped(files, nReduce, hash, mapF, inter) && Reduced(inter, nReduce, reduceF, outs)
    requires |outs| == nReduce && Ascending(Keys(lines))
    requires forall k :: k in Keys(lines) <==> k in Table(Concat(outs))
    requires forall i :: 0 <= i < |lines| ==> lines[i].key in Table(Concat(outs)) && lines[i].value == Table(Concat(outs))[lines[i].key]
    ensures GroupedBy(Emitted(files, mapF), reduceF, lines)
  {
    hide Mapped, Reduced, Ascending, ReducesTo, Table, Concat, Emitted;
    var all := Concat(outs);
    forall k
      ensures k in Table(all) ==> k in Keys(Emitted(files, mapF)) && ReducesTo(Emitted(files, mapF), reduceF, k, Table(all)[k])
      ensures k in Keys(Emitted(files, mapF)) ==> k in Table(all)
    {
      TableEntries(all, k);
      if k in Table(all) {
        var kv := KeyValue(k, Table(all)[k]);
        ConcatMember(outs, kv);
        var r :| 0 <= r < |outs| && kv in outs[r];
        OutputIsReduction(files, nReduce, hash, mapF, reduceF, inter, outs, r, kv);
      }
      if k in Keys(Emitted(files, mapF)) {
        KeyIsOutput(files, nReduce, hash, mapF, reduceF, inter, outs, k);
      }
    }
  }

  /** A job, task after task: its output is the group-by of everything the map function emits,
      whatever the number of reduce tasks and the hash function. */
  method RunJob(files: seq<InputFile>, nReduce: nat, hash: Hash, mapF: MapFunction, reduceF: ReduceFunction)
    returns (lines: seq<KeyValue>)
    requires nReduce >= 1
    ensures GroupedBy(Emitted(files, mapF), reduceF, lines)
  {
    var inter: seq<seq<seq<KeyValue>>> := [];
    var i := 0;
    while i < |files|
      invariant 0 <= i <= |files| && Mapped(files[..i], nReduce, hash, mapF, inter)
    {
      var buckets := DoMap(files[i], nReduce, hash, mapF);
      inter := inter + [buckets];
      i := i + 1;
    }
    assert files[..i] == files;
    var outs: seq<seq<KeyValue>> := [];
    var r := 0;
    while r < nReduce
      invariant 0 <= r == |outs| <= nReduce && Reduced(inter, nReduce, reduceF, outs)
    {
      var out := DoReduce(Column(inter, r), reduceF);
      outs := outs + [out];
      r := r + 1;
    }
    lines := Merge(outs);
    MergedIsGrouped(files, nReduce, hash, mapF, reduceF, inter, outs, lines);
  }

  /** With an order-insensitive reduction the output does not depend on the number of reduce tasks
      or on the hash function. */
  method PartitioningIsIrrelevant(files: seq<InputFile>, n: nat, h: Hash, n': nat, h': Hash, mapF: MapFunction, reduceF: ReduceFunction)
    returns (a: seq<KeyValue>, b: seq<KeyValue>)
    requires n >= 1 && n' >= 1 && OrderInsensitive(reduceF)
    ensures GroupedBy(Emitted(files, mapF), reduceF, a) && a == b
  {
    a := RunJob(files, n, h, mapF, reduceF);
    b := RunJob(files, n', h', mapF, reduceF);
    GroupedUnique(Emitted(files, mapF), Emitted(files, mapF), reduceF, a, b);
  }
}
