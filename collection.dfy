/**
 * LightcurveCollection: an append-only list of lightcurve bodies beside a
 * column store of their metadata, one column per key of the first
 * lightcurve ever added, and the on-demand rebuild of (body, metadata).
 */
module Collection {
  import opened Wrappers

  /** A metadata value. */
  datatype MetaValue = Real(r: real) | Int(i: int) | Text(s: string) | Matrix(m: seq<seq<real>>)

  /** An ordered dictionary (`OrderedDict`) as a list of (key, value) pairs. */
  type Meta = seq<(string, MetaValue)>

  predicate DistinctKeys(m: Meta) {
    forall i, j :: 0 <= i < j < |m| ==> m[i].0 != m[j].0
  }

  predicate Distinct(ks: seq<string>) {
    forall i, j :: 0 <= i < j < |ks| ==> ks[i] != ks[j]
  }

  /** The keys in insertion order (`meta.keys()`). */
  function Keys(m: Meta): (ks: seq<string>)
    ensures |ks| == |m| && forall i :: 0 <= i < |m| ==> ks[i] == m[i].0
  {
    seq(|m|, i requires 0 <= i < |m| => m[i].0)
  }

  /** `meta[k]`, or None when the key is missing (where Python raises KeyError). */
  function Lookup(m: Meta, k: string): (r: Option<MetaValue>)
    ensures r.None? <==> k !in Keys(m)
    ensures DistinctKeys(m) ==> forall i :: 0 <= i < |m| && m[i].0 == k ==> r == Some(m[i].1)
  {
    if m == [] then None
    else if m[0].0 == k then Some(m[0].1)
    else
      var r := Lookup(m[1..], k);
      assert Keys(m) == [m[0].0] + Keys(m[1..]);
      r
  }

  lemma DistinctKeysIff(m: Meta)
    ensures DistinctKeys(m) <==> Distinct(Keys(m))
  {
  }

  lemma DistinctCons(h: string, t: seq<string>)
    ensures Distinct([h] + t) <==> h !in t && Distinct(t)
  {
    var s := [h] + t;
    assert forall i :: 0 <= i < |t| ==> s[i + 1] == t[i];
    if h !in t && Distinct(t) {
      forall i, j | 0 <= i < j < |s| ensures s[i] != s[j] {
        if i > 0 {
          assert s[i] == t[i - 1] && s[j] == t[j - 1];
        }
      }
    }
    if Distinct(s) {
      forall i | 0 <= i < |t| ensures t[i] != h {
        assert s[0] != s[i + 1];
      }
      forall i, j | 0 <= i < j < |t| ensures t[i] != t[j] {
        assert s[i + 1] != s[j + 1];
      }
    }
  }

  lemma DistinctSnoc(t: seq<string>, k: string)
    ensures Distinct(t + [k]) <==> k !in t && Distinct(t)
  {
    var s := t + [k];
    assert forall i :: 0 <= i < |t| ==> s[i] == t[i];
    assert s[|t|] == k;
  }

  /** `meta[k] = v` on an ordered dictionary: replace in place, or append a new key at the end. */
  function SetKey(m: Meta, k: string, v: MetaValue): Meta {
    if m == [] then [(k, v)]
    else if m[0].0 == k then [(k, v)] + m[1..]
    else [m[0]] + SetKey(m[1..], k, v)
  }

  lemma KeysCons(m: Meta)
    requires m != []
    ensures Keys(m) == [m[0].0] + Keys(m[1..])
  {
  }

  /** `meta[k] = v` keeps the key order, appending k when it is new. */
  lemma {:induction false} SetKeyKeys(m: Meta, k: string, v: MetaValue)
    ensures Keys(SetKey(m, k, v)) == if k in Keys(m) then Keys(m) else Keys(m) + [k]
  {
    if m != [] {
      var r := SetKey(m, k, v);
      KeysCons(m);
      KeysCons(r);
      if m[0].0 != k {
        var t := m[1..];
        SetKeyKeys(t, k, v);
        assert r[1..] == SetKey(t, k, v);
        if k !in Keys(t) {
          calc {
            Keys(r);
            [m[0].0] + (Keys(t) + [k]);
            { ConcatAssoc([m[0].0], Keys(t), [k]); }
            Keys(m) + [k];
          }
        }
      } else {
        assert r[1..] == m[1..];
      }
    }
  }

  /** `meta[k] = v` keeps the keys distinct. */
  lemma SetKeyDistinct(m: Meta, k: string, v: MetaValue)
    requires DistinctKeys(m)
    ensures DistinctKeys(SetKey(m, k, v))
  {
    SetKeyKeys(m, k, v);
    DistinctKeysIff(m);
    DistinctKeysIff(SetKey(m, k, v));
    if k !in Keys(m) {
      DistinctSnoc(Keys(m), k);
    }
  }

  /** After `meta[k] = v`, key k holds v and every other key is as before. */
  lemma {:induction false} SetKeyLookup(m: Meta, k: string, v: MetaValue, k': string)
    ensures Lookup(SetKey(m, k, v), k') == if k' == k then Some(v) else Lookup(m, k')
  {
    if m != [] && m[0].0 != k {
      SetKeyLookup(m[1..], k, v, k');
      assert SetKey(m, k, v)[1..] == SetKey(m[1..], k, v);
    } else if m != [] {
      assert SetKey(m, k, v)[1..] == m[1..];
    }
  }

  /** A lightcurve: an opaque body and its metadata. */
  datatype Lightcurve<B> = Lightcurve(body: B, meta: Meta)

  /** What `add` receives: one lightcurve or a list of them. */
  datatype Batch<B> = Single(lc: Lightcurve<B>) | List(items: seq<Lightcurve<B>>) {
    function Items(): seq<Lightcurve<B>> {
      match this
      case Single(lc) => [lc]
      case List(items) => items
    }
  }

  function Bodies<B>(items: seq<Lightcurve<B>>): (r: seq<B>)
    ensures |r| == |items| && forall t :: 0 <= t < |items| ==> r[t] == items[t].body
  {
    seq(|items|, t requires 0 <= t < |items| => items[t].body)
  }

  function Metas<B>(items: seq<Lightcurve<B>>): (r: seq<Meta>)
    ensures |r| == |items| && forall t :: 0 <= t < |items| ==> r[t] == items[t].meta
  {
    seq(|items|, t requires 0 <= t < |items| => items[t].meta)
  }


  /** One more item adds its body and its metadata at the end. */
  lemma BodiesMetasSnoc<B>(items: seq<Lightcurve<B>>, x: Lightcurve<B>)
    ensures Bodies(items + [x]) == Bodies(items) + [x.body]
    ensures Metas(items + [x]) == Metas(items) + [x.meta]
  {
    var all := items + [x];
    assert forall t :: 0 <= t < |items| ==> all[t] == items[t];
  }

  datatype CollectionError =
    | EmptyFirstBatch          // the first add got an empty list (`meta[0]` raises IndexError)
    | MissingKey(key: string)  // an item lacks a schema key (KeyError)
    | IndexOutOfRange          // `__getitem__` with an index outside the collection (IndexError)
    | NoMeta                   // `self.meta` is None and is indexed (TypeError)
    | EmptyMeta                // `dict_to_array` of no columns takes `max` of an empty list (ValueError)
    | RaggedColumn(key: string) // a column that cannot be broadcast to the longest one (ValueError)
    | ZeroStep                 // a slice with step 0 (ValueError)

  /** Every schema key has a column. */
  predicate HasColumns(ks: seq<string>, cols: map<string, seq<MetaValue>>) {
    forall k :: k in ks ==> k in cols
  }

  /** Every schema column has length n. */
  predicate Uniform(ks: seq<string>, cols: map<string, seq<MetaValue>>, n: nat)
    requires HasColumns(ks, cols)
  {
    forall k :: k in ks ==> |cols[k]| == n
  }

  /** The length of the longest schema column, 0 without columns. */
  function Longest(ks: seq<string>, cols: map<string, seq<MetaValue>>): (n: nat)
    requires HasColumns(ks, cols)
    ensures forall k :: k in ks ==> |cols[k]| <= n
    ensures ks != [] ==> exists k :: k in ks && |cols[k]| == n
    ensures ks == [] ==> n == 0
  {
    if ks == [] then 0
    else
      var m := Longest(ks[1..], cols);
      assert forall k :: k in ks ==> k == ks[0] || k in ks[1..];
      if |cols[ks[0]]| >= m then |cols[ks[0]]| else m
  }

  /** The first schema column, in schema order, whose length is neither 1 nor n. */
  function FirstRagged(ks: seq<string>, cols: map<string, seq<MetaValue>>, n: nat): (r: Option<string>)
    requires HasColumns(ks, cols)
    ensures r.None? <==> forall k :: k in ks ==> |cols[k]| == 1 || |cols[k]| == n
    ensures r.Some? ==> r.value in ks && |cols[r.value]| != 1 && |cols[r.value]| != n
  {
    if ks == [] then None
    else if |cols[ks[0]]| != 1 && |cols[ks[0]]| != n then Some(ks[0])
    else
      assert forall k :: k in ks ==> k == ks[0] || k in ks[1..];
      FirstRagged(ks[1..], cols, n)
  }

  /**
   * sncosmo's `dict_to_array`, which the `meta` property applies to the
   * columns on every read: the structured array has as many rows as the
   * longest column, and every column is broadcast into it. Without columns
   * `max` of an empty list raises; a column neither of length 1 nor of the
   * longest length cannot be broadcast. The result is the number of rows.
   */
  function MetaArray(ks: seq<string>, cols: map<string, seq<MetaValue>>): (r: Result<nat, CollectionError>)
    requires HasColumns(ks, cols)
    ensures ks == [] <==> r == Err(EmptyMeta)
    ensures r.Ok? <==> ks != [] && forall k :: k in ks ==> |cols[k]| == 1 || |cols[k]| == Longest(ks, cols)
    ensures r.Ok? ==> forall k :: k in ks ==> |cols[k]| == 1 || |cols[k]| == r.value
    ensures r.Err? && ks != [] ==> r.error.RaggedColumn? && r.error.key in ks
    ensures r.Ok? ==> (forall k :: k in ks ==> |cols[k]| <= r.value) && exists k :: k in ks && |cols[k]| == r.value
  {
    if ks == [] then Err(EmptyMeta)
    else
      var n := Longest(ks, cols);
      match FirstRagged(ks, cols, n)
      case Some(k) => Err(RaggedColumn(k))
      case None => Ok(n)
  }

  lemma {:induction false} LongestUniform(ks: seq<string>, cols: map<string, seq<MetaValue>>, n: nat)
    requires HasColumns(ks, cols) && ks != [] && Uniform(ks, cols, n)
    ensures Longest(ks, cols) == n
  {
    if ks[1..] != [] {
      assert forall k :: k in ks[1..] ==> k in ks;
      LongestUniform(ks[1..], cols, n);
    }
  }

  /** Columns of one common length n make an array of n rows. */
  lemma MetaArrayUniform(ks: seq<string>, cols: map<string, seq<MetaValue>>, n: nat)
    requires HasColumns(ks, cols) && ks != [] && Uniform(ks, cols, n)
    ensures MetaArray(ks, cols) == Ok(n)
  {
    LongestUniform(ks, cols, n);
  }

  /**
   * The inner loop of `_add_meta_` for one item, from schema position `j`
   * on: append the item's value of each key to that key's column, stopping
   * at the first key the item lacks. Extra keys of the item are ignored.
   */
  function AppendRow(ks: seq<string>, cols: map<string, seq<MetaValue>>, m: Meta, j: nat): (r: (map<string, seq<MetaValue>>, Option<string>))
    requires j <= |ks| && HasColumns(ks, cols)
    ensures HasColumns(ks, r.0) && r.0.Keys == cols.Keys
    ensures r.1.None? <==> forall i :: j <= i < |ks| ==> ks[i] in Keys(m)
    decreases |ks| - j
  {
    if j == |ks| then (cols, None)
    else
      var k := ks[j];
      match Lookup(m, k)
      case None => (cols, Some(k))
      case Some(v) => AppendRow(ks, cols[k := cols[k] + [v]], m, j + 1)
  }

  /**
   * The outer loop of `_add_meta_`: before each item the `meta` property
   * rebuilds the array, and a failing rebuild stops the loop; then the item
   * is appended, and an item lacking a schema key stops the loop too.
   */
  function AppendAll(ks: seq<string>, cols: map<string, seq<MetaValue>>, metas: seq<Meta>): (r: (map<string, seq<MetaValue>>, Option<CollectionError>))
    requires HasColumns(ks, cols)
    ensures HasColumns(ks, r.0) && r.0.Keys == cols.Keys
    ensures r.1.Some? ==> r.1.value.MissingKey? || r.1.value.EmptyMeta? || r.1.value.RaggedColumn?
  {
    if metas == [] then (cols, None)
    else if MetaArray(ks, cols).Err? then (cols, Some(MetaArray(ks, cols).error))
    else
      var row := AppendRow(ks, cols, metas[0], 0);
      if row.1.Some? then (row.0, Some(MissingKey(row.1.value))) else AppendAll(ks, row.0, metas[1..])
  }

  /** The item carries every schema key. */
  predicate Complete(ks: seq<string>, m: Meta) {
    forall k :: k in ks ==> k in Keys(m)
  }

  /** The metadata row of item `m` under schema `ks`, in schema order. */
  function Project(ks: seq<string>, m: Meta): (r: Meta)
    requires Complete(ks, m)
    ensures Keys(r) == ks
  {
    seq(|ks|, i requires 0 <= i < |ks| => (ks[i], Lookup(m, ks[i]).value))
  }

  /** Distinct keys render one value per key when projected on the schema. */
  lemma ProjectOwnKeys(m: Meta)
    requires DistinctKeys(m)
    ensures Complete(Keys(m), m) && Project(Keys(m), m) == m
  {
    assert Complete(Keys(m), m);
    forall i | 0 <= i < |m| ensures Project(Keys(m), m)[i] == m[i] {
    }
  }

  lemma SliceCons<T>(s: seq<T>, j: nat)
    requires j < |s|
    ensures s[j..] == [s[j]] + s[j + 1..]
  {
  }

  /** A complete item appends one value to the columns of positions j.. of a distinct schema. */
  lemma {:induction false} AppendRowComplete(ks: seq<string>, cols: map<string, seq<MetaValue>>, m: Meta, j: nat)
    requires j <= |ks| && HasColumns(ks, cols) && Distinct(ks) && Complete(ks, m)
    ensures AppendRow(ks, cols, m, j).1.None?
    ensures var r := AppendRow(ks, cols, m, j).0;
      forall k :: k in cols ==>
        r[k] == if k in ks[j..] then cols[k] + [Lookup(m, k).value] else cols[k]
    decreases |ks| - j
  {
    if j < |ks| {
      var k := ks[j];
      var cols' := cols[k := cols[k] + [Lookup(m, k).value]];
      assert Lookup(m, k).Some?;
      assert AppendRow(ks, cols, m, j) == AppendRow(ks, cols', m, j + 1);
      AppendRowComplete(ks, cols', m, j + 1);
      var r := AppendRow(ks, cols', m, j + 1).0;
      SliceCons(ks, j);
      assert forall i :: j + 1 <= i < |ks| ==> ks[i] != k;
      assert k !in ks[j + 1..];
      forall k' | k' in cols
        ensures r[k'] == if k' in ks[j..] then cols[k'] + [Lookup(m, k').value] else cols[k']
      {
        if k' != k {
          assert (k' in ks[j..]) == (k' in ks[j + 1..]);
        }
      }
    }
  }

  /** The values of key `k` of the items, in item order. */
  function ColumnOf(metas: seq<Meta>, k: string): (r: seq<MetaValue>)
    requires forall t :: 0 <= t < |metas| ==> k in Keys(metas[t])
    ensures |r| == |metas| && forall t :: 0 <= t < |metas| ==> Lookup(metas[t], k) == Some(r[t])
  {
    if metas == [] then [] else [Lookup(metas[0], k).value] + ColumnOf(metas[1..], k)
  }

  /** The column of a key over two batches is the two columns one after the other. */
  lemma ColumnOfAppend(a: seq<Meta>, b: seq<Meta>, k: string)
    requires forall t :: 0 <= t < |a| ==> k in Keys(a[t])
    requires forall t :: 0 <= t < |b| ==> k in Keys(b[t])
    ensures forall t :: 0 <= t < |a + b| ==> k in Keys((a + b)[t])
    ensures ColumnOf(a + b, k) == ColumnOf(a, k) + ColumnOf(b, k)
  {
    assert forall t :: 0 <= t < |a + b| ==> (a + b)[t] == if t < |a| then a[t] else b[t - |a|];
    var l, r := ColumnOf(a + b, k), ColumnOf(a, k) + ColumnOf(b, k);
    forall t | 0 <= t < |a + b| ensures l[t] == r[t] {
      if t < |a| {
        assert Lookup(a[t], k) == Some(l[t]);
      } else {
        assert Lookup(b[t - |a|], k) == Some(l[t]);
      }
    }
  }

  /** Looking a schema key up in an item's metadata row finds the item's value. */
  lemma ProjectLookup(ks: seq<string>, m: Meta, k: string)
    requires Complete(ks, m) && Distinct(ks) && k in ks
    ensures Lookup(Project(ks, m), k) == Lookup(m, k)
  {
    var r := Project(ks, m);
    DistinctKeysIff(r);
    var i :| 0 <= i < |ks| && ks[i] == k;
    assert r[i] == (k, Lookup(m, k).value);
  }

  /** The columns store the items `metas`: each carries every schema key, and each key's column is their values. */
  predicate Stores(ks: seq<string>, cols: map<string, seq<MetaValue>>, metas: seq<Meta>) {
    && (forall t :: 0 <= t < |metas| ==> Complete(ks, metas[t]))
    && (forall k :: k in ks ==> k in cols && cols[k] == ColumnOf(metas, k))
  }

  /** Appending a complete item's values to columns that store `metas` stores `metas + [m]`. */
  lemma StoresSnoc(ks: seq<string>, before: map<string, seq<MetaValue>>, after: map<string, seq<MetaValue>>,
                   metas: seq<Meta>, m: Meta)
    requires Stores(ks, before, metas) && Complete(ks, m)
    requires forall k :: k in ks ==> k in after && after[k] == before[k] + ColumnOf([m], k)
    ensures Stores(ks, after, metas + [m])
  {
    var all := metas + [m];
    assert forall t :: 0 <= t < |metas| ==> all[t] == metas[t];
    assert all[|metas|] == m;
    forall k | k in ks ensures after[k] == ColumnOf(all, k) {
      ColumnOfAppend(metas, [m], k);
    }
  }

  /** Two metadata rows with the same distinct keys and the same value under each key are equal. */
  lemma MetaExt(a: Meta, b: Meta)
    requires Keys(a) == Keys(b) && Distinct(Keys(a))
    requires forall i :: 0 <= i < |a| ==> Lookup(a, a[i].0) == Lookup(b, a[i].0)
    ensures a == b
  {
    DistinctKeysIff(a);
    DistinctKeysIff(b);
    forall i | 0 <= i < |a| ensures a[i] == b[i] {
      assert a[i].0 == Keys(a)[i] == b[i].0;
    }
  }

  lemma ConcatAssoc<T>(a: seq<T>, b: seq<T>, c: seq<T>)
    ensures (a + b) + c == a + (b + c)
  {
  }

  /**
   * When every item carries every key of a distinct schema whose columns
   * have one common length, `_add_meta_` succeeds and the column of each
   * schema key grows by the items' values of that key, in item order.
   */
  lemma {:induction false} AppendAllComplete(ks: seq<string>, cols: map<string, seq<MetaValue>>, metas: seq<Meta>, k: string, n: nat)
    requires HasColumns(ks, cols) && Distinct(ks) && k in ks && Uniform(ks, cols, n)
    requires forall t :: 0 <= t < |metas| ==> Complete(ks, metas[t])
    ensures forall t :: 0 <= t < |metas| ==> k in Keys(metas[t])
    ensures AppendAll(ks, cols, metas).1.None?
    ensures AppendAll(ks, cols, metas).0[k] == cols[k] + ColumnOf(metas, k)
    decreases |metas|
  {
    assert forall t :: 0 <= t < |metas| ==> k in Keys(metas[t]);
    if metas != [] {
      var m0 := metas[0];
      var rest := metas[1..];
      MetaArrayUniform(ks, cols, n);
      AppendRowComplete(ks, cols, m0, 0);
      assert ks[0..] == ks;
      var row := AppendRow(ks, cols, m0, 0);
      assert row.0[k] == cols[k] + [Lookup(m0, k).value];
      assert Uniform(ks, row.0, n + 1);
      assert forall t :: 0 <= t < |rest| ==> rest[t] == metas[t + 1];
      AppendAllComplete(ks, row.0, rest, k, n + 1);
      var v := Lookup(m0, k).value;
      var tail := ColumnOf(rest, k);
      assert ColumnOf(metas, k) == [v] + tail;
      calc {
        AppendAll(ks, cols, metas).0[k];
        AppendAll(ks, row.0, rest).0[k];
        row.0[k] + tail;
        (cols[k] + [v]) + tail;
        { ConcatAssoc(cols[k], [v], tail); }
        cols[k] + ([v] + tail);
      }
    }
  }

  /** A successful `_add_meta_` met no item without a schema key. */
  lemma {:induction false} AppendAllSucceeds(ks: seq<string>, cols: map<string, seq<MetaValue>>, metas: seq<Meta>)
    requires HasColumns(ks, cols)
    ensures AppendAll(ks, cols, metas).1.None? ==> forall t :: 0 <= t < |metas| ==> Complete(ks, metas[t])
  {
    if metas != [] && MetaArray(ks, cols).Ok? {
      var row := AppendRow(ks, cols, metas[0], 0);
      if row.1.None? {
        AppendAllSucceeds(ks, row.0, metas[1..]);
        assert forall t :: 1 <= t < |metas| ==> metas[1..][t - 1] == metas[t];
      }
    }
  }

  /** On columns of one common length under a distinct non-empty schema, every rebuild succeeds. */
  lemma {:induction false} AppendAllUniformErrors(ks: seq<string>, cols: map<string, seq<MetaValue>>, metas: seq<Meta>, n: nat)
    requires HasColumns(ks, cols) && Distinct(ks) && ks != [] && Uniform(ks, cols, n)
    ensures AppendAll(ks, cols, metas).1.Some? ==> AppendAll(ks, cols, metas).1.value.MissingKey?
    decreases |metas|
  {
    if metas != [] {
      MetaArrayUniform(ks, cols, n);
      if Complete(ks, metas[0]) {
        AppendRowComplete(ks, cols, metas[0], 0);
        assert ks[0..] == ks;
        var row := AppendRow(ks, cols, metas[0], 0);
        assert Uniform(ks, row.0, n + 1);
        AppendAllUniformErrors(ks, row.0, metas[1..], n + 1);
      }
    }
  }

  /**
   * On columns of one common length under a non-empty distinct schema,
   * `_add_meta_` fails exactly when some item lacks a schema key, and then
   * with that key.
   */
  lemma AppendAllMissing(ks: seq<string>, cols: map<string, seq<MetaValue>>, metas: seq<Meta>, n: nat)
    requires HasColumns(ks, cols) && Distinct(ks) && ks != [] && Uniform(ks, cols, n)
    ensures AppendAll(ks, cols, metas).1.None? <==> forall t :: 0 <= t < |metas| ==> Complete(ks, metas[t])
    ensures AppendAll(ks, cols, metas).1.Some? ==> AppendAll(ks, cols, metas).1.value.MissingKey?
  {
    AppendAllSucceeds(ks, cols, metas);
    AppendAllUniformErrors(ks, cols, metas, n);
    if forall t :: 0 <= t < |metas| ==> Complete(ks, metas[t]) {
      AppendAllComplete(ks, cols, metas, ks[0], n);
    }
  }

  /**
   * On columns of one common length n under a distinct schema: when the
   * schema is non-empty, `_add_meta_` succeeds exactly when every item is
   * complete; on success every column has grown by the items' values to
   * the common length n + |metas|.
   */
  lemma AppendAllUniform(ks: seq<string>, cols: map<string, seq<MetaValue>>, metas: seq<Meta>, n: nat)
    requires HasColumns(ks, cols) && Distinct(ks) && Uniform(ks, cols, n)
    ensures ks != [] ==> (AppendAll(ks, cols, metas).1.None? <==> forall t :: 0 <= t < |metas| ==> Complete(ks, metas[t]))
    ensures AppendAll(ks, cols, metas).1.None? ==> forall t :: 0 <= t < |metas| ==> Complete(ks, metas[t])
    ensures AppendAll(ks, cols, metas).1.None? ==>
      forall k :: k in ks ==> AppendAll(ks, cols, metas).0[k] == cols[k] + ColumnOf(metas, k)
    ensures AppendAll(ks, cols, metas).1.None? ==> Uniform(ks, AppendAll(ks, cols, metas).0, n + |metas|)
  {
    AppendAllSucceeds(ks, cols, metas);
    if ks != [] {
      AppendAllMissing(ks, cols, metas, n);
    }
    if AppendAll(ks, cols, metas).1.None? {
      forall k | k in ks
        ensures AppendAll(ks, cols, metas).0[k] == cols[k] + ColumnOf(metas, k)
      {
        AppendAllComplete(ks, cols, metas, k, n);
      }
    }
  }

  // ---------------------------------------------------------------------
  // `_add_meta_` as written: `np.append` flattens an array value
  // ---------------------------------------------------------------------

  /** The entries of a matrix, row by row, as `np.append` flattens them. */
  function FlattenRows(m: seq<seq<real>>): (r: seq<MetaValue>)
    ensures forall i :: 0 <= i < |r| ==> r[i].Real?
  {
    if m == [] then []
    else seq(|m[0]|, j requires 0 <= j < |m[0]| => Real(m[0][j])) + FlattenRows(m[1..])
  }

  /** What `np.append(column, v)` adds to a column: a matrix contributes all its entries. */
  function Flatten(v: MetaValue): seq<MetaValue> {
    if v.Matrix? then FlattenRows(v.m) else [v]
  }

  /** Flattening an n-by-n matrix yields n*n entries. */
  lemma {:induction false} FlattenSquare(m: seq<seq<real>>, n: nat)
    requires forall i :: 0 <= i < |m| ==> |m[i]| == n
    ensures |FlattenRows(m)| == |m| * n
  {
    if m != [] {
      FlattenSquare(m[1..], n);
    }
  }

  /** The per-key loop of `_add_meta_` as written, with `np.append` flattening each value. */
  function AppendRowAsWritten(ks: seq<string>, cols: map<string, seq<MetaValue>>, m: Meta, j: nat): (r: (map<string, seq<MetaValue>>, Option<string>))
    requires j <= |ks| && HasColumns(ks, cols)
    ensures HasColumns(ks, r.0) && r.0.Keys == cols.Keys
    ensures r.1.None? <==> forall i :: j <= i < |ks| ==> ks[i] in Keys(m)
    decreases |ks| - j
  {
    if j == |ks| then (cols, None)
    else
      var k := ks[j];
      match Lookup(m, k)
      case None => (cols, Some(k))
      case Some(v) => AppendRowAsWritten(ks, cols[k := cols[k] + Flatten(v)], m, j + 1)
  }

  /**
   * One `add` of a single lightcurve's metadata as written, on a collection
   * whose schema is fixed: rebuild the array, then append the flattened
   * values.
   */
  function AddOneAsWritten(ks: seq<string>, cols: map<string, seq<MetaValue>>, m: Meta): (r: Result<map<string, seq<MetaValue>>, CollectionError>)
    requires HasColumns(ks, cols)
    ensures r.Ok? ==> HasColumns(ks, r.value)
    ensures MetaArray(ks, cols).Err? ==> r == Err(MetaArray(ks, cols).error)
  {
    if MetaArray(ks, cols).Err? then Err(MetaArray(ks, cols).error)
    else
      var row := AppendRowAsWritten(ks, cols, m, 0);
      if row.1.Some? then Err(MissingKey(row.1.value)) else Ok(row.0)
  }

  /** As written, an `add` of (`ra`, `fluxcov`) metadata appends `ra` and the flattened `fluxcov`. */
  lemma AddOneTwoKeys(fc: MetaValue, c: map<string, seq<MetaValue>>)
    requires "ra" in c && "fluxcov" in c
    requires MetaArray(["ra", "fluxcov"], c).Ok?
    ensures AddOneAsWritten(["ra", "fluxcov"], c, [("ra", Real(1.0)), ("fluxcov", fc)])
      == Ok(c["ra" := c["ra"] + [Real(1.0)]]["fluxcov" := c["fluxcov"] + Flatten(fc)])
  {
    var ks := ["ra", "fluxcov"];
    var m: Meta := [("ra", Real(1.0)), ("fluxcov", fc)];
    assert Lookup(m, "ra") == Some(Real(1.0));
    assert Lookup(m, "fluxcov") == Some(fc);
    var c1 := c["ra" := c["ra"] + [Real(1.0)]];
    assert AppendRowAsWritten(ks, c, m, 0) == AppendRowAsWritten(ks, c1, m, 1);
    assert AppendRowAsWritten(ks, c1, m, 1) == AppendRowAsWritten(ks, c1["fluxcov" := c1["fluxcov"] + Flatten(fc)], m, 2);
  }

  /** The rebuild of an `ra` column of a rows beside a `fluxcov` column of f rows. */
  lemma MetaArrayTwoKeys(c: map<string, seq<MetaValue>>)
    requires "ra" in c && "fluxcov" in c
    ensures var a, f := |c["ra"]|, |c["fluxcov"]|;
      var n := if a >= f then a else f;
      MetaArray(["ra", "fluxcov"], c)
        == if !(a == 1 || a == n) then Err(RaggedColumn("ra"))
           else if !(f == 1 || f == n) then Err(RaggedColumn("fluxcov"))
           else Ok(n)
  {
    var ks := ["ra", "fluxcov"];
    assert ks[1..] == ["fluxcov"] && ks[1..][1..] == [];
  }

  /**
   * Three lightcurves whose metadata carry a 2-by-2 `fluxcov`, added one at
   * a time as `get_lightcurves` adds them. As written, the first add makes
   * the `fluxcov` column 4 long beside a `ra` column of 1; the second makes
   * them 8 and 2; the third rebuild of the array cannot broadcast `ra` and
   * raises. The intended one-entry-per-lightcurve append takes all three and
   * keeps both columns 3 long.
   */
  lemma FlattenedFluxcovWitness()
    ensures var ks := ["ra", "fluxcov"];
      var m: Meta := [("ra", Real(1.0)), ("fluxcov", Matrix([[1.0, 0.0], [0.0, 1.0]]))];
      var c0: map<string, seq<MetaValue>> := map["ra" := [], "fluxcov" := []];
      var a1 := AddOneAsWritten(ks, c0, m);
      && a1.Ok? && |a1.value["ra"]| == 1 && |a1.value["fluxcov"]| == 4
      && var a2 := AddOneAsWritten(ks, a1.value, m);
      && a2.Ok? && |a2.value["ra"]| == 2 && |a2.value["fluxcov"]| == 8
      && AddOneAsWritten(ks, a2.value, m) == Err(RaggedColumn("ra"))
      && var fixed := AppendAll(ks, c0, [m, m, m]);
      && fixed.1.None? && |fixed.0["ra"]| == 3 && |fixed.0["fluxcov"]| == 3
  {
    FlattenedFluxcovAsWritten();
    FlattenedFluxcovFixed();
  }

  lemma FlattenedFluxcovAsWritten()
    ensures var ks := ["ra", "fluxcov"];
      var m: Meta := [("ra", Real(1.0)), ("fluxcov", Matrix([[1.0, 0.0], [0.0, 1.0]]))];
      var c0: map<string, seq<MetaValue>> := map["ra" := [], "fluxcov" := []];
      var a1 := AddOneAsWritten(ks, c0, m);
      && a1.Ok? && |a1.value["ra"]| == 1 && |a1.value["fluxcov"]| == 4
      && var a2 := AddOneAsWritten(ks, a1.value, m);
      && a2.Ok? && |a2.value["ra"]| == 2 && |a2.value["fluxcov"]| == 8
      && AddOneAsWritten(ks, a2.value, m) == Err(RaggedColumn("ra"))
  {
    var ks := ["ra", "fluxcov"];
    var fc := Matrix([[1.0, 0.0], [0.0, 1.0]]);
    var m: Meta := [("ra", Real(1.0)), ("fluxcov", fc)];
    var c0: map<string, seq<MetaValue>> := map["ra" := [], "fluxcov" := []];
    FlattenSquare(fc.m, 2);
    MetaArrayTwoKeys(c0);
    AddOneTwoKeys(fc, c0);
    var c1 := c0["ra" := c0["ra"] + [Real(1.0)]]["fluxcov" := c0["fluxcov"] + Flatten(fc)];
    MetaArrayTwoKeys(c1);
    AddOneTwoKeys(fc, c1);
    var c2 := c1["ra" := c1["ra"] + [Real(1.0)]]["fluxcov" := c1["fluxcov"] + Flatten(fc)];
    MetaArrayTwoKeys(c2);
  }

  lemma FlattenedFluxcovFixed()
    ensures var ks := ["ra", "fluxcov"];
      var m: Meta := [("ra", Real(1.0)), ("fluxcov", Matrix([[1.0, 0.0], [0.0, 1.0]]))];
      var c0: map<string, seq<MetaValue>> := map["ra" := [], "fluxcov" := []];
      var fixed := AppendAll(ks, c0, [m, m, m]);
      fixed.1.None? && |fixed.0["ra"]| == 3 && |fixed.0["fluxcov"]| == 3
  {
    var ks := ["ra", "fluxcov"];
    var m: Meta := [("ra", Real(1.0)), ("fluxcov", Matrix([[1.0, 0.0], [0.0, 1.0]]))];
    var c0: map<string, seq<MetaValue>> := map["ra" := [], "fluxcov" := []];
    assert Lookup(m, "ra").Some? && Lookup(m, "fluxcov").Some?;
    assert Distinct(ks) && Complete(ks, m);
    AppendAllComplete(ks, c0, [m, m, m], "ra", 0);
    AppendAllComplete(ks, c0, [m, m, m], "fluxcov", 0);
  }

  /** The start or stop of a Python slice of a length-n sequence, adjusted as Python adjusts it. */
  function Adjust(b: int, n: nat, step: int): (r: int)
    requires step != 0
    ensures step > 0 ==> 0 <= r <= n
    ensures step < 0 ==> -1 <= r < n
    ensures 0 <= b < n ==> r == b
    ensures b < 0 <= b + n ==> r == b + n
  {
    if b < 0 then (if b + n < 0 then (if step < 0 then -1 else 0) else b + n)
    else if b >= n then (if step < 0 then n - 1 else n)
    else b
  }

  /**
   * The positions `i, i + step, ...` strictly before `stop` in the
   * direction of `step`; they all lie in [0, n).
   */
  function Walk(i: int, stop: int, step: int, n: nat): (r: seq<nat>)
    requires step != 0
    requires step > 0 ==> 0 <= i && stop <= n
    requires step < 0 ==> i < n && -1 <= stop
    ensures forall t :: 0 <= t < |r| ==> r[t] < n
    ensures r == [] <==> (if step > 0 then stop <= i else i <= stop)
    ensures r != [] ==> r[0] == i
    ensures forall t :: 0 < t < |r| ==> r[t] == r[t - 1] + step
    ensures r != [] && step > 0 ==> r[|r| - 1] < stop <= r[|r| - 1] + step
    ensures r != [] && step < 0 ==> r[|r| - 1] + step <= stop < r[|r| - 1]
    decreases if step > 0 then stop - i else i - stop
  {
    if (step > 0 && i < stop) || (step < 0 && stop < i) then
      var rest := Walk(i + step, stop, step, n);
      assert rest != [] ==> rest[0] == i + step;
      [i] + rest
    else []
  }

  /** The positions `seq[start:stop:step]` selects, with Python's defaults for omitted bounds. */
  function SliceIndices(start: Option<int>, stop: Option<int>, step: int, n: nat): (r: seq<nat>)
    requires step != 0
    ensures forall t :: 0 <= t < |r| ==> r[t] < n
    ensures forall t :: 0 < t < |r| ==> r[t] == r[t - 1] + step
  {
    var lo := if start.None? then (if step < 0 then n - 1 else 0) else Adjust(start.value, n, step);
    var hi := if stop.None? then (if step < 0 then -1 else n) else Adjust(stop.value, n, step);
    Walk(lo, hi, step, n)
  }

  lemma {:induction false} Stepwise(r: seq<nat>, d: int, t: nat)
    requires t < |r| && forall s :: 0 < s < |r| ==> r[s] == r[s - 1] + d
    ensures r[t] == r[0] + t * d
  {
    if t > 0 {
      Stepwise(r, d, t - 1);
    }
  }

  /** With step 1, a slice is the contiguous range from the adjusted start up to the adjusted stop. */
  lemma SliceForward(start: Option<int>, stop: Option<int>, n: nat)
    ensures var lo := if start.None? then 0 else Adjust(start.value, n, 1);
      var hi := if stop.None? then n else Adjust(stop.value, n, 1);
      var r := SliceIndices(start, stop, 1, n);
      |r| == (if lo < hi then hi - lo else 0) && forall t :: 0 <= t < |r| ==> r[t] == lo + t
  {
    var r := SliceIndices(start, stop, 1, n);
    forall t | 0 <= t < |r| ensures r[t] == r[0] + t {
      Stepwise(r, 1, t);
    }
    if r != [] {
      Stepwise(r, 1, |r| - 1);
    }
  }

  /** `seq[::-1]` lists every position from the last to the first. */
  lemma SliceReversed(n: nat)
    ensures var r := SliceIndices(None, None, -1, n);
      |r| == n && forall t :: 0 <= t < n ==> r[t] == n - 1 - t
  {
    var r := SliceIndices(None, None, -1, n);
    forall t | 0 <= t < |r| ensures r[t] == r[0] - t {
      Stepwise(r, -1, t);
    }
    if r != [] {
      Stepwise(r, -1, |r| - 1);
    }
  }

  class LightcurveCollection<B> {
    /** The bodies, in the order added (`lcs`). */
    var lcs: seq<B>
    /** The metadata keys fixed by the first item, or None before any metadata (`meta is None`). */
    var schema: Option<seq<string>>
    /** One column of values per schema key. */
    var columns: map<string, seq<MetaValue>>

    /** Holds in every reachable state, also after a failed add. */
    ghost predicate WellFormed()
      reads this
    {
      match schema
      case None => columns == map[]
      case Some(ks) => Distinct(ks) && HasColumns(ks, columns)
    }

    /** Bodies and metadata rows in lockstep: every column is as long as the body list. */
    ghost predicate Valid()
      reads this
    {
      && WellFormed()
      && (schema.None? ==> lcs == [])
      && (schema.Some? ==> Uniform(schema.value, columns, |lcs|))
    }

    /** `LightcurveCollection(empty=True)`. */
    constructor ()
      ensures Valid() && lcs == [] && schema == None
    {
      lcs := [];
      schema := None;
      columns := map[];
    }

    /** `_add_lcs_`: append the bodies. */
    method AddLcs(items: seq<Lightcurve<B>>)
      modifies this`lcs
      ensures lcs == old(lcs) + Bodies(items)
    {
      var t := 0;
      while t < |items|
        invariant 0 <= t <= |items|
        invariant lcs == old(lcs) + Bodies(items)[..t]
      {
        lcs := lcs + [items[t].body];
        t := t + 1;
        assert Bodies(items)[..t] == Bodies(items)[..t - 1] + [items[t - 1].body];
      }
      assert Bodies(items)[..t] == Bodies(items);
    }

    /** `_create_meta_`: one empty column per key of the first item. */
    method CreateMeta(ks: seq<string>)
      requires Distinct(ks)
      modifies this`schema, this`columns
      ensures schema == Some(ks) && columns == map k | k in ks :: []
      ensures WellFormed()
    {
      schema := Some(ks);
      columns := map k | k in ks :: [];
    }

    /** The key loop of `_add_meta_` for one item: `columns[k] = np.append(columns[k], meta_[k])`. */
    method AppendOne(ks: seq<string>, m: Meta) returns (missing: Option<string>)
      requires schema == Some(ks) && WellFormed()
      modifies this`columns
      ensures WellFormed()
      ensures (columns, missing) == AppendRow(ks, old(columns), m, 0)
    {
      var j := 0;
      while j < |ks|
        invariant 0 <= j <= |ks|
        invariant WellFormed()
        invariant AppendRow(ks, columns, m, j) == AppendRow(ks, old(columns), m, 0)
      {
        var k := ks[j];
        var v := Lookup(m, k);
        if v.None? {
          return Some(k);
        }
        columns := columns[k := columns[k] + [v.value]];
        j := j + 1;
      }
      return None;
    }

    /**
     * `_add_meta_`: the first call fixes the schema from its first item;
     * then every item appends one value per schema key (Collection.AppendAll).
     * A schema that already exists is read once even for an empty list.
     */
    method AddMeta(metas: seq<Meta>) returns (err: Option<CollectionError>)
      requires WellFormed()
      requires schema.None? && metas != [] ==> DistinctKeys(metas[0])
      modifies this`schema, this`columns
      ensures WellFormed()
      ensures old(schema).None? && metas == [] ==>
        err == Some(EmptyFirstBatch) && schema == None && columns == old(columns)
      ensures old(schema).Some? && metas == [] ==>
        schema == old(schema) && columns == old(columns)
        && err == (if MetaArray(schema.value, columns).Err? then Some(MetaArray(schema.value, columns).error) else None)
      ensures old(schema).None? && metas != [] ==> schema == Some(Keys(metas[0]))
      ensures old(schema).Some? ==> schema == old(schema)
      ensures metas != [] ==>
        var cols0 := if old(schema).None? then map k | k in Keys(metas[0]) :: [] else old(columns);
        (columns, err) == AppendAll(schema.value, cols0, metas)
    {
      if schema.None? {
        if metas == [] {
          return Some(EmptyFirstBatch);
        }
        DistinctKeysIff(metas[0]);
        CreateMeta(Keys(metas[0]));
      } else if metas == [] {
        var a := MetaArray(schema.value, columns);
        return if a.Err? then Some(a.error) else None;
      }
      err := AppendItems(schema.value, metas);
    }

    /** The item loop of `_add_meta_`: rebuild the array, then append the item. */
    method AppendItems(ks: seq<string>, metas: seq<Meta>) returns (err: Option<CollectionError>)
      requires schema == Some(ks) && WellFormed()
      modifies this`columns
      ensures WellFormed()
      ensures (columns, err) == AppendAll(ks, old(columns), metas)
    {
      var t := 0;
      while t < |metas|
        invariant 0 <= t <= |metas|
        invariant WellFormed()
        invariant AppendAll(ks, columns, metas[t..]) == AppendAll(ks, old(columns), metas)
      {
        assert metas[t..][0] == metas[t] && metas[t..][1..] == metas[t + 1..];
        var a := MetaArray(ks, columns);
        if a.Err? {
          return Some(a.error);
        }
        var missing := AppendOne(ks, metas[t]);
        if missing.Some? {
          return Some(MissingKey(missing.value));
        }
        t := t + 1;
      }
      err := None;
    }

    /**
     * `add`: append the bodies, then the metadata. The bodies are appended
     * first, so a failing metadata add leaves more bodies than rows.
     */
    method Add(batch: Batch<B>) returns (err: Option<CollectionError>)
      requires WellFormed()
      requires schema.None? && batch.Items() != [] ==> DistinctKeys(batch.Items()[0].meta)
      modifies this
      ensures WellFormed()
      ensures lcs == old(lcs) + Bodies(batch.Items())
      ensures old(schema).None? && batch.Items() != [] ==> schema == Some(Keys(batch.Items()[0].meta))
      ensures old(schema).Some? ==> schema == old(schema)
      ensures old(schema).None? && batch.Items() == [] ==> err == Some(EmptyFirstBatch) && schema.None?
      ensures old(schema).Some? && batch.Items() == [] ==>
        columns == old(columns)
        && err == (if MetaArray(schema.value, columns).Err? then Some(MetaArray(schema.value, columns).error) else None)
      ensures batch.Items() != [] ==>
        var cols0 := if old(schema).None? then map k | k in schema.value :: [] else old(columns);
        (columns, err) == AppendAll(schema.value, cols0, Metas(batch.Items()))
      ensures err.None? ==> schema.Some? && forall t :: 0 <= t < |batch.Items()| ==> Complete(schema.value, batch.Items()[t].meta)
      ensures err.None? && batch.Items() != [] ==> schema.value != []
      ensures old(Valid()) && schema.Some? && schema.value != [] ==>
        (err.None? <==> forall t :: 0 <= t < |batch.Items()| ==> Complete(schema.value, batch.Items()[t].meta))
      ensures old(Valid()) && err.None? ==> Valid()
      ensures old(Valid()) && err.None? ==>
        var cols0 := if old(schema).None? then map k | k in schema.value :: [] else old(columns);
        forall k :: k in schema.value ==> columns[k] == cols0[k] + ColumnOf(Metas(batch.Items()), k)
    {
      var items := batch.Items();
      AddLcs(items);
      err := AddMeta(Metas(items));
      if schema.Some? {
        var ks := schema.value;
        var cols0 := if old(schema).None? then map k | k in ks :: [] else old(columns);
        AppendAllSucceeds(ks, cols0, Metas(items));
        if old(Valid()) {
          var n := |old(lcs)|;
          assert Uniform(ks, cols0, n);
          if items == [] {
            if ks != [] {
              MetaArrayUniform(ks, cols0, n);
            }
          } else {
            AppendAllUniform(ks, cols0, Metas(items), n);
          }
        }
      }
    }

    /** The metadata row at position i, in schema order. */
    function MetaRow(i: nat): (m: Meta)
      reads this
      requires Valid() && i < |lcs|
      ensures schema.Some? && Keys(m) == schema.value
    {
      var ks := schema.value;
      var cols := columns;
      seq(|ks|, j requires 0 <= j < |ks| => (ks[j], cols[ks[j]][i]))
    }

    /**
     * `__getitem__(i)`: row i of the rebuilt metadata array, which has a row
     * per body, with body i.
     */
    function Get(i: int): (r: Result<Lightcurve<B>, CollectionError>)
      reads this
      requires Valid()
      ensures schema.None? ==> r == Err(NoMeta)
      ensures schema == Some([]) ==> r == Err(EmptyMeta)
      ensures r.Ok? <==> schema.Some? && schema.value != [] && -|lcs| <= i < |lcs|
      ensures r.Ok? ==> var k := if i < 0 then i + |lcs| else i;
        r.value.body == lcs[k] && Keys(r.value.meta) == schema.value
        && forall j :: 0 <= j < |schema.value| ==> Lookup(r.value.meta, schema.value[j]) == Some(columns[schema.value[j]][k])
    {
      if schema.None? then Err(NoMeta)
      else if MetaArray(schema.value, columns).Err? then Err(MetaArray(schema.value, columns).error)
      else
        MetaArrayUniform(schema.value, columns, |lcs|);
        var rows := MetaArray(schema.value, columns).value;
        if 0 <= i + rows && i < rows then
          var k := if i < 0 then i + rows else i;
          var row := MetaRow(k);
          assert DistinctKeys(row) by {
            assert Keys(row) == schema.value;
          }
          Ok(Lightcurve(lcs[k], row))
        else Err(IndexOutOfRange)
    }

    /**
     * `__getitem__(slice(start, stop, step))`: the lightcurves at the
     * positions the slice selects, in that order. The bodies are sliced
     * first, so a zero step raises before the metadata is rebuilt.
     */
    function GetSlice(start: Option<int>, stop: Option<int>, step: Option<int>): (r: Result<seq<Lightcurve<B>>, CollectionError>)
      reads this
      requires Valid()
      ensures schema.None? ==> r == Err(NoMeta)
      ensures schema.Some? && step == Some(0) ==> r == Err(ZeroStep)
      ensures schema == Some([]) && step != Some(0) ==> r == Err(EmptyMeta)
      ensures r.Ok? <==> schema.Some? && schema.value != [] && step != Some(0)
      ensures r.Ok? ==> var idx := SliceIndices(start, stop, if step.None? then 1 else step.value, |lcs|);
        |r.value| == |idx| && forall t :: 0 <= t < |idx| ==> Get(idx[t]) == Ok(r.value[t])
    {
      if schema.None? then Err(NoMeta)
      else if step == Some(0) then Err(ZeroStep)
      else if MetaArray(schema.value, columns).Err? then Err(MetaArray(schema.value, columns).error)
      else
        MetaArrayUniform(schema.value, columns, |lcs|);
        var idx := SliceIndices(start, stop, if step.None? then 1 else step.value, |lcs|);
        AtGet(idx);
        Ok(At(idx))
    }

    /** The lightcurves at the given positions, in that order: body i with metadata row i. */
    function At(idx: seq<nat>): (r: seq<Lightcurve<B>>)
      reads this
      requires Valid()
      requires forall t :: 0 <= t < |idx| ==> idx[t] < |lcs|
      ensures |r| == |idx| && forall t :: 0 <= t < |idx| ==> r[t] == Lightcurve(lcs[idx[t]], MetaRow(idx[t]))
    {
      if idx == [] then [] else [Lightcurve(lcs[idx[0]], MetaRow(idx[0]))] + At(idx[1..])
    }

    /** Under a non-empty schema, `lcs[i]` for a position i is body i with metadata row i. */
    lemma GetRow(i: nat)
      requires Valid() && schema.Some? && schema.value != [] && i < |lcs|
      ensures Get(i) == Ok(Lightcurve(lcs[i], MetaRow(i)))
    {
      MetaArrayUniform(schema.value, columns, |lcs|);
    }

    /** Each lightcurve `At` lists is the one `lcs[i]` gives at its position. */
    lemma AtGet(idx: seq<nat>)
      requires Valid() && schema.Some? && schema.value != []
      requires forall t :: 0 <= t < |idx| ==> idx[t] < |lcs|
      ensures forall t :: 0 <= t < |idx| ==> Get(idx[t]) == Ok(At(idx)[t])
    {
      forall t | 0 <= t < |idx|
        ensures Get(idx[t]) == Ok(At(idx)[t])
      {
        GetRow(idx[t]);
      }
    }

    /** `save`: the state that is pickled. */
    function Save(): (seq<B>, Option<seq<string>>, map<string, seq<MetaValue>>)
      reads this
    {
      (lcs, schema, columns)
    }

    /** `load`: replace the state with a saved one. */
    method Load(saved: (seq<B>, Option<seq<string>>, map<string, seq<MetaValue>>))
      modifies this
      ensures Save() == saved
    {
      lcs, schema, columns := saved.0, saved.1, saved.2;
    }
  }

  /** Row j of a collection whose columns store `metas` is body j with item j's values of the schema keys. */
  lemma ReadBack<B>(c: LightcurveCollection<B>, metas: seq<Meta>, j: nat)
    requires c.Valid() && c.schema.Some? && c.schema.value != [] && j < |c.lcs|
    requires Stores(c.schema.value, c.columns, metas)
    ensures j < |metas|
    ensures c.Get(j) == Ok(Lightcurve(c.lcs[j], Project(c.schema.value, metas[j])))
  {
    var ks := c.schema.value;
    assert |c.columns[ks[0]]| == |metas|;
    var r := c.Get(j);
    var p := Project(ks, metas[j]);
    forall i | 0 <= i < |r.value.meta|
      ensures Lookup(r.value.meta, r.value.meta[i].0) == Lookup(p, r.value.meta[i].0)
    {
      var k := ks[i];
      assert r.value.meta[i].0 == Keys(r.value.meta)[i] == k;
      assert Lookup(r.value.meta, k) == Some(c.columns[k][j]);
      assert Lookup(metas[j], k) == Some(ColumnOf(metas, k)[j]);
      ProjectLookup(ks, metas[j], k);
    }
    MetaExt(r.value.meta, p);
  }

  /** Loading what was saved reproduces every lightcurve at every index. */
  method SaveLoadRoundTrip<B>(source: LightcurveCollection<B>, target: LightcurveCollection<B>)
    requires source.Valid() && source != target
    modifies target
    ensures target.Valid() && unchanged(source)
    ensures forall i :: target.Get(i) == source.Get(i)
  {
    target.Load(source.Save());
    assert target.lcs == source.lcs && target.schema == source.schema && target.columns == source.columns;
    forall i
      ensures target.Get(i) == source.Get(i)
    {
      SameState(target, source, i);
    }
  }

  /** Two collections in the same state read the same at every index. */
  lemma SameState<B>(a: LightcurveCollection<B>, b: LightcurveCollection<B>, i: int)
    requires a.Valid() && a.lcs == b.lcs && a.schema == b.schema && a.columns == b.columns
    ensures b.Valid() && a.Get(i) == b.Get(i)
  {
  }
}
