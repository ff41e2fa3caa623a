/**
 * The survey plan: an append-only table of telescope pointings, the query
 * that returns the epochs a transient is seen at, and the matching of
 * transients against custom pointings (pointings without a field id).
 */
module Plan {
  import opened Wrappers

  /** A sky position (right ascension, declination) in degrees. */
  datatype Sky = Sky(ra: real, dec: real)

  /** One row of the pointing table. `field == None` is the NaN sentinel of a custom pointing. */
  datatype Pointing = Pointing(time: real, band: string, skynoise: real, pos: Sky, field: Option<int>)

  /** One row of the table that `observed_on` returns. */
  datatype Epoch = Epoch(time: real, band: string, skynoise: real)

  /**
   * The survey's field catalog: the centre of every field id, and the batch
   * point-in-field lookup (`coord2field`), which gives the ids of the fields
   * containing a position.
   */
  datatype FieldCatalog = FieldCatalog(centre: map<int, Sky>, locate: Sky -> seq<int>)

  /** The exceptions the plan raises. */
  datatype PlanError =
    | NoPosition              // neither ra/dec nor field ids were given
    | NoFieldCatalog          // only field ids were given and no catalog is set
    | UnknownField(id: int)   // a field id the catalog does not know
    | MissingCoordinate       // exactly one of ra and dec was given
    | ColumnLengths           // the new columns do not all have one length
    | NoSelection             // observed_on got neither fields nor custom pointings
    | CustomIndexOutOfRange   // a custom-pointing index outside the sentinel rows
    | UnboundSingleCoord      // get_non_field_obs on positions given as a list, as written

  function EpochOf(p: Pointing): Epoch {
    Epoch(p.time, p.band, p.skynoise)
  }

  // ---------------------------------------------------------------------
  // add_observation: the rows to append
  // ---------------------------------------------------------------------

  /** The first id of `ids` that the catalog does not know, if any. */
  function FirstUnknown(centre: map<int, Sky>, ids: seq<int>): (r: Option<int>)
    ensures r.None? <==> forall i :: 0 <= i < |ids| ==> ids[i] in centre
    ensures r.Some? ==> r.value in ids && r.value !in centre
  {
    if ids == [] then None
    else if ids[0] !in centre then Some(ids[0])
    else FirstUnknown(centre, ids[1..])
  }

  /**
   * The rows `add_observation` appends, or the error it raises. Field ids
   * alone take their position from the catalog; ra/dec alone get the NaN
   * field sentinel; both given are stored as given.
   */
  function NewRows(catalog: Option<FieldCatalog>, time: seq<real>, band: seq<string>, skynoise: seq<real>,
                   ra: Option<seq<real>>, dec: Option<seq<real>>, field: Option<seq<int>>): (r: Result<seq<Pointing>, PlanError>)
    ensures ra.None? && dec.None? && field.None? ==> r == Err(NoPosition)
    ensures ra.None? && dec.None? && field.Some? && catalog.None? ==> r == Err(NoFieldCatalog)
    ensures ra.None? != dec.None? ==> r == Err(MissingCoordinate)
    ensures r.Ok? ==> |r.value| == |time| == |band| == |skynoise|
    ensures r.Ok? && field.None? ==> ra.Some? && dec.Some?
    ensures r.Ok? && ra.Some? ==> dec.Some? && |ra.value| == |dec.value| == |time|
    ensures r.Ok? && field.Some? ==> |field.value| == |time|
    ensures r.Ok? && ra.None? ==> field.Some? && catalog.Some?
    ensures r.Ok? ==> forall i :: 0 <= i < |r.value| ==>
      r.value[i].time == time[i] && r.value[i].band == band[i] && r.value[i].skynoise == skynoise[i]
    ensures r.Ok? && field.None? ==> forall i :: 0 <= i < |r.value| ==>
      r.value[i].field.None? && r.value[i].pos == Sky(ra.value[i], dec.value[i])
    ensures r.Ok? && field.Some? ==> forall i :: 0 <= i < |r.value| ==> r.value[i].field == Some(field.value[i])
    ensures r.Ok? && ra.None? ==> forall i :: 0 <= i < |r.value| ==>
      field.value[i] in catalog.value.centre && r.value[i].pos == catalog.value.centre[field.value[i]]
    ensures r.Ok? && ra.Some? ==> forall i :: 0 <= i < |r.value| ==> r.value[i].pos == Sky(ra.value[i], dec.value[i])
    ensures ra.Some? && dec.Some? && field.None? ==>
      (r.Ok? <==> |time| == |band| == |skynoise| == |ra.value| == |dec.value|)
    ensures ra.Some? && dec.Some? && field.Some? ==>
      (r.Ok? <==> |time| == |band| == |skynoise| == |ra.value| == |dec.value| == |field.value|)
    ensures ra.None? && dec.None? && field.Some? && catalog.Some? ==>
      (r.Ok? <==> (forall i :: 0 <= i < |field.value| ==> field.value[i] in catalog.value.centre)
                  && |time| == |band| == |skynoise| == |field.value|)
    ensures ra.None? && dec.None? && field.Some? && catalog.Some? && FirstUnknown(catalog.value.centre, field.value).Some? ==>
      r == Err(UnknownField(FirstUnknown(catalog.value.centre, field.value).value))
  {
    if ra.None? && dec.None? then
      if field.None? then Err(NoPosition)
      else if catalog.None? then Err(NoFieldCatalog)
      else
        var ids := field.value;
        var centre := catalog.value.centre;
        match FirstUnknown(centre, ids)
        case Some(id) => Err(UnknownField(id))
        case None =>
          if !(|time| == |band| == |skynoise| == |ids|) then Err(ColumnLengths)
          else Ok(seq(|time|, i requires 0 <= i < |time| =>
                      Pointing(time[i], band[i], skynoise[i], centre[ids[i]], Some(ids[i]))))
    else if ra.None? || dec.None? then Err(MissingCoordinate)
    else
      var n := |time|;
      if !(|band| == n && |skynoise| == n && |ra.value| == n && |dec.value| == n) then Err(ColumnLengths)
      else if field.Some? && |field.value| != n then Err(ColumnLengths)
      else Ok(seq(n, i requires 0 <= i < n =>
                  Pointing(time[i], band[i], skynoise[i], Sky(ra.value[i], dec.value[i]),
                           if field.Some? then Some(field.value[i]) else None)))
  }

  // ---------------------------------------------------------------------
  // The sentinel (custom-pointing) rows
  // ---------------------------------------------------------------------

  /** The rows whose field is the NaN sentinel, in table order (`cadence[isnan(field)]`). */
  function Sentinels(cadence: seq<Pointing>): (r: seq<Pointing>)
    ensures |r| <= |cadence|
    ensures forall i :: 0 <= i < |r| ==> r[i].field.None? && r[i] in cadence
  {
    if cadence == [] then []
    else Sentinels(cadence[..|cadence| - 1]) + (if cadence[|cadence| - 1].field.None? then [cadence[|cadence| - 1]] else [])
  }

  /** Appending rows never moves a sentinel row: the old sentinels stay a prefix. */
  lemma {:induction false} SentinelsAppend(c: seq<Pointing>, d: seq<Pointing>)
    ensures Sentinels(c + d) == Sentinels(c) + Sentinels(d)
    decreases |d|
  {
    if d == [] {
      assert c + d == c;
    } else {
      var d' := d[..|d| - 1];
      assert (c + d)[..|c + d| - 1] == c + d';
      SentinelsAppend(c, d');
    }
  }

  /** There is no sentinel row exactly when every row has a field id. */
  lemma {:induction false} SentinelsEmpty(c: seq<Pointing>)
    ensures Sentinels(c) == [] <==> forall i :: 0 <= i < |c| ==> c[i].field.Some?
  {
    if c != [] {
      var c' := c[..|c| - 1];
      SentinelsEmpty(c');
      assert forall i :: 0 <= i < |c'| ==> c'[i] == c[i];
    }
  }

  // ---------------------------------------------------------------------
  // observed_on
  // ---------------------------------------------------------------------

  predicate SortedByTime(s: seq<Epoch>) {
    forall i, j :: 0 <= i < j < |s| ==> s[i].time <= s[j].time
  }

  /** Insert `e` into a time-sorted sequence. */
  function Insert(e: Epoch, s: seq<Epoch>): (r: seq<Epoch>)
    requires SortedByTime(s)
    ensures SortedByTime(r)
    ensures multiset(r) == multiset(s) + multiset{e}
    ensures forall x :: x in r ==> x == e || x in s
  {
    if s == [] then [e]
    else if e.time <= s[0].time then [e] + s
    else
      var rest := Insert(e, s[1..]);
      InsertBehind(e, s, rest);
      [s[0]] + rest
  }

  /** Keeping the head of s in front of the insertion into its tail gives the insertion into s. */
  lemma InsertBehind(e: Epoch, s: seq<Epoch>, rest: seq<Epoch>)
    requires SortedByTime(s) && s != [] && s[0].time < e.time
    requires SortedByTime(rest) && multiset(rest) == multiset(s[1..]) + multiset{e}
    requires forall x :: x in rest ==> x == e || x in s[1..]
    ensures SortedByTime([s[0]] + rest)
    ensures multiset([s[0]] + rest) == multiset(s) + multiset{e}
    ensures forall x :: x in [s[0]] + rest ==> x == e || x in s
  {
    assert forall i :: 0 <= i < |s| - 1 ==> s[1..][i] == s[i + 1];
    assert forall x :: x in s[1..] ==> s[0].time <= x.time;
    assert s == [s[0]] + s[1..];
    SortedCons(s[0], rest);
  }

  /** A time-sorted sequence stays sorted with an element in front that is no later than any of it. */
  lemma SortedCons(h: Epoch, t: seq<Epoch>)
    requires SortedByTime(t) && forall x :: x in t ==> h.time <= x.time
    ensures SortedByTime([h] + t)
  {
    var s := [h] + t;
    forall i, j | 0 <= i < j < |s| ensures s[i].time <= s[j].time {
      assert s[j] == t[j - 1];
      if i > 0 {
        assert s[i] == t[i - 1];
      } else {
        assert t[j - 1] in t;
      }
    }
  }

  /**
   * Sort by time (the `np.argsort` of `observed_on`). This sort keeps ties in
   * input order; the source's default argsort need not, so the properties
   * below state only sortedness and the multiset of rows.
   */
  function SortByTime(s: seq<Epoch>): (r: seq<Epoch>)
    ensures SortedByTime(r)
    ensures multiset(r) == multiset(s)
  {
    if s == [] then []
    else
      assert s == [s[0]] + s[1..];
      Insert(s[0], SortByTime(s[1..]))
  }

  /** Whether a time lies in the optional inclusive window `[t0, t1]`. */
  predicate InRange(window: Option<(real, real)>, t: real) {
    window.None? || (window.value.0 <= t && t <= window.value.1)
  }

  /** The rows of `s` inside the window, in order. */
  function Restrict(s: seq<Epoch>, window: Option<(real, real)>): (r: seq<Epoch>)
    ensures forall i :: 0 <= i < |r| ==> InRange(window, r[i].time)
    ensures forall x :: x in r ==> x in s
  {
    if s == [] then []
    else
      var rest := Restrict(s[1..], window);
      if InRange(window, s[0].time) then [s[0]] + rest else rest
  }

  /** Restrict keeps every in-window row as often as it occurs and drops every other one. */
  lemma {:induction false} RestrictCount(s: seq<Epoch>, window: Option<(real, real)>)
    ensures forall e :: multiset(Restrict(s, window))[e] == if InRange(window, e.time) then multiset(s)[e] else 0
  {
    if s != [] {
      RestrictCount(s[1..], window);
      assert s == [s[0]] + s[1..];
      assert multiset(s) == multiset{s[0]} + multiset(s[1..]);
      if InRange(window, s[0].time) {
        assert Restrict(s, window) == [s[0]] + Restrict(s[1..], window);
        assert multiset(Restrict(s, window)) == multiset{s[0]} + multiset(Restrict(s[1..], window));
      }
    }
  }

  /** Restricting a sorted sequence leaves it sorted. */
  lemma {:induction false} RestrictSorted(s: seq<Epoch>, window: Option<(real, real)>)
    requires SortedByTime(s)
    ensures SortedByTime(Restrict(s, window))
  {
    if s != [] {
      var rest := Restrict(s[1..], window);
      assert SortedByTime(s[1..]);
      RestrictSorted(s[1..], window);
      if InRange(window, s[0].time) {
        assert forall x :: x in rest ==> x in s[1..];
        assert forall x :: x in rest ==> s[0].time <= x.time;
        var r := [s[0]] + rest;
        assert forall j :: 1 <= j < |r| ==> r[j] in rest;
      }
    }
  }

  /** `e` is the row of some pointing of field `l`. */
  predicate RowOf(cadence: seq<Pointing>, l: int, e: Epoch) {
    exists i :: 0 <= i < |cadence| && cadence[i].field == Some(l) && EpochOf(cadence[i]) == e
  }

  /** The rows of one field id, in table order (`cadence[cadence['field'] == l]`). */
  function FieldRows(cadence: seq<Pointing>, l: int): (r: seq<Epoch>)
    ensures forall e :: e in r <==> RowOf(cadence, l, e)
  {
    if cadence == [] then []
    else
      var rest := FieldRows(cadence[1..], l);
      assert forall i :: 1 <= i < |cadence| ==> cadence[1..][i - 1] == cadence[i];
      (if cadence[0].field == Some(l) then [EpochOf(cadence[0])] else []) + rest
  }

  /** The rows of every id in `fields`, once per occurrence of the id. */
  function ByFields(cadence: seq<Pointing>, fields: seq<int>): seq<Epoch> {
    if fields == [] then [] else FieldRows(cadence, fields[0]) + ByFields(cadence, fields[1..])
  }

  /** A NumPy integer index into a sequence of length m: negative ones count from the end. */
  predicate ValidIndex(i: int, m: int) {
    -m <= i < m
  }

  function Normalise(i: int, m: int): (k: nat)
    requires ValidIndex(i, m)
    ensures k < m
  {
    if i < 0 then i + m else i
  }

  predicate AllValid(idx: seq<int>, m: int) {
    forall j :: 0 <= j < |idx| ==> ValidIndex(idx[j], m)
  }

  /** The sentinel rows at the given positions (`cadence[mask][non_field]`). */
  function ByIndex(sentinels: seq<Pointing>, idx: seq<int>): (r: seq<Epoch>)
    requires AllValid(idx, |sentinels|)
    ensures |r| == |idx|
    ensures forall j :: 0 <= j < |idx| ==> r[j] == EpochOf(sentinels[Normalise(idx[j], |sentinels|)])
  {
    seq(|idx|, j requires 0 <= j < |idx| => EpochOf(sentinels[Normalise(idx[j], |sentinels|)]))
  }

  /** The rows `observed_on` gathers before it sorts and filters. */
  function Collected(cadence: seq<Pointing>, fields: Option<seq<int>>, nonField: Option<seq<int>>): seq<Epoch>
    requires nonField.Some? ==> AllValid(nonField.value, |Sentinels(cadence)|)
  {
    (if fields.Some? then ByFields(cadence, fields.value) else [])
    + (if nonField.Some? then ByIndex(Sentinels(cadence), nonField.value) else [])
  }

  /**
   * `observed_on`: the rows of the requested fields and custom pointings,
   * sorted by time and restricted to the inclusive window.
   */
  function ObservedOn(cadence: seq<Pointing>, fields: Option<seq<int>>, nonField: Option<seq<int>>,
                      window: Option<(real, real)>): (r: Result<seq<Epoch>, PlanError>)
    ensures fields.None? && nonField.None? ==> r == Err(NoSelection)
    ensures r.Err? <==> (fields.None? && nonField.None?)
                        || (nonField.Some? && !AllValid(nonField.value, |Sentinels(cadence)|))
    ensures r.Ok? ==> SortedByTime(r.value)
    ensures r.Ok? ==> forall i :: 0 <= i < |r.value| ==> InRange(window, r.value[i].time)
    ensures r.Ok? ==> forall e :: multiset(r.value)[e] == (if InRange(window, e.time) then multiset(Collected(cadence, fields, nonField))[e] else 0)
  {
    if fields.None? && nonField.None? then Err(NoSelection)
    else if nonField.Some? && !AllValid(nonField.value, |Sentinels(cadence)|) then Err(CustomIndexOutOfRange)
    else
      var all := Collected(cadence, fields, nonField);
      var sorted := SortByTime(all);
      RestrictCount(sorted, window);
      RestrictSorted(sorted, window);
      Ok(Restrict(sorted, window))
  }

  /** Every row `observed_on` returns is the row of one of the plan's pointings. */
  lemma ObservedFromPlan(cadence: seq<Pointing>, fields: Option<seq<int>>, nonField: Option<seq<int>>,
                         window: Option<(real, real)>)
    requires ObservedOn(cadence, fields, nonField, window).Ok?
    ensures forall e :: e in ObservedOn(cadence, fields, nonField, window).value ==>
      exists i :: 0 <= i < |cadence| && EpochOf(cadence[i]) == e
  {
    var r := ObservedOn(cadence, fields, nonField, window).value;
    var c := Collected(cadence, fields, nonField);
    forall e | e in r
      ensures exists i :: 0 <= i < |cadence| && EpochOf(cadence[i]) == e
    {
      assert multiset(r)[e] > 0;
      assert e in c;
      var byFields := if fields.Some? then ByFields(cadence, fields.value) else [];
      assert c == byFields + (if nonField.Some? then ByIndex(Sentinels(cadence), nonField.value) else []);
      if e in byFields {
        ByFieldsMembers(cadence, fields.value, e);
        var j :| 0 <= j < |fields.value| && RowOf(cadence, fields.value[j], e);
      } else {
        var s := Sentinels(cadence);
        var idx := ByIndex(s, nonField.value);
        var j :| 0 <= j < |idx| && idx[j] == e;
        var p := s[Normalise(nonField.value[j], |s|)];
        assert e == EpochOf(p) && p in cadence;
        var i :| 0 <= i < |cadence| && cadence[i] == p;
      }
    }
  }

  /** Asking for a list of ids asks for each of them in turn. */
  lemma {:induction false} ByFieldsAppend(cadence: seq<Pointing>, f1: seq<int>, f2: seq<int>)
    ensures ByFields(cadence, f1 + f2) == ByFields(cadence, f1) + ByFields(cadence, f2)
  {
    if f1 != [] {
      assert (f1 + f2)[0] == f1[0];
      assert (f1 + f2)[1..] == f1[1..] + f2;
      ByFieldsAppend(cadence, f1[1..], f2);
      assert ByFields(cadence, f1 + f2) == FieldRows(cadence, f1[0]) + ByFields(cadence, f1[1..] + f2);
    } else {
      assert f1 + f2 == f2;
    }
  }

  /** A row is gathered by field id exactly when it is a row of one of the requested ids. */
  lemma {:induction false} ByFieldsMembers(cadence: seq<Pointing>, fields: seq<int>, e: Epoch)
    ensures e in ByFields(cadence, fields) <==> exists j :: 0 <= j < |fields| && RowOf(cadence, fields[j], e)
  {
    if fields != [] {
      ByFieldsMembers(cadence, fields[1..], e);
      assert ByFields(cadence, fields) == FieldRows(cadence, fields[0]) + ByFields(cadence, fields[1..]);
      assert forall j :: 1 <= j < |fields| ==> fields[j] == fields[1..][j - 1];
      if exists j :: 0 <= j < |fields| && RowOf(cadence, fields[j], e) {
        var j :| 0 <= j < |fields| && RowOf(cadence, fields[j], e);
        if j > 0 {
          assert RowOf(cadence, fields[1..][j - 1], e);
        }
      }
    }
  }

  // ---------------------------------------------------------------------
  // get_non_field_obs: matching positions against the custom pointings
  // ---------------------------------------------------------------------

  /**
   * The indices k < n of the sentinel pointings whose footprint contains `p`,
   * in ascending order. `covers(centre, p)` is the footprint test.
   */
  function Hits(sentinels: seq<Pointing>, p: Sky, covers: (Sky, Sky) -> bool, n: nat): seq<nat>
    requires n <= |sentinels|
  {
    if n == 0 then []
    else Hits(sentinels, p, covers, n - 1) + (if covers(sentinels[n - 1].pos, p) then [n - 1] else [])
  }

  predicate StrictlyIncreasing(s: seq<nat>) {
    forall i, j :: 0 <= i < j < |s| ==> s[i] < s[j]
  }

  /** `k` is a hit exactly when pointing `k` contains the position; hits ascend strictly. */
  lemma {:induction false} HitsMembers(sentinels: seq<Pointing>, p: Sky, covers: (Sky, Sky) -> bool, n: nat)
    requires n <= |sentinels|
    ensures forall k: int :: k in Hits(sentinels, p, covers, n) <==> 0 <= k < n && covers(sentinels[k].pos, p)
    ensures StrictlyIncreasing(Hits(sentinels, p, covers, n))
  {
    if n > 0 {
      HitsMembers(sentinels, p, covers, n - 1);
      var h := Hits(sentinels, p, covers, n - 1);
      assert forall i :: 0 <= i < |h| ==> h[i] in h;
    }
  }

  /** No sentinel pointing contains `p`. */
  predicate NoHit(sentinels: seq<Pointing>, p: Sky, covers: (Sky, Sky) -> bool) {
    forall k :: 0 <= k < |sentinels| ==> !covers(sentinels[k].pos, p)
  }

  /** No pointing before the k-th contains any of the positions. */
  predicate NoMatchBefore(sentinels: seq<Pointing>, positions: seq<Sky>, covers: (Sky, Sky) -> bool, k: nat)
    requires k <= |sentinels|
  {
    forall l, j :: 0 <= l < |positions| && 0 <= j < k ==> !covers(sentinels[j].pos, positions[l])
  }

  /**
   * The loop over the positions of `get_non_field_obs` for sentinel pointing
   * k: append k to the list of every position it contains, and tell whether
   * there was one.
   */
  method RecordPointing(sentinels: seq<Pointing>, positions: seq<Sky>, covers: (Sky, Sky) -> bool, k: nat,
                        out: seq<seq<nat>>) returns (out': seq<seq<nat>>, hit: bool)
    requires k < |sentinels| && |out| == |positions|
    requires forall m :: 0 <= m < |positions| ==> out[m] == Hits(sentinels, positions[m], covers, k)
    ensures |out'| == |positions|
    ensures forall m :: 0 <= m < |positions| ==> out'[m] == Hits(sentinels, positions[m], covers, k + 1)
    ensures hit <==> exists m :: 0 <= m < |positions| && covers(sentinels[k].pos, positions[m])
  {
    out' := out;
    hit := false;
    var l := 0;
    while l < |positions|
      invariant 0 <= l <= |positions| && |out'| == |positions|
      invariant forall m :: 0 <= m < l ==> out'[m] == Hits(sentinels, positions[m], covers, k + 1)
      invariant forall m :: l <= m < |positions| ==> out'[m] == out[m]
      invariant hit <==> exists m :: 0 <= m < l && covers(sentinels[k].pos, positions[m])
    {
      if covers(sentinels[k].pos, positions[l]) {
        hit := true;
        out' := out'[l := out'[l] + [k]];
      }
      l := l + 1;
    }
  }

  /** No sentinel pointing contains any of the positions. */
  predicate NoMatch(sentinels: seq<Pointing>, positions: seq<Sky>, covers: (Sky, Sky) -> bool) {
    forall l :: 0 <= l < |positions| ==> NoHit(sentinels, positions[l], covers)
  }

  /**
   * What `get_non_field_obs` is meant to return for positions given as a list: `None`
   * when nothing matched, otherwise, per position, the ascending indices of
   * the sentinel pointings containing it.
   */
  function Matching(sentinels: seq<Pointing>, positions: seq<Sky>, covers: (Sky, Sky) -> bool): Option<seq<seq<nat>>> {
    if NoMatch(sentinels, positions, covers) then None
    else Some(seq(|positions|, l requires 0 <= l < |positions| => Hits(sentinels, positions[l], covers, |sentinels|)))
  }

  /** The matching holds `k` for position `l` iff pointing `k` contains `l`, and is `None` iff no pair matched. */
  lemma MatchingSpec(sentinels: seq<Pointing>, positions: seq<Sky>, covers: (Sky, Sky) -> bool)
    ensures Matching(sentinels, positions, covers).None? <==> NoMatch(sentinels, positions, covers)
    ensures sentinels == [] ==> Matching(sentinels, positions, covers).None?
    ensures Matching(sentinels, positions, covers).Some? ==>
      var out := Matching(sentinels, positions, covers).value;
      && |out| == |positions|
      && (forall l, k: int :: 0 <= l < |positions| ==>
            (k in out[l] <==> 0 <= k < |sentinels| && covers(sentinels[k].pos, positions[l])))
      && (forall l :: 0 <= l < |positions| ==> StrictlyIncreasing(out[l]))
  {
    forall l | 0 <= l < |positions| {
      HitsMembers(sentinels, positions[l], covers, |sentinels|);
    }
  }

  /** A position has no hit exactly when no sentinel pointing contains it. */
  lemma NoHitIffEmpty(sentinels: seq<Pointing>, p: Sky, covers: (Sky, Sky) -> bool)
    ensures NoHit(sentinels, p, covers) <==> Hits(sentinels, p, covers, |sentinels|) == []
  {
    var h := Hits(sentinels, p, covers, |sentinels|);
    HitsMembers(sentinels, p, covers, |sentinels|);
    if h != [] {
      assert h[0] in h;
    }
  }

  /** There is no match exactly when every position has no hit. */
  lemma NoMatchIffNoHits(sentinels: seq<Pointing>, positions: seq<Sky>, covers: (Sky, Sky) -> bool)
    ensures NoMatch(sentinels, positions, covers) <==>
      forall l :: 0 <= l < |positions| ==> Hits(sentinels, positions[l], covers, |sentinels|) == []
  {
    forall l | 0 <= l < |positions|
      ensures NoHit(sentinels, positions[l], covers) <==> Hits(sentinels, positions[l], covers, |sentinels|) == []
    {
      NoHitIffEmpty(sentinels, positions[l], covers);
    }
  }

  /** A single position, or a list of them, as `get_non_field_obs` receives them. */
  datatype Coords = One(p: Sky) | Many(ps: seq<Sky>)

  /** The two shapes of its answer: a flat index array, or one array per position. */
  datatype Matches = Flat(ks: seq<nat>) | PerPosition(kss: seq<seq<nat>>)

  /**
   * `get_non_field_obs` as written. On the first sentinel row a scalar
   * position sets `single_coord`; positions given as a list, even a list of
   * one, take the other branch, which never assigns it, so the following
   * `if single_coord` raises `UnboundLocalError`. Without sentinel rows the
   * loop never runs.
   */
  function NonFieldObsAsWritten(cadence: seq<Pointing>, covers: (Sky, Sky) -> bool, coords: Coords): (r: Result<Option<Matches>, PlanError>)
    ensures Sentinels(cadence) == [] ==> r == Ok(None)
    ensures coords.Many? && Sentinels(cadence) != [] ==> r == Err(UnboundSingleCoord)
    ensures coords.One? ==> r.Ok?
    ensures coords.One? ==> var m := Matching(Sentinels(cadence), [coords.p], covers);
      && (r.value.None? <==> m.None?)
      && (r.value.Some? ==> r.value.value == Flat(m.value[0]))
  {
    var gen := Sentinels(cadence);
    if gen == [] then Ok(None)
    else
      match coords
      case One(p) =>
        var h := Hits(gen, p, covers, |gen|);
        NoMatchIffNoHits(gen, [p], covers);
        assert [p][0] == p;
        assert !NoMatch(gen, [p], covers) ==> Matching(gen, [p], covers).value[0] == h;
        Ok(if h == [] then None else Some(Flat(h)))
      case Many(_) => Err(UnboundSingleCoord)
  }

  /** One custom pointing that contains one position: as written the call fails, as intended it matches. */
  lemma UnboundSingleCoordWitness()
    ensures var cadence := [Pointing(0.0, "g", 0.1, Sky(0.0, 0.0), None)];
            var covers := (c: Sky, p: Sky) => true;
            && NonFieldObsAsWritten(cadence, covers, Many([Sky(0.0, 0.0)])) == Err(UnboundSingleCoord)
            && Matching(Sentinels(cadence), [Sky(0.0, 0.0)], covers) == Some([[0]])
  {
    var cadence := [Pointing(0.0, "g", 0.1, Sky(0.0, 0.0), None)];
    var covers := (c: Sky, p: Sky) => true;
    assert cadence[..0] == [];
    assert Sentinels(cadence) == cadence;
    assert covers(cadence[0].pos, Sky(0.0, 0.0));
    assert Hits(cadence, Sky(0.0, 0.0), covers, 1) == [0];
    assert [Sky(0.0, 0.0)][0] == Sky(0.0, 0.0);
    assert !NoHit(cadence, [Sky(0.0, 0.0)][0], covers);
    assert !NoMatch(cadence, [Sky(0.0, 0.0)], covers);
    assert Matching(cadence, [Sky(0.0, 0.0)], covers).value == [[0]];
  }

  // ---------------------------------------------------------------------
  // The plan object
  // ---------------------------------------------------------------------

  /** `SurveyPlan`: the pointing table, the optional field catalog and the footprint size. */
  class SurveyPlan {
    var cadence: seq<Pointing>
    var catalog: Option<FieldCatalog>
    const width: real
    const height: real
    /** `SurveyField(centre, width, height).coord_in_field(p)` for this plan's width and height. */
    const covers: (Sky, Sky) -> bool

    /**
     * A plan with no pointings yet, with the width, height and field catalog
     * that `create` sets before its first `add_observation`; the full
     * constructor is this plus AddObservation.
     */
    constructor Empty(width: real, height: real, catalog: Option<FieldCatalog>, inField: (Sky, real, real, Sky) -> bool)
      ensures this.cadence == [] && this.catalog == catalog
      ensures this.width == width && this.height == height
      ensures forall c, p :: this.covers(c, p) == inField(c, width, height, p)
    {
      this.cadence := [];
      this.catalog := catalog;
      this.width := width;
      this.height := height;
      this.covers := (c: Sky, p: Sky) => inField(c, width, height, p);
    }

    /** `add_observation`: append the new rows after the existing ones, or raise and change nothing. */
    method AddObservation(time: seq<real>, band: seq<string>, skynoise: seq<real>,
                          ra: Option<seq<real>>, dec: Option<seq<real>>, field: Option<seq<int>>)
      returns (err: Option<PlanError>)
      modifies this`cadence
      ensures var rows := NewRows(catalog, time, band, skynoise, ra, dec, field);
        && (rows.Ok? ==> err.None? && cadence == old(cadence) + rows.value)
        && (rows.Err? ==> err == Some(rows.error) && cadence == old(cadence))
    {
      var rows := NewRows(catalog, time, band, skynoise, ra, dec, field);
      match rows
      case Ok(new_) =>
        cadence := cadence + new_;
        err := None;
      case Err(e) =>
        err := Some(e);
    }

    /**
     * `get_obs_fields`: the field ids of every position, or `None` when there
     * is no catalog or no row with a field id.
     */
    function GetObsFields(positions: seq<Sky>): (r: Option<seq<seq<int>>>)
      reads this
      ensures r.Some? <==> catalog.Some? && exists i :: 0 <= i < |cadence| && cadence[i].field.Some?
      ensures r.Some? ==> |r.value| == |positions|
      ensures r.Some? ==> forall l :: 0 <= l < |positions| ==> r.value[l] == catalog.value.locate(positions[l])
    {
      if catalog.Some? && exists i :: 0 <= i < |cadence| && cadence[i].field.Some? then
        var locate := catalog.value.locate;
        Some(seq(|positions|, l requires 0 <= l < |positions| => locate(positions[l])))
      else None
    }

    /**
     * `get_non_field_obs` over positions given as a list, with the per-position
     * branch doing what it evidently means to (the source never assigns
     * `single_coord` there): for every sentinel pointing, in order, record it
     * against every position it contains.
     */
    method GetNonFieldObs(positions: seq<Sky>) returns (r: Option<seq<seq<nat>>>)
      ensures r == Matching(Sentinels(cadence), positions, covers)
    {
      var gen := Sentinels(cadence);
      var out: seq<seq<nat>> := seq(|positions|, l => []);
      var observed := false;
      var k := 0;
      while k < |gen|
        invariant 0 <= k <= |gen|
        invariant |out| == |positions|
        invariant forall m :: 0 <= m < |positions| ==> out[m] == Hits(gen, positions[m], covers, k)
        invariant observed <==> !NoMatchBefore(gen, positions, covers, k)
      {
        var hit;
        out, hit := RecordPointing(gen, positions, covers, k, out);
        observed := observed || hit;
        k := k + 1;
      }
      NoMatchIffNoHits(gen, positions, covers);
      if observed {
        assert !NoMatch(gen, positions, covers);
        assert out == seq(|positions|, l requires 0 <= l < |positions| => Hits(gen, positions[l], covers, |gen|));
        r := Some(out);
      } else {
        r := None;
      }
    }
  }
}
