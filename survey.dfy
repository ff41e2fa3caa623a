/**
 * SimulSurvey: ties a transient generator, a survey plan and an instrument
 * registry together, selects the observations of every transient and turns
 * each observed transient into a lightcurve with its metadata.
 */
module Survey {
  import opened Wrappers
  import opened Plan
  import opened Noise
  import opened Collection

  /** Transient parameters: a Python dictionary, so its keys are distinct. */
  type Params = m: Meta | DistinctKeys(m) witness []

  /** One drawn transient: position, redshift, date of peak and its model parameters. */
  datatype Transient = Transient(pos: Sky, z: real, mjd: real, params: Params)

  /**
   * The transient generator: the drawn transients, the model's rest-frame
   * time span (`model.mintime()`, `model.maxtime()`), and the model's
   * noise-free band flux for a parameter set at one design row (what
   * `sncosmo.realize_lcs` evaluates with `scatter=False`).
   */
  datatype Generator = Generator(transients: seq<Transient>, minTime: real, maxTime: real,
                                 bandflux: (Meta, DesignRow) -> real)

  /** The exceptions the survey raises. */
  datatype SurveyError =
    | NotSet                          // plan, generator or instruments missing (AttributeError)
    | AlreadyDefined(band: string)    // add_instrument of a known band without force_it
    | MissingSetting(band: string, key: string)  // set_instruments entry without gain or zp (KeyError)
    | NullGainOrZp(band: string)      // set_instruments entry with gain or zp None (ValueError)
    | UnknownBand                     // the cadence uses a band with no instrument (ValueError)
    | NoFieldIds                      // obs_fields is None, so the zip fails (TypeError)
    | PlanFailure(e: PlanError)       // observed_on raised
    | MissingParam(key: string)       // p.pop(key) on parameters without the key (KeyError)
    | ZeroGain                        // a design row with gain 0 divides by zero
    | CollectionFailure(c: CollectionError)

  // ---------------------------------------------------------------------
  // Per-transient observing windows and designs
  // ---------------------------------------------------------------------

  /** The positions of the transients, in order (`generator.ra`, `generator.dec`). */
  function Positions(g: Generator): (r: seq<Sky>)
    ensures |r| == |g.transients| && forall k :: 0 <= k < |r| ==> r[k] == g.transients[k].pos
  {
    seq(|g.transients|, k requires 0 <= k < |g.transients| => g.transients[k].pos)
  }

  /** Stretching a span [lo, hi] by 1 + z >= 0 about `mjd` keeps it ordered and keeps `mjd` inside when it was. */
  lemma StretchedSpan(lo: real, hi: real, mjd: real, z: real)
    ensures lo <= hi && z >= -1.0 ==> mjd + lo * (1.0 + z) <= mjd + hi * (1.0 + z)
    ensures lo <= 0.0 <= hi && z >= -1.0 ==> mjd + lo * (1.0 + z) <= mjd <= mjd + hi * (1.0 + z)
    ensures z == 0.0 ==> mjd + lo * (1.0 + z) == mjd + lo && mjd + hi * (1.0 + z) == mjd + hi
  {
    var c := 1.0 + z;
    if c >= 0.0 {
      NonNegativeProduct(hi - lo, c);
      NonNegativeProduct(-lo, c);
      NonNegativeProduct(hi, c);
      assert hi * c == lo * c + (hi - lo) * c;
      assert -lo * c == (-lo) * c;
    }
  }

  lemma NonNegativeProduct(a: real, c: real)
    requires c >= 0.0
    ensures a >= 0.0 ==> a * c >= 0.0
  {
  }

  lemma PositiveProduct(a: real, c: real)
    requires c > 0.0
    ensures a > 0.0 ==> a * c > 0.0
  {
  }

  /**
   * The dates a transient can be observed on: the model's time span
   * stretched by (1 + z) and shifted to the transient's date. The window is
   * ordered for a non-negative stretch, and it holds the date of peak when
   * the model's span does.
   */
  function Window(g: Generator, t: Transient): (w: (real, real))
    ensures g.minTime <= g.maxTime && t.z >= -1.0 ==> w.0 <= w.1
    ensures g.minTime <= 0.0 <= g.maxTime && t.z >= -1.0 ==> w.0 <= t.mjd <= w.1
    ensures t.z == 0.0 ==> w == (t.mjd + g.minTime, t.mjd + g.maxTime)
  {
    StretchedSpan(g.minTime, g.maxTime, t.mjd, t.z);
    (t.mjd + g.minTime * (1.0 + t.z), t.mjd + g.maxTime * (1.0 + t.z))
  }

  /** Every pointing of the cadence uses a band of the registry. */
  predicate BandsKnown(cadence: seq<Pointing>, instruments: map<string, Instrument>) {
    forall i :: 0 <= i < |cadence| ==> cadence[i].band in instruments
  }

  /** A design row: an epoch with the gain, zp and zpsys of its band's instrument. */
  function RowFor(e: Epoch, inst: Instrument): DesignRow {
    DesignRow(e.time, e.band, e.skynoise, inst.gain, inst.zp, inst.zpsys)
  }

  /** The observation table of one transient, or None when it has no epoch. */
  function DesignOf(epochs: seq<Epoch>, instruments: map<string, Instrument>): (r: Option<seq<DesignRow>>)
    requires forall i :: 0 <= i < |epochs| ==> epochs[i].band in instruments
    ensures r.None? <==> epochs == []
    ensures r.Some? ==> |r.value| == |epochs|
    ensures r.Some? ==> forall i :: 0 <= i < |epochs| ==> r.value[i] == RowFor(epochs[i], instruments[epochs[i].band])
  {
    if epochs == [] then None
    else Some(seq(|epochs|, i requires 0 <= i < |epochs| => RowFor(epochs[i], instruments[epochs[i].band])))
  }

  /** The custom-pointing selection of every position: the cached matches, or None for each transient. */
  function NonFieldView(cache: Option<seq<seq<nat>>>, ntransient: nat): (r: seq<Option<seq<int>>>)
    ensures cache.None? ==> |r| == ntransient && forall k :: 0 <= k < |r| ==> r[k].None?
    ensures cache.Some? ==> |r| == |cache.value| && forall k :: 0 <= k < |r| ==> r[k] == Some(cache.value[k])
  {
    match cache
    case None => seq(ntransient, k => None)
    case Some(c) => seq(|c|, k requires 0 <= k < |c| => Some(c[k]))
  }

  function Min3(a: nat, b: nat, c: nat): (m: nat)
    ensures m <= a && m <= b && m <= c && (m == a || m == b || m == c)
  {
    if a <= b && a <= c then a else if b <= c then b else c
  }

  /**
   * The design of transient k: its epochs in the fields it falls in and in
   * the custom pointings matched to it, inside its window, sorted by time.
   */
  function DesignAt(cadence: seq<Pointing>, instruments: map<string, Instrument>, g: Generator,
                    f: seq<seq<int>>, n: seq<Option<seq<int>>>, k: nat): (r: Result<Option<seq<DesignRow>>, SurveyError>)
    requires BandsKnown(cadence, instruments)
    requires k < |f| && k < |n| && k < |g.transients|
    ensures var w := Window(g, g.transients[k]);
      var on := ObservedOn(cadence, Some(f[k]), n[k], Some(w));
      && (r.Err? <==> on.Err?)
      && (on.Err? ==> r == Err(PlanFailure(on.error)))
      && (r.Ok? && r.value.Some? ==> |r.value.value| == |on.value| > 0)
      && (r.Ok? && r.value.Some? ==> forall i :: 0 <= i < |on.value| ==>
            (on.value[i].band in instruments && r.value.value[i] == RowFor(on.value[i], instruments[on.value[i].band])))
      && (r.Ok? && r.value.None? ==> on.value == [])
  {
    var w := Window(g, g.transients[k]);
    var on := ObservedOn(cadence, Some(f[k]), n[k], Some(w));
    match on
    case Err(e) => Err(PlanFailure(e))
    case Ok(epochs) =>
      ObservedFromPlan(cadence, Some(f[k]), n[k], Some(w));
      assert forall i :: 0 <= i < |epochs| ==> epochs[i] in epochs;
      Ok(DesignOf(epochs, instruments))
  }

  /** What `_get_observations_` yields for one transient: its design, None when unobserved, or the error. */
  type Observation = Result<Option<seq<DesignRow>>, SurveyError>

  /** What `_get_observations_` yields for every transient up to `count`, in order. */
  function DesignResults(cadence: seq<Pointing>, instruments: map<string, Instrument>, g: Generator,
                         f: seq<seq<int>>, n: seq<Option<seq<int>>>, count: nat)
    : (rs: seq<Observation>)
    requires BandsKnown(cadence, instruments)
    requires count <= |f| && count <= |n| && count <= |g.transients|
    ensures |rs| == count && forall k :: 0 <= k < count ==> rs[k] == DesignAt(cadence, instruments, g, f, n, k)
  {
    seq(count, k requires 0 <= k < count => DesignAt(cadence, instruments, g, f, n, k))
  }

  /** The row repeats the time, band and sky noise of one of the plan's pointings. */
  predicate FromPlan(cadence: seq<Pointing>, row: DesignRow) {
    exists p :: 0 <= p < |cadence| && cadence[p].time == row.time && cadence[p].band == row.band && cadence[p].skynoise == row.skynoise
  }

  /** The rows are the epochs with their band's instrument attached. */
  predicate RowsOf(epochs: seq<Epoch>, rows: seq<DesignRow>, instruments: map<string, Instrument>) {
    && |rows| == |epochs|
    && forall i :: 0 <= i < |epochs| ==>
         epochs[i].band in instruments && rows[i] == RowFor(epochs[i], instruments[epochs[i].band])
  }

  /** Attaching instruments keeps the epochs' order, their dates and where they come from. */
  lemma RowsKeepEpochs(cadence: seq<Pointing>, epochs: seq<Epoch>, rows: seq<DesignRow>,
                       instruments: map<string, Instrument>, w: (real, real))
    requires RowsOf(epochs, rows, instruments) && SortedByTime(epochs)
    requires forall i :: 0 <= i < |epochs| ==> InRange(Some(w), epochs[i].time)
    requires forall e :: e in epochs ==> exists p :: 0 <= p < |cadence| && EpochOf(cadence[p]) == e
    ensures forall i, j :: 0 <= i < j < |rows| ==> rows[i].time <= rows[j].time
    ensures forall i :: 0 <= i < |rows| ==> w.0 <= rows[i].time <= w.1
    ensures forall i :: 0 <= i < |rows| ==>
      (rows[i].band in instruments && rows[i].gain == instruments[rows[i].band].gain
       && rows[i].zp == instruments[rows[i].band].zp && rows[i].zpsys == instruments[rows[i].band].zpsys)
    ensures forall i :: 0 <= i < |rows| ==> FromPlan(cadence, rows[i])
  {
    forall i | 0 <= i < |rows|
      ensures FromPlan(cadence, rows[i])
    {
      assert epochs[i] in epochs;
      var p :| 0 <= p < |cadence| && EpochOf(cadence[p]) == epochs[i];
    }
  }

  /** Each observed transient's table is sorted by time, inside its window, and drawn from the plan's pointings. */
  lemma DesignObserved(cadence: seq<Pointing>, instruments: map<string, Instrument>, g: Generator,
                       f: seq<seq<int>>, n: seq<Option<seq<int>>>, k: nat, rows: seq<DesignRow>)
    requires BandsKnown(cadence, instruments)
    requires k < |f| && k < |n| && k < |g.transients|
    requires DesignAt(cadence, instruments, g, f, n, k) == Ok(Some(rows))
    ensures rows != []
    ensures forall i, j :: 0 <= i < j < |rows| ==> rows[i].time <= rows[j].time
    ensures var w := Window(g, g.transients[k]); forall i :: 0 <= i < |rows| ==> w.0 <= rows[i].time <= w.1
    ensures forall i :: 0 <= i < |rows| ==>
      (rows[i].band in instruments && rows[i].gain == instruments[rows[i].band].gain
       && rows[i].zp == instruments[rows[i].band].zp && rows[i].zpsys == instruments[rows[i].band].zpsys)
    ensures forall i :: 0 <= i < |rows| ==> FromPlan(cadence, rows[i])
  {
    var w := Window(g, g.transients[k]);
    var on := ObservedOn(cadence, Some(f[k]), n[k], Some(w));
    var epochs := on.value;
    assert RowsOf(epochs, rows, instruments);
    ObservedFromPlan(cadence, Some(f[k]), n[k], Some(w));
    RowsKeepEpochs(cadence, epochs, rows, instruments, w);
  }

  // ---------------------------------------------------------------------
  // _get_lightcurve_: one transient's lightcurve
  // ---------------------------------------------------------------------

  /** The keys after the first of a dictionary are distinct and differ from the first. */
  lemma DistinctTail(m: Meta)
    requires DistinctKeys(m) && m != []
    ensures DistinctKeys(m[1..]) && m[0].0 !in Keys(m[1..])
    ensures Keys(m) == [m[0].0] + Keys(m[1..])
  {
    var t := m[1..];
    assert forall i :: 0 <= i < |t| ==> t[i] == m[i + 1];
  }

  /** `dict.pop(k)`: the value of `k` and the dictionary without it, or None when `k` is absent (KeyError). */
  function Pop(m: Meta, k: string): (r: Option<(MetaValue, Meta)>)
    requires DistinctKeys(m)
    ensures r.None? <==> k !in Keys(m)
    ensures r.Some? ==> DistinctKeys(r.value.1) && |r.value.1| + 1 == |m|
    ensures r.Some? ==> forall x :: x in Keys(r.value.1) ==> x in Keys(m)
  {
    if m == [] then None
    else
      DistinctTail(m);
      if m[0].0 == k then Some((m[0].1, m[1..]))
      else
        match Pop(m[1..], k)
        case None => None
        case Some(p) =>
          var rest := [m[0]] + p.1;
          KeysCons(rest);
          assert rest[1..] == p.1;
          assert m[0].0 !in Keys(p.1);
          DistinctKeysIff(p.1);
          DistinctCons(m[0].0, Keys(p.1));
          DistinctKeysIff(rest);
          Some((p.0, rest))
  }

  /** What `pop` returns is the value of `k`; afterwards `k` is gone and every other key is as before. */
  lemma {:induction false} PopLookup(m: Meta, k: string, k': string)
    requires DistinctKeys(m) && Pop(m, k).Some?
    ensures Lookup(m, k) == Some(Pop(m, k).value.0)
    ensures Lookup(Pop(m, k).value.1, k') == if k' == k then None else Lookup(m, k')
    decreases |m|
  {
    DistinctTail(m);
    if m[0].0 != k {
      PopLookup(m[1..], k, k');
      var rest := Pop(m, k).value.1;
      assert rest[1..] == Pop(m[1..], k).value.1;
    }
  }

  /** The parameters `_get_lightcurve_` takes out before evaluating the model, and the model parameters left. */
  datatype Extracted = Extracted(ra: MetaValue, dec: MetaValue, mwebv: MetaValue, model: Params)

  predicate Reserved(k: string) {
    k == "ra" || k == "dec" || k == "mwebv_sfd98"
  }

  /** `p.pop('ra'), p.pop('dec'), p.pop('mwebv_sfd98')`, failing on the first key that is missing. */
  function Extract(params: Params): (r: Result<Extracted, SurveyError>)
    ensures "ra" !in Keys(params) ==> r == Err(MissingParam("ra"))
    ensures "ra" in Keys(params) && "dec" !in Keys(params) ==> r == Err(MissingParam("dec"))
    ensures "ra" in Keys(params) && "dec" in Keys(params) && "mwebv_sfd98" !in Keys(params) ==>
      r == Err(MissingParam("mwebv_sfd98"))
    ensures r.Ok? <==> "ra" in Keys(params) && "dec" in Keys(params) && "mwebv_sfd98" in Keys(params)
  {
    match Pop(params, "ra")
    case None => Err(MissingParam("ra"))
    case Some(p1) =>
      PopLookup(params, "ra", "dec");
      PopLookup(params, "ra", "mwebv_sfd98");
      match Pop(p1.1, "dec")
      case None => Err(MissingParam("dec"))
      case Some(p2) =>
        PopLookup(p1.1, "dec", "mwebv_sfd98");
        match Pop(p2.1, "mwebv_sfd98")
        case None => Err(MissingParam("mwebv_sfd98"))
        case Some(p3) => Ok(Extracted(p1.0, p2.0, p3.0, p3.1))
  }

  /** The popped values are those of ra, dec and mwebv_sfd98, and the model parameters are the rest. */
  lemma ExtractLookup(params: Params, k: string)
    requires Extract(params).Ok?
    ensures var x := Extract(params).value;
      && Lookup(params, "ra") == Some(x.ra) && Lookup(params, "dec") == Some(x.dec)
      && Lookup(params, "mwebv_sfd98") == Some(x.mwebv)
      && Lookup(x.model, k) == if Reserved(k) then None else Lookup(params, k)
  {
    var p1 := Pop(params, "ra").value;
    var p2 := Pop(p1.1, "dec").value;
    PopLookup(params, "ra", "dec");
    PopLookup(params, "ra", "mwebv_sfd98");
    PopLookup(params, "ra", k);
    PopLookup(p1.1, "dec", "mwebv_sfd98");
    PopLookup(p1.1, "dec", k);
    PopLookup(p2.1, "mwebv_sfd98", k);
  }

  /** `meta[k] = v` when there is a value to set. */
  function SetOptional(m: Meta, k: string, v: Option<MetaValue>): Meta {
    if v.Some? then SetKey(m, k, v.value) else m
  }

  lemma SetOptionalLookup(m: Meta, k: string, v: Option<MetaValue>, k': string)
    ensures Lookup(SetOptional(m, k, v), k') == if k' == k && v.Some? then v else Lookup(m, k')
  {
    if v.Some? {
      SetKeyLookup(m, k, v.value, k');
    }
  }

  lemma SetOptionalDistinct(m: Meta, k: string, v: Option<MetaValue>)
    requires DistinctKeys(m)
    ensures DistinctKeys(SetOptional(m, k, v))
  {
    if v.Some? {
      SetKeyDistinct(m, k, v.value);
    }
  }

  /** The lightcurve's metadata: the model parameters, then ra, dec, fluxcov when kept, mwebv_sfd98 and idx_orig. */
  function LcMeta(x: Extracted, fluxcov: Option<seq<seq<real>>>, idxOrig: Option<int>): Meta {
    var m1 := SetKey(SetKey(x.model, "ra", x.ra), "dec", x.dec);
    var m2 := SetOptional(m1, "fluxcov", if fluxcov.Some? then Some(Matrix(fluxcov.value)) else None);
    var m3 := SetKey(m2, "mwebv_sfd98", x.mwebv);
    SetOptional(m3, "idx_orig", if idxOrig.Some? then Some(Int(idxOrig.value)) else None)
  }

  /** Each key of the metadata holds what `_get_lightcurve_` last assigned to it, else the model parameter. */
  lemma LcMetaLookup(x: Extracted, fluxcov: Option<seq<seq<real>>>, idxOrig: Option<int>, k: string)
    ensures Lookup(LcMeta(x, fluxcov, idxOrig), k) ==
      if k == "ra" then Some(x.ra)
      else if k == "dec" then Some(x.dec)
      else if k == "mwebv_sfd98" then Some(x.mwebv)
      else if k == "fluxcov" && fluxcov.Some? then Some(Matrix(fluxcov.value))
      else if k == "idx_orig" && idxOrig.Some? then Some(Int(idxOrig.value))
      else Lookup(x.model, k)
  {
    var m0 := SetKey(x.model, "ra", x.ra);
    var m1 := SetKey(m0, "dec", x.dec);
    var m2 := SetOptional(m1, "fluxcov", if fluxcov.Some? then Some(Matrix(fluxcov.value)) else None);
    var m3 := SetKey(m2, "mwebv_sfd98", x.mwebv);
    SetKeyLookup(x.model, "ra", x.ra, k);
    SetKeyLookup(m0, "dec", x.dec, k);
    SetOptionalLookup(m1, "fluxcov", if fluxcov.Some? then Some(Matrix(fluxcov.value)) else None, k);
    SetKeyLookup(m2, "mwebv_sfd98", x.mwebv, k);
    SetOptionalLookup(m3, "idx_orig", if idxOrig.Some? then Some(Int(idxOrig.value)) else None, k);
  }

  /** The metadata keeps its keys distinct. */
  lemma LcMetaDistinct(x: Extracted, fluxcov: Option<seq<seq<real>>>, idxOrig: Option<int>)
    ensures DistinctKeys(LcMeta(x, fluxcov, idxOrig))
  {
    var m0 := SetKey(x.model, "ra", x.ra);
    var m1 := SetKey(m0, "dec", x.dec);
    var m2 := SetOptional(m1, "fluxcov", if fluxcov.Some? then Some(Matrix(fluxcov.value)) else None);
    var m3 := SetKey(m2, "mwebv_sfd98", x.mwebv);
    SetKeyDistinct(x.model, "ra", x.ra);
    SetKeyDistinct(m0, "dec", x.dec);
    SetOptionalDistinct(m1, "fluxcov", if fluxcov.Some? then Some(Matrix(fluxcov.value)) else None);
    SetKeyDistinct(m2, "mwebv_sfd98", x.mwebv);
    SetOptionalDistinct(m3, "idx_orig", if idxOrig.Some? then Some(Int(idxOrig.value)) else None);
  }

  /** A simulated lightcurve table: the design rows, the flux with its noise draw, the flux variance and each row's blinded bias. */
  datatype LcBody = LcBody(design: seq<DesignRow>, flux: seq<real>, fluxVar: seq<real>, biasMag: seq<real>)

  /** The model's noise-free flux at every design row. */
  function ModelFlux(bandflux: (Meta, DesignRow) -> real, p: Meta, rows: seq<DesignRow>): (r: seq<real>)
    ensures |r| == |rows| && forall i :: 0 <= i < |rows| ==> r[i] == bandflux(p, rows[i])
  {
    seq(|rows|, i requires 0 <= i < |rows| => bandflux(p, rows[i]))
  }

  /** The covariance matrix as rows of entries. */
  function CovMatrix(rows: seq<DesignRow>, flux: seq<real>, instruments: map<string, Instrument>): (c: seq<seq<real>>)
    requires |flux| == |rows| && Registered(rows, instruments)
    ensures |c| == |rows| && forall i :: 0 <= i < |rows| ==> |c[i]| == |rows|
    ensures forall i, j :: 0 <= i < |rows| && 0 <= j < |rows| ==> c[i][j] == Covariance(rows, flux, instruments, i, j)
  {
    var n := |rows|;
    seq(n, i requires 0 <= i < n => seq(n, j requires 0 <= j < n => Covariance(rows, flux, instruments, i, j)))
  }

  /** The table of a lightcurve: flux plus the drawn noise, variance from the diagonal, bias per band. */
  function Body(rows: seq<DesignRow>, flux: seq<real>, cov: seq<seq<real>>, noise: nat -> real,
                bias: Option<map<string, real>>): (b: LcBody)
    requires |flux| == |rows| && |cov| == |rows| && forall i :: 0 <= i < |rows| ==> |cov[i]| == |rows|
    ensures b.design == rows && |b.flux| == |b.fluxVar| == |b.biasMag| == |rows|
    ensures forall i :: 0 <= i < |rows| ==>
      b.flux[i] == flux[i] + noise(i) && b.fluxVar[i] == cov[i][i] && b.biasMag[i] == BiasFor(bias, rows[i].band)
  {
    var n := |rows|;
    LcBody(rows,
           seq(n, i requires 0 <= i < n => flux[i] + noise(i)),
           seq(n, i requires 0 <= i < n => cov[i][i]),
           seq(n, i requires 0 <= i < n => BiasFor(bias, rows[i].band)))
  }

  /** Every row's band has an instrument. */
  predicate BandsRegistered(rows: seq<DesignRow>, instruments: map<string, Instrument>) {
    forall i :: 0 <= i < |rows| ==> rows[i].band in instruments
  }

  /**
   * `_get_lightcurve_` of an observed transient, before the noise draw is
   * correlated: `noise(i)` stands for row i of `cholesky(fluxcov) . randn`.
   */
  function Realize(params: Params, rows: seq<DesignRow>, instruments: map<string, Instrument>,
                   bias: Option<map<string, real>>, bandflux: (Meta, DesignRow) -> real, noise: nat -> real,
                   idxOrig: Option<int>): (r: Result<Lightcurve<LcBody>, SurveyError>)
    ensures Extract(params).Err? ==> r == Err(Extract(params).error)
    ensures Extract(params).Ok? && !BandsRegistered(rows, instruments) ==> r == Err(UnknownBand)
    ensures Extract(params).Ok? && BandsRegistered(rows, instruments) && !Registered(rows, instruments) ==> r == Err(ZeroGain)
    ensures r.Ok? <==> Extract(params).Ok? && Registered(rows, instruments)
    ensures r.Ok? ==> DistinctKeys(r.value.meta)
  {
    match Extract(params)
    case Err(e) => Err(e)
    case Ok(x) =>
      if !BandsRegistered(rows, instruments) then Err(UnknownBand)
      else if !Registered(rows, instruments) then Err(ZeroGain)
      else
        var flux := ModelFlux(bandflux, x.model, rows);
        var cov := CovMatrix(rows, flux, instruments);
        var kept := if AnyCalibrated(rows, instruments) then Some(cov) else None;
        LcMetaDistinct(x, kept, idxOrig);
        Ok(Lightcurve(Body(rows, flux, cov, noise, bias), LcMeta(x, kept, idxOrig)))
  }

  /**
   * The table of a realized lightcurve: the design rows, the model flux plus
   * the noise draw, the diagonal of the covariance as variance, and each
   * row's blinded bias.
   */
  lemma RealizeTable(params: Params, rows: seq<DesignRow>, instruments: map<string, Instrument>,
                     bias: Option<map<string, real>>, bandflux: (Meta, DesignRow) -> real, noise: nat -> real,
                     idxOrig: Option<int>)
    requires Realize(params, rows, instruments, bias, bandflux, noise, idxOrig).Ok?
    ensures var x := Extract(params).value;
      var flux := ModelFlux(bandflux, x.model, rows);
      var b := Realize(params, rows, instruments, bias, bandflux, noise, idxOrig).value.body;
      && b.design == rows
      && |b.flux| == |b.fluxVar| == |b.biasMag| == |rows|
      && (forall i :: 0 <= i < |rows| ==> b.flux[i] == bandflux(x.model, rows[i]) + noise(i))
      && (forall i :: 0 <= i < |rows| ==> b.fluxVar[i] == Covariance(rows, flux, instruments, i, i))
      && (forall i :: 0 <= i < |rows| ==> b.biasMag[i] == BiasFor(bias, rows[i].band))
  {
  }

  /**
   * The metadata of a realized lightcurve: ra, dec and mwebv_sfd98 as the
   * parameters gave them, the covariance matrix exactly when some band is
   * calibrated, the index tag when one is given, and every other parameter
   * unchanged.
   */
  lemma RealizeMeta(params: Params, rows: seq<DesignRow>, instruments: map<string, Instrument>,
                    bias: Option<map<string, real>>, bandflux: (Meta, DesignRow) -> real, noise: nat -> real,
                    idxOrig: Option<int>)
    requires Realize(params, rows, instruments, bias, bandflux, noise, idxOrig).Ok?
    ensures var flux := ModelFlux(bandflux, Extract(params).value.model, rows);
      var m := Realize(params, rows, instruments, bias, bandflux, noise, idxOrig).value.meta;
      && Lookup(m, "ra") == Lookup(params, "ra") && Lookup(m, "dec") == Lookup(params, "dec")
      && Lookup(m, "mwebv_sfd98") == Lookup(params, "mwebv_sfd98")
      && (AnyCalibrated(rows, instruments) ==> Lookup(m, "fluxcov") == Some(Matrix(CovMatrix(rows, flux, instruments))))
      && (!AnyCalibrated(rows, instruments) ==> Lookup(m, "fluxcov") == Lookup(params, "fluxcov"))
      && (idxOrig.Some? ==> Lookup(m, "idx_orig") == Some(Int(idxOrig.value)))
      && (idxOrig.None? ==> Lookup(m, "idx_orig") == Lookup(params, "idx_orig"))
      && (forall k :: !Reserved(k) && k != "fluxcov" && k != "idx_orig" ==> Lookup(m, k) == Lookup(params, k))
  {
    var x := Extract(params).value;
    var flux := ModelFlux(bandflux, x.model, rows);
    var kept := if AnyCalibrated(rows, instruments) then Some(CovMatrix(rows, flux, instruments)) else None;
    var m := Realize(params, rows, instruments, bias, bandflux, noise, idxOrig).value.meta;
    assert m == LcMeta(x, kept, idxOrig);
    LcMetaLookup(x, kept, idxOrig, "ra");
    LcMetaLookup(x, kept, idxOrig, "dec");
    LcMetaLookup(x, kept, idxOrig, "mwebv_sfd98");
    LcMetaLookup(x, kept, idxOrig, "fluxcov");
    LcMetaLookup(x, kept, idxOrig, "idx_orig");
    ExtractLookup(params, "fluxcov");
    ExtractLookup(params, "idx_orig");
    forall k | !Reserved(k) && k != "fluxcov" && k != "idx_orig"
      ensures Lookup(m, k) == Lookup(params, k)
    {
      LcMetaLookup(x, kept, idxOrig, k);
      ExtractLookup(params, k);
    }
  }

  /**
   * `_get_lightcurve_` of an observed transient: the covariance matrix is
   * built in place, and kept in the metadata when some band is calibrated.
   */
  method RealizeLightcurve(params: Params, rows: seq<DesignRow>, instruments: map<string, Instrument>,
                           bias: Option<map<string, real>>, bandflux: (Meta, DesignRow) -> real, noise: nat -> real,
                           idxOrig: Option<int>) returns (r: Result<Lightcurve<LcBody>, SurveyError>)
    ensures r == Realize(params, rows, instruments, bias, bandflux, noise, idxOrig)
  {
    var x := Extract(params);
    if x.Err? {
      return Err(x.error);
    }
    if !BandsRegistered(rows, instruments) {
      return Err(UnknownBand);
    }
    if !Registered(rows, instruments) {
      return Err(ZeroGain);
    }
    var flux := ModelFlux(bandflux, x.value.model, rows);
    var cov, saveCov := BuildCovariance(rows, flux, instruments);
    var n := |rows|;
    var matrix := seq(n, i requires 0 <= i < n reads cov => seq(n, j requires 0 <= j < n reads cov => cov[i, j]));
    var cm := CovMatrix(rows, flux, instruments);
    assert matrix == cm by {
      forall i | 0 <= i < n
        ensures matrix[i] == cm[i]
      {
        assert forall j :: 0 <= j < n ==> matrix[i][j] == cm[i][j];
      }
    }
    var kept := if saveCov then Some(matrix) else None;
    r := Ok(Lightcurve(Body(rows, flux, matrix, noise, bias), LcMeta(x.value, kept, idxOrig)));
    assert Realize(params, rows, instruments, bias, bandflux, noise, idxOrig) == r;
  }

  // ---------------------------------------------------------------------
  // get_lightcurves: the lightcurves of the observed transients
  // ---------------------------------------------------------------------

  /** The indices k < count of the entries present, ascending. */
  function Present<T>(s: seq<Option<T>>, count: nat): (r: seq<nat>)
    requires count <= |s|
    ensures forall j :: 0 <= j < |r| ==> r[j] < count && s[r[j]].Some?
    ensures forall k :: 0 <= k < count && s[k].Some? ==> k in r
    ensures StrictlyIncreasing(r)
  {
    if count == 0 then []
    else Present(s, count - 1) + (if s[count - 1].Some? then [count - 1] else [])
  }

  /** Two sequences with the same present positions have the same present indices. */
  lemma {:induction false} PresentAlike<T, U>(s: seq<Option<T>>, t: seq<Option<U>>, count: nat)
    requires count <= |s| && count <= |t|
    requires forall k :: 0 <= k < count ==> (s[k].Some? <==> t[k].Some?)
    ensures Present(s, count) == Present(t, count)
  {
    if count > 0 {
      PresentAlike(s, t, count - 1);
    }
  }

  /** The first `count` results in order, skipping absent ones, or the first error. */
  function Gathered<L, E>(results: seq<Option<Result<L, E>>>, count: nat): Result<seq<L>, E>
    requires count <= |results|
  {
    if count == 0 then Ok([])
    else
      match Gathered(results, count - 1)
      case Err(e) => Err(e)
      case Ok(prefix) =>
        match results[count - 1]
        case None => Ok(prefix)
        case Some(Err(e)) => Err(e)
        case Some(Ok(x)) => Ok(prefix + [x])
  }

  /**
   * On success no present result is an error, and the j-th gathered value is
   * the value of the j-th present result.
   */
  lemma {:induction false} GatheredSpec<L, E>(results: seq<Option<Result<L, E>>>, count: nat)
    requires count <= |results| && Gathered(results, count).Ok?
    ensures forall k :: 0 <= k < count && results[k].Some? ==> results[k].value.Ok?
    ensures var r := Gathered(results, count).value;
      var idx := Present(results, count);
      && |r| == |idx|
      && forall j :: 0 <= j < |idx| ==> results[idx[j]] == Some(Ok(r[j]))
  {
    if count > 0 {
      var k := count - 1;
      GatheredSpec(results, k);
      var prefix := Gathered(results, k).value;
      var idx := Present(results, k);
      if results[k].Some? {
        var all := prefix + [results[k].value.value];
        var idx' := Present(results, count);
        assert idx' == idx + [k];
        assert forall j :: 0 <= j < |prefix| ==> all[j] == prefix[j] && idx'[j] == idx[j];
      }
    }
  }

  /** On failure the error is that of a present result, and everything before it succeeded. */
  lemma {:induction false} GatheredFails<L, E>(results: seq<Option<Result<L, E>>>, count: nat)
    requires count <= |results| && Gathered(results, count).Err?
    ensures exists k :: 0 <= k < count && Gathered(results, k).Ok?
                        && results[k] == Some(Err(Gathered(results, count).error))
  {
    var k := count - 1;
    if Gathered(results, k).Err? {
      GatheredFails(results, k);
    }
  }

  /** Once an error is gathered, nothing after it changes the outcome. */
  lemma {:induction false} GatheredStops<L, E>(results: seq<Option<Result<L, E>>>, k: nat, count: nat)
    requires k <= count <= |results| && Gathered(results, k).Err?
    ensures Gathered(results, count) == Gathered(results, k)
    decreases count
  {
    if count > k {
      GatheredStops(results, k, count - 1);
    }
  }

  /**
   * What one turn of the `get_lightcurves` loop does with transient k: stop
   * on an error of the observation query, skip an unobserved transient, or
   * realize the lightcurve tagged with k.
   */
  function StepAt(o: Observation, g: Generator, instruments: map<string, Instrument>,
                  bias: Option<map<string, real>>, noises: nat -> (nat -> real), k: nat)
    : Option<Result<Lightcurve<LcBody>, SurveyError>>
    requires k < |g.transients|
  {
    match o
    case Err(e) => Some(Err(e))
    case Ok(None) => None
    case Ok(Some(rows)) => Some(Realize(g.transients[k].params, rows, instruments, bias, g.bandflux, noises(k), Some(k)))
  }

  /** The loop turns for every transient the observation query reached. */
  function Steps(obs: seq<Observation>, g: Generator, instruments: map<string, Instrument>,
                 bias: Option<map<string, real>>, noises: nat -> (nat -> real))
    : (r: seq<Option<Result<Lightcurve<LcBody>, SurveyError>>>)
    requires |obs| <= |g.transients|
    ensures |r| == |obs| && forall k :: 0 <= k < |obs| ==> r[k] == StepAt(obs[k], g, instruments, bias, noises, k)
  {
    seq(|obs|, k requires 0 <= k < |obs| => StepAt(obs[k], g, instruments, bias, noises, k))
  }

  /**
   * The lightcurves `get_lightcurves` adds, in order, or its first error.
   * `izip` draws the observation of transient k just before realizing it,
   * so an error of either kind stops the loop where it occurs.
   */
  function Simulated(obs: seq<Observation>, g: Generator, instruments: map<string, Instrument>,
                     bias: Option<map<string, real>>, noises: nat -> (nat -> real))
    : Result<seq<Lightcurve<LcBody>>, SurveyError>
    requires |obs| <= |g.transients|
  {
    Gathered(Steps(obs, g, instruments, bias, noises), |obs|)
  }

  /** The observed transients among the first `|obs|`: the design of each, None otherwise. */
  function Designs(obs: seq<Observation>): (r: seq<Option<seq<DesignRow>>>)
    ensures |r| == |obs|
    ensures forall k :: 0 <= k < |obs| ==> (r[k].Some? <==> obs[k].Ok? && obs[k].value.Some?)
    ensures forall k :: 0 <= k < |obs| && r[k].Some? ==> obs[k] == Ok(r[k])
  {
    seq(|obs|, k requires 0 <= k < |obs| => if obs[k].Ok? then obs[k].value else None)
  }

  /**
   * On success every observation query succeeded, and there is one
   * lightcurve per observed transient, in catalog order: the j-th is the
   * realization of the j-th observed transient, its table holds that
   * transient's design, and its `idx_orig` is that transient's index.
   */
  lemma SimulatedTagged(obs: seq<Observation>, g: Generator, instruments: map<string, Instrument>,
                        bias: Option<map<string, real>>, noises: nat -> (nat -> real))
    requires |obs| <= |g.transients|
    requires Simulated(obs, g, instruments, bias, noises).Ok?
    ensures forall k :: 0 <= k < |obs| ==> obs[k].Ok?
    ensures var lcs := Simulated(obs, g, instruments, bias, noises).value;
      var d := Designs(obs);
      var idx := Present(d, |obs|);
      && |lcs| == |idx|
      && (forall j :: 0 <= j < |lcs| ==>
            Realize(g.transients[idx[j]].params, d[idx[j]].value, instruments, bias, g.bandflux, noises(idx[j]), Some(idx[j]))
              == Ok(lcs[j]))
      && (forall j :: 0 <= j < |lcs| ==> Lookup(lcs[j].meta, "idx_orig") == Some(Int(idx[j])))
      && (forall j :: 0 <= j < |lcs| ==> lcs[j].body.design == d[idx[j]].value)
  {
    var results := Steps(obs, g, instruments, bias, noises);
    var lcs := Simulated(obs, g, instruments, bias, noises).value;
    var d := Designs(obs);
    GatheredSpec(results, |obs|);
    forall k | 0 <= k < |obs|
      ensures obs[k].Ok? && (results[k].Some? <==> d[k].Some?)
    {
      assert results[k] == StepAt(obs[k], g, instruments, bias, noises, k);
    }
    PresentAlike(results, d, |obs|);
    var idx := Present(d, |obs|);
    forall j | 0 <= j < |lcs|
      ensures Realize(g.transients[idx[j]].params, d[idx[j]].value, instruments, bias, g.bandflux, noises(idx[j]), Some(idx[j]))
                == Ok(lcs[j])
      ensures Lookup(lcs[j].meta, "idx_orig") == Some(Int(idx[j])) && lcs[j].body.design == d[idx[j]].value
    {
      var k := idx[j];
      assert obs[k] == Ok(d[k]);
      assert results[k] == Some(Ok(lcs[j]));
      RealizeMeta(g.transients[k].params, d[k].value, instruments, bias, g.bandflux, noises(k), Some(k));
      RealizeTable(g.transients[k].params, d[k].value, instruments, bias, g.bandflux, noises(k), Some(k));
    }
  }

  /**
   * On failure the error comes from transient k: its observation query
   * failed, or its lightcurve could not be realized; every transient before
   * it went through.
   */
  lemma SimulatedFails(obs: seq<Observation>, g: Generator, instruments: map<string, Instrument>,
                       bias: Option<map<string, real>>, noises: nat -> (nat -> real))
    requires |obs| <= |g.transients|
    requires Simulated(obs, g, instruments, bias, noises).Err?
    ensures var e := Simulated(obs, g, instruments, bias, noises).error;
      exists k :: 0 <= k < |obs|
        && Gathered(Steps(obs, g, instruments, bias, noises), k).Ok?
        && (obs[k] == Err(e)
            || (obs[k].Ok? && obs[k].value.Some?
                && Realize(g.transients[k].params, obs[k].value.value, instruments, bias, g.bandflux, noises(k), Some(k)) == Err(e)))
  {
    var results := Steps(obs, g, instruments, bias, noises);
    GatheredFails(results, |obs|);
    var e := Simulated(obs, g, instruments, bias, noises).error;
    var k :| 0 <= k < |obs| && Gathered(results, k).Ok? && results[k] == Some(Err(e));
    assert results[k] == StepAt(obs[k], g, instruments, bias, noises, k);
  }

  /**
   * The collection holds the lightcurves `sim`: their bodies in order, and
   * one metadata row each under the (non-empty) keys of the first, which
   * every one carries: the column of each key is the lightcurves' values.
   */
  ghost predicate Holds(lcs: LightcurveCollection<LcBody>, sim: seq<Lightcurve<LcBody>>)
    reads lcs
  {
    && lcs.Valid()
    && lcs.lcs == Bodies(sim)
    && (sim == [] <==> lcs.schema.None?)
    && (sim != [] ==> lcs.schema == Some(Keys(sim[0].meta)) && sim[0].meta != [])
    && (lcs.schema.Some? ==> Stores(lcs.schema.value, lcs.columns, Metas(sim)))
  }

  /** Row j of a collection holding `sim` reads back lightcurve j: its body, and its metadata on the schema keys. */
  lemma HoldsGet(lcs: LightcurveCollection<LcBody>, sim: seq<Lightcurve<LcBody>>, j: nat)
    requires Holds(lcs, sim) && j < |sim|
    ensures lcs.Get(j) == Ok(Lightcurve(sim[j].body, Project(lcs.schema.value, sim[j].meta)))
  {
    ReadBack(lcs, Metas(sim), j);
  }

  /** `lcs.add(lc)` for one realized lightcurve. */
  method AddRealized(lcs: LightcurveCollection<LcBody>, lc: Lightcurve<LcBody>, ghost sim: seq<Lightcurve<LcBody>>)
    returns (err: Option<CollectionError>)
    requires Holds(lcs, sim) && DistinctKeys(lc.meta)
    modifies lcs
    ensures lcs.WellFormed()
    ensures err.None? ==> Holds(lcs, sim + [lc])
  {
    ghost var before := if lcs.schema.None? then map k | k in Keys(lc.meta) :: [] else lcs.columns;
    ghost var ks := if lcs.schema.None? then Keys(lc.meta) else lcs.schema.value;
    ghost var bodies := lcs.lcs;
    assert Stores(ks, before, Metas(sim));
    assert Single(lc).Items() == [lc];
    assert Metas([lc]) == [lc.meta] && Bodies([lc]) == [lc.body];
    err := lcs.Add(Single(lc));
    if err.None? {
      assert lcs.lcs == bodies + [lc.body];
      assert lcs.schema == Some(ks);
      assert ks != [];
      StoresSnoc(ks, before, lcs.columns, Metas(sim), lc.meta);
      HoldsSnoc(lcs, sim, lc);
    }
  }

  /** A collection whose state is that of `sim` with `lc` added holds `sim + [lc]`. */
  lemma HoldsSnoc(lcs: LightcurveCollection<LcBody>, sim: seq<Lightcurve<LcBody>>, lc: Lightcurve<LcBody>)
    requires lcs.Valid() && lcs.lcs == Bodies(sim) + [lc.body]
    requires lcs.schema == Some(if sim == [] then Keys(lc.meta) else Keys(sim[0].meta))
    requires lcs.schema.value != [] && Stores(lcs.schema.value, lcs.columns, Metas(sim) + [lc.meta])
    requires sim != [] ==> sim[0].meta != []
    ensures Holds(lcs, sim + [lc])
  {
    BodiesMetasSnoc(sim, lc);
    var all := sim + [lc];
    assert all[0] == if sim == [] then lc else sim[0];
  }

  /**
   * Row j of a collection holding the simulated lightcurves is that of the
   * j-th observed transient k: its table holds k's design, and its
   * `idx_orig` reads back as k.
   */
  lemma CollectedTagged(lcs: LightcurveCollection<LcBody>, obs: seq<Observation>, g: Generator,
                        instruments: map<string, Instrument>, bias: Option<map<string, real>>,
                        noises: nat -> (nat -> real))
    requires |obs| <= |g.transients|
    requires Simulated(obs, g, instruments, bias, noises).Ok?
    requires Holds(lcs, Simulated(obs, g, instruments, bias, noises).value)
    ensures var idx := Present(Designs(obs), |obs|);
      && |lcs.lcs| == |idx|
      && forall j :: 0 <= j < |idx| ==>
           && lcs.Get(j).Ok?
           && lcs.Get(j).value.body.design == Designs(obs)[idx[j]].value
           && Lookup(lcs.Get(j).value.meta, "idx_orig") == Some(Int(idx[j]))
  {
    var sim := Simulated(obs, g, instruments, bias, noises).value;
    SimulatedTagged(obs, g, instruments, bias, noises);
    var idx := Present(Designs(obs), |obs|);
    forall j | 0 <= j < |idx|
      ensures && lcs.Get(j).Ok?
              && lcs.Get(j).value.body.design == Designs(obs)[idx[j]].value
              && Lookup(lcs.Get(j).value.meta, "idx_orig") == Some(Int(idx[j]))
    {
      HoldsGet(lcs, sim, j);
      var ks := lcs.schema.value;
      assert Lookup(sim[0].meta, "idx_orig").Some?;
      assert Metas(sim)[j] == sim[j].meta;
      ProjectLookup(ks, sim[j].meta, "idx_orig");
    }
  }

  /** One turn of the `get_lightcurves` loop: realize transient k when it was observed and add it. */
  method CollectOne(lcs: LightcurveCollection<LcBody>, obs: seq<Observation>, g: Generator,
                    instruments: map<string, Instrument>, bias: Option<map<string, real>>,
                    noises: nat -> (nat -> real), k: nat, ghost sim: seq<Lightcurve<LcBody>>)
    returns (err: Option<SurveyError>, ghost sim': seq<Lightcurve<LcBody>>)
    requires k < |obs| <= |g.transients|
    requires Holds(lcs, sim) && Gathered(Steps(obs, g, instruments, bias, noises), k) == Ok(sim)
    modifies lcs
    ensures lcs.WellFormed()
    ensures err.None? ==> Holds(lcs, sim') && Gathered(Steps(obs, g, instruments, bias, noises), k + 1) == Ok(sim')
    ensures err.Some? && !err.value.CollectionFailure? ==>
      Gathered(Steps(obs, g, instruments, bias, noises), k + 1) == Err(err.value)
  {
    ghost var results := Steps(obs, g, instruments, bias, noises);
    assert results[k] == StepAt(obs[k], g, instruments, bias, noises, k);
    err, sim' := None, sim;
    match obs[k]
    case Err(e) =>
      return Some(e), sim;
    case Ok(None) =>
    case Ok(Some(rows)) =>
      var lc := RealizeLightcurve(g.transients[k].params, rows, instruments, bias, g.bandflux, noises(k), Some(k));
      if lc.Err? {
        return Some(lc.error), sim;
      }
      var added := AddRealized(lcs, lc.value, sim);
      if added.Some? {
        return Some(CollectionFailure(added.value)), sim;
      }
      sim' := sim + [lc.value];
  }

  /**
   * The loop of `get_lightcurves`: for every transient the observation query
   * reaches, add its lightcurve to a fresh collection when it was observed,
   * stopping at the first error.
   */
  method Collect(obs: seq<Observation>, g: Generator, instruments: map<string, Instrument>,
                 bias: Option<map<string, real>>, noises: nat -> (nat -> real))
    returns (lcs: LightcurveCollection<LcBody>, err: Option<SurveyError>)
    requires |obs| <= |g.transients|
    ensures fresh(lcs) && lcs.WellFormed()
    ensures err.None? ==> Simulated(obs, g, instruments, bias, noises).Ok?
    ensures err.None? ==> Holds(lcs, Simulated(obs, g, instruments, bias, noises).value)
    ensures err.Some? && !err.value.CollectionFailure? ==> Simulated(obs, g, instruments, bias, noises) == Err(err.value)
  {
    lcs := new LightcurveCollection<LcBody>();
    err := None;
    ghost var results := Steps(obs, g, instruments, bias, noises);
    var k := 0;
    ghost var sim: seq<Lightcurve<LcBody>> := [];
    while k < |obs|
      invariant 0 <= k <= |obs|
      invariant fresh(lcs) && Holds(lcs, sim)
      invariant Gathered(results, k) == Ok(sim) && err.None?
    {
      err, sim := CollectOne(lcs, obs, g, instruments, bias, noises, k, sim);
      if err.Some? {
        if !err.value.CollectionFailure? {
          GatheredStops(results, k + 1, |obs|);
        }
        return;
      }
      k := k + 1;
    }
  }

  // ---------------------------------------------------------------------
  // The instrument registry and the blinded bias
  // ---------------------------------------------------------------------

  /** A dictionary entry that may be missing, present with the value None, or given. */
  datatype Setting<T> = Absent | Null | Given(value: T)

  /**
   * One entry of the `set_instruments` dictionary; `zpsys` and `err_calib`
   * are popped with the defaults "ab" and None.
   */
  datatype InstrumentSpec = InstrumentSpec(gain: Setting<real>, zp: Setting<real>, zpsys: Option<string>, errCalib: Option<real>)

  /** The instrument of a band in a registry that may not exist yet. */
  function Entry(reg: Option<map<string, Instrument>>, band: string): Option<Instrument> {
    if reg.Some? && band in reg.value then Some(reg.value[band]) else None
  }

  /** The registry once `add_instrument` has stored `inst` under `band`; an absent registry starts empty. */
  function Register(reg: Option<map<string, Instrument>>, band: string, inst: Instrument): (r: map<string, Instrument>)
    ensures band in r && r[band] == inst
    ensures forall b :: b != band ==> Entry(Some(r), b) == Entry(reg, b)
  {
    reg.GetOr(map[])[band := inst]
  }

  /**
   * What `set_instruments` makes of one entry: `gain` and then `zp` are
   * popped, a missing one raising a KeyError, and either being None raises
   * a ValueError.
   */
  function SpecInstrument(band: string, s: InstrumentSpec): (r: Result<Instrument, SurveyError>)
    ensures s.gain.Absent? ==> r == Err(MissingSetting(band, "gain"))
    ensures !s.gain.Absent? && s.zp.Absent? ==> r == Err(MissingSetting(band, "zp"))
    ensures !s.gain.Absent? && !s.zp.Absent? && (s.gain.Null? || s.zp.Null?) ==> r == Err(NullGainOrZp(band))
    ensures r.Ok? <==> s.gain.Given? && s.zp.Given?
    ensures r.Ok? ==> r.value.gain == s.gain.value && r.value.zp == s.zp.value && r.value.errCalib == s.errCalib
    ensures r.Ok? ==> r.value.zpsys == s.zpsys.GetOr("ab")
  {
    match (s.gain, s.zp)
    case (Absent, _) => Err(MissingSetting(band, "gain"))
    case (_, Absent) => Err(MissingSetting(band, "zp"))
    case (Given(gain), Given(zp)) => Ok(Instrument(gain, zp, s.zpsys.GetOr("ab"), s.errCalib))
    case _ => Err(NullGainOrZp(band))
  }

  /**
   * `set_instruments` over the dictionary's entries in iteration order:
   * each entry is installed, overwriting, until one is malformed, whose
   * error is raised with the earlier entries already installed.
   */
  function Installed(reg: Option<map<string, Instrument>>, entries: seq<(string, InstrumentSpec)>)
    : (Option<map<string, Instrument>>, Option<SurveyError>)
    decreases |entries|
  {
    if entries == [] then (reg, None)
    else
      match SpecInstrument(entries[0].0, entries[0].1)
      case Err(e) => (reg, Some(e))
      case Ok(inst) => Installed(Some(Register(reg, entries[0].0, inst)), entries[1..])
  }

  /** Every entry names its gain and zp. */
  predicate WellSpecified(entries: seq<(string, InstrumentSpec)>) {
    forall j :: 0 <= j < |entries| ==> SpecInstrument(entries[j].0, entries[j].1).Ok?
  }

  /** The bands of the entries. */
  function BandsOf(entries: seq<(string, InstrumentSpec)>): set<string> {
    set j | 0 <= j < |entries| :: entries[j].0
  }

  /** The entries come from a dictionary: no band twice. */
  predicate DistinctBands(entries: seq<(string, InstrumentSpec)>) {
    forall i, j :: 0 <= i < j < |entries| ==> entries[i].0 != entries[j].0
  }

  /** `set_instruments` raises exactly when some entry lacks its gain or zp. */
  lemma {:induction false} InstalledOk(reg: Option<map<string, Instrument>>, entries: seq<(string, InstrumentSpec)>)
    ensures Installed(reg, entries).1.None? <==> WellSpecified(entries)
    decreases |entries|
  {
    if entries != [] {
      var t := entries[1..];
      assert forall j :: 0 <= j < |t| ==> t[j] == entries[j + 1];
      if SpecInstrument(entries[0].0, entries[0].1).Ok? {
        InstalledOk(Some(Register(reg, entries[0].0, SpecInstrument(entries[0].0, entries[0].1).value)), t);
        if WellSpecified(t) {
          forall j | 0 <= j < |entries|
            ensures SpecInstrument(entries[j].0, entries[j].1).Ok?
          {
            if j > 0 {
              assert entries[j] == t[j - 1];
            }
          }
        }
      }
    }
  }

  /**
   * After a successful `set_instruments` the registry exists when it did
   * before or some entry was given, every given band maps to its entry's
   * instrument, and every other band keeps what it had.
   */
  lemma {:induction false} InstalledLookup(reg: Option<map<string, Instrument>>, entries: seq<(string, InstrumentSpec)>)
    requires WellSpecified(entries) && DistinctBands(entries)
    ensures var r := Installed(reg, entries).0;
      && (r.Some? <==> reg.Some? || entries != [])
      && (forall j :: 0 <= j < |entries| ==> Entry(r, entries[j].0) == Some(SpecInstrument(entries[j].0, entries[j].1).value))
      && (forall b :: b !in BandsOf(entries) ==> Entry(r, b) == Entry(reg, b))
    decreases |entries|
  {
    if entries != [] {
      var t := entries[1..];
      assert forall j :: 0 <= j < |t| ==> t[j] == entries[j + 1];
      var b0 := entries[0].0;
      var inst := SpecInstrument(b0, entries[0].1).value;
      var reg' := Some(Register(reg, b0, inst));
      assert WellSpecified(t);
      assert DistinctBands(t);
      InstalledLookup(reg', t);
      var r := Installed(reg, entries).0;
      assert r == Installed(reg', t).0;
      assert b0 !in BandsOf(t);
      forall j | 0 <= j < |entries|
        ensures Entry(r, entries[j].0) == Some(SpecInstrument(entries[j].0, entries[j].1).value)
      {
        if j > 0 {
          assert entries[j] == t[j - 1];
        }
      }
      forall b | b !in BandsOf(entries)
        ensures Entry(r, b) == Entry(reg, b)
      {
        assert b != b0;
        assert b !in BandsOf(t);
      }
    }
  }

  /**
   * When `set_instruments` raises, the error is that of the first entry
   * without its gain or zp, and the registry holds the entries before it.
   */
  lemma {:induction false} InstalledFails(reg: Option<map<string, Instrument>>, entries: seq<(string, InstrumentSpec)>)
    requires Installed(reg, entries).1.Some?
    ensures exists j :: (0 <= j < |entries| && WellSpecified(entries[..j])
      && SpecInstrument(entries[j].0, entries[j].1) == Err(Installed(reg, entries).1.value)
      && Installed(reg, entries).0 == Installed(reg, entries[..j]).0)
    decreases |entries|
  {
    var e0 := SpecInstrument(entries[0].0, entries[0].1);
    if e0.Err? {
      assert entries[..0] == [];
    } else {
      var t := entries[1..];
      var reg' := Some(Register(reg, entries[0].0, e0.value));
      InstalledFails(reg', t);
      var j' :| 0 <= j' < |t| && WellSpecified(t[..j'])
        && SpecInstrument(t[j'].0, t[j'].1) == Err(Installed(reg', t).1.value)
        && Installed(reg', t).0 == Installed(reg', t[..j']).0;
      var j := j' + 1;
      var p := entries[..j];
      assert p[0] == entries[0] && p[1..] == t[..j'];
      assert entries[j] == t[j'];
      forall i | 0 <= i < |p|
        ensures SpecInstrument(p[i].0, p[i].1).Ok?
      {
        if i > 0 {
          assert p[i] == t[..j'][i - 1];
        }
      }
    }
  }

  /** `np.random.uniform(-v, v)` given the unit-interval sample `u` it scales. */
  function Draw(v: real, u: real): real {
    -v + (v - -v) * u
  }

  /** A draw lies between -v and v: from -v inclusive to v exclusive, the other way round for a negative v. */
  lemma DrawBounds(v: real, u: real)
    requires 0.0 <= u < 1.0
    ensures v >= 0.0 ==> -v <= Draw(v, u) <= v
    ensures v > 0.0 ==> Draw(v, u) < v
    ensures v < 0.0 ==> v < Draw(v, u) <= -v
  {
    if v >= 0.0 {
      DrawNonNegative(v, u);
    } else {
      DrawNegative(v, u);
    }
  }

  /** For v >= 0 a draw lies in [-v, v], and below v when v > 0. */
  lemma DrawNonNegative(v: real, u: real)
    requires 0.0 <= u < 1.0 && v >= 0.0
    ensures -v <= Draw(v, u) <= v
    ensures v > 0.0 ==> Draw(v, u) < v
  {
    ScaledSample(v - -v, u);
  }

  /** For v < 0 a draw lies in (v, -v]. */
  lemma DrawNegative(v: real, u: real)
    requires 0.0 <= u < 1.0 && v < 0.0
    ensures v < Draw(v, u) <= -v
  {
    ScaledSample(v - -v, u);
  }

  /** Scaling a unit-interval sample by w lands between 0 and w. */
  lemma ScaledSample(w: real, u: real)
    requires 0.0 <= u < 1.0
    ensures w >= 0.0 ==> 0.0 <= w * u <= w
    ensures w > 0.0 ==> w * u < w
    ensures w < 0.0 ==> w < w * u <= 0.0
  {
    if w >= 0.0 {
      NonNegativeProduct(u, w);
      NonNegativeProduct(1.0 - u, w);
      assert (1.0 - u) * w == w - u * w;
      if w > 0.0 {
        PositiveProduct(1.0 - u, w);
      }
    } else {
      NonNegativeProduct(u, -w);
      PositiveProduct(1.0 - u, -w);
      assert (1.0 - u) * (-w) == u * w - w;
      assert u * (-w) == -(u * w);
    }
  }

  /**
   * `set_blinded_bias`: one draw per band, `u(b)` being the sample for band
   * b; with samples in [0, 1) every offset lies within its band's limit.
   */
  function BiasDraws(limits: map<string, real>, u: string -> real): (b: map<string, real>)
    ensures b.Keys == limits.Keys
    ensures forall k :: k in limits && 0.0 <= u(k) < 1.0 ==> -Abs(limits[k]) <= b[k] <= Abs(limits[k])
  {
    var b := map k | k in limits :: Draw(limits[k], u(k));
    forall k | k in limits && 0.0 <= u(k) < 1.0
      ensures -Abs(limits[k]) <= b[k] <= Abs(limits[k])
    {
      DrawBounds(limits[k], u(k));
    }
    b
  }

  // ---------------------------------------------------------------------
  // The cached per-transient selections
  // ---------------------------------------------------------------------

  /** The `obs_fields` cache after one read of the property: filled from `computed` when empty. */
  function ObsFieldsStep(cache: Option<seq<seq<int>>>, computed: Option<seq<seq<int>>>): Option<seq<seq<int>>> {
    if cache.None? then computed else cache
  }

  /**
   * The `non_field_obs` cache and its `exist` flag after one read of the
   * property: the selection is computed only when the cache is empty and
   * the flag is False, and the flag then records whether the cache is filled.
   */
  function NonFieldStep(cache: Option<seq<seq<nat>>>, exist: Option<bool>, computed: Option<seq<seq<nat>>>)
    : (Option<seq<seq<nat>>>, Option<bool>)
  {
    var c := if cache.None? && exist == Some(false) then computed else cache;
    (c, Some(c.Some?))
  }

  /** The cache and flag after `count` reads of the property with the plan and generator unchanged. */
  function NonFieldReads(cache: Option<seq<seq<nat>>>, exist: Option<bool>, computed: Option<seq<seq<nat>>>, count: nat)
    : (Option<seq<seq<nat>>>, Option<bool>)
  {
    if count == 0 then (cache, exist)
    else
      var s := NonFieldReads(cache, exist, computed, count - 1);
      NonFieldStep(s.0, s.1, computed)
  }

  /**
   * After `set_plan` empties the cache and the flag, the first read of
   * `non_field_obs` computes nothing and yields None for every transient;
   * every later read yields the computed selection.
   */
  lemma {:induction false} NonFieldAfterReset(computed: Option<seq<seq<nat>>>, count: nat, ntransient: nat)
    requires count >= 1
    ensures count == 1 ==> NonFieldReads(None, None, computed, count) == (None, Some(false))
    ensures count >= 2 ==> NonFieldReads(None, None, computed, count) == (computed, Some(computed.Some?))
    ensures var s := NonFieldReads(None, None, computed, count);
      NonFieldView(s.0, ntransient) == if count == 1 then seq(ntransient, k => None) else NonFieldView(computed, ntransient)
  {
    if count >= 2 {
      NonFieldAfterReset(computed, count - 1, ntransient);
    }
  }

  /** Once the selection is cached, reading `non_field_obs` changes nothing. */
  lemma {:induction false} NonFieldSettled(cache: seq<seq<nat>>, exist: Option<bool>, computed: Option<seq<seq<nat>>>, count: nat)
    requires count >= 1
    ensures NonFieldReads(Some(cache), exist, computed, count) == (Some(cache), Some(true))
  {
    if count >= 2 {
      NonFieldSettled(cache, exist, computed, count - 1);
    }
  }

  // ---------------------------------------------------------------------
  // The survey object
  // ---------------------------------------------------------------------

  /** `SimulSurvey`: the generator, plan and instruments, the blinded bias and the selection caches. */
  class SimulSurvey {
    var generator: Option<Generator>
    var plan: SurveyPlan?
    var instruments: Option<map<string, Instrument>>
    var blindedBias: Option<map<string, real>>
    var obsFields: Option<seq<seq<int>>>
    var nonFieldObs: Option<seq<seq<nat>>>
    var nonFieldExist: Option<bool>

    /** `SimulSurvey(empty=True)`: nothing set, every cache empty. */
    constructor Empty()
      ensures generator.None? && plan == null && instruments.None? && blindedBias.None?
      ensures obsFields.None? && nonFieldObs.None? && nonFieldExist.None?
    {
      generator := None;
      plan := null;
      instruments := None;
      blindedBias := None;
      obsFields := None;
      nonFieldObs := None;
      nonFieldExist := None;
    }

    /** `is_set`: generator, plan and instruments are all there. */
    predicate IsSet()
      reads this
    {
      instruments.Some? && generator.Some? && plan != null
    }

    /** `set_target_generator`. */
    method SetTargetGenerator(g: Generator)
      modifies this`generator
      ensures generator == Some(g)
    {
      generator := Some(g);
    }

    /** `set_plan`: replace the plan and empty both selection caches and the flag. */
    method SetPlan(p: SurveyPlan)
      modifies this`plan, this`obsFields, this`nonFieldObs, this`nonFieldExist
      ensures plan == p && obsFields.None? && nonFieldObs.None? && nonFieldExist.None?
    {
      plan := p;
      obsFields := None;
      nonFieldObs := None;
      nonFieldExist := None;
    }

    /**
     * `add_instrument`: store the instrument under its band, creating the
     * registry if needed; a known band is overwritten only with `forceIt`.
     */
    method AddInstrument(band: string, gain: real, zp: real, zpsys: string, errCalib: Option<real>, forceIt: bool)
      returns (err: Option<SurveyError>)
      modifies this`instruments
      ensures err.Some? <==> Entry(old(instruments), band).Some? && !forceIt
      ensures err.Some? ==> err.value == AlreadyDefined(band) && instruments == old(instruments)
      ensures err.None? ==> instruments == Some(Register(old(instruments), band, Instrument(gain, zp, zpsys, errCalib)))
    {
      if instruments.None? {
        instruments := Some(map[]);
      }
      if band in instruments.value && !forceIt {
        return Some(AlreadyDefined(band));
      }
      instruments := Some(instruments.value[band := Instrument(gain, zp, zpsys, errCalib)]);
      err := None;
    }

    /** `set_instruments`: install the entries in order through `add_instrument` with `force_it`. */
    method SetInstruments(entries: seq<(string, InstrumentSpec)>) returns (err: Option<SurveyError>)
      modifies this`instruments
      ensures (instruments, err) == Installed(old(instruments), entries)
    {
      var k := 0;
      while k < |entries|
        invariant 0 <= k <= |entries|
        invariant Installed(instruments, entries[k..]) == Installed(old(instruments), entries)
      {
        var rest := entries[k..];
        assert rest[0] == entries[k] && rest[1..] == entries[k + 1..];
        var inst := SpecInstrument(entries[k].0, entries[k].1);
        if inst.Err? {
          return Some(inst.error);
        }
        err := AddInstrument(entries[k].0, inst.value.gain, inst.value.zp, inst.value.zpsys, inst.value.errCalib, true);
        k := k + 1;
      }
      err := None;
    }

    /** `set_blinded_bias`, with `u(b)` the unit-interval sample drawn for band b. */
    method SetBlindedBias(limits: map<string, real>, u: string -> real)
      modifies this`blindedBias
      ensures blindedBias == Some(BiasDraws(limits, u))
    {
      blindedBias := Some(BiasDraws(limits, u));
    }

    /** `create`: set whatever is given, in the order generator, plan, instruments, blinded bias. */
    method Create(g: Option<Generator>, p: SurveyPlan?, instprop: Option<seq<(string, InstrumentSpec)>>,
                  bias: Option<map<string, real>>, u: string -> real) returns (err: Option<SurveyError>)
      modifies this
      ensures generator == if g.Some? then g else old(generator)
      ensures p != null ==> plan == p && obsFields.None? && nonFieldObs.None? && nonFieldExist.None?
      ensures p == null ==> plan == old(plan) && obsFields == old(obsFields)
                            && nonFieldObs == old(nonFieldObs) && nonFieldExist == old(nonFieldExist)
      ensures instprop.Some? ==> (instruments, err) == Installed(old(instruments), instprop.value)
      ensures instprop.None? ==> instruments == old(instruments) && err.None?
      ensures blindedBias == if err.None? && bias.Some? then Some(BiasDraws(bias.value, u)) else old(blindedBias)
    {
      if g.Some? {
        SetTargetGenerator(g.value);
      }
      if p != null {
        SetPlan(p);
      }
      err := None;
      if instprop.Some? {
        err := SetInstruments(instprop.value);
        if err.Some? {
          return;
        }
      }
      if bias.Some? {
        SetBlindedBias(bias.value, u);
      }
    }

    /** The `obs_fields` property: fill the cache from the plan when it is empty. */
    method ObsFields() returns (r: Option<seq<seq<int>>>)
      requires plan != null && generator.Some?
      modifies this`obsFields
      ensures obsFields == ObsFieldsStep(old(obsFields), plan.GetObsFields(Positions(generator.value)))
      ensures r == obsFields
    {
      if obsFields.None? {
        obsFields := plan.GetObsFields(Positions(generator.value));
      }
      r := obsFields;
    }

    /**
     * The `non_field_obs` property: one step of the cache, then the cached
     * selection, or None for every transient when the flag is False.
     */
    method NonFieldObs() returns (r: seq<Option<seq<int>>>)
      requires plan != null && generator.Some?
      modifies this`nonFieldObs, this`nonFieldExist
      ensures (nonFieldObs, nonFieldExist)
        == NonFieldStep(old(nonFieldObs), old(nonFieldExist), Matching(Sentinels(plan.cadence), Positions(generator.value), plan.covers))
      ensures r == NonFieldView(nonFieldObs, |generator.value.transients|)
    {
      if nonFieldObs.None? && nonFieldExist == Some(false) {
        nonFieldObs := plan.GetNonFieldObs(Positions(generator.value));
      }
      nonFieldExist := Some(nonFieldObs.Some?);
      r := NonFieldView(nonFieldObs, |generator.value.transients|);
    }

    /** What `_get_observations_` yields from the current caches once its checks pass. */
    function Observations(): (r: Result<seq<Observation>, SurveyError>)
      reads this, plan
      requires plan != null && instruments.Some? && generator.Some?
      ensures r.Ok? ==> |r.value| <= |generator.value.transients|
    {
      if !BandsKnown(plan.cadence, instruments.value) then Err(UnknownBand)
      else if obsFields.None? then Err(NoFieldIds)
      else
        var n := NonFieldView(nonFieldObs, |generator.value.transients|);
        Ok(DesignResults(plan.cadence, instruments.value, generator.value, obsFields.value, n,
                         Min3(|obsFields.value|, |n|, |generator.value.transients|)))
    }

    /**
     * `_get_observations_` up to its loop: check the plan, instruments and
     * bands, read both cached selections, and fail when there are no field
     * ids to zip.
     */
    method GetObservations() returns (r: Result<seq<Observation>, SurveyError>)
      modifies this`obsFields, this`nonFieldObs, this`nonFieldExist
      ensures plan == null || instruments.None? ==> r == Err(NotSet) && unchanged(this)
      ensures plan != null && instruments.Some? && !BandsKnown(plan.cadence, instruments.value) ==>
        r == Err(UnknownBand) && unchanged(this)
      ensures plan != null && instruments.Some? && BandsKnown(plan.cadence, instruments.value) && generator.None? ==>
        r == Err(NotSet) && unchanged(this)
      ensures IsSet() && BandsKnown(plan.cadence, instruments.value) ==>
        && obsFields == ObsFieldsStep(old(obsFields), plan.GetObsFields(Positions(generator.value)))
        && (nonFieldObs, nonFieldExist)
             == NonFieldStep(old(nonFieldObs), old(nonFieldExist), Matching(Sentinels(plan.cadence), Positions(generator.value), plan.covers))
        && r == Observations()
    {
      if plan == null || instruments.None? {
        return Err(NotSet);
      }
      if !BandsKnown(plan.cadence, instruments.value) {
        return Err(UnknownBand);
      }
      if generator.None? {
        return Err(NotSet);
      }
      var f := ObsFields();
      var n := NonFieldObs();
      if f.None? {
        return Err(NoFieldIds);
      }
      var g := generator.value;
      r := Ok(DesignResults(plan.cadence, instruments.value, g, f.value, n, Min3(|f.value|, |n|, |g.transients|)));
    }

    /**
     * `get_lightcurves`: with everything set, realize and collect the
     * lightcurve of every observed transient. The observation query runs
     * lazily, so with no transient it never runs; with the progress bar
     * both caches are first assigned from the plan.
     */
    method GetLightcurves(progressBar: bool, noises: nat -> (nat -> real))
      returns (r: Result<LightcurveCollection<LcBody>, SurveyError>)
      modifies this`obsFields, this`nonFieldObs, this`nonFieldExist
      ensures !IsSet() ==> r == Err(NotSet) && unchanged(this)
      ensures r.Ok? ==> fresh(r.value) && r.value.WellFormed()
      ensures IsSet() && generator.value.transients == [] ==> r.Ok? && Holds(r.value, [])
      ensures IsSet() && generator.value.transients == [] && !progressBar ==> unchanged(this)
      ensures IsSet() && generator.value.transients == [] && progressBar ==>
        && obsFields == plan.GetObsFields(Positions(generator.value))
        && nonFieldObs == Matching(Sentinels(plan.cadence), Positions(generator.value), plan.covers)
        && nonFieldExist == old(nonFieldExist)
      ensures IsSet() && generator.value.transients != [] ==>
        var o := Observations();
        && (o.Err? ==> r == Err(o.error))
        && (o.Ok? && r.Ok? ==>
              && Simulated(o.value, generator.value, instruments.value, blindedBias, noises).Ok?
              && Holds(r.value, Simulated(o.value, generator.value, instruments.value, blindedBias, noises).value))
        && (o.Ok? && r.Err? && !r.error.CollectionFailure? ==>
              Simulated(o.value, generator.value, instruments.value, blindedBias, noises) == Err(r.error))
      ensures IsSet() && generator.value.transients != [] ==>
        var positions := Positions(generator.value);
        var matches := Matching(Sentinels(plan.cadence), positions, plan.covers);
        var f0 := if progressBar then plan.GetObsFields(positions) else old(obsFields);
        var n0 := if progressBar then matches else old(nonFieldObs);
        if BandsKnown(plan.cadence, instruments.value) then
          && obsFields == ObsFieldsStep(f0, plan.GetObsFields(positions))
          && (nonFieldObs, nonFieldExist) == NonFieldStep(n0, old(nonFieldExist), matches)
        else
          obsFields == f0 && nonFieldObs == n0 && nonFieldExist == old(nonFieldExist)
    {
      if !IsSet() {
        return Err(NotSet);
      }
      var g := generator.value;
      if progressBar {
        obsFields := plan.GetObsFields(Positions(g));
        nonFieldObs := plan.GetNonFieldObs(Positions(g));
      }
      if g.transients == [] {
        var lcs := new LightcurveCollection<LcBody>();
        return Ok(lcs);
      }
      var obs := GetObservations();
      if obs.Err? {
        return Err(obs.error);
      }
      var lcs, err := Collect(obs.value, g, instruments.value, blindedBias, noises);
      if err.Some? {
        return Err(err.value);
      }
      r := Ok(lcs);
    }
  }
}
