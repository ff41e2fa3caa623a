/**
 * The noise model of one transient's lightcurve: the per-row variance and
 * the flux covariance matrix with its fully correlated calibration term per
 * band, and the per-row blinded-bias lookup.
 */
module Noise {
  import opened Wrappers

  /** One entry of the instrument registry. `errCalib == None` means no correlated calibration term. */
  datatype Instrument = Instrument(gain: real, zp: real, zpsys: string, errCalib: Option<real>)

  /** One row of an observation design: a pointing with its instrument's gain, zp and zpsys. */
  datatype DesignRow = DesignRow(time: real, band: string, skynoise: real, gain: real, zp: real, zpsys: string)

  function Abs(x: real): (r: real)
    ensures r >= 0.0 && (r == x || r == -x)
  {
    if x < 0.0 then -x else x
  }

  /** Every row's band has an instrument entry and a non-zero gain. */
  predicate Registered(rows: seq<DesignRow>, instruments: map<string, Instrument>) {
    forall i :: 0 <= i < |rows| ==> rows[i].band in instruments && rows[i].gain != 0.0
  }

  /** Sky plus Poisson variance of one row, `skynoise^2 + |flux| / gain` (the source's `fluxerr**2`). */
  function BaseVariance(row: DesignRow, flux: real): real
    requires row.gain != 0.0
  {
    row.skynoise * row.skynoise + Abs(flux) / row.gain
  }

  /** Whether rows i and j share a band that carries a calibration error. */
  predicate Correlated(rows: seq<DesignRow>, instruments: map<string, Instrument>, i: nat, j: nat)
    requires i < |rows| && j < |rows| && Registered(rows, instruments)
  {
    rows[i].band == rows[j].band && instruments[rows[i].band].errCalib.Some?
  }

  /** The calibration term of entry (i, j): `flux_i * flux_j * e^2` for a shared band with error e, else 0. */
  function CalibTerm(rows: seq<DesignRow>, flux: seq<real>, instruments: map<string, Instrument>, i: nat, j: nat): real
    requires |flux| == |rows| && i < |rows| && j < |rows| && Registered(rows, instruments)
  {
    if Correlated(rows, instruments, i, j) then
      var e := instruments[rows[i].band].errCalib.value;
      flux[i] * flux[j] * (e * e)
    else 0.0
  }

  /** Entry (i, j) of the flux covariance matrix that `_get_lightcurve_` assembles. */
  function Covariance(rows: seq<DesignRow>, flux: seq<real>, instruments: map<string, Instrument>, i: nat, j: nat): real
    requires |flux| == |rows| && i < |rows| && j < |rows| && Registered(rows, instruments)
  {
    (if i == j then BaseVariance(rows[i], flux[i]) else 0.0) + CalibTerm(rows, flux, instruments, i, j)
  }

  /** The entry after only the bands in `done` have added their calibration terms. */
  ghost function Partial(rows: seq<DesignRow>, flux: seq<real>, instruments: map<string, Instrument>,
                         done: set<string>, i: nat, j: nat): real
    requires |flux| == |rows| && i < |rows| && j < |rows| && Registered(rows, instruments)
  {
    (if i == j then BaseVariance(rows[i], flux[i]) else 0.0)
    + (if rows[i].band in done then CalibTerm(rows, flux, instruments, i, j) else 0.0)
  }

  /** The bands occurring in the rows (`set(obs['band'])`). */
  function Bands(rows: seq<DesignRow>): set<string> {
    set i | 0 <= i < |rows| :: rows[i].band
  }

  /** Some row's band carries a calibration error (the `save_cov` flag). */
  predicate AnyCalibrated(rows: seq<DesignRow>, instruments: map<string, Instrument>)
    requires Registered(rows, instruments)
  {
    exists i :: 0 <= i < |rows| && instruments[rows[i].band].errCalib.Some?
  }

  /** The matrix is symmetric. */
  lemma CovarianceSymmetric(rows: seq<DesignRow>, flux: seq<real>, instruments: map<string, Instrument>, i: nat, j: nat)
    requires |flux| == |rows| && i < |rows| && j < |rows| && Registered(rows, instruments)
    ensures Covariance(rows, flux, instruments, i, j) == Covariance(rows, flux, instruments, j, i)
  {
    if Correlated(rows, instruments, i, j) {
      var e := instruments[rows[i].band].errCalib.value;
      assert flux[i] * flux[j] * (e * e) == flux[j] * flux[i] * (e * e);
    }
  }

  /**
   * Off the diagonal the entry is the calibration term of a shared band with
   * an error, and 0 otherwise; on the diagonal it is the row's variance plus
   * `flux_i^2 * e^2` when its band has error e.
   */
  lemma CovarianceEntries(rows: seq<DesignRow>, flux: seq<real>, instruments: map<string, Instrument>, i: nat, j: nat)
    requires |flux| == |rows| && i < |rows| && j < |rows| && Registered(rows, instruments)
    ensures i != j && rows[i].band == rows[j].band && instruments[rows[i].band].errCalib.Some? ==>
      var e := instruments[rows[i].band].errCalib.value;
      Covariance(rows, flux, instruments, i, j) == flux[i] * flux[j] * e * e
    ensures i != j && (rows[i].band != rows[j].band || instruments[rows[i].band].errCalib.None?) ==>
      Covariance(rows, flux, instruments, i, j) == 0.0
    ensures i == j && instruments[rows[i].band].errCalib.None? ==>
      Covariance(rows, flux, instruments, i, i) == rows[i].skynoise * rows[i].skynoise + Abs(flux[i]) / rows[i].gain
    ensures i == j && instruments[rows[i].band].errCalib.Some? ==>
      var e := instruments[rows[i].band].errCalib.value;
      Covariance(rows, flux, instruments, i, i)
        == rows[i].skynoise * rows[i].skynoise + Abs(flux[i]) / rows[i].gain + flux[i] * flux[i] * e * e
  {
  }

  /** Two "r" epochs with calibration error 0.01 and model fluxes 100 and 120 correlate by exactly 1.2. */
  lemma CalibrationScenario()
    ensures var rows := [DesignRow(0.0, "r", 0.1, 1.0, 30.0, "ab"), DesignRow(10.0, "r", 0.1, 1.0, 30.0, "ab")];
            var instruments := map["r" := Instrument(1.0, 30.0, "ab", Some(0.01))];
            Registered(rows, instruments) && Covariance(rows, [100.0, 120.0], instruments, 0, 1) == 1.2
  {
  }

  /** The calibration term of band `b` with error `err` at (i, j): nonzero only when both rows are in `b`. */
  function BandTerm(rows: seq<DesignRow>, flux: seq<real>, b: string, err: real, i: nat, j: nat): real
    requires |flux| == |rows| && i < |rows| && j < |rows|
  {
    if rows[i].band == b && rows[j].band == b then flux[i] * flux[j] * (err * err) else 0.0
  }

  /** The inner loop `for k1 in idx`: add row k0's calibration terms against every row of band `b`. */
  method AddRowTerms(cov: array2<real>, rows: seq<DesignRow>, flux: seq<real>, b: string, err: real, k0: nat)
    requires |flux| == |rows| && cov.Length0 == |rows| && cov.Length1 == |rows|
    requires k0 < |rows| && rows[k0].band == b
    modifies cov
    ensures forall i, j :: 0 <= i < |rows| && 0 <= j < |rows| ==>
      cov[i, j] == old(cov[i, j]) + (if i == k0 then BandTerm(rows, flux, b, err, i, j) else 0.0)
  {
    var n := |rows|;
    var k1 := 0;
    while k1 < n
      invariant 0 <= k1 <= n
      invariant forall i, j :: 0 <= i < n && 0 <= j < n ==>
        cov[i, j] == old(cov[i, j]) + (if i == k0 && j < k1 then BandTerm(rows, flux, b, err, i, j) else 0.0)
    {
      if rows[k1].band == b {
        cov[k0, k1] := cov[k0, k1] + flux[k0] * flux[k1] * (err * err);
      }
      k1 := k1 + 1;
    }
  }

  /** The double loop over the rows of band `b`: add its calibration term to every pair of them. */
  method AddBandTerms(cov: array2<real>, rows: seq<DesignRow>, flux: seq<real>, b: string, err: real)
    requires |flux| == |rows| && cov.Length0 == |rows| && cov.Length1 == |rows|
    modifies cov
    ensures forall i, j :: 0 <= i < |rows| && 0 <= j < |rows| ==>
      cov[i, j] == old(cov[i, j]) + BandTerm(rows, flux, b, err, i, j)
  {
    var n := |rows|;
    var k0 := 0;
    while k0 < n
      invariant 0 <= k0 <= n
      invariant forall i, j :: 0 <= i < n && 0 <= j < n ==>
        cov[i, j] == old(cov[i, j]) + (if i < k0 then BandTerm(rows, flux, b, err, i, j) else 0.0)
    {
      if rows[k0].band == b {
        AddRowTerms(cov, rows, flux, b, err, k0);
      }
      k0 := k0 + 1;
    }
  }

  /**
   * The covariance assembly of `_get_lightcurve_`: start from the diagonal
   * of variances, then for every band with a calibration error add the
   * calibration term to every pair of its rows, in place; `saveCov` records
   * whether any band did.
   */
  method BuildCovariance(rows: seq<DesignRow>, flux: seq<real>, instruments: map<string, Instrument>)
    returns (cov: array2<real>, saveCov: bool)
    requires |flux| == |rows| && Registered(rows, instruments)
    ensures cov.Length0 == |rows| && cov.Length1 == |rows|
    ensures forall i, j :: 0 <= i < |rows| && 0 <= j < |rows| ==> cov[i, j] == Covariance(rows, flux, instruments, i, j)
    ensures saveCov <==> AnyCalibrated(rows, instruments)
  {
    var n := |rows|;
    cov := new real[n, n]((i, j) requires 0 <= i < n && 0 <= j < n =>
      if i == j then BaseVariance(rows[i], flux[i]) else 0.0);
    saveCov := false;
    var todo := Bands(rows);
    ghost var done: set<string> := {};
    while todo != {}
      invariant cov.Length0 == n && cov.Length1 == n
      invariant todo + done == Bands(rows) && todo !! done
      invariant forall i, j :: 0 <= i < n && 0 <= j < n ==> cov[i, j] == Partial(rows, flux, instruments, done, i, j)
      invariant saveCov <==> exists b :: b in done && instruments[b].errCalib.Some?
      decreases todo
    {
      var b :| b in todo;
      assert b in instruments by {
        var i :| 0 <= i < n && rows[i].band == b;
      }
      if instruments[b].errCalib.Some? {
        saveCov := true;
        var err := instruments[b].errCalib.value;
        AddBandTerms(cov, rows, flux, b, err);
        forall i, j | 0 <= i < n && 0 <= j < n
          ensures Partial(rows, flux, instruments, done + {b}, i, j)
                  == Partial(rows, flux, instruments, done, i, j) + BandTerm(rows, flux, b, err, i, j)
        {
        }
      } else {
        forall i, j | 0 <= i < n && 0 <= j < n
          ensures Partial(rows, flux, instruments, done + {b}, i, j) == Partial(rows, flux, instruments, done, i, j)
        {
        }
      }
      done := done + {b};
      todo := todo - {b};
    }
    forall i, j | 0 <= i < n && 0 <= j < n
      ensures cov[i, j] == Covariance(rows, flux, instruments, i, j)
    {
      assert rows[i].band in Bands(rows);
    }
    if saveCov {
      ghost var b :| b in done && instruments[b].errCalib.Some?;
      ghost var i :| 0 <= i < n && rows[i].band == b;
    }
    if AnyCalibrated(rows, instruments) {
      ghost var i :| 0 <= i < n && instruments[rows[i].band].errCalib.Some?;
      assert rows[i].band in Bands(rows);
    }
  }

  /** The blinded bias of a band: its entry in the bias map, 0 for bands without one or when none is set. */
  function BiasFor(bias: Option<map<string, real>>, band: string): (r: real)
    ensures bias.Some? && band in bias.value ==> r == bias.value[band]
    ensures (bias.None? || band !in bias.value) ==> r == 0.0
  {
    if bias.Some? && band in bias.value then bias.value[band] else 0.0
  }
}
