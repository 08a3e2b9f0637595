/** The code tables of the two designers: minimum curve radius
    (IS 5968:1987, clause 8.1, Table 1), freeboard (IS 10430:2000, Table 1)
    and side slope by lining type (IS 10430:2000, Table 2). The fixed-ratio
    designer writes the tables as if/elif chains; the jax optimizer writes
    them as `jnp.digitize` lookups into value arrays. Both forms are here,
    with the proof that they agree for every discharge. */
module CodeTables {

  /** Minimum curve radius in metres for discharge `q` in cumecs (if/elif form). */
  function MinRadius(q: real): (r: real)
    ensures 100.0 <= r <= 1500.0
  {
    if q < 0.3 then 100.0
    else if q < 3.0 then 150.0
    else if q < 15.0 then 300.0
    else if q < 30.0 then 600.0
    else if q < 80.0 then 1000.0
    else 1500.0
  }

  /** Freeboard in metres for discharge `q` in cumecs (if/elif form). */
  function Freeboard(q: real): (fb: real)
    ensures 0.3 <= fb <= 0.75
  {
    if q < 0.75 then 0.3
    else if q < 1.5 then 0.5
    else if q < 85.0 then 0.6
    else 0.75
  }

  /** Side slope (horizontal : vertical): 1.5 for concrete lining, 1.0 for any other. */
  function SideSlope(liningType: string): (s: real)
    ensures s == 1.5 <==> liningType == "concrete"
    ensures liningType != "concrete" ==> s == 1.0
  {
    if liningType == "concrete" then 1.5 else 1.0
  }

  /** Strictly increasing sequences: the only bins `jnp.digitize` is given here. */
  ghost predicate Increasing(s: seq<real>)
  {
    forall i, j :: 0 <= i < j < |s| ==> s[i] < s[j]
  }

  /** `jnp.digitize(x, bins)` with its default `right=False`: the number of
      bins at or below `x`. For increasing bins that is the index `k` with
      `bins[k-1] <= x < bins[k]`. */
  function Digitize(x: real, bins: seq<real>): (k: nat)
    ensures k <= |bins|
    ensures Increasing(bins) ==>
              (forall j :: 0 <= j < k ==> bins[j] <= x) &&
              (forall j :: k <= j < |bins| ==> x < bins[j])
  {
    if bins == [] then 0
    else
      assert Increasing(bins) ==> Increasing(bins[1..]);
      (if bins[0] <= x then 1 else 0) + Digitize(x, bins[1..])
  }

  /** The digitize index does not decrease as `x` grows. */
  lemma {:induction false} DigitizeMonotone(a: real, b: real, bins: seq<real>)
    requires a <= b
    ensures Digitize(a, bins) <= Digitize(b, bins)
  {
    if bins != [] {
      DigitizeMonotone(a, b, bins[1..]);
    }
  }

  const RADIUS_BINS: seq<real> := [0.3, 3.0, 15.0, 30.0, 80.0]
  const RADIUS_VALUES: seq<real> := [100.0, 150.0, 300.0, 600.0, 1000.0, 1500.0]
  const FREEBOARD_BINS: seq<real> := [0.75, 1.5, 85.0]
  const FREEBOARD_VALUES: seq<real> := [0.3, 0.5, 0.6, 0.75]

  /** The radius lookup index is always a valid index into the six radius values. */
  lemma RadiusIndexInBounds(q: real)
    ensures Digitize(q, RADIUS_BINS) <= 5 < |RADIUS_VALUES|
  {
  }

  /** The freeboard lookup index is always a valid index into the four freeboard values. */
  lemma FreeboardIndexInBounds(q: real)
    ensures Digitize(q, FREEBOARD_BINS) <= 3 < |FREEBOARD_VALUES|
  {
  }

  /** `get_is_min_radius`: agrees with the if/elif chain for every discharge,
      at each threshold included. */
  function GetIsMinRadius(q: real): (r: real)
    ensures r == MinRadius(q)
  {
    assert Increasing(RADIUS_BINS);
    var k := Digitize(q, RADIUS_BINS);
    assert k >= 1 ==> RADIUS_BINS[k - 1] <= q;
    assert k < |RADIUS_BINS| ==> q < RADIUS_BINS[k];
    RADIUS_VALUES[k]
  }

  /** `get_is_freeboard`: agrees with the if/elif chain for every discharge. */
  function GetIsFreeboard(q: real): (fb: real)
    ensures fb == Freeboard(q)
  {
    assert Increasing(FREEBOARD_BINS);
    var k := Digitize(q, FREEBOARD_BINS);
    assert k >= 1 ==> FREEBOARD_BINS[k - 1] <= q;
    assert k < |FREEBOARD_BINS| ==> q < FREEBOARD_BINS[k];
    FREEBOARD_VALUES[k]
  }

  /** The minimum radius never decreases as the discharge grows; proved on the
      digitize form, whose index is monotone and whose values are increasing. */
  lemma MinRadiusMonotone(a: real, b: real)
    requires a <= b
    ensures MinRadius(a) <= MinRadius(b)
  {
    DigitizeMonotone(a, b, RADIUS_BINS);
    var i, j := Digitize(a, RADIUS_BINS), Digitize(b, RADIUS_BINS);
    assert RADIUS_VALUES[i] <= RADIUS_VALUES[j];
    assert GetIsMinRadius(a) == RADIUS_VALUES[i] && GetIsMinRadius(b) == RADIUS_VALUES[j];
  }

  /** The freeboard never decreases as the discharge grows. */
  lemma FreeboardMonotone(a: real, b: real)
    requires a <= b
    ensures Freeboard(a) <= Freeboard(b)
  {
    DigitizeMonotone(a, b, FREEBOARD_BINS);
    var i, j := Digitize(a, FREEBOARD_BINS), Digitize(b, FREEBOARD_BINS);
    assert FREEBOARD_VALUES[i] <= FREEBOARD_VALUES[j];
    assert GetIsFreeboard(a) == FREEBOARD_VALUES[i] && GetIsFreeboard(b) == FREEBOARD_VALUES[j];
  }

  /** The radius table, interval by interval: right-open intervals between the thresholds. */
  lemma MinRadiusIntervals(q: real)
    ensures MinRadius(q) == 100.0 <==> q < 0.3
    ensures MinRadius(q) == 150.0 <==> 0.3 <= q < 3.0
    ensures MinRadius(q) == 300.0 <==> 3.0 <= q < 15.0
    ensures MinRadius(q) == 600.0 <==> 15.0 <= q < 30.0
    ensures MinRadius(q) == 1000.0 <==> 30.0 <= q < 80.0
    ensures MinRadius(q) == 1500.0 <==> 80.0 <= q
  {
  }

  /** The freeboard table, interval by interval. */
  lemma FreeboardIntervals(q: real)
    ensures Freeboard(q) == 0.3 <==> q < 0.75
    ensures Freeboard(q) == 0.5 <==> 0.75 <= q < 1.5
    ensures Freeboard(q) == 0.6 <==> 1.5 <= q < 85.0
    ensures Freeboard(q) == 0.75 <==> 85.0 <= q
  {
  }
}
