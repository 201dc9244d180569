/**
  The sky catalogue and the radius filter that cuts it down to the
  field of one scale.

  A catalogue is an immutable sequence of sources, so filtering cannot
  change the catalogue it reads. The angular separation between two sky
  directions is computed by the simulation engine and enters here as an
  uninterpreted function.
 */
module SkyModel {
  import ScaleConfig

  /** One catalogue row: right ascension and declination in degrees, and flux. */
  datatype Source = Source(raDeg: real, decDeg: real, flux: real)

  /** Angular separation in degrees between (ra1, dec1) and (ra2, dec2). */
  type Separation = (real, real, real, real) -> real

  /** The ring of sky kept by a filter: separations from the centre
      between `innerDeg` and `outerDeg`, both ends included. */
  datatype Annulus = Annulus(ra0Deg: real, dec0Deg: real, innerDeg: real, outerDeg: real)

  predicate Keeps(region: Annulus, sep: Separation, s: Source)
  {
    region.innerDeg <= sep(region.ra0Deg, region.dec0Deg, s.raDeg, s.decDeg) <= region.outerDeg
  }

  /** `a` is `b` with some elements left out, the rest in the same order. */
  predicate IsSubsequence<T(==)>(a: seq<T>, b: seq<T>)
    decreases |b|
  {
    if |a| == 0 then true
    else if |b| == 0 then false
    else (a[0] == b[0] && IsSubsequence(a[1..], b[1..])) || IsSubsequence(a, b[1..])
  }

  /** The sources of `sky` inside `region`, in catalogue order. */
  function FilterByRadius(sky: seq<Source>, region: Annulus, sep: Separation): (r: seq<Source>)
    ensures IsSubsequence(r, sky)
    ensures forall i :: 0 <= i < |r| ==> Keeps(region, sep, r[i])
  {
    if |sky| == 0 then []
    else if Keeps(region, sep, sky[0]) then [sky[0]] + FilterByRadius(sky[1..], region, sep)
    else FilterByRadius(sky[1..], region, sep)
  }

  /** Every element of a subsequence is an element of the whole. */
  lemma {:induction false} SubsequenceMembers<T>(a: seq<T>, b: seq<T>)
    requires IsSubsequence(a, b)
    ensures forall x :: x in a ==> x in b
    decreases |b|
  {
    if |a| == 0 {
    } else if a[0] == b[0] && IsSubsequence(a[1..], b[1..]) {
      SubsequenceMembers(a[1..], b[1..]);
      assert forall x :: x in a ==> x == a[0] || x in a[1..];
    } else {
      SubsequenceMembers(a, b[1..]);
    }
  }

  /** The filter keeps a source exactly when it is in the catalogue and
      inside the region. */
  lemma {:induction false} FilterMembership(sky: seq<Source>, region: Annulus, sep: Separation, x: Source)
    ensures x in FilterByRadius(sky, region, sep) <==> x in sky && Keeps(region, sep, x)
  {
    if |sky| > 0 {
      FilterMembership(sky[1..], region, sep, x);
      assert sky == [sky[0]] + sky[1..];
    }
  }

  /** The filter keeps every copy of a source inside the region and no
      copy of one outside it. */
  lemma {:induction false} FilterMultiset(sky: seq<Source>, region: Annulus, sep: Separation, x: Source)
    ensures multiset(FilterByRadius(sky, region, sep))[x]
              == if Keeps(region, sep, x) then multiset(sky)[x] else 0
  {
    if |sky| > 0 {
      FilterMultiset(sky[1..], region, sep, x);
      assert sky == [sky[0]] + sky[1..];
      assert multiset(sky) == multiset{sky[0]} + multiset(sky[1..]);
    }
  }

  /** Filtering a catalogue one row longer appends that row when it is kept. */
  lemma {:induction false} FilterAppend(sky: seq<Source>, x: Source, region: Annulus, sep: Separation)
    ensures FilterByRadius(sky + [x], region, sep)
              == FilterByRadius(sky, region, sep) + (if Keeps(region, sep, x) then [x] else [])
  {
    if |sky| > 0 {
      assert (sky + [x])[1..] == sky[1..] + [x];
      FilterAppend(sky[1..], x, region, sep);
    } else {
      assert sky + [x] == [x];
    }
  }

  /** Widening the outer radius about the same centre only adds sources:
      the narrower field is a subsequence of the wider one. */
  lemma {:induction false} FilterMonotone(sky: seq<Source>, narrow: Annulus, wide: Annulus, sep: Separation)
    requires narrow.ra0Deg == wide.ra0Deg && narrow.dec0Deg == wide.dec0Deg
    requires narrow.innerDeg == wide.innerDeg && narrow.outerDeg <= wide.outerDeg
    ensures IsSubsequence(FilterByRadius(sky, narrow, sep), FilterByRadius(sky, wide, sep))
  {
    if |sky| > 0 {
      FilterMonotone(sky[1..], narrow, wide, sep);
      var a, b := FilterByRadius(sky[1..], narrow, sep), FilterByRadius(sky[1..], wide, sep);
      if Keeps(narrow, sep, sky[0]) {
        assert ([sky[0]] + a)[1..] == a;
        assert ([sky[0]] + b)[1..] == b;
      } else if Keeps(wide, sep, sky[0]) {
        SubsequenceOfTail(a, b, sky[0]);
      }
    }
  }

  /** A subsequence of `b` is a subsequence of `b` with one more element in front. */
  lemma SubsequenceOfTail<T>(a: seq<T>, b: seq<T>, x: T)
    requires IsSubsequence(a, b)
    ensures IsSubsequence(a, [x] + b)
  {
  }

  /** Sources in order of non-increasing flux. */
  predicate FluxNonIncreasing(sky: seq<Source>)
  {
    forall i, j :: 0 <= i < j < |sky| ==> sky[i].flux >= sky[j].flux
  }

  /** Leaving sources out of a flux-ordered catalogue keeps it flux-ordered. */
  lemma {:induction false} SubsequenceKeepsFluxOrder(a: seq<Source>, b: seq<Source>)
    requires IsSubsequence(a, b) && FluxNonIncreasing(b)
    ensures FluxNonIncreasing(a)
    decreases |b|
  {
    if |a| == 0 {
    } else if a[0] == b[0] && IsSubsequence(a[1..], b[1..]) {
      SubsequenceKeepsFluxOrder(a[1..], b[1..]);
      SubsequenceMembers(a[1..], b[1..]);
      forall j | 0 < j < |a|
        ensures a[0].flux >= a[j].flux
      {
        assert a[j] == a[1..][j - 1];
        assert a[j] in b[1..];
        var k :| 0 <= k < |b[1..]| && b[1..][k] == a[j];
        assert b[k + 1] == a[j];
      }
    } else {
      SubsequenceKeepsFluxOrder(a, b[1..]);
    }
  }

  /** Inserts `x` into a flux-ordered catalogue after every brighter source. */
  function InsertByFlux(x: Source, sky: seq<Source>): (r: seq<Source>)
    requires FluxNonIncreasing(sky)
    ensures FluxNonIncreasing(r)
    ensures multiset(r) == multiset(sky) + multiset{x}
    ensures |r| > 0 && (r[0] == x || (|sky| > 0 && r[0] == sky[0]))
  {
    if |sky| == 0 || sky[0].flux <= x.flux then [x] + sky
    else
      var rest := InsertByFlux(x, sky[1..]);
      assert sky == [sky[0]] + sky[1..];
      [sky[0]] + rest
  }

  /** The catalogue rows reordered by non-increasing flux. */
  function SortByFlux(rows: seq<Source>): (r: seq<Source>)
    ensures FluxNonIncreasing(r)
    ensures multiset(r) == multiset(rows)
  {
    if |rows| == 0 then []
    else
      assert rows == [rows[0]] + rows[1..];
      InsertByFlux(rows[0], SortByFlux(rows[1..]))
  }

  /** The region a scale's sky model is cut to: a disc about the phase
      centre recorded in the simulator settings. */
  function SkyRegion(settings: ScaleConfig.Settings, radiusDeg: real, text: ScaleConfig.Text): Annulus
    requires ScaleConfig.RaKey in settings && ScaleConfig.DecKey in settings
  {
    Annulus(text.toReal(settings[ScaleConfig.RaKey]), text.toReal(settings[ScaleConfig.DecKey]), 0.0, radiusDeg)
  }

  /** Copies the catalogue keeping the sources within `radiusDeg` of the
      recorded phase centre; also returns the two source counts the
      script logs. */
  method MakeSkyModel(sky0: seq<Source>, settings: ScaleConfig.Settings, radiusDeg: real,
                      text: ScaleConfig.Text, sep: Separation)
    returns (sky: seq<Source>, inputCount: nat, keptCount: nat)
    requires ScaleConfig.RaKey in settings && ScaleConfig.DecKey in settings
    ensures sky == FilterByRadius(sky0, SkyRegion(settings, radiusDeg, text), sep)
    ensures inputCount == |sky0| && keptCount == |sky| <= |sky0|
  {
    var region := SkyRegion(settings, radiusDeg, text);
    sky := [];
    var i := 0;
    while i < |sky0|
      invariant 0 <= i <= |sky0|
      invariant sky == FilterByRadius(sky0[..i], region, sep)
      invariant |sky| <= i
    {
      FilterAppend(sky0[..i], sky0[i], region, sep);
      assert sky0[..i + 1] == sky0[..i] + [sky0[i]];
      if Keeps(region, sep, sky0[i]) {
        sky := sky + [sky0[i]];
      }
      i := i + 1;
    }
    assert sky0[..|sky0|] == sky0;
    inputCount, keptCount := |sky0|, |sky|;
  }
}
