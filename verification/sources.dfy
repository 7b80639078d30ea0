/**
 * An acoustic source: a unit and a spectrum mapping each band's centre
 * frequency to a power level, built from a band layout, A-weighted in place
 * and combined band by band with another source.
 */
module Sources {
  import opened Errors
  import opened KeyUtils
  import opened Tables
  import opened Levels

  const DB: string := "dB"
  const DBA: string := "dBA"

  /** The three band layouts the constructor recognises. */
  const OctaveSpec: string := "Bandes d'octave"
  const ThirdOctaveSpec: string := "Bandes de tiers d'octave"
  const SingleValueSpec: string := "Valeur unique"

  function Min(a: int, b: int): int { if a <= b then a else b }

  /** Python's `2 ** i` for a natural `i`. */
  function Pow2(i: nat): (p: real)
    ensures 1.0 <= p
  {
    if i == 0 then 1.0 else 2.0 * Pow2(i - 1)
  }

  lemma {:induction false} Pow2Increasing(i: nat, j: nat)
    requires i < j
    ensures Pow2(i) < Pow2(j)
  {
    if i < j - 1 {
      Pow2Increasing(i, j - 1);
    }
  }

  /** The centre frequency of the `i`-th octave band above `start`. */
  function OctaveBand(start: real, i: nat): real
  {
    start * Pow2(i)
  }

  /** The octave layout `{start * 2 ** i: 0 for i in range(nb)}`. */
  function OctaveLayout(nb: int, start: real): (p: map<real, real>)
    ensures forall i: nat :: i < nb ==> OctaveBand(start, i) in p
    ensures forall f :: f in p ==> p[f] == 0.0
    ensures forall f :: f in p ==> exists i: int :: 0 <= i < nb && OctaveBand(start, i) == f
  {
    map i: int | 0 <= i < nb :: OctaveBand(start, i) := 0.0
  }

  /** Above a positive start frequency the octave bands are pairwise distinct. */
  lemma OctaveBandsDistinct(start: real, i: nat, j: nat)
    requires 0.0 < start && i < j
    ensures OctaveBand(start, i) < OctaveBand(start, j)
  {
    Pow2Increasing(i, j);
    ScaleIncreasing(start, Pow2(i), Pow2(j));
  }

  lemma ScaleIncreasing(c: real, x: real, y: real)
    requires 0.0 < c && x < y
    ensures c * x < c * y
  {
    assert c * y - c * x == c * (y - x);
  }

  /** With a positive start frequency, `nb` octave bands are exactly `nb` keys (none for `nb <= 0`). */
  lemma {:induction false} OctaveBandCount(nb: int, start: real)
    requires 0.0 < start
    ensures |OctaveLayout(nb, start)| == if nb < 0 then 0 else nb
  {
    if nb <= 0 {
      assert OctaveLayout(nb, start) == map[];
    } else {
      var f := OctaveBand(start, nb - 1);
      var prev := OctaveLayout(nb - 1, start);
      if f in prev {
        var i: int :| 0 <= i < nb - 1 && OctaveBand(start, i) == f;
        OctaveBandsDistinct(start, i, nb - 1);
      }
      assert OctaveLayout(nb, start) == prev[f := 0.0];
      OctaveBandCount(nb - 1, start);
    }
  }

  /** `list.index`: the position of the first occurrence of `x`. */
  function IndexOf(s: seq<real>, x: real): (i: nat)
    requires x in s
    ensures i < |s| && s[i] == x
    ensures forall j :: 0 <= j < i ==> s[j] != x
  {
    if s[0] == x then 0 else 1 + IndexOf(s[1..], x)
  }

  /** The stop index Python's slicing `s[a:b]` uses on a sequence of length `n`. */
  function SliceStop(n: nat, b: int): (e: nat)
    ensures e <= n
  {
    if b < 0 then (if n + b < 0 then 0 else n + b)
    else if b < n then b else n
  }

  /**
   * Python's `s[i : i + nb]` for an index `i` inside `s`: a stop past the end
   * is cut back to the end, a negative stop counts from the end.
   */
  function Slice(s: seq<real>, i: nat, nb: int): (t: seq<real>)
    requires i < |s|
    ensures 0 <= nb ==> t == s[i .. i + Min(nb, |s| - i)]
    ensures nb < 0 ==> t == if i + nb < 0 && i < |s| + i + nb then s[i .. |s| + i + nb] else []
    ensures forall f :: f in t ==> f in s
    ensures 0 < |t| ==> t[0] == s[i]
    ensures StrictlyAscending(s) ==> StrictlyAscending(t)
  {
    var e := SliceStop(|s|, i + nb);
    if e <= i then [] else s[i .. e]
  }

  /**
   * `bands[i : i + nb]` where `i = bands.index(start)`: the band list of the
   * third-octave layout; `list.index` raises when `start` is not a band.
   */
  function BandsFrom(bands: seq<real>, nb: int, start: real): (r: Result<seq<real>>)
    ensures r.Err? <==> start !in bands
    ensures r.Err? ==> r.error == ValueError
    ensures r.Ok? ==> forall f :: f in r.value ==> f in bands
    ensures r.Ok? && 0 < |r.value| ==> r.value[0] == start
    ensures r.Ok? && StrictlyAscending(bands) ==> StrictlyAscending(r.value)
    ensures r.Ok? && 0 <= nb ==>
      var i := IndexOf(bands, start);
      var n := Min(nb, |bands| - i);
      |r.value| == n && r.value == bands[i .. i + n]
    ensures r.Ok? && nb < 0 ==>
      var i := IndexOf(bands, start);
      var e := |bands| + i + nb;
      r.value == if i + nb < 0 && i < e then bands[i .. e] else []
  {
    if start !in bands then Err(ValueError)
    else Ok(Slice(bands, IndexOf(bands, start), nb))
  }

  /** The third-octave layout is strictly ascending and made of registry bands only. */
  lemma ThirdOctaveLayoutAscending(nb: int, start: real)
    requires start in ThirdOctaveBands
    ensures var bands := BandsFrom(ThirdOctaveBands, nb, start).value;
      StrictlyAscending(bands) && |bands| <= 30
  {
    ThirdOctaveBandsAscending();
  }

  /** A spectrum holding the given bands, every level at 0. */
  function Silent(bands: seq<real>): (p: map<real, real>)
    ensures forall f :: f in p <==> f in bands
    ensures forall f :: f in p ==> p[f] == 0.0
  {
    map f | f in bands :: 0.0
  }

  /** The spectrum `Source.__init__` builds for a band layout string. */
  function InitialPowers(nb: int, spec: string, start: real): (r: Result<map<real, real>>)
    ensures spec == OctaveSpec ==> r == Ok(OctaveLayout(nb, start))
    ensures spec == SingleValueSpec ==> r == Ok(map[])
    ensures spec == ThirdOctaveSpec ==>
      (r.Ok? <==> start in ThirdOctaveBands) &&
      (r.Err? ==> r.error == ValueError) &&
      (r.Ok? ==> r.value == Silent(BandsFrom(ThirdOctaveBands, nb, start).value))
    ensures spec != OctaveSpec && spec != ThirdOctaveSpec && spec != SingleValueSpec ==>
      r == Err(NotImplementedError)
  {
    if spec == OctaveSpec then Ok(OctaveLayout(nb, start))
    else if spec == ThirdOctaveSpec then
      match BandsFrom(ThirdOctaveBands, nb, start)
      case Err(e) => Err(e)
      case Ok(bands) => Ok(Silent(bands))
    else if spec == SingleValueSpec then Ok(map[])
    else Err(NotImplementedError)
  }

  /** `ponderation_A`: the A-weighting offsets of the bands `p` shares with the table. */
  function Ponderation(p: map<real, real>): (t: map<real, real>)
    ensures forall k :: k in t <==> k in p && k in AWeightingOffsets
    ensures forall k :: k in t ==> t[k] == AWeightingOffsets[k]
  {
    ConvertFreq(AWeightingOffsets, CommonKeys(p, AWeightingOffsets))
  }

  /** Each band with an entry in `t` becomes `int(level) + t[band]`; the others are kept. */
  function ApplyTable(p: map<real, real>, t: map<real, real>): map<real, real>
  {
    map k | k in p :: if k in t then TruncateTowardZero(p[k]) as real + t[k] else p[k]
  }

  /**
   * The A-weighted spectrum `convert_unit` produces: every band that has an
   * A-weighting offset becomes its level truncated toward zero plus that
   * offset; the other bands keep their level.
   */
  function Weighted(p: map<real, real>): (w: map<real, real>)
    ensures w.Keys == p.Keys
    ensures forall k :: k in p && k in AWeightingOffsets ==>
      w[k] == TruncateTowardZero(p[k]) as real + AWeightingOffsets[k]
    ensures forall k :: k in p && k !in AWeightingOffsets ==> w[k] == p[k]
  {
    ApplyTable(p, Ponderation(p))
  }

  /** A spectrum that applies the table `t` band by band is `ApplyTable(p, t)`. */
  lemma AppliedTable(p: map<real, real>, t: map<real, real>, w: map<real, real>)
    requires w.Keys == p.Keys
    requires forall k :: k in w ==>
      w[k] == if k in t then TruncateTowardZero(p[k]) as real + t[k] else p[k]
    ensures w == ApplyTable(p, t)
  {
    var v := ApplyTable(p, t);
    assert v.Keys == w.Keys;
    forall k | k in w ensures w[k] == v[k] { }
  }

  /** The unit and spectrum a source holds after `convert_unit`. */
  function ConvertedUnit(unit: string, p: map<real, real>): (r: (string, map<real, real>))
    ensures r.0 != DB && r.1.Keys == p.Keys
    ensures unit == DB ==> r.0 == DBA
    ensures unit != DB ==> r == (unit, p)
  {
    if unit == DB then (DBA, Weighted(p)) else (unit, p)
  }

  /** A second conversion changes nothing: the first one left the unit at dBA. */
  lemma ConvertUnitIdempotent(unit: string, p: map<real, real>)
    ensures var (u, q) := ConvertedUnit(unit, p); ConvertedUnit(u, q) == (u, q)
  {
  }

  /**
   * A freshly built third-octave source converted to dBA holds exactly the
   * A-weighting offsets of its bands: every band of the registry is weighted.
   */
  lemma ThirdOctaveWeighted(nb: int, start: real)
    requires start in ThirdOctaveBands
    ensures var p := InitialPowers(nb, ThirdOctaveSpec, start).value;
      Weighted(p).Keys == p.Keys &&
      forall k :: k in p ==> k in AWeightingOffsets && Weighted(p)[k] == AWeightingOffsets[k]
  {
    ThirdOctaveBandsWeighted();
  }

  /**
   * `niveau_global_spectral` as a value: every band of `p` combined with the
   * same band of `q`; a band of `p` missing from `q` raises `KeyError`.
   */
  function SpectralSum(m: Math, p: map<real, real>, q: map<real, real>): (r: Result<map<real, real>>)
    ensures r.Ok? <==> p.Keys <= q.Keys
    ensures r.Err? ==> r.error == KeyError
    ensures r.Ok? ==> r.value.Keys == p.Keys
  {
    if p.Keys <= q.Keys then Ok(map k | k in p :: NiveauGlobal(m, p[k], q[k])) else Err(KeyError)
  }

  /** On two spectra with the same bands the combination is symmetric. */
  lemma SpectralSumSymmetric(m: Math, p: map<real, real>, q: map<real, real>)
    requires p.Keys == q.Keys
    ensures SpectralSum(m, p, q) == SpectralSum(m, q, p)
  {
    var a, b := SpectralSum(m, p, q).value, SpectralSum(m, q, p).value;
    forall k | k in a ensures a[k] == b[k] {
      NiveauGlobalCommutative(m, p[k], q[k]);
    }
    assert a == b;
  }

  /**
   * Bands of `q` that `p` lacks are ignored: combining with `q` restricted to
   * the common keys gives the same result.
   */
  lemma SpectralSumIgnoresExtra(m: Math, p: map<real, real>, q: map<real, real>)
    ensures SpectralSum(m, p, q) == SpectralSum(m, p, ConvertFreq(q, CommonKeys(p, q)))
  {
    var aligned := ConvertFreq(q, CommonKeys(p, q));
    if p.Keys <= q.Keys {
      assert p.Keys <= aligned.Keys;
      SpectralSumAgrees(m, p, q, aligned);
    } else {
      assert !(p.Keys <= aligned.Keys);
    }
  }

  /** Only the bands of `p` are read from the second spectrum. */
  lemma SpectralSumAgrees(m: Math, p: map<real, real>, q1: map<real, real>, q2: map<real, real>)
    requires p.Keys <= q1.Keys && p.Keys <= q2.Keys
    requires forall k :: k in p ==> q1[k] == q2[k]
    ensures SpectralSum(m, p, q1) == SpectralSum(m, p, q2)
  {
    var a, b := SpectralSum(m, p, q1).value, SpectralSum(m, p, q2).value;
    assert a.Keys == b.Keys;
    assert forall k :: k in a ==> a[k] == b[k];
    assert a == b;
  }

  /** A spectrum holding, for every band of `p`, its energy sum with `q`'s band is the combination. */
  lemma SpectralSumOfBands(m: Math, p: map<real, real>, q: map<real, real>, w: map<real, real>)
    requires w.Keys == p.Keys
    requires forall k :: k in p ==> k in q && w[k] == NiveauGlobal(m, p[k], q[k])
    ensures SpectralSum(m, p, q) == Ok(w)
  {
    assert forall k :: k in p.Keys ==> k in q.Keys;
    var v := SpectralSum(m, p, q).value;
    assert v.Keys == w.Keys;
    forall k | k in w ensures w[k] == v[k] { }
    assert v == w;
  }

  /** Every combined band is louder than either of the two bands it combines. */
  lemma SpectralSumExceedsEach(m: Math, p: map<real, real>, q: map<real, real>, k: real)
    requires Pow10Positive(m) && Log10InvertsPow10(m) && Log10Increasing(m)
    requires SpectralSum(m, p, q).Ok? && k in p
    ensures p[k] < SpectralSum(m, p, q).value[k] && q[k] < SpectralSum(m, p, q).value[k]
  {
  }

  /** A sound source: its unit and its spectrum, band frequency to power level. */
  class Source {
    var unit: string
    var puissances: map<real, real>

    constructor (unit: string, puissances: map<real, real>)
      ensures this.unit == unit && this.puissances == puissances
    {
      this.unit := unit;
      this.puissances := puissances;
    }

    /**
     * `Source(unit, nb, spec, start)`: a source at level 0 on the band layout
     * `spec` names, or the exception the constructor raises.
     */
    static method Create(unit: string, nb: int, spec: string, start: real) returns (r: Result<Source>)
      ensures r.Ok? <==> InitialPowers(nb, spec, start).Ok?
      ensures r.Err? ==> r.error == InitialPowers(nb, spec, start).error
      ensures r.Ok? ==> fresh(r.value) && r.value.unit == unit
      ensures r.Ok? ==> r.value.puissances == InitialPowers(nb, spec, start).value
    {
      var p := InitialPowers(nb, spec, start);
      if p.Err? {
        return Err(p.error);
      }
      var s := new Source(unit, p.value);
      return Ok(s);
    }

    /** `convert_unit`: A-weights a spectrum in dB, band by band, and marks it dBA. */
    method ConvertUnit()
      modifies this
      ensures unit == ConvertedUnit(old(unit), old(puissances)).0
      ensures puissances == ConvertedUnit(old(unit), old(puissances)).1
    {
      if unit == DB {
        WeightBands();
        unit := DBA;
      }
    }

    /** The loop of `convert_unit`: every band with an A-weighting offset is truncated and offset. */
    method WeightBands()
      modifies this`puissances
      ensures puissances == Weighted(old(puissances))
    {
      ghost var before := puissances;
      var ponderation := Ponderation(puissances);
      var todo := ponderation.Keys;
      while todo != {}
        invariant todo <= ponderation.Keys
        invariant puissances.Keys == before.Keys
        invariant forall k :: k in puissances ==>
          puissances[k] == if k in ponderation && k !in todo
            then TruncateTowardZero(before[k]) as real + ponderation[k]
            else before[k]
        decreases todo
      {
        NonEmptyHasMember(todo);
        var key :| key in todo;
        puissances := puissances[key := TruncateTowardZero(puissances[key]) as real];
        puissances := puissances[key := puissances[key] + ponderation[key]];
        todo := todo - {key};
      }
      AppliedTable(before, ponderation, puissances);
    }

    /**
     * `niveau_global_spectral`: a new source with this source's unit whose
     * every band is the energy sum of this band and the other source's; this
     * source is left untouched.
     */
    method NiveauGlobalSpectral(m: Math, source: Source) returns (r: Result<Source>)
      ensures r.Ok? <==> SpectralSum(m, puissances, source.puissances).Ok?
      ensures r.Err? ==> r.error == KeyError
      ensures r.Ok? ==> fresh(r.value) && r.value.unit == unit
      ensures r.Ok? ==> r.value.puissances == SpectralSum(m, puissances, source.puissances).value
    {
      var somme := puissances;
      var todo := puissances.Keys;
      while todo != {}
        invariant todo <= puissances.Keys
        invariant somme.Keys == puissances.Keys
        invariant forall k :: k in puissances && k !in todo ==> k in source.puissances
        invariant forall k :: k in somme ==>
          somme[k] == if k in todo then puissances[k]
            else NiveauGlobal(m, puissances[k], source.puissances[k])
        decreases todo
      {
        NonEmptyHasMember(todo);
        var k :| k in todo;
        if k !in source.puissances {
          return Err(KeyError);
        }
        somme := somme[k := NiveauGlobal(m, puissances[k], source.puissances[k])];
        todo := todo - {k};
      }
      SpectralSumOfBands(m, puissances, source.puissances, somme);
      var s := new Source(unit, somme);
      return Ok(s);
    }
  }
}
