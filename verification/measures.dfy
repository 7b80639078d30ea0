/**
 * A measurement setup: the sound pressure level a source produces at a
 * receiver, as a direct (free-field) spectrum, an indirect (reverberant)
 * spectrum and their total.
 */
module Measures {
  import opened Errors
  import opened KeyUtils
  import opened Levels
  import opened Sources

  /** `math.log(x, 10)` is `log10(x)` and equals 0 at 1, given the product law. */
  lemma Log10OfOne(m: Math)
    requires Log10OfProduct(m)
    ensures m.log10(1.0) == 0.0
  {
    assert m.log10(Product(1.0, 1.0)) == m.log10(1.0) + m.log10(1.0);
  }

  /**
   * The direct field: every band attenuated over distance `r` and raised by
   * the directivity gain `10·log10(q)`. Dividing by `4·π·r²` raises for
   * `r = 0`, and the logarithm of `q <= 0` raises; neither happens on an
   * empty spectrum, whose loop never runs.
   */
  function DirectLevel(m: Math, spectrum: map<real, real>, r: real, q: real): (d: Result<map<real, real>>)
    ensures d.Ok? <==> spectrum == map[] || (r != 0.0 && 0.0 < q)
    ensures d.Err? ==> d.error == if r == 0.0 then ZeroDivisionError else MathDomainError
    ensures d.Ok? ==> d.value.Keys == spectrum.Keys
    ensures d.Ok? ==> forall k :: k in spectrum ==>
      d.value[k] == spectrum[k] + FreeFieldTerm(m, r) + 10.0 * m.log10(q)
  {
    if spectrum == map[] then Ok(spectrum)
    else if r == 0.0 then Err(ZeroDivisionError)
    else if q <= 0.0 then Err(MathDomainError)
    else Ok(map k | k in spectrum :: Distance(m, spectrum[k], r).value + 10.0 * m.log10(q))
  }

  /** Every band of the direct field is shifted by the same amount. */
  lemma DirectLevelUniformShift(m: Math, spectrum: map<real, real>, r: real, q: real, k1: real, k2: real)
    requires DirectLevel(m, spectrum, r, q).Ok? && k1 in spectrum && k2 in spectrum
    ensures var d := DirectLevel(m, spectrum, r, q).value;
      d[k1] - spectrum[k1] == d[k2] - spectrum[k2]
  {
  }

  /** An omnidirectional source (`q = 1`, the default) gets the free-field attenuation alone. */
  lemma DirectLevelOmnidirectional(m: Math, spectrum: map<real, real>, r: real, k: real)
    requires Log10OfProduct(m)
    requires r != 0.0 && k in spectrum
    ensures DirectLevel(m, spectrum, r, 1.0).Ok?
    ensures DirectLevel(m, spectrum, r, 1.0).value[k] == Distance(m, spectrum[k], r).value
  {
    Log10OfOne(m);
  }

  /** The farther the receiver, the lower every band of the direct field. */
  lemma DirectLevelDecreasing(m: Math, spectrum: map<real, real>, r1: real, r2: real, q: real, k: real)
    requires Log10Increasing(m)
    requires 0.0 < r1 < r2 && 0.0 < q && k in spectrum
    ensures DirectLevel(m, spectrum, r2, q).value[k] < DirectLevel(m, spectrum, r1, q).value[k]
  {
    DistanceDecreasing(m, spectrum[k], r1, r2);
  }

  /** A spectrum that holds the attenuated level of every band is the direct field. */
  lemma DirectLevelOfBands(m: Math, spectrum: map<real, real>, r: real, q: real, w: map<real, real>)
    requires r != 0.0 && 0.0 < q && spectrum != map[]
    requires w.Keys == spectrum.Keys
    requires forall k :: k in w ==> w[k] == Distance(m, spectrum[k], r).value + 10.0 * m.log10(q)
    ensures DirectLevel(m, spectrum, r, q) == Ok(w)
  {
    var v := DirectLevel(m, spectrum, r, q).value;
    assert v.Keys == w.Keys;
    forall k | k in w ensures w[k] == v[k] { }
    assert v == w;
  }

  /**
   * The room term `10·log10(4 / (S·a / (1 − a)))` of a band whose walls
   * absorb the fraction `a`, in a room of surface `S`. Dividing by `1 − a`
   * raises for `a = 1`, dividing 4 by `S·a / (1 − a)` raises when `S·a` is
   * zero, and the logarithm of a non-positive ratio raises.
   */
  function RoomTerm(m: Math, s: real, a: real): (t: Result<real>)
    ensures t.Ok? <==> a != 1.0 && s * a != 0.0 && 0.0 < s * a / (1.0 - a)
    ensures t.Err? ==> t.error == if a == 1.0 || s * a == 0.0 then ZeroDivisionError else MathDomainError
  {
    if a == 1.0 then Err(ZeroDivisionError)
    else if s * a == 0.0 then Err(ZeroDivisionError)
    else
      var ratio := 4.0 / (s * a / (1.0 - a));
      if ratio <= 0.0 then Err(MathDomainError) else Ok(10.0 * m.log10(ratio))
  }

  /** A room of positive surface whose walls absorb part, but not all, of the sound has a room term. */
  lemma RoomTermDefined(m: Math, s: real, a: real)
    requires 0.0 < s && 0.0 < a < 1.0
    ensures RoomTerm(m, s, a).Ok?
  {
    ProductPositive(s, a);
    QuotientPositive(s * a, 1.0 - a);
  }

  lemma QuotientPositive(x: real, y: real)
    requires 0.0 < x && 0.0 < y
    ensures 0.0 < x / y
  {
    assert x / y * y == x;
  }

  /** The more absorptive the walls, the lower the reverberant level. */
  lemma RoomTermDecreasing(m: Math, s: real, a1: real, a2: real)
    requires Log10Increasing(m)
    requires 0.0 < s && 0.0 < a1 < a2 < 1.0
    ensures RoomTerm(m, s, a2).value < RoomTerm(m, s, a1).value
  {
    RoomTermDefined(m, s, a1);
    RoomTermDefined(m, s, a2);
    var g1, g2 := s * a1 / (1.0 - a1), s * a2 / (1.0 - a2);
    AbsorptionRatioIncreasing(s, a1, a2);
    ReciprocalScaledDecreasing(g1, g2);
  }

  /** `S·a / (1 − a)` grows with the absorption `a`. */
  lemma AbsorptionRatioIncreasing(s: real, a1: real, a2: real)
    requires 0.0 < s && 0.0 < a1 < a2 < 1.0
    ensures 0.0 < s * a1 / (1.0 - a1) < s * a2 / (1.0 - a2)
  {
    ProductPositive(s, a1);
    QuotientPositive(s * a1, 1.0 - a1);
    var b1, b2 := 1.0 - a1, 1.0 - a2;
    ProductPositive(b1, b2);
    assert s * a2 / b2 - s * a1 / b1 == s * (a2 * b1 - a1 * b2) / (b1 * b2);
    assert a2 * b1 - a1 * b2 == a2 - a1;
    ProductPositive(s, a2 - a1);
    QuotientPositive(s * (a2 - a1), b1 * b2);
  }

  lemma ReciprocalScaledDecreasing(g1: real, g2: real)
    requires 0.0 < g1 < g2
    ensures 0.0 < 4.0 / g2 < 4.0 / g1
  {
    QuotientPositive(4.0, g2);
    ReciprocalDecreasing(g1, g2);
    assert 4.0 / g2 == 4.0 * (1.0 / g2) && 4.0 / g1 == 4.0 * (1.0 / g1);
  }

  /**
   * The indirect field as a value: the spectrum restricted to the bands that
   * have an absorption coefficient, each raised by its room term; `None` when
   * some band's room term raises (which exception surfaces depends on the
   * order the bands are visited in).
   */
  function IndirectLevel(m: Math, spectrum: map<real, real>, materiau: map<real, real>, s: real): (r: Option<map<real, real>>)
    ensures r.Some? <==> forall k :: k in spectrum && k in materiau ==> RoomTerm(m, s, materiau[k]).Ok?
    ensures r.Some? ==> r.value.Keys == spectrum.Keys * materiau.Keys
    ensures r.Some? ==> forall k :: k in r.value ==> r.value[k] == spectrum[k] + RoomTerm(m, s, materiau[k]).value
  {
    var aligned := ConvertFreq(spectrum, CommonKeys(spectrum, materiau));
    if forall k :: k in aligned ==> RoomTerm(m, s, materiau[k]).Ok? then
      Some(map k | k in aligned :: aligned[k] + RoomTerm(m, s, materiau[k]).value)
    else None
  }

  /** A spectrum that holds every aligned band raised by its room term is the indirect field. */
  lemma IndirectLevelOfBands(m: Math, spectrum: map<real, real>, materiau: map<real, real>, s: real, w: map<real, real>)
    requires w.Keys == spectrum.Keys * materiau.Keys
    requires forall k :: k in w ==> Raised(m, s, materiau[k], spectrum[k], w[k])
    ensures IndirectLevel(m, spectrum, materiau, s) == Some(w)
  {
    var v := IndirectLevel(m, spectrum, materiau, s).value;
    assert v.Keys == w.Keys;
    forall k | k in w ensures w[k] == v[k] { }
    assert v == w;
  }

  /** `updated` is `level` raised by the room term of absorption `a`. */
  ghost predicate Raised(m: Math, s: real, a: real, level: real, updated: real)
  {
    RoomTerm(m, s, a).Ok? && updated == level + RoomTerm(m, s, a).value
  }

  /** One band whose room term raises is enough to make the indirect field fail. */
  lemma IndirectLevelFails(m: Math, spectrum: map<real, real>, materiau: map<real, real>, s: real, k: real)
    requires k in spectrum && k in materiau && RoomTerm(m, s, materiau[k]).Err?
    ensures IndirectLevel(m, spectrum, materiau, s).None?
  {
  }

  /** `max(x, 0)`: the flooring of negative totals. */
  function Floored(x: real): (y: real)
    ensures 0.0 <= y && x <= y
    ensures y == x || y == 0.0
  {
    if x < 0.0 then 0.0 else x
  }

  /**
   * The total as a value: every band of the direct field plus the same band
   * of the indirect field (an arithmetic sum of the two levels), floored at
   * 0; a direct band missing from the indirect field raises `KeyError`.
   */
  function TotalLevel(direct: map<real, real>, indirect: map<real, real>): (r: Result<map<real, real>>)
    ensures r.Ok? <==> direct.Keys <= indirect.Keys
    ensures r.Err? ==> r.error == KeyError
    ensures r.Ok? ==> r.value.Keys == direct.Keys
    ensures r.Ok? ==> forall k :: k in direct ==>
      0.0 <= r.value[k] && direct[k] + indirect[k] <= r.value[k] &&
      (r.value[k] == direct[k] + indirect[k] || r.value[k] == 0.0)
  {
    if direct.Keys <= indirect.Keys then Ok(map k | k in direct :: Floored(direct[k] + indirect[k]))
    else Err(KeyError)
  }

  /** A spectrum holding every floored band sum is the total. */
  lemma TotalLevelOfBands(direct: map<real, real>, indirect: map<real, real>, w: map<real, real>)
    requires w.Keys == direct.Keys
    requires forall k :: k in w ==> k in indirect && w[k] == Floored(direct[k] + indirect[k])
    ensures TotalLevel(direct, indirect) == Ok(w)
  {
    assert forall k :: k in direct.Keys ==> k in indirect.Keys;
    var v := TotalLevel(direct, indirect).value;
    assert v.Keys == w.Keys;
    forall k | k in w ensures w[k] == v[k] { }
    assert v == w;
  }

  /**
   * Computed from one source spectrum, the direct field keeps every band and
   * the indirect field only the bands with an absorption coefficient, so the
   * total exists exactly when every band of the source has one.
   */
  lemma TotalAfterDirectAndIndirect(m: Math, spectrum: map<real, real>, materiau: map<real, real>,
                                    r: real, q: real, s: real)
    requires DirectLevel(m, spectrum, r, q).Ok? && IndirectLevel(m, spectrum, materiau, s).Some?
    ensures var total := TotalLevel(DirectLevel(m, spectrum, r, q).value, IndirectLevel(m, spectrum, materiau, s).value);
      total.Ok? <==> spectrum.Keys <= materiau.Keys
  {
  }

  /** The receiver of a source: its three spectra and the measurement conditions. */
  class Mesure {
    var mesureDirect: map<real, real>
    var mesureIndirect: map<real, real>
    var mesureTotale: map<real, real>
    var distance: real
    var directivite: real
    var volumeX: real
    var volumeY: real
    var volumeZ: real
    var materiau: map<real, real>

    /** Both spectra start as copies of the source's; the receiver sits at distance 0 with directivity 1. */
    constructor (source: Source)
      ensures mesureDirect == source.puissances && mesureIndirect == source.puissances
      ensures mesureTotale == map[] && materiau == map[]
      ensures distance == 0.0 && directivite == 1.0
      ensures volumeX == 0.0 && volumeY == 0.0 && volumeZ == 0.0
    {
      mesureDirect := source.puissances;
      mesureIndirect := source.puissances;
      mesureTotale := map[];
      distance := 0.0;
      directivite := 1.0;
      volumeX := 0.0;
      volumeY := 0.0;
      volumeZ := 0.0;
      materiau := map[];
    }

    /**
     * `niveau_pression_direct`: rewrites every band of the direct spectrum
     * with its free-field level; on an exception the spectrum is untouched,
     * because the first band already raises.
     */
    method NiveauPressionDirect(m: Math) returns (r: Result<map<real, real>>)
      modifies this`mesureDirect
      ensures r == DirectLevel(m, old(mesureDirect), distance, directivite)
      ensures mesureDirect == if r.Ok? then r.value else old(mesureDirect)
    {
      ghost var before := mesureDirect;
      var todo := mesureDirect.Keys;
      while todo != {}
        invariant todo <= before.Keys
        invariant mesureDirect.Keys == before.Keys
        invariant todo == before.Keys ==> mesureDirect == before
        invariant todo != before.Keys ==> distance != 0.0 && 0.0 < directivite
        invariant forall k :: k in mesureDirect && k !in todo ==>
          distance != 0.0 && mesureDirect[k] == Distance(m, before[k], distance).value + 10.0 * m.log10(directivite)
        invariant forall k :: k in todo ==> mesureDirect[k] == before[k]
        decreases todo
      {
        NonEmptyHasMember(todo);
        var k :| k in todo;
        var lp := Distance(m, mesureDirect[k], distance);
        if lp.Err? {
          return Err(lp.error);
        }
        if directivite <= 0.0 {
          return Err(MathDomainError);
        }
        mesureDirect := mesureDirect[k := lp.value + 10.0 * m.log10(directivite)];
        todo := todo - {k};
      }
      if before != map[] {
        DirectLevelOfBands(m, before, distance, directivite, mesureDirect);
      }
      return Ok(mesureDirect);
    }

    /**
     * `niveau_pression_indirect`: restricts the indirect spectrum to the bands
     * that have an absorption coefficient, then adds each band's room term. The
     * restriction stays even when a band's room term raises; the bands already
     * visited then keep their new level.
     */
    method NiveauPressionIndirect(m: Math) returns (r: Result<map<real, real>>)
      modifies this`mesureIndirect
      ensures mesureIndirect.Keys == old(mesureIndirect).Keys * materiau.Keys
      ensures var s := Surface(volumeX, volumeY, volumeZ);
        r.Ok? <==> IndirectLevel(m, old(mesureIndirect), materiau, s).Some?
      ensures var s := Surface(volumeX, volumeY, volumeZ);
        r.Ok? ==> r.value == mesureIndirect && mesureIndirect == IndirectLevel(m, old(mesureIndirect), materiau, s).value
      ensures var s := Surface(volumeX, volumeY, volumeZ);
        r.Err? ==> exists k :: k in mesureIndirect && RoomTerm(m, s, materiau[k]) == Err(r.error)
      ensures var s := Surface(volumeX, volumeY, volumeZ);
        r.Err? ==> forall k :: k in mesureIndirect ==>
          mesureIndirect[k] == old(mesureIndirect)[k] || Raised(m, s, materiau[k], old(mesureIndirect)[k], mesureIndirect[k])
    {
      ghost var before := mesureIndirect;
      var s := Surface(volumeX, volumeY, volumeZ);
      mesureIndirect := ConvertFreq(mesureIndirect, CommonKeys(mesureIndirect, materiau));
      r := RaiseByRoomTerm(m, s, before);
      if r.Ok? {
        IndirectLevelOfBands(m, before, materiau, s, mesureIndirect);
      } else {
        var k :| k in mesureIndirect && RoomTerm(m, s, materiau[k]) == Err(r.error);
        IndirectLevelFails(m, before, materiau, s, k);
      }
    }

    /** The loop of `niveau_pression_indirect`: raises every band by its room term, in place. */
    method RaiseByRoomTerm(m: Math, s: real, ghost spectrum: map<real, real>) returns (r: Result<map<real, real>>)
      requires mesureIndirect.Keys <= materiau.Keys
      requires forall k :: k in mesureIndirect ==> k in spectrum && mesureIndirect[k] == spectrum[k]
      modifies this`mesureIndirect
      ensures mesureIndirect.Keys == old(mesureIndirect).Keys
      ensures r.Ok? ==> r.value == mesureIndirect
      ensures r.Ok? ==> forall k :: k in mesureIndirect ==> Raised(m, s, materiau[k], spectrum[k], mesureIndirect[k])
      ensures r.Err? ==> exists k :: k in mesureIndirect && RoomTerm(m, s, materiau[k]) == Err(r.error)
      ensures r.Err? ==> forall k :: k in mesureIndirect ==>
        mesureIndirect[k] == spectrum[k] || Raised(m, s, materiau[k], spectrum[k], mesureIndirect[k])
    {
      ghost var before := mesureIndirect;
      var todo := mesureIndirect.Keys;
      while todo != {}
        invariant todo <= before.Keys
        invariant mesureIndirect.Keys == before.Keys
        invariant forall k :: k in before && k !in todo ==> Raised(m, s, materiau[k], spectrum[k], mesureIndirect[k])
        invariant forall k :: k in todo ==> mesureIndirect[k] == spectrum[k]
        decreases todo
      {
        NonEmptyHasMember(todo);
        var k :| k in todo;
        var t := RoomTerm(m, s, materiau[k]);
        if t.Err? {
          return Err(t.error);
        }
        mesureIndirect := mesureIndirect[k := mesureIndirect[k] + t.value];
        todo := todo - {k};
      }
      return Ok(mesureIndirect);
    }

    /**
     * `niveau_pression_totale`: the total spectrum takes the direct spectrum's
     * bands, each the sum of its direct and indirect levels floored at 0. The
     * source also restricts both spectra to their common bands but discards
     * the results, so nothing is restricted here either. On `KeyError` the
     * total is left half-summed.
     */
    method NiveauPressionTotale() returns (r: Result<map<real, real>>)
      modifies this`mesureTotale
      ensures r == TotalLevel(mesureDirect, mesureIndirect)
      ensures r.Ok? ==> mesureTotale == r.value
      ensures r.Err? ==> mesureTotale.Keys == mesureDirect.Keys
      ensures r.Err? ==> forall k :: k in mesureTotale ==>
        mesureTotale[k] == mesureDirect[k] ||
        (k in mesureIndirect && mesureTotale[k] == mesureDirect[k] + mesureIndirect[k])
    {
      mesureTotale := mesureDirect;
      var todo := mesureTotale.Keys;
      while todo != {}
        invariant todo <= mesureDirect.Keys
        invariant mesureTotale.Keys == mesureDirect.Keys
        invariant forall k :: k in mesureDirect && k !in todo ==>
          k in mesureIndirect && mesureTotale[k] == mesureDirect[k] + mesureIndirect[k]
        invariant forall k :: k in todo ==> mesureTotale[k] == mesureDirect[k]
        decreases todo
      {
        NonEmptyHasMember(todo);
        var k :| k in todo;
        if k !in mesureIndirect {
          return Err(KeyError);
        }
        mesureTotale := mesureTotale[k := mesureDirect[k] + mesureIndirect[k]];
        todo := todo - {k};
      }
      todo := mesureTotale.Keys;
      while todo != {}
        invariant todo <= mesureDirect.Keys
        invariant mesureTotale.Keys == mesureDirect.Keys
        invariant forall k :: k in mesureDirect ==> k in mesureIndirect
        invariant forall k :: k in mesureDirect ==>
          mesureTotale[k] == if k in todo then mesureDirect[k] + mesureIndirect[k]
            else Floored(mesureDirect[k] + mesureIndirect[k])
        decreases todo
      {
        NonEmptyHasMember(todo);
        var k :| k in todo;
        if mesureTotale[k] < 0.0 {
          mesureTotale := mesureTotale[k := 0.0];
        }
        todo := todo - {k};
      }
      TotalLevelOfBands(mesureDirect, mesureIndirect, mesureTotale);
      return Ok(mesureTotale);
    }
  }
}
