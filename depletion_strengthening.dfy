/**
 * Depletion strengthening of viscosity (aspect::MaterialModel::Rheology).
 *
 * The rheology keeps fifteen parameters, read once from the parameter file:
 * the Katz et al. (2003) melting coefficients and the two constants of the
 * strengthening law. The strengthening factor is
 *   min(exp(alpha_depletion * clamp(F, 0, 1)), delta_eta_depletion_max)
 * where F is the value of the compositional field "maximum_melt_fraction".
 * The factor is 1 when no such field exists.
 *
 * The exponential is not defined here. Every member that needs it takes it
 * as a parameter `exp` and relies only on IsExponential(exp).
 */
module Rheology {
  import opened Wrappers

  /** The compositional field whose value is the depletion F. */
  const DepletionFieldName: string := "maximum_melt_fraction"

  /** The properties of the exponential that the model relies on. */
  ghost predicate IsExponential(exp: real -> real)
  {
    && exp(0.0) == 1.0
    && (forall x :: exp(x) > 0.0)
    && (forall x, y :: x <= y ==> exp(x) <= exp(y))
  }

  /**
   * The index of the compositional field called `name`, or None when no field
   * has that name. This plays the part of the simulator's introspection:
   * compositional_name_exists and compositional_index_for_name.
   */
  function IndexForName(fieldNames: seq<string>, name: string): (r: Option<nat>)
    ensures r.None? <==> name !in fieldNames
    ensures r.Some? ==> r.value < |fieldNames| && fieldNames[r.value] == name
    ensures r.Some? ==> forall j :: 0 <= j < r.value ==> fieldNames[j] != name
  {
    if |fieldNames| == 0 then None
    else if fieldNames[0] == name then Some(0)
    else
      match IndexForName(fieldNames[1..], name)
      case None => None
      case Some(i) => Some(i + 1)
  }

  /** The depletion used by the law: the field value restricted to [0, 1]. */
  function ClampToUnit(x: real): (d: real)
    ensures 0.0 <= d <= 1.0
    ensures 0.0 <= x <= 1.0 ==> d == x
    ensures x < 0.0 ==> d == 0.0
    ensures x > 1.0 ==> d == 1.0
  {
    Min(1.0, Max(x, 0.0))
  }

  /**
   * The strengthening law for a depletion field value `fieldValue`: the
   * exponential of alpha times the clamped depletion, capped at `cap`.
   */
  function StrengtheningFactor(alpha: real, cap: real, fieldValue: real, exp: real -> real): (f: real)
    requires IsExponential(exp)
    ensures f <= cap
    ensures f <= exp(alpha * ClampToUnit(fieldValue))
    ensures f == cap || f == exp(alpha * ClampToUnit(fieldValue))
    ensures alpha >= 0.0 ==> f >= Min(1.0, cap)
    ensures alpha == 0.0 ==> f == Min(1.0, cap)
    ensures cap > 0.0 ==> f > 0.0
  {
    var d := ClampToUnit(fieldValue);
    assert alpha >= 0.0 ==> alpha * d >= 0.0;
    Min(exp(alpha * d), cap)
  }

  /** The entries of the parameter file that the rheology reads. */
  datatype Entry =
    | A1 | A2 | A3 | B1 | B2 | B3 | C1 | C2 | C3
    | R1 | R2 | Beta | MassFractionCpx
    | AlphaDepletion | DeltaEtaDepletionMax

  /** The values the parameter file holds for the entries it does not set. */
  const DeclaredDefaults: map<Entry, real> := map[
    A1 := 1085.7, A2 := 1.329e-7, A3 := -5.1e-18,
    B1 := 1475.0, B2 := 8.0e-8, B3 := -3.2e-18,
    C1 := 1780.0, C2 := 4.50e-8, C3 := -2.0e-18,
    R1 := 0.5, R2 := 8e-11,
    Beta := 1.5, MassFractionCpx := 0.15,
    AlphaDepletion := 0.0, DeltaEtaDepletionMax := 1.0e3
  ]

  /** Every entry the rheology reads has a value. */
  predicate HasAllEntries(prm: map<Entry, real>)
  {
    && A1 in prm && A2 in prm && A3 in prm
    && B1 in prm && B2 in prm && B3 in prm
    && C1 in prm && C2 in prm && C3 in prm
    && R1 in prm && R2 in prm
    && Beta in prm && MassFractionCpx in prm
    && AlphaDepletion in prm && DeltaEtaDepletionMax in prm
  }

  /** The bounds the parameter file enforces: both strengthening constants are at least 0. */
  predicate WithinDeclaredBounds(prm: map<Entry, real>)
    requires HasAllEntries(prm)
  {
    prm[AlphaDepletion] >= 0.0 && prm[DeltaEtaDepletionMax] >= 0.0
  }

  lemma DeclaredDefaultsAreComplete()
    ensures HasAllEntries(DeclaredDefaults)
    ensures WithinDeclaredBounds(DeclaredDefaults)
    ensures DeclaredDefaults[AlphaDepletion] == 0.0
    ensures DeclaredDefaults[DeltaEtaDepletionMax] == 1000.0
  {
  }

  /**
   * The Katz et al. (2003) melting coefficients: solidus (A), lherzolite
   * liquidus (B) and liquidus (C) as quadratics in pressure, the linear
   * clinopyroxene reaction coefficient (r1, r2), the melting exponent and
   * the clinopyroxene mass fraction. They are read and kept, but only the
   * melt-fraction computation uses them, and that is not part of this model.
   */
  datatype MeltingCoefficients = MeltingCoefficients(
    a1: real, a2: real, a3: real,
    b1: real, b2: real, b3: real,
    c1: real, c2: real, c3: real,
    r1: real, r2: real,
    beta: real, massFractionCpx: real)

  class DepletionStrengthening {
    var melting: MeltingCoefficients
    /** Exponent of the strengthening law (alpha_depletion). */
    var alphaDepletion: real
    /** Cap on the strengthening factor (delta_eta_depletion_max). */
    var deltaEtaDepletionMax: real

    constructor ()
    {
    }

    /** Reads each of the fifteen parameters from its entry. */
    method ParseParameters(prm: map<Entry, real>)
      requires HasAllEntries(prm)
      modifies this
      ensures melting.a1 == prm[A1] && melting.a2 == prm[A2] && melting.a3 == prm[A3]
      ensures melting.b1 == prm[B1] && melting.b2 == prm[B2] && melting.b3 == prm[B3]
      ensures melting.c1 == prm[C1] && melting.c2 == prm[C2] && melting.c3 == prm[C3]
      ensures melting.r1 == prm[R1] && melting.r2 == prm[R2]
      ensures melting.beta == prm[Beta] && melting.massFractionCpx == prm[MassFractionCpx]
      ensures alphaDepletion == prm[AlphaDepletion]
      ensures deltaEtaDepletionMax == prm[DeltaEtaDepletionMax]
    {
      melting := MeltingCoefficients(
        prm[A1], prm[A2], prm[A3],
        prm[B1], prm[B2], prm[B3],
        prm[C1], prm[C2], prm[C3],
        prm[R1], prm[R2],
        prm[Beta], prm[MassFractionCpx]);
      alphaDepletion := prm[AlphaDepletion];
      deltaEtaDepletionMax := prm[DeltaEtaDepletionMax];
    }

    /**
     * The viscosity multiplier at one evaluation point. `composition` holds
     * one value per compositional field, named by `fieldNames`. Pressure and
     * temperature are accepted but play no part.
     */
    function ComputeDepletionEffect(pressure: real, temperature: real, composition: seq<real>,
                                    fieldNames: seq<string>, exp: real -> real): (f: real)
      reads this
      requires |composition| == |fieldNames|
      requires IsExponential(exp)
      ensures DepletionFieldName !in fieldNames ==> f == 1.0
      ensures DepletionFieldName in fieldNames ==> f <= deltaEtaDepletionMax
      ensures alphaDepletion >= 0.0 ==> f >= Min(1.0, deltaEtaDepletionMax)
      ensures alphaDepletion == 0.0 && DepletionFieldName in fieldNames ==> f == Min(1.0, deltaEtaDepletionMax)
    {
      match IndexForName(fieldNames, DepletionFieldName)
      case None => 1.0
      case Some(i) => StrengtheningFactor(alphaDepletion, deltaEtaDepletionMax, composition[i], exp)
    }
  }

  /**
   * When the depletion field is present, the factor is the strengthening law
   * applied to that field's value (the first field of that name).
   */
  lemma EffectReadsDepletionField(ds: DepletionStrengthening, pressure: real, temperature: real,
                                  composition: seq<real>, fieldNames: seq<string>, exp: real -> real, i: nat)
    requires |composition| == |fieldNames| && IsExponential(exp)
    requires i < |fieldNames| && fieldNames[i] == DepletionFieldName && DepletionFieldName !in fieldNames[..i]
    ensures ds.ComputeDepletionEffect(pressure, temperature, composition, fieldNames, exp)
         == StrengtheningFactor(ds.alphaDepletion, ds.deltaEtaDepletionMax, composition[i], exp)
  {
  }

  /** With a non-negative exponent, more depletion never weakens: the law is non-decreasing in the field value. */
  lemma FactorMonotoneInDepletion(alpha: real, cap: real, x: real, y: real, exp: real -> real)
    requires IsExponential(exp)
    requires alpha >= 0.0 && x <= y
    ensures StrengtheningFactor(alpha, cap, x, exp) <= StrengtheningFactor(alpha, cap, y, exp)
  {
    var dx, dy := ClampToUnit(x), ClampToUnit(y);
    assert dx <= dy;
    var gap := dy - dx;
    assert alpha * gap >= 0.0 by {
      if alpha > 0.0 && gap > 0.0 {
        assert alpha * gap > 0.0;
      }
    }
    assert alpha * dy == alpha * dx + alpha * gap;
    ExpMonotone(exp, alpha * dx, alpha * dy);
  }

  lemma ExpMonotone(exp: real -> real, u: real, v: real)
    requires IsExponential(exp) && u <= v
    ensures exp(u) <= exp(v)
  {
  }

  /** Field values outside [0, 1] act as the nearest end of that interval. */
  lemma OutOfRangeDepletionIsClamped(alpha: real, cap: real, x: real, exp: real -> real)
    requires IsExponential(exp)
    ensures x <= 0.0 ==> StrengtheningFactor(alpha, cap, x, exp) == Min(1.0, cap)
    ensures x >= 1.0 ==> StrengtheningFactor(alpha, cap, x, exp) == Min(exp(alpha), cap)
  {
  }

  /**
   * The factor depends on the composition only through the depletion field:
   * two points that agree on that field get the same factor, whatever their
   * pressure, temperature and other fields.
   */
  lemma EffectDependsOnlyOnDepletionField(ds: DepletionStrengthening, fieldNames: seq<string>, exp: real -> real,
                                          p1: real, t1: real, comp1: seq<real>,
                                          p2: real, t2: real, comp2: seq<real>)
    requires |comp1| == |fieldNames| && |comp2| == |fieldNames|
    requires IsExponential(exp)
    requires forall i :: 0 <= i < |fieldNames| && fieldNames[i] == DepletionFieldName ==> comp1[i] == comp2[i]
    ensures ds.ComputeDepletionEffect(p1, t1, comp1, fieldNames, exp)
         == ds.ComputeDepletionEffect(p2, t2, comp2, fieldNames, exp)
  {
  }

  /** With the declared default parameters the viscosity does not depend on the depletion. */
  lemma DefaultParametersGiveNoStrengthening(ds: DepletionStrengthening, pressure: real, temperature: real,
                                             composition: seq<real>, fieldNames: seq<string>, exp: real -> real)
    requires |composition| == |fieldNames| && IsExponential(exp)
    requires ds.alphaDepletion == DeclaredDefaults[AlphaDepletion]
    requires ds.deltaEtaDepletionMax == DeclaredDefaults[DeltaEtaDepletionMax]
    ensures ds.ComputeDepletionEffect(pressure, temperature, composition, fieldNames, exp) == 1.0
  {
  }

  /**
   * The cap is only bounded below by 0, so a cap below 1 weakens: the factor
   * is then below 1 even for an undepleted rock.
   */
  lemma CapBelowOneWeakens(alpha: real, cap: real, fieldValue: real, exp: real -> real)
    requires IsExponential(exp)
    requires alpha >= 0.0
    requires 0.0 <= cap < 1.0
    ensures StrengtheningFactor(alpha, cap, fieldValue, exp) == cap < 1.0
  {
  }
}
