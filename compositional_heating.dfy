/**
 * Compositional heating (aspect::HeatingModel::CompositionalHeating).
 *
 * Each of the N compositional fields, plus the background field, carries a
 * fixed heat production per unit volume. The heat source at a point is the
 * average of those values weighted by the point's volume fractions. This
 * model contributes no latent heat.
 *
 * The volume fractions come from a collaborator that is not part of this
 * model (compute_volume_fractions). Evaluate takes it as a parameter
 * `volumeFractions` and relies only on what its call site needs.
 */
module HeatingModel {
  import opened Wrappers

  /** A configuration error raised while reading the parameters. */
  datatype ConfigError =
    /** A per-field list has a length other than 1 or the number of fields. */
    | ListLengthMismatch(listName: string, length: nat, expected: nat)

  const AveragingEntry: string := "Use compositional field for heat production averaging"
  const HeatingValuesEntry: string := "Compositional heating values"

  /**
   * Extends a per-field list to n entries: a single value is repeated n
   * times, a list of n entries is kept, and any other length is an error.
   */
  function ExtendFrom1ToN<T>(values: seq<T>, n: nat, listName: string): (r: Result<seq<T>, ConfigError>)
    ensures r.Success? <==> |values| == 1 || |values| == n
    ensures r.Success? ==> |r.value| == n
    ensures r.Success? && |values| == 1 ==> forall i :: 0 <= i < n ==> r.value[i] == values[0]
    ensures r.Success? && |values| == n ==> r.value == values
    ensures r.Failure? ==> r.error == ListLengthMismatch(listName, |values|, n)
  {
    if |values| == 1 then
      var extended := seq(n, _ => values[0]);
      assert n == 1 ==> extended == values;
      Success(extended)
    else if |values| == n then Success(values)
    else Failure(ListLengthMismatch(listName, |values|, n))
  }

  /**
   * The inner product of the first |fractions| heating values with the
   * volume fractions: the heat production of one point.
   */
  function HeatProduction(fractions: seq<real>, heatingValues: seq<real>): real
    requires |fractions| <= |heatingValues|
  {
    if |fractions| == 0 then 0.0
    else
      var last := |fractions| - 1;
      HeatProduction(fractions[..last], heatingValues) + fractions[last] * heatingValues[last]
  }

  /** The sum of a sequence of volume fractions. */
  function Sum(s: seq<real>): real
  {
    if |s| == 0 then 0.0 else Sum(s[..|s| - 1]) + s[|s| - 1]
  }

  /** Non-negative fractions and non-negative heating values give a non-negative heat source. */
  lemma {:induction false} HeatProductionNonNegative(fractions: seq<real>, heatingValues: seq<real>)
    requires |fractions| <= |heatingValues|
    requires forall c :: 0 <= c < |fractions| ==> fractions[c] >= 0.0
    requires forall c :: 0 <= c < |heatingValues| ==> heatingValues[c] >= 0.0
    ensures HeatProduction(fractions, heatingValues) >= 0.0
  {
    if |fractions| > 0 {
      var last := |fractions| - 1;
      HeatProductionNonNegative(fractions[..last], heatingValues);
      assert fractions[last] * heatingValues[last] >= 0.0;
    }
  }

  /** When every field produces no heat (the declared default "0"), the heat source is 0. */
  lemma {:induction false} HeatProductionOfZeroValues(fractions: seq<real>, heatingValues: seq<real>)
    requires |fractions| <= |heatingValues|
    requires forall c :: 0 <= c < |heatingValues| ==> heatingValues[c] == 0.0
    ensures HeatProduction(fractions, heatingValues) == 0.0
  {
    if |fractions| > 0 {
      HeatProductionOfZeroValues(fractions[..|fractions| - 1], heatingValues);
    }
  }

  /**
   * When every field produces the same heat h (a single broadcast value),
   * the heat source is h times the total volume fraction: h itself when the
   * fractions sum to 1.
   */
  lemma {:induction false} HeatProductionOfUniformValues(fractions: seq<real>, heatingValues: seq<real>, h: real)
    requires |fractions| <= |heatingValues|
    requires forall c :: 0 <= c < |heatingValues| ==> heatingValues[c] == h
    ensures HeatProduction(fractions, heatingValues) == h * Sum(fractions)
  {
    if |fractions| > 0 {
      var last := |fractions| - 1;
      HeatProductionOfUniformValues(fractions[..last], heatingValues, h);
      assert h * Sum(fractions) == h * Sum(fractions[..last]) + h * fractions[last];
    }
  }

  /** A point made entirely of field k produces exactly field k's heat. */
  lemma {:induction false} HeatProductionOfPureField(fractions: seq<real>, heatingValues: seq<real>, k: nat)
    requires |fractions| <= |heatingValues| && k < |fractions|
    requires fractions[k] == 1.0
    requires forall c :: 0 <= c < |fractions| && c != k ==> fractions[c] == 0.0
    ensures HeatProduction(fractions, heatingValues) == heatingValues[k]
  {
    var last := |fractions| - 1;
    if k < last {
      HeatProductionOfPureField(fractions[..last], heatingValues, k);
    } else {
      HeatProductionOfZeroFractions(fractions[..last], heatingValues);
    }
  }

  /** Zero fractions give no heat, whatever the heating values. */
  lemma {:induction false} HeatProductionOfZeroFractions(fractions: seq<real>, heatingValues: seq<real>)
    requires |fractions| <= |heatingValues|
    requires forall c :: 0 <= c < |fractions| ==> fractions[c] == 0.0
    ensures HeatProduction(fractions, heatingValues) == 0.0
  {
    if |fractions| > 0 {
      HeatProductionOfZeroFractions(fractions[..|fractions| - 1], heatingValues);
    }
  }

  /** Three fields with fractions 0.5, 0.3 and 0.2 and heating values 0, 1e-6 and 2e-6 W/m^3 give 7e-7 W/m^3. */
  lemma HeatProductionExample()
    ensures HeatProduction([0.5, 0.3, 0.2], [0.0, 1.0e-6, 2.0e-6]) == 7.0e-7
  {
    var v := [0.0, 1.0e-6, 2.0e-6];
    assert HeatProduction([0.5], v) == 0.0 by {
      assert [0.5][..0] == [];
    }
    assert HeatProduction([0.5, 0.3], v) == 3.0e-7 by {
      assert [0.5, 0.3][..1] == [0.5];
    }
    assert [0.5, 0.3, 0.2][..2] == [0.5, 0.3];
  }

  class CompositionalHeating {
    /** Heat production per unit volume of the background and of each compositional field. */
    var heatingValues: seq<real>
    /** Whether each field takes part in the volume-fraction averaging. */
    var fieldsUsedInHeatProductionAveraging: seq<bool>

    constructor ()
      ensures heatingValues == [] && fieldsUsedInHeatProductionAveraging == []
    {
      heatingValues := [];
      fieldsUsedInHeatProductionAveraging := [];
    }

    /**
     * Reads the averaging mask (a list of integers, 0 or 1) and the heating
     * values, each extended to nCompositionalFields + 1 entries. The mask is
     * stored before the heating values are read, so an error in the heating
     * values leaves the new mask in place.
     */
    method ParseParameters(nCompositionalFields: nat, usedFields: seq<int>, heatingValueList: seq<real>)
      returns (r: Outcome<ConfigError>)
      modifies this
      ensures var n := nCompositionalFields + 1;
        && (|usedFields| != 1 && |usedFields| != n ==>
              && r == Fail(ListLengthMismatch(AveragingEntry, |usedFields|, n))
              && fieldsUsedInHeatProductionAveraging == old(fieldsUsedInHeatProductionAveraging)
              && heatingValues == old(heatingValues))
        && ((|usedFields| == 1 || |usedFields| == n) ==>
              && |fieldsUsedInHeatProductionAveraging| == n
              && (forall i :: 0 <= i < n ==>
                    fieldsUsedInHeatProductionAveraging[i] == (usedFields[if |usedFields| == 1 then 0 else i] != 0)))
        && ((|usedFields| == 1 || |usedFields| == n) && |heatingValueList| != 1 && |heatingValueList| != n ==>
              && r == Fail(ListLengthMismatch(HeatingValuesEntry, |heatingValueList|, n))
              && heatingValues == old(heatingValues))
        && (r.Pass? <==> (|usedFields| == 1 || |usedFields| == n) && (|heatingValueList| == 1 || |heatingValueList| == n))
        && (r.Pass? ==>
              && |heatingValues| == n
              && forall i :: 0 <= i < n ==> heatingValues[i] == heatingValueList[if |heatingValueList| == 1 then 0 else i])
    {
      // increment by one for the background field
      var n := nCompositionalFields + 1;
      var extendedFields := ExtendFrom1ToN(usedFields, n, AveragingEntry);
      if extendedFields.Failure? {
        return Fail(extendedFields.error);
      }
      var used := extendedFields.value;
      fieldsUsedInHeatProductionAveraging := Resize(fieldsUsedInHeatProductionAveraging, |used|);
      var i := 0;
      while i < |used|
        invariant 0 <= i <= |used|
        invariant |fieldsUsedInHeatProductionAveraging| == |used|
        invariant forall k :: 0 <= k < i ==> fieldsUsedInHeatProductionAveraging[k] == (used[k] != 0)
        invariant heatingValues == old(heatingValues)
      {
        fieldsUsedInHeatProductionAveraging := fieldsUsedInHeatProductionAveraging[i := used[i] != 0];
        i := i + 1;
      }
      var extendedValues := ExtendFrom1ToN(heatingValueList, n, HeatingValuesEntry);
      if extendedValues.Failure? {
        return Fail(extendedValues.error);
      }
      heatingValues := extendedValues.value;
      r := Pass;
    }

    /**
     * Writes, for every point q below heatingSourceTerms.Length, the heat
     * source of that point's composition and a zero latent-heat term.
     */
    method Evaluate(composition: seq<seq<real>>, volumeFractions: (seq<real>, seq<bool>) -> seq<real>,
                    heatingSourceTerms: array<real>, lhsLatentHeatTerms: array<real>)
      requires heatingSourceTerms != lhsLatentHeatTerms
      requires heatingSourceTerms.Length <= |composition|
      requires heatingSourceTerms.Length <= lhsLatentHeatTerms.Length
      requires forall q :: 0 <= q < heatingSourceTerms.Length ==>
                 |volumeFractions(composition[q], fieldsUsedInHeatProductionAveraging)| <= |heatingValues|
      modifies heatingSourceTerms, lhsLatentHeatTerms
      ensures forall q :: 0 <= q < heatingSourceTerms.Length ==>
                heatingSourceTerms[q]
                == HeatProduction(volumeFractions(composition[q], fieldsUsedInHeatProductionAveraging), heatingValues)
      ensures forall q :: 0 <= q < heatingSourceTerms.Length ==> lhsLatentHeatTerms[q] == 0.0
      ensures forall q :: heatingSourceTerms.Length <= q < lhsLatentHeatTerms.Length ==>
                lhsLatentHeatTerms[q] == old(lhsLatentHeatTerms[q])
    {
      var q := 0;
      while q < heatingSourceTerms.Length
        invariant 0 <= q <= heatingSourceTerms.Length
        invariant forall p :: 0 <= p < q ==>
                    heatingSourceTerms[p]
                    == HeatProduction(volumeFractions(composition[p], fieldsUsedInHeatProductionAveraging), heatingValues)
        invariant forall p :: 0 <= p < q ==> lhsLatentHeatTerms[p] == 0.0
        invariant forall p :: q <= p < lhsLatentHeatTerms.Length ==> lhsLatentHeatTerms[p] == old(lhsLatentHeatTerms[p])
      {
        var fractions := volumeFractions(composition[q], fieldsUsedInHeatProductionAveraging);
        var production := 0.0;
        var c := 0;
        while c < |fractions|
          invariant 0 <= c <= |fractions|
          invariant production == HeatProduction(fractions[..c], heatingValues)
        {
          assert fractions[..c + 1][..c] == fractions[..c];
          production := production + fractions[c] * heatingValues[c];
          c := c + 1;
        }
        assert fractions[..c] == fractions;
        heatingSourceTerms[q] := production;
        lhsLatentHeatTerms[q] := 0.0;
        q := q + 1;
      }
    }
  }

  /** std::vector::resize on a mask: keeps the first n entries and pads with false. */
  function Resize(mask: seq<bool>, n: nat): (r: seq<bool>)
    ensures |r| == n
    ensures forall i :: 0 <= i < n && i < |mask| ==> r[i] == mask[i]
    ensures forall i :: |mask| <= i < n ==> !r[i]
  {
    if |mask| >= n then mask[..n] else mask + seq(n - |mask|, _ => false)
  }
}
