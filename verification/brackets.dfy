/**
  The tenure chain restated as an ordered table of inclusive month ranges,
  each naming the slot it sets, searched first match first. This is an
  independent reference for `Encoder.FaixaTempoEmprego` on non-pensioners.
 */
module Brackets {
  import opened Wrappers
  import opened Layout
  import opened Encoder

  /** Months `lo` to `hi` inclusive, or `lo` and up when `hi` is absent. */
  datatype Bracket = Bracket(lo: int, hi: Option<int>, slot: nat)

  predicate Contains(b: Bracket, t: int) {
    b.lo <= t && (b.hi.None? || t <= b.hi.value)
  }

  /** The month ranges in the order the chain tests them, as written. */
  const Chain: seq<Bracket> := [
    Bracket(6, Some(12), Tempo6a11),
    Bracket(12, Some(17), Tempo12a17),
    Bracket(18, Some(23), Tempo18a23),
    Bracket(24, Some(29), Tempo24a29),
    Bracket(30, Some(35), Tempo30a35),
    Bracket(36, Some(41), Tempo36a41),
    Bracket(42, None, Tempo42Mais)
  ]

  /** The position of the first bracket containing `t`, if any. */
  function FirstMatch(table: seq<Bracket>, t: int): (r: Option<nat>)
    ensures r.Some? ==> r.value < |table| && Contains(table[r.value], t)
    ensures r.Some? ==> forall j :: 0 <= j < r.value ==> !Contains(table[j], t)
    ensures r.None? ==> forall j :: 0 <= j < |table| ==> !Contains(table[j], t)
  {
    if |table| == 0 then None
    else if Contains(table[0], t) then Some(0)
    else
      match FirstMatch(table[1..], t)
      case None => None
      case Some(k) => Some(k + 1)
  }

  /** The slot the table search selects. */
  function TableSlot(t: int): (slot: Option<nat>) {
    match FirstMatch(Chain, t)
    case None => None
    case Some(k) => Some(Chain[k].slot)
  }

  /** The encoder's if/else-if chain is the first-match search of the table. */
  lemma ChainIsFirstMatch(d: Dados)
    requires !EhPensionista(d)
    ensures FaixaTempoEmprego(d) == TableSlot(d.tempoEmprego)
  {
    var t := d.tempoEmprego;
    match FirstMatch(Chain, t)
    case None =>
      ChainCovers(t);
    case Some(k) =>
      assert !Contains(Chain[0], t) ==> 0 < k;
  }

  /** Some bracket contains `t` exactly when `t` is at least six months. */
  lemma ChainCovers(t: int)
    ensures (exists k :: 0 <= k < |Chain| && Contains(Chain[k], t)) <==> t >= 6
  {
    if t >= 6 {
      var k := if t <= 12 then 0 else if t <= 17 then 1 else if t <= 23 then 2
        else if t <= 29 then 3 else if t <= 35 then 4 else if t <= 41 then 5 else 6;
      assert Contains(Chain[k], t);
    }
  }

  /** Two brackets of the table share a month only at 12 months. */
  lemma OverlapOnlyAtTwelve(t: int)
    ensures (exists i, j :: 0 <= i < j < |Chain| && Contains(Chain[i], t) && Contains(Chain[j], t)) <==> t == 12
  {
    if t == 12 {
      assert Contains(Chain[0], t) && Contains(Chain[1], t);
    }
  }

  /** Away from 12 months, a non-pensioner's tenure lands in the one bracket
      whose range contains it. */
  lemma LandsInContainingBracket(d: Dados, k: nat)
    requires !EhPensionista(d) && d.tempoEmprego != 12
    requires k < |Chain| && Contains(Chain[k], d.tempoEmprego)
    ensures FaixaTempoEmprego(d) == Some(Chain[k].slot)
    ensures forall j :: 0 <= j < |Chain| && Contains(Chain[j], d.tempoEmprego) ==> j == k
  {
    OverlapOnlyAtTwelve(d.tempoEmprego);
    ChainIsFirstMatch(d);
  }

}
