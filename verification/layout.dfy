/**
  The fixed 19-slot design vector consumed by the fitted regression model,
  in the order the coefficients were trained on, and facts about sums of
  its indicator slots.
 */
module Layout {

  const Width: nat := 19

  const Intercept: nat := 0
  const Sexo: nat := 1
  const Tempo12a17: nat := 2
  const Tempo18a23: nat := 3
  const Tempo24a29: nat := 4
  const Tempo30a35: nat := 5
  const Tempo36a41: nat := 6
  const Tempo42Mais: nat := 7
  const Tempo6a11: nat := 8
  const TempoPensionista: nat := 9
  const RendaEmpresario: nat := 10
  const RendaPensionista: nat := 11
  const RendaServidorPublico: nat := 12
  const EtariaIdoso: nat := 13
  const EtariaJovem: nat := 14
  const EtariaPensionista: nat := 15
  const CursoSuperior: nat := 16
  const PosseDeVeiculo: nat := 17
  const PosseDeImovel: nat := 18

  /** Half-open slot ranges of the three one-hot groups. */
  const TempoInicio: nat := 2
  const TempoFim: nat := 10
  const RendaInicio: nat := 10
  const RendaFim: nat := 13
  const EtariaInicio: nat := 13
  const EtariaFim: nat := 16

  /** The 0/1 value of a flag. */
  function Ind(b: bool): (r: int)
    ensures r == 0 || r == 1
  {
    if b then 1 else 0
  }

  function Sum(s: seq<int>): (r: int) {
    if |s| == 0 then 0 else s[0] + Sum(s[1..])
  }

  /** A sequence that is 1 at position k and 0 everywhere else sums to 1
      when k is one of its positions and to 0 otherwise. */
  lemma {:induction false} SumOfIndicator(s: seq<int>, k: int)
    requires forall i :: 0 <= i < |s| ==> s[i] == Ind(i == k)
    ensures Sum(s) == Ind(0 <= k < |s|)
  {
    if |s| > 0 {
      var rest := s[1..];
      assert forall i :: 0 <= i < |rest| ==> rest[i] == Ind(i == k - 1) by {
        forall i | 0 <= i < |rest|
          ensures rest[i] == Ind(i == k - 1)
        {
          assert rest[i] == s[i + 1];
        }
      }
      SumOfIndicator(rest, k - 1);
    }
  }

}
