/**
  The feature encoder of the income predictor: a record of raw form values
  becomes the 19-slot design vector of `Layout`. Each one-hot group is chosen
  by an exclusive if/else-if chain in which "Pensionista" always wins.
 */
module Encoder {
  import opened Wrappers
  import opened Layout

  const Feminino := "Feminino"
  const PosGraduacao := "Pós graduação"
  const SuperiorCompleto := "Superior completo"
  const Pensionista := "Pensionista"
  const Empresario := "Empresário"
  const ServidorPublico := "Servidor público"

  /** The raw values handed to the encoder, one field per dictionary key. */
  datatype Dados = Dados(
    sexo: string,
    posseDeVeiculo: bool,
    posseDeImovel: bool,
    educacao: string,
    tipoRenda: string,
    idade: int,
    tempoEmprego: int
  )

  predicate EhPensionista(d: Dados) {
    d.tipoRenda == Pensionista
  }

  /** The tenure slot that fires: "Pensionista" first, then the month
      brackets in the order they are tested. Note the first bracket accepts
      12 months, which the second one also names as its lower bound. */
  function FaixaTempoEmprego(d: Dados): (slot: Option<nat>)
    ensures slot.Some? <==> EhPensionista(d) || d.tempoEmprego >= 6
    ensures slot.Some? ==> TempoInicio <= slot.value < TempoFim
    ensures slot == Some(TempoPensionista) <==> EhPensionista(d)
  {
    var t := d.tempoEmprego;
    if EhPensionista(d) then Some(TempoPensionista)
    else if t >= 6 && t <= 12 then Some(Tempo6a11)
    else if t >= 12 && t <= 17 then Some(Tempo12a17)
    else if t >= 18 && t <= 23 then Some(Tempo18a23)
    else if t >= 24 && t <= 29 then Some(Tempo24a29)
    else if t >= 30 && t <= 35 then Some(Tempo30a35)
    else if t >= 36 && t <= 41 then Some(Tempo36a41)
    else if t >= 42 then Some(Tempo42Mais)
    else None
  }

  /** The income-type slot that fires, if the income type is one of the
      three the model has coefficients for. */
  function TipoRenda(d: Dados): (slot: Option<nat>)
    ensures slot.Some? <==> d.tipoRenda in {Pensionista, Empresario, ServidorPublico}
    ensures slot.Some? ==> RendaInicio <= slot.value < RendaFim
  {
    if d.tipoRenda == Pensionista then Some(RendaPensionista)
    else if d.tipoRenda == Empresario then Some(RendaEmpresario)
    else if d.tipoRenda == ServidorPublico then Some(RendaServidorPublico)
    else None
  }

  /** The age-bracket slot that fires; none fires for ages 30 to 59. */
  function FaixaEtaria(d: Dados): (slot: Option<nat>)
    ensures slot.None? <==> !EhPensionista(d) && 30 <= d.idade <= 59
    ensures slot.Some? ==> EtariaInicio <= slot.value < EtariaFim
  {
    if EhPensionista(d) then Some(EtariaPensionista)
    else if d.idade <= 29 then Some(EtariaJovem)
    else if d.idade >= 60 then Some(EtariaIdoso)
    else None
  }

  predicate TemCursoSuperior(d: Dados) {
    d.educacao == PosGraduacao || d.educacao == SuperiorCompleto
  }

  /** The design vector, slot by slot in the order of `Layout`. */
  function Encode(d: Dados): (v: seq<int>)
    ensures |v| == Width
    ensures forall i :: 0 <= i < |v| ==> v[i] == 0 || v[i] == 1
    ensures v[Intercept] == 1
  {
    var tempo := FaixaTempoEmprego(d);
    var renda := TipoRenda(d);
    var etaria := FaixaEtaria(d);
    [ 1,
      Ind(d.sexo == Feminino),
      Ind(tempo == Some(Tempo12a17)),
      Ind(tempo == Some(Tempo18a23)),
      Ind(tempo == Some(Tempo24a29)),
      Ind(tempo == Some(Tempo30a35)),
      Ind(tempo == Some(Tempo36a41)),
      Ind(tempo == Some(Tempo42Mais)),
      Ind(tempo == Some(Tempo6a11)),
      Ind(tempo == Some(TempoPensionista)),
      Ind(renda == Some(RendaEmpresario)),
      Ind(renda == Some(RendaPensionista)),
      Ind(renda == Some(RendaServidorPublico)),
      Ind(etaria == Some(EtariaIdoso)),
      Ind(etaria == Some(EtariaJovem)),
      Ind(etaria == Some(EtariaPensionista)),
      Ind(TemCursoSuperior(d)),
      Ind(d.posseDeVeiculo),
      Ind(d.posseDeImovel) ]
  }

  /** Every slot of a one-hot group is 1 exactly when the group's chain
      chose that slot. */
  lemma GroupSlots(d: Dados)
    ensures forall i :: TempoInicio <= i < TempoFim ==> Encode(d)[i] == Ind(FaixaTempoEmprego(d) == Some(i))
    ensures forall i :: RendaInicio <= i < RendaFim ==> Encode(d)[i] == Ind(TipoRenda(d) == Some(i))
    ensures forall i :: EtariaInicio <= i < EtariaFim ==> Encode(d)[i] == Ind(FaixaEtaria(d) == Some(i))
  {
  }

  /** The sum of the slots of a group is 1 when its chain chose a slot and
      0 otherwise. */
  lemma GroupSum(v: seq<int>, lo: nat, hi: nat, choice: Option<nat>)
    requires lo <= hi <= |v|
    requires choice.Some? ==> lo <= choice.value < hi
    requires forall i :: lo <= i < hi ==> v[i] == Ind(choice == Some(i))
    ensures Sum(v[lo..hi]) == Ind(choice.Some?)
  {
    var s := v[lo..hi];
    var k := if choice.Some? then choice.value - lo else -1;
    forall i | 0 <= i < |s|
      ensures s[i] == Ind(i == k)
    {
      assert s[i] == v[lo + i];
    }
    SumOfIndicator(s, k);
  }

  /** Exactly one tenure slot fires for a pensioner or for six months of
      employment or more; none fires otherwise. */
  lemma TenureExactlyOne(d: Dados)
    ensures Sum(Encode(d)[TempoInicio..TempoFim]) == Ind(EhPensionista(d) || d.tempoEmprego >= 6)
  {
    GroupSlots(d);
    GroupSum(Encode(d), TempoInicio, TempoFim, FaixaTempoEmprego(d));
  }

  /** At most one income-type slot fires, and none fires exactly when the
      income type is not one of the three known to the model. */
  lemma IncomeTypeAtMostOne(d: Dados)
    ensures Sum(Encode(d)[RendaInicio..RendaFim]) <= 1
    ensures Sum(Encode(d)[RendaInicio..RendaFim]) == 0 <==> d.tipoRenda !in {Pensionista, Empresario, ServidorPublico}
    ensures Encode(d)[RendaEmpresario] == 1 <==> d.tipoRenda == Empresario
    ensures Encode(d)[RendaPensionista] == 1 <==> d.tipoRenda == Pensionista
    ensures Encode(d)[RendaServidorPublico] == 1 <==> d.tipoRenda == ServidorPublico
  {
    GroupSlots(d);
    GroupSum(Encode(d), RendaInicio, RendaFim, TipoRenda(d));
  }

  /** At most one age slot fires; none fires for a non-pensioner aged 30 to 59. */
  lemma AgeAtMostOne(d: Dados)
    ensures Sum(Encode(d)[EtariaInicio..EtariaFim]) == Ind(EhPensionista(d) || d.idade <= 29 || d.idade >= 60)
  {
    GroupSlots(d);
    GroupSum(Encode(d), EtariaInicio, EtariaFim, FaixaEtaria(d));
  }

  /** For a non-pensioner the age brackets follow the age alone. */
  lemma AgeBrackets(d: Dados)
    requires !EhPensionista(d)
    ensures d.idade <= 29 ==> Encode(d)[EtariaJovem] == 1 && Encode(d)[EtariaIdoso] == 0 && Encode(d)[EtariaPensionista] == 0
    ensures d.idade >= 60 ==> Encode(d)[EtariaIdoso] == 1 && Encode(d)[EtariaJovem] == 0 && Encode(d)[EtariaPensionista] == 0
    ensures 30 <= d.idade <= 59 ==> Encode(d)[EtariaIdoso] == 0 && Encode(d)[EtariaJovem] == 0 && Encode(d)[EtariaPensionista] == 0
  {
  }

  /** "Pensionista" overrides tenure and age: its three slots fire and
      every other slot of the three groups stays 0. */
  lemma PensionistaPriority(d: Dados)
    requires EhPensionista(d)
    ensures Encode(d)[TempoPensionista] == 1
    ensures Encode(d)[RendaPensionista] == 1
    ensures Encode(d)[EtariaPensionista] == 1
    ensures forall i :: TempoInicio <= i < EtariaFim && i !in {TempoPensionista, RendaPensionista, EtariaPensionista} ==> Encode(d)[i] == 0
  {
    GroupSlots(d);
  }

  /** For a pensioner the age and the months of employment do not affect
      the vector at all. */
  lemma PensionistaIgnoresNumbers(d: Dados, idade: int, tempoEmprego: int)
    requires EhPensionista(d)
    ensures Encode(d.(idade := idade, tempoEmprego := tempoEmprego)) == Encode(d)
  {
  }

  /** For a non-pensioner, each tenure slot fires exactly on the months its
      test admits once the earlier tests have failed; 12 months lands in the
      6-11 slot. */
  lemma TenureBracketsAsWritten(d: Dados)
    requires !EhPensionista(d)
    ensures Encode(d)[Tempo6a11] == 1 <==> 6 <= d.tempoEmprego <= 12
    ensures Encode(d)[Tempo12a17] == 1 <==> 13 <= d.tempoEmprego <= 17
    ensures Encode(d)[Tempo18a23] == 1 <==> 18 <= d.tempoEmprego <= 23
    ensures Encode(d)[Tempo24a29] == 1 <==> 24 <= d.tempoEmprego <= 29
    ensures Encode(d)[Tempo30a35] == 1 <==> 30 <= d.tempoEmprego <= 35
    ensures Encode(d)[Tempo36a41] == 1 <==> 36 <= d.tempoEmprego <= 41
    ensures Encode(d)[Tempo42Mais] == 1 <==> d.tempoEmprego >= 42
    ensures Encode(d)[TempoPensionista] == 0
  {
  }

  /** The boundary case: twelve months sets the 6-11 slot, not 12-17. */
  lemma TenureTwelveMonths(d: Dados)
    requires !EhPensionista(d) && d.tempoEmprego == 12
    ensures Encode(d)[Tempo6a11] == 1
    ensures Encode(d)[Tempo12a17] == 0
  {
  }

  /** The sex, vehicle and property slots follow their inputs. */
  lemma InputFlags(d: Dados)
    ensures Encode(d)[Sexo] == 1 <==> d.sexo == Feminino
    ensures Encode(d)[PosseDeVeiculo] == 1 <==> d.posseDeVeiculo
    ensures Encode(d)[PosseDeImovel] == 1 <==> d.posseDeImovel
  {
  }

  /** The higher-education slot is 1 exactly for the two completed-degree
      education levels. */
  lemma CursoSuperiorFlag(d: Dados)
    ensures Encode(d)[CursoSuperior] == 1 <==> d.educacao in {PosGraduacao, SuperiorCompleto}
  {
  }

  /** A male public servant aged 35 with 20 months of employment, higher
      education and a vehicle but no property. */
  lemma ScenarioServidorPublico()
    ensures Encode(Dados("Masculino", true, false, SuperiorCompleto, ServidorPublico, 35, 20))
         == [1, 0, 0, 1, 0, 0, 0, 0, 0, 0, 0, 0, 1, 0, 0, 0, 1, 1, 0]
  {
  }

}
