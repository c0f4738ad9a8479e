/**
  The input-completeness gate of the page: the encoder and the fitted model
  run only when every required form field is informed; otherwise the
  displayed income stays 0.
 */
module Gate {
  import opened Encoder

  /** The values read from the sidebar widgets. */
  datatype Formulario = Formulario(
    sexo: string,
    idade: int,
    educacao: string,
    tipoRenda: string,
    tempoEmprego: int,
    possuiVeiculo: bool,
    possuiImovel: bool
  )

  /** One presence check per required field, in the order they are listed. */
  function CheckParams(f: Formulario): (checks: seq<bool>) {
    [ |f.sexo| > 0,
      f.idade > 0,
      |f.educacao| > 0,
      |f.tipoRenda| > 0,
      f.tempoEmprego >= 0 ]
  }

  /** Whether some check failed, scanning the checks from the left. */
  function AlgumFalso(checks: seq<bool>): (r: bool)
    ensures r <==> exists i :: 0 <= i < |checks| && !checks[i]
  {
    if |checks| == 0 then false
    else !checks[0] || AlgumFalso(checks[1..])
  }

  /** Some required field is missing or out of range. */
  function ExisteDadoNaoInformado(f: Formulario): (r: bool)
    ensures r <==> f.sexo == "" || f.idade <= 0 || f.educacao == "" || f.tipoRenda == "" || f.tempoEmprego < 0
  {
    var checks := CheckParams(f);
    assert (exists i :: 0 <= i < |checks| && !checks[i])
       <==> !checks[0] || !checks[1] || !checks[2] || !checks[3] || !checks[4];
    AlgumFalso(checks)
  }

  /** The dictionary handed to the encoder. */
  function Params(f: Formulario): (d: Dados) {
    Dados(f.sexo, f.possuiVeiculo, f.possuiImovel, f.educacao, f.tipoRenda, f.idade, f.tempoEmprego)
  }

  /** The income shown on the page. `previsao` stands for the fitted model
      followed by the exponential back-transform, both outside this model. */
  function ValorRenda(f: Formulario, previsao: seq<int> -> real): (r: real)
    ensures ExisteDadoNaoInformado(f) ==> r == 0.0
  {
    if !ExisteDadoNaoInformado(f) then previsao(Encode(Params(f))) else 0.0
  }

  /** With a field missing, the shown value does not depend on the model:
      the model is never consulted. */
  lemma IncompleteIgnoresModel(f: Formulario, p: seq<int> -> real, q: seq<int> -> real)
    requires f.sexo == "" || f.idade <= 0 || f.educacao == "" || f.tipoRenda == "" || f.tempoEmprego < 0
    ensures ValorRenda(f, p) == ValorRenda(f, q) == 0.0
  {
  }

  /** With every field informed, the shown value is the model applied to the
      encoding of exactly the form's values. */
  lemma CompleteConsultsModel(f: Formulario, p: seq<int> -> real)
    requires f.sexo != "" && f.idade > 0 && f.educacao != "" && f.tipoRenda != "" && f.tempoEmprego >= 0
    ensures ValorRenda(f, p) == p(Encode(Dados(f.sexo, f.possuiVeiculo, f.possuiImovel, f.educacao, f.tipoRenda, f.idade, f.tempoEmprego)))
  {
  }

  /** Within the widgets' ranges (age from 18, months 0 to 99) only the three
      selection boxes can leave the form incomplete. */
  lemma WidgetRangeGate(f: Formulario)
    requires f.idade >= 18 && 0 <= f.tempoEmprego <= 99
    ensures ExisteDadoNaoInformado(f) <==> f.sexo == "" || f.educacao == "" || f.tipoRenda == ""
  {
  }

}
