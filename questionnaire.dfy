// The pre-operative questionnaire as the form collects it, and the risk tier
// the engine assigns. Every enumeration below lists exactly the options the
// form's widgets offer, so the string comparisons of streamlit_app.py become
// constructor tests.
module Questionnaire {

  /** The twelve options of the comorbidity multiselect. */
  datatype Comorbidade =
    | HipertensaoControlada
    | HipertensaoNaoControlada
    | DiabetesControlada
    | DiabetesDescompensada
    | InsuficienciaCardiaca
    | DoencaCoronarianaGrave
    | DpocGrave
    | Asma
    | ObesidadeMorbida
    | Hipotireoidismo
    | DoencaRenalCronica
    | CirroseHepatica

  /** ASA physical-status class, "ASA I" to "ASA V". */
  datatype Asa = AsaI | AsaII | AsaIII | AsaIV | AsaV

  /** Surgery complexity slider: "Baixa", "Média", "Alta". */
  datatype Complexidade = Baixa | Media | Alta

  datatype TipoCirurgia =
    | CirurgiaGeral
    | CirurgiaCardiaca
    | CirurgiaVascular
    | Neurocirurgia
    | CirurgiaOrtopedica
    | CirurgiaAbdominal
    | CirurgiaAmbulatorialSimples

  /** Anesthesia type: "Geral", "Regional", "Local", "Sedação". */
  datatype TipoAnestesia = Geral | Regional | Local | Sedacao

  /** One submitted form. The comorbidities keep the order the user picked them in. */
  datatype Respostas = Respostas(
    idade: int,
    comorbidades: seq<Comorbidade>,
    asa: Asa,
    usaAnticoagulantes: bool,
    usoCorticoides: bool,
    cirurgiaRecente: bool,
    tipoCirurgia: TipoCirurgia,
    tipoAnestesia: TipoAnestesia,
    complexidadeCirurgia: Complexidade)

  /** The risk tier: "Baixo", "Médio", "Alto". */
  datatype Risco = Baixo | Medio | Alto
}
