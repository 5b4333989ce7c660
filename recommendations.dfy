// gerar_recomendacoes: the fixed recommendation lines chosen from the
// questionnaire and the tier, followed by what the optional text-generation
// service contributes.
module Recommendations {
  import opened Questionnaire
  import opened PyStr
  import opened Reply
  import opened Seqs
  import Risk

  const AvaliacaoGeriatrica: string :=
    "Considere uma avaliação geriátrica pré-operatória."
  const ControleGlicemico: string :=
    "É importante controlar seus níveis de glicose antes da cirurgia. Agende uma consulta com seu endocrinologista."
  const ControlePressorico: string :=
    "Sua pressão arterial deve ser controlada antes do procedimento. Continue tomando seus medicamentos conforme orientação médica."
  const MedicacoesCardiacas: string :=
    "Mantenha-se em dia com suas medicações cardíacas e informe a equipe médica sobre todos os sintomas recentes."
  const InterrupcaoAnticoagulante: string :=
    "Você precisará interromper o uso de anticoagulantes antes da cirurgia. Consulte seu médico para um plano de interrupção segura."
  const AvaliacaoCardiologica: string :=
    "Seu risco cirúrgico é elevado. É altamente recomendável uma avaliação cardiológica completa antes do procedimento."
  const ExamesAdicionais: string :=
    "Seu risco cirúrgico é moderado. Considere realizar exames pré-operatórios adicionais conforme orientação médica."
  const PrefixoFalha: string :=
    "Não foi possível gerar recomendações personalizadas adicionais. Erro: "

  /** The outcome of the optional call to the text-generation service: no API
      key configured, a reply text (an HTTP error message is also a reply),
      or an exception with its message. */
  datatype ConsultaIA = SemChave | Resposta(texto: string) | Excecao(erro: string)

  // ---------------------------------------------------------------------------
  // Specification of the list.

  /** The line a single comorbidity contributes, if any. */
  function LinhaComorbidade(c: Comorbidade): seq<string> {
    match c
    case DiabetesDescompensada => [ControleGlicemico]
    case HipertensaoNaoControlada => [ControlePressorico]
    case InsuficienciaCardiaca => [MedicacoesCardiacas]
    case _ => []
  }

  /** One line per comorbidity that has one, in list order. */
  function LinhasComorbidades(cs: seq<Comorbidade>): (r: seq<string>)
    ensures |r| <= |cs|
  {
    if cs == [] then []
    else LinhasComorbidades(cs[..|cs| - 1]) + LinhaComorbidade(cs[|cs| - 1])
  }

  function LinhaRisco(risco: Risco): seq<string> {
    match risco
    case Alto => [AvaliacaoCardiologica]
    case Medio => [ExamesAdicionais]
    case Baixo => []
  }

  /** The deterministic part of the list. */
  function RecomendacoesBase(q: Respostas, risco: Risco): seq<string> {
    (if q.idade >= 70 then [AvaliacaoGeriatrica] else [])
    + LinhasComorbidades(q.comorbidades)
    + (if q.usaAnticoagulantes then [InterrupcaoAnticoagulante] else [])
    + LinhaRisco(risco)
  }

  /** What the text-generation service adds after the deterministic part. */
  function LinhasIA(ia: ConsultaIA): seq<string> {
    match ia
    case SemChave => []
    case Resposta(texto) => ProcessarResposta(texto)
    case Excecao(erro) => [PrefixoFalha + erro]
  }

  // ---------------------------------------------------------------------------
  // The list as gerar_recomendacoes builds it: appended to step by step.

  method GerarRecomendacoes(q: Respostas, risco: Risco, ia: ConsultaIA) returns (recomendacoes: seq<string>)
    ensures recomendacoes == RecomendacoesBase(q, risco) + LinhasIA(ia)
  {
    recomendacoes := [];

    if q.idade >= 70 {
      recomendacoes := recomendacoes + [AvaliacaoGeriatrica];
    }
    assert recomendacoes == (if q.idade >= 70 then [AvaliacaoGeriatrica] else []);

    recomendacoes := AnexarLinhasComorbidades(recomendacoes, q.comorbidades);

    ghost var parcial := recomendacoes;
    if q.usaAnticoagulantes {
      recomendacoes := recomendacoes + [InterrupcaoAnticoagulante];
    }
    assert recomendacoes == parcial + (if q.usaAnticoagulantes then [InterrupcaoAnticoagulante] else []);

    parcial := recomendacoes;
    if risco == Alto {
      recomendacoes := recomendacoes + [AvaliacaoCardiologica];
    } else if risco == Medio {
      recomendacoes := recomendacoes + [ExamesAdicionais];
    }
    assert recomendacoes == parcial + LinhaRisco(risco);
    assert recomendacoes == RecomendacoesBase(q, risco);

    match ia {
      case SemChave =>
      case Resposta(texto) =>
        recomendacoes := AnexarResposta(recomendacoes, texto);
      case Excecao(erro) =>
        recomendacoes := recomendacoes + [PrefixoFalha + erro];
    }
  }

  /** The loop over the comorbidities: appends one line for each entry that has one. */
  method AnexarLinhasComorbidades(inicio: seq<string>, cs: seq<Comorbidade>) returns (recomendacoes: seq<string>)
    ensures recomendacoes == inicio + LinhasComorbidades(cs)
  {
    recomendacoes := inicio;
    for i := 0 to |cs|
      invariant recomendacoes == inicio + LinhasComorbidades(cs[..i])
    {
      var c := cs[i];
      TakeOneMore(cs, i);
      ghost var antes := recomendacoes;
      if c == DiabetesDescompensada {
        recomendacoes := recomendacoes + [ControleGlicemico];
      } else if c == HipertensaoNaoControlada {
        recomendacoes := recomendacoes + [ControlePressorico];
      } else if c == InsuficienciaCardiaca {
        recomendacoes := recomendacoes + [MedicacoesCardiacas];
      }
      assert recomendacoes == antes + LinhaComorbidade(c);
      ConcatAssoc(inicio, LinhasComorbidades(cs[..i]), LinhaComorbidade(c));
    }
    TakeAll(cs);
  }

  /** The loop over the reply lines: appends every line that survives cleaning. */
  method AnexarResposta(inicio: seq<string>, texto: string) returns (recomendacoes: seq<string>)
    ensures recomendacoes == inicio + ProcessarResposta(texto)
  {
    recomendacoes := inicio;
    var linhas := Split(Strip(texto, IsSpace), "\n");
    for i := 0 to |linhas|
      invariant recomendacoes == inicio + Aproveitadas(linhas[..i], Cabecalho)
    {
      TakeOneMore(linhas, i);
      AproveitadasUltima(linhas[..i + 1], Cabecalho);
      ghost var antes := recomendacoes;
      recomendacoes := AnexarLinha(recomendacoes, linhas[i]);
      ConcatAssoc(inicio, Aproveitadas(linhas[..i], Cabecalho), Contribuicao(linhas[i], Cabecalho));
    }
    TakeAll(linhas);
  }

  /** The body of that loop for one raw line. */
  method AnexarLinha(antes: seq<string>, linha: string) returns (recomendacoes: seq<string>)
    ensures recomendacoes == antes + Contribuicao(linha, Cabecalho)
  {
    recomendacoes := antes;
    if linha != "" && !StartsWith(linha, Cabecalho) {
      var limpa := if Contains(linha, ". ") then Join(" ", Split(linha, ". ")[1..]) else linha;
      limpa := Strip(Strip(limpa, TracoOuEspaco), IsSpace);
      if limpa != "" && |limpa| > 10 {
        recomendacoes := recomendacoes + [limpa];
      }
    }
  }

  // ---------------------------------------------------------------------------
  // Properties of the list.

  /** The comorbidity lines follow the list order: the lines of a concatenation
      are the lines of each part, in order. */
  lemma {:induction false} LinhasComorbidadesConcat(a: seq<Comorbidade>, b: seq<Comorbidade>)
    ensures LinhasComorbidades(a + b) == LinhasComorbidades(a) + LinhasComorbidades(b)
    decreases |b|
  {
    if b == [] {
      assert a + b == a;
      AppendEmpty(LinhasComorbidades(a));
    } else {
      LinhasComorbidadesConcat(a, b[..|b| - 1]);
      ConcatDropLast(a, b);
      ConcatAssoc(LinhasComorbidades(a), LinhasComorbidades(b[..|b| - 1]), LinhaComorbidade(b[|b| - 1]));
    }
  }

  /** One line per entry equal to decompensated diabetes, uncontrolled
      hypertension or heart failure, and none for any other entry. */
  lemma {:induction false} ContagemLinhasComorbidades(cs: seq<Comorbidade>)
    ensures |LinhasComorbidades(cs)|
            == multiset(cs)[DiabetesDescompensada] + multiset(cs)[HipertensaoNaoControlada]
               + multiset(cs)[InsuficienciaCardiaca]
  {
    if cs != [] {
      var init, c := cs[..|cs| - 1], cs[|cs| - 1];
      ContagemLinhasComorbidades(init);
      assert cs == init + [c];
      assert multiset(cs) == multiset(init) + multiset{c};
    }
  }

  /** The length of the deterministic part is the sum of its four groups. */
  lemma TamanhoBase(q: Respostas, risco: Risco)
    ensures |RecomendacoesBase(q, risco)|
            == (if q.idade >= 70 then 1 else 0)
               + multiset(q.comorbidades)[DiabetesDescompensada]
               + multiset(q.comorbidades)[HipertensaoNaoControlada]
               + multiset(q.comorbidades)[InsuficienciaCardiaca]
               + (if q.usaAnticoagulantes then 1 else 0)
               + (if risco == Baixo then 0 else 1)
  {
    ContagemLinhasComorbidades(q.comorbidades);
  }

  /** The geriatric line opens the list when the patient is 70 or older; the
      tier line closes the deterministic part for Alto and Médio. */
  lemma ExtremosBase(q: Respostas, risco: Risco)
    ensures q.idade >= 70 ==> RecomendacoesBase(q, risco)[0] == AvaliacaoGeriatrica
    ensures risco == Alto ==> RecomendacoesBase(q, risco)[|RecomendacoesBase(q, risco)| - 1] == AvaliacaoCardiologica
    ensures risco == Medio ==> RecomendacoesBase(q, risco)[|RecomendacoesBase(q, risco)| - 1] == ExamesAdicionais
  {
    var base := RecomendacoesBase(q, risco);
    var inicio := if q.idade >= 70 then [AvaliacaoGeriatrica] else [];
    var meio := LinhasComorbidades(q.comorbidades)
                + (if q.usaAnticoagulantes then [InterrupcaoAnticoagulante] else []);
    ConcatAssoc(inicio, LinhasComorbidades(q.comorbidades),
                if q.usaAnticoagulantes then [InterrupcaoAnticoagulante] else []);
    ConcatAssoc(inicio, meio, LinhaRisco(risco));
    assert base == inicio + (meio + LinhaRisco(risco));
  }

  /** The deterministic part is a prefix of the list; after it come nothing
      (no API key), exactly one failure line (the service raised), or only
      cleaned reply lines, each longer than ten characters, free of line
      breaks and of leading or trailing whitespace. */
  lemma ApendiceIA(q: Respostas, risco: Risco, ia: ConsultaIA)
    ensures var base := RecomendacoesBase(q, risco);
            var todas := base + LinhasIA(ia);
            && todas[..|base|] == base
            && (ia.SemChave? ==> todas == base)
            && (ia.Excecao? ==> |todas| == |base| + 1 && todas[|base|] == PrefixoFalha + ia.erro)
            && (ia.Resposta? ==> forall j :: |base| <= j < |todas| ==> Aproveitavel(todas[j]) && '\n' !in todas[j])
  {
    AposPrefixo(RecomendacoesBase(q, risco), ia);
  }

  lemma AposPrefixo(base: seq<string>, ia: ConsultaIA)
    ensures var todas := base + LinhasIA(ia);
            && todas[..|base|] == base
            && (ia.SemChave? ==> todas == base)
            && (ia.Excecao? ==> |todas| == |base| + 1 && todas[|base|] == PrefixoFalha + ia.erro)
            && (ia.Resposta? ==> forall j :: |base| <= j < |todas| ==> Aproveitavel(todas[j]) && '\n' !in todas[j])
  {
    match ia {
      case SemChave => AppendEmpty(base);
      case Excecao(erro) => AposFalha(base, erro);
      case Resposta(texto) => AposResposta(base, texto);
    }
  }

  lemma AposFalha(base: seq<string>, erro: string)
    ensures var todas := base + [PrefixoFalha + erro];
            todas[..|base|] == base && |todas| == |base| + 1 && todas[|base|] == PrefixoFalha + erro
  {
    var todas := base + [PrefixoFalha + erro];
    assert todas[..|base|] == base;
  }

  lemma AposResposta(base: seq<string>, texto: string)
    ensures var todas := base + ProcessarResposta(texto);
            && todas[..|base|] == base
            && forall j :: |base| <= j < |todas| ==> Aproveitavel(todas[j]) && '\n' !in todas[j]
  {
    var linhas := ProcessarResposta(texto);
    var todas := base + linhas;
    assert todas[..|base|] == base;
    forall j | |base| <= j < |todas|
      ensures Aproveitavel(todas[j]) && '\n' !in todas[j]
    {
      assert todas[j] == linhas[j - |base|];
      LinhasAproveitadas(texto, j - |base|);
    }
  }

  /** With the tier the scorer assigns, two severe comorbidities always end the
      deterministic part with the cardiology line. */
  lemma DoisGravesPedemCardiologia(q: Respostas)
    requires Risk.FatoresGraves(q.comorbidades) >= 2
    ensures var base := RecomendacoesBase(q, Risk.Nivel(q));
            base != [] && base[|base| - 1] == AvaliacaoCardiologica
  {
    ExtremosBase(q, Risk.Nivel(q));
  }
}
