// The additive point model of calcular_risco_cirurgico: a specification of
// each independent contribution, the tier rule, the imperative scorer proved
// against them, and the properties the rule set promises (bounds, order
// independence, monotonicity, the severe-factor override).
module Risk {
  import opened Questionnaire

  // ---------------------------------------------------------------------------
  // The three scored comorbidity sets; the remaining options score nothing.

  predicate Grave(c: Comorbidade) {
    c == DiabetesDescompensada || c == InsuficienciaCardiaca
    || c == DoencaCoronarianaGrave || c == DpocGrave
  }

  predicate Moderada(c: Comorbidade) {
    c == HipertensaoNaoControlada || c == DiabetesControlada || c == ObesidadeMorbida
  }

  predicate Leve(c: Comorbidade) {
    c == HipertensaoControlada || c == Asma || c == Hipotireoidismo
  }

  // ---------------------------------------------------------------------------
  // Independent contributions.

  function PontosIdade(idade: int): nat {
    if idade >= 70 then 3 else if idade >= 60 then 2 else if idade >= 50 then 1 else 0
  }

  function PontosComorbidade(c: Comorbidade): nat {
    if Grave(c) then 3 else if Moderada(c) then 2 else if Leve(c) then 1 else 0
  }

  function PontosAsa(asa: Asa): nat {
    match asa
    case AsaIV => 4
    case AsaIII => 3
    case AsaII => 1
    case _ => 0
  }

  function PontosComplexidade(k: Complexidade): nat {
    match k
    case Alta => 3
    case Media => 2
    case Baixa => 1
  }

  /** Points of a list of comorbidities; every entry is scored, repeats included. */
  function SomaComorbidades(cs: seq<Comorbidade>): (p: nat)
    ensures p <= 3 * |cs|
    ensures p >= 3 * FatoresGraves(cs)
  {
    if cs == [] then 0
    else SomaComorbidades(cs[..|cs| - 1]) + PontosComorbidade(cs[|cs| - 1])
  }

  /** Number of entries that lie in the severe set. */
  function FatoresGraves(cs: seq<Comorbidade>): (n: nat)
    ensures n <= |cs|
  {
    if cs == [] then 0
    else FatoresGraves(cs[..|cs| - 1]) + (if Grave(cs[|cs| - 1]) then 1 else 0)
  }

  /** The total score: a plain sum of the independent contributions. */
  function Pontuacao(q: Respostas): (p: nat)
    ensures 1 <= p <= 15 + 3 * |q.comorbidades|
  {
    PontosIdade(q.idade)
    + SomaComorbidades(q.comorbidades)
    + (if q.usaAnticoagulantes then 2 else 0)
    + (if q.usoCorticoides then 1 else 0)
    + PontosAsa(q.asa)
    + (if q.cirurgiaRecente then 2 else 0)
    + PontosComplexidade(q.complexidadeCirurgia)
  }

  /** The tier rule; two severe comorbidities force "Alto" whatever the score. */
  function Classificar(pontos: int, graves: int): (r: Risco)
    ensures r == Alto <==> pontos >= 10 || graves >= 2
    ensures r == Medio <==> pontos >= 6 && pontos < 10 && graves < 2
    ensures r == Baixo <==> pontos < 6 && graves < 2
  {
    if pontos >= 10 || graves >= 2 then Alto
    else if pontos >= 6 then Medio
    else Baixo
  }

  /** The tier of a questionnaire: two severe comorbidities force Alto, and
      Baixo means fewer than 6 points and at most one severe comorbidity. */
  function Nivel(q: Respostas): (r: Risco)
    ensures FatoresGraves(q.comorbidades) >= 2 ==> r == Alto
    ensures r == Baixo <==> Pontuacao(q) < 6 && FatoresGraves(q.comorbidades) <= 1
  {
    Classificar(Pontuacao(q), FatoresGraves(q.comorbidades))
  }

  /** Tiers ordered Baixo < Medio < Alto. */
  function Ordem(r: Risco): nat {
    match r
    case Baixo => 0
    case Medio => 1
    case Alto => 2
  }

  // ---------------------------------------------------------------------------
  // The scorer as written: two running totals updated step by step.

  method CalcularRiscoCirurgico(q: Respostas) returns (risco: Risco, pontos: int)
    ensures pontos == Pontuacao(q)
    ensures risco == Classificar(pontos, FatoresGraves(q.comorbidades))
    ensures risco == Alto <==> pontos >= 10 || FatoresGraves(q.comorbidades) >= 2
  {
    pontos := 0;

    if q.idade >= 70 {
      pontos := pontos + 3;
    } else if q.idade >= 60 {
      pontos := pontos + 2;
    } else if q.idade >= 50 {
      pontos := pontos + 1;
    }
    assert pontos == PontosIdade(q.idade);

    var fatoresGraves;
    pontos, fatoresGraves := AcumularComorbidades(pontos, q.comorbidades);
    ghost var parcial := pontos;

    if q.usaAnticoagulantes {
      pontos := pontos + 2;
    }
    if q.usoCorticoides {
      pontos := pontos + 1;
    }
    assert pontos == parcial + (if q.usaAnticoagulantes then 2 else 0) + (if q.usoCorticoides then 1 else 0);
    parcial := pontos;

    if q.asa == AsaIV {
      pontos := pontos + 4;
    } else if q.asa == AsaIII {
      pontos := pontos + 3;
    } else if q.asa == AsaII {
      pontos := pontos + 1;
    }
    assert pontos == parcial + PontosAsa(q.asa);
    parcial := pontos;

    if q.cirurgiaRecente {
      pontos := pontos + 2;
    }

    if q.complexidadeCirurgia == Alta {
      pontos := pontos + 3;
    } else if q.complexidadeCirurgia == Media {
      pontos := pontos + 2;
    } else if q.complexidadeCirurgia == Baixa {
      pontos := pontos + 1;
    }
    assert pontos == parcial + (if q.cirurgiaRecente then 2 else 0) + PontosComplexidade(q.complexidadeCirurgia);

    if pontos >= 10 || fatoresGraves >= 2 {
      risco := Alto;
    } else if pontos >= 6 {
      risco := Medio;
    } else {
      risco := Baixo;
    }
  }

  /** The comorbidity loop of the scorer: adds each entry's points to `inicio`
      and counts the severe entries. */
  method AcumularComorbidades(inicio: int, cs: seq<Comorbidade>) returns (pontos: int, fatoresGraves: int)
    ensures pontos == inicio + SomaComorbidades(cs)
    ensures fatoresGraves == FatoresGraves(cs)
  {
    pontos, fatoresGraves := inicio, 0;
    for i := 0 to |cs|
      invariant pontos == inicio + SomaComorbidades(cs[..i])
      invariant fatoresGraves == FatoresGraves(cs[..i])
    {
      var c := cs[i];
      if Grave(c) {
        pontos := pontos + 3;
        fatoresGraves := fatoresGraves + 1;
      } else if Moderada(c) {
        pontos := pontos + 2;
      } else if Leve(c) {
        pontos := pontos + 1;
      }
      assert cs[..i + 1][..i] == cs[..i];
    }
    assert cs[..|cs|] == cs;
  }

  // ---------------------------------------------------------------------------
  // A reference definition of the comorbidity points that ignores order:
  // only how many times each option occurs matters.

  function GravesNoMultiset(m: multiset<Comorbidade>): nat {
    m[DiabetesDescompensada] + m[InsuficienciaCardiaca] + m[DoencaCoronarianaGrave] + m[DpocGrave]
  }

  function SomaNoMultiset(m: multiset<Comorbidade>): nat {
    3 * GravesNoMultiset(m)
    + 2 * (m[HipertensaoNaoControlada] + m[DiabetesControlada] + m[ObesidadeMorbida])
    + (m[HipertensaoControlada] + m[Asma] + m[Hipotireoidismo])
  }

  /** One more occurrence of c adds exactly c's own points. */
  lemma SomaNoMultisetMaisUm(m: multiset<Comorbidade>, c: Comorbidade)
    ensures SomaNoMultiset(m + multiset{c}) == SomaNoMultiset(m) + PontosComorbidade(c)
    ensures GravesNoMultiset(m + multiset{c}) == GravesNoMultiset(m) + (if Grave(c) then 1 else 0)
  {
    var m2 := m + multiset{c};
    assert m2[c] == m[c] + 1;
    match c
    case HipertensaoControlada =>
    case HipertensaoNaoControlada =>
    case DiabetesControlada =>
    case DiabetesDescompensada =>
    case InsuficienciaCardiaca =>
    case DoencaCoronarianaGrave =>
    case DpocGrave =>
    case Asma =>
    case ObesidadeMorbida =>
    case Hipotireoidismo =>
    case DoencaRenalCronica =>
    case CirroseHepatica =>
  }

  lemma {:induction false} SomaPorContagem(cs: seq<Comorbidade>)
    ensures SomaComorbidades(cs) == SomaNoMultiset(multiset(cs))
    ensures FatoresGraves(cs) == GravesNoMultiset(multiset(cs))
  {
    if cs != [] {
      var init, c := cs[..|cs| - 1], cs[|cs| - 1];
      SomaPorContagem(init);
      assert cs == init + [c];
      assert multiset(cs) == multiset(init) + multiset{c};
      SomaNoMultisetMaisUm(multiset(init), c);
    }
  }

  /** Reordering the comorbidity list changes neither the score nor the tier. */
  lemma OrdemIrrelevante(q: Respostas, cs: seq<Comorbidade>)
    requires multiset(cs) == multiset(q.comorbidades)
    ensures Pontuacao(q.(comorbidades := cs)) == Pontuacao(q)
    ensures FatoresGraves(cs) == FatoresGraves(q.comorbidades)
    ensures Nivel(q.(comorbidades := cs)) == Nivel(q)
  {
    SomaPorContagem(cs);
    SomaPorContagem(q.comorbidades);
  }

  /** Each severe entry adds exactly 3 points and one severe factor, moderate
      entries 2, mild entries 1, everything else 0. */
  lemma AcrescentarComorbidade(cs: seq<Comorbidade>, c: Comorbidade)
    ensures SomaComorbidades(cs + [c]) == SomaComorbidades(cs) + PontosComorbidade(c)
    ensures FatoresGraves(cs + [c]) == FatoresGraves(cs) + (if Grave(c) then 1 else 0)
    ensures PontosComorbidade(c) == 3 <==> Grave(c)
    ensures PontosComorbidade(c) == 2 <==> Moderada(c)
    ensures PontosComorbidade(c) == 1 <==> Leve(c)
  {
    assert (cs + [c])[..|cs|] == cs;
  }

  // ---------------------------------------------------------------------------
  // Monotonicity: more risk factors never lower the tier.

  /** q2 is q with possibly more comorbidities, more flags set, or a higher age. */
  predicate NaoMenosExposto(q: Respostas, q2: Respostas) {
    q.idade <= q2.idade
    && multiset(q.comorbidades) <= multiset(q2.comorbidades)
    && (q.usaAnticoagulantes ==> q2.usaAnticoagulantes)
    && (q.usoCorticoides ==> q2.usoCorticoides)
    && (q.cirurgiaRecente ==> q2.cirurgiaRecente)
    && q.asa == q2.asa
    && q.complexidadeCirurgia == q2.complexidadeCirurgia
  }

  lemma ClassificarMonotono(p1: int, g1: int, p2: int, g2: int)
    requires p1 <= p2 && g1 <= g2
    ensures Ordem(Classificar(p1, g1)) <= Ordem(Classificar(p2, g2))
  {
  }

  lemma ContagemMonotona(m: multiset<Comorbidade>, m2: multiset<Comorbidade>)
    requires m <= m2
    ensures SomaNoMultiset(m) <= SomaNoMultiset(m2)
    ensures GravesNoMultiset(m) <= GravesNoMultiset(m2)
  {
    assert forall x :: m[x] <= m2[x];
  }

  lemma NuncaReduzRisco(q: Respostas, q2: Respostas)
    requires NaoMenosExposto(q, q2)
    ensures Pontuacao(q) <= Pontuacao(q2)
    ensures FatoresGraves(q.comorbidades) <= FatoresGraves(q2.comorbidades)
    ensures Ordem(Nivel(q)) <= Ordem(Nivel(q2))
  {
    SomaPorContagem(q.comorbidades);
    SomaPorContagem(q2.comorbidades);
    ContagemMonotona(multiset(q.comorbidades), multiset(q2.comorbidades));
    ClassificarMonotono(Pontuacao(q), FatoresGraves(q.comorbidades),
                        Pontuacao(q2), FatoresGraves(q2.comorbidades));
  }

  /** Adding one comorbidity at the end of the list never lowers the tier. */
  lemma AcrescentarNuncaReduz(q: Respostas, c: Comorbidade)
    ensures Ordem(Nivel(q)) <= Ordem(Nivel(q.(comorbidades := q.comorbidades + [c])))
  {
    NuncaReduzRisco(q, q.(comorbidades := q.comorbidades + [c]));
  }

  /** Turning on any of the three boolean risk flags never lowers the tier. */
  lemma LigarFlagNuncaReduz(q: Respostas)
    ensures Ordem(Nivel(q)) <= Ordem(Nivel(q.(usaAnticoagulantes := true)))
    ensures Ordem(Nivel(q)) <= Ordem(Nivel(q.(usoCorticoides := true)))
    ensures Ordem(Nivel(q)) <= Ordem(Nivel(q.(cirurgiaRecente := true)))
  {
    NuncaReduzRisco(q, q.(usaAnticoagulantes := true));
    NuncaReduzRisco(q, q.(usoCorticoides := true));
    NuncaReduzRisco(q, q.(cirurgiaRecente := true));
  }

  // ---------------------------------------------------------------------------
  // Worked cases.

  /** Age 75, heart failure and severe coronary disease, ASA III, anticoagulated,
      high complexity: 17 points, two severe factors, tier Alto. */
  lemma CasoIdosoDoisGraves()
    ensures var q := Respostas(75, [InsuficienciaCardiaca, DoencaCoronarianaGrave], AsaIII,
                               true, false, false, CirurgiaGeral, Geral, Alta);
            Pontuacao(q) == 17 && FatoresGraves(q.comorbidades) == 2 && Nivel(q) == Alto
  {
    var cs := [InsuficienciaCardiaca, DoencaCoronarianaGrave];
    assert cs[..1] == [InsuficienciaCardiaca];
    assert cs[..1][..0] == [];
  }

  /** Two severe comorbidities alone, with otherwise minimal answers, give only
      7 points and still tier Alto. */
  lemma CasoDoisGravesPontuacaoBaixa()
    ensures var q := Respostas(30, [DpocGrave, DiabetesDescompensada], AsaI,
                               false, false, false, CirurgiaGeral, Geral, Baixa);
            Pontuacao(q) == 7 && Nivel(q) == Alto
  {
    var cs := [DpocGrave, DiabetesDescompensada];
    assert cs[..1] == [DpocGrave];
    assert cs[..1][..0] == [];
  }

  /** Age 55, controlled hypertension, ASA I, low complexity: 3 points, tier Baixo. */
  lemma CasoBaixoRisco()
    ensures var q := Respostas(55, [HipertensaoControlada], AsaI,
                               false, false, false, CirurgiaGeral, Geral, Baixa);
            Pontuacao(q) == 3 && Nivel(q) == Baixo
  {
    assert [HipertensaoControlada][..0] == [];
  }
}
