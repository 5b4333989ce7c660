// Cleaning of the text-generation reply inside gerar_recomendacoes: the reply
// is stripped, split into lines, and each usable line is de-numbered,
// stripped of dashes, spaces and whitespace, and kept when longer than ten
// characters.
module Reply {
  import opened PyStr
  import opened Seqs

  const Cabecalho: string := "Recomendações:"

  /** The character set of strip('- '). */
  predicate TracoOuEspaco(c: char) {
    c == '-' || c == ' '
  }

  /** Drop everything up to and including the first ". " and join the
      remaining ". "-separated pieces with single spaces. */
  function RemoverNumeracao(linha: string): string {
    if Contains(linha, ". ") then Join(" ", Split(linha, ". ")[1..]) else linha
  }

  /** The cleaned form of one raw line. */
  function LimparLinha(linha: string): (r: string)
    ensures r != [] ==> !IsSpace(r[0]) && !IsSpace(r[|r| - 1])
  {
    Strip(Strip(RemoverNumeracao(linha), TracoOuEspaco), IsSpace)
  }

  /** A raw line that the loop looks at at all: non-empty and not starting
      with the header (the model fixes the header to Cabecalho). */
  predicate Considerada(linha: string, cabecalho: string) {
    linha != "" && !StartsWith(linha, cabecalho)
  }

  /** What a line must look like to be appended. */
  predicate Aproveitavel(l: string) {
    |l| > 10 && !IsSpace(l[0]) && !IsSpace(l[|l| - 1])
  }

  /** What one raw line contributes: its cleaned form, or nothing. */
  function Contribuicao(linha: string, cabecalho: string): (r: seq<string>)
    ensures |r| <= 1
    ensures r != [] ==> Aproveitavel(r[0])
  {
    var limpa := LimparLinha(linha);
    if Considerada(linha, cabecalho) && |limpa| > 10 then [limpa] else []
  }

  /** The cleaned lines the loop appends, in order, for a sequence of raw lines. */
  function Aproveitadas(linhas: seq<string>, cabecalho: string): (r: seq<string>)
    ensures |r| <= |linhas|
    ensures forall j :: 0 <= j < |r| ==> Aproveitavel(r[j])
  {
    if linhas == [] then []
    else Aproveitadas(linhas[..|linhas| - 1], cabecalho) + Contribuicao(linhas[|linhas| - 1], cabecalho)
  }

  lemma AproveitadasUltima(linhas: seq<string>, cabecalho: string)
    requires linhas != []
    ensures Aproveitadas(linhas, cabecalho)
            == Aproveitadas(linhas[..|linhas| - 1], cabecalho) + Contribuicao(linhas[|linhas| - 1], cabecalho)
  {
  }

  /** Every appended line is the cleaned form of a raw line the loop considered. */
  lemma {:induction false} AproveitadasOrigem(linhas: seq<string>, cabecalho: string, j: nat)
    requires j < |Aproveitadas(linhas, cabecalho)|
    ensures exists k :: 0 <= k < |linhas| && Considerada(linhas[k], cabecalho)
                        && LimparLinha(linhas[k]) == Aproveitadas(linhas, cabecalho)[j]
  {
    var n := |linhas| - 1;
    var anteriores := linhas[..n];
    AproveitadasUltima(linhas, cabecalho);
    var antes, ultima := Aproveitadas(anteriores, cabecalho), Contribuicao(linhas[n], cabecalho);
    if j < |antes| {
      AproveitadasOrigem(anteriores, cabecalho, j);
      var k :| 0 <= k < |anteriores| && Considerada(anteriores[k], cabecalho)
               && LimparLinha(anteriores[k]) == antes[j];
      assert linhas[k] == anteriores[k];
    } else {
      assert Considerada(linhas[n], cabecalho) && LimparLinha(linhas[n]) == ultima[0];
    }
  }

  /** Lines are handled one at a time, in order: the lines kept from a
      concatenation of raw lines are those kept from each part, in order. */
  lemma {:induction false} AproveitadasConcat(a: seq<string>, b: seq<string>, cabecalho: string)
    ensures Aproveitadas(a + b, cabecalho) == Aproveitadas(a, cabecalho) + Aproveitadas(b, cabecalho)
    decreases |b|
  {
    if b == [] {
      assert a + b == a;
    } else {
      var b0, ultima := b[..|b| - 1], b[|b| - 1];
      AproveitadasConcat(a, b0, cabecalho);
      var ab := a + b;
      ConcatDropLast(a, b);
      AproveitadasUltima(ab, cabecalho);
      AproveitadasUltima(b, cabecalho);
      ConcatAssoc(Aproveitadas(a, cabecalho), Aproveitadas(b0, cabecalho), Contribuicao(ultima, cabecalho));
    }
  }

  /** The raw lines of a reply: the whole reply stripped of surrounding
      whitespace, then cut at every line break. */
  function LinhasDaResposta(texto: string): (r: seq<string>)
    ensures forall k :: 0 <= k < |r| ==> '\n' !in r[k]
  {
    SplitRemovesSeparator(Strip(texto, IsSpace), '\n');
    Split(Strip(texto, IsSpace), "\n")
  }

  /** Everything the reply contributes to the recommendation list. */
  function ProcessarResposta(texto: string): seq<string> {
    Aproveitadas(LinhasDaResposta(texto), Cabecalho)
  }

  // ---------------------------------------------------------------------------

  /** De-numbering only removes characters, apart from the joining spaces. */
  lemma RemoverNumeracaoChars(linha: string, x: char)
    requires x in RemoverNumeracao(linha)
    ensures x in linha || x == ' '
  {
    if Contains(linha, ". ") {
      var pecas := Split(linha, ". ");
      JoinChars(" ", pecas[1..], x);
      if x != ' ' {
        var k :| 0 <= k < |pecas[1..]| && x in pecas[1..][k];
        SplitChars(linha, ". ", k + 1, x);
      }
    }
  }

  lemma LimparLinhaChars(linha: string, x: char)
    requires x in LimparLinha(linha)
    ensures x in linha || x == ' '
  {
    var d := RemoverNumeracao(linha);
    StripChars(Strip(d, TracoOuEspaco), IsSpace, x);
    StripChars(d, TracoOuEspaco, x);
    RemoverNumeracaoChars(linha, x);
  }

  /** Every appended line obeys the length and whitespace rules, holds no line
      break, and is the cleaned form of a non-empty raw line of the reply that
      does not start with the header. */
  lemma LinhasAproveitadas(texto: string, j: nat)
    requires j < |ProcessarResposta(texto)|
    ensures Aproveitavel(ProcessarResposta(texto)[j])
    ensures '\n' !in ProcessarResposta(texto)[j]
    ensures exists k :: 0 <= k < |LinhasDaResposta(texto)|
                        && Considerada(LinhasDaResposta(texto)[k], Cabecalho)
                        && LimparLinha(LinhasDaResposta(texto)[k]) == ProcessarResposta(texto)[j]
  {
    var linhas := LinhasDaResposta(texto);
    var l := ProcessarResposta(texto)[j];
    AproveitadasOrigem(linhas, Cabecalho, j);
    var k :| 0 <= k < |linhas| && Considerada(linhas[k], Cabecalho) && LimparLinha(linhas[k]) == l;
    if '\n' in l {
      LimparLinhaChars(linhas[k], '\n');
    }
  }

  lemma SemPontoNaoContem(s: string)
    requires '.' !in s
    ensures !Contains(s, ". ")
  {
    ContainsAt(s, ". ");
    forall i: nat | i + 2 <= |s| ensures !OccursAt(s, ". ", i) {
      assert s[i..i + 2][0] == s[i];
    }
  }

  /** strip('- ') followed by strip() can leave a leading dash: a tab before
      the bullet shields the dash from the first strip, and the second strip
      then removes only the tab. For instance "\t- Beber bastante água"
      becomes "- Beber bastante água". */
  lemma TracoSobreviveAposTab(corpo: string)
    requires corpo != [] && '.' !in corpo
    requires !IsSpace(corpo[|corpo| - 1]) && !TracoOuEspaco(corpo[|corpo| - 1])
    ensures LimparLinha(['\t', '-'] + corpo) == ['-'] + corpo
  {
    var linha := ['\t', '-'] + corpo;
    assert linha[2..] == corpo;
    assert linha[|linha| - 1] == corpo[|corpo| - 1];
    SemPontoNaoContem(linha);
    assert RemoverNumeracao(linha) == linha;
    assert TrimStart(linha, TracoOuEspaco) == linha;
    assert TrimEnd(linha, TracoOuEspaco) == linha;
    assert Strip(linha, TracoOuEspaco) == linha;
    var resto := linha[1..];
    assert linha == ['\t'] + (['-'] + corpo);
    assert resto == ['-'] + corpo;
    assert TrimStart(resto, IsSpace) == resto;
    assert TrimStart(linha, IsSpace) == resto;
    assert TrimEnd(resto, IsSpace) == resto;
  }

  /** The mirror case at the end of the line: a tab after a trailing dash
      shields the dash from strip('- '), and strip() then removes only the
      tab. */
  lemma TracoFinalSobreviveAntesDeTab(corpo: string)
    requires corpo != [] && '.' !in corpo
    requires !IsSpace(corpo[0]) && !TracoOuEspaco(corpo[0])
    ensures LimparLinha(corpo + ['-', '\t']) == corpo + ['-']
  {
    var linha := corpo + ['-', '\t'];
    assert linha[..|corpo|] == corpo;
    assert linha[0] == corpo[0];
    SemPontoNaoContem(linha);
    assert RemoverNumeracao(linha) == linha;
    assert TrimStart(linha, TracoOuEspaco) == linha;
    assert TrimEnd(linha, TracoOuEspaco) == linha;
    assert Strip(linha, TracoOuEspaco) == linha;
    var resto := linha[..|linha| - 1];
    assert linha == (corpo + ['-']) + ['\t'];
    assert resto == corpo + ['-'];
    assert TrimStart(linha, IsSpace) == linha;
    assert TrimEnd(linha, IsSpace) == TrimEnd(resto, IsSpace);
    assert TrimEnd(resto, IsSpace) == resto;
  }

  /** The intended case of de-numbering: a marker without a full stop, then
      ". ", then the text. The marker and the first ". " go; every later ". "
      in the text becomes a single space, and a text without ". " comes back
      unchanged. */
  lemma RemoverNumeracaoNumerada(marcador: string, texto: string)
    requires '.' !in marcador
    ensures RemoverNumeracao(marcador + ". " + texto) == Join(" ", Split(texto, ". "))
    ensures !Contains(texto, ". ") ==> RemoverNumeracao(marcador + ". " + texto) == texto
  {
    var linha := marcador + ". " + texto;
    assert linha[|marcador|..|marcador| + 2] == ". ";
    assert OccursAt(linha, ". ", |marcador|);
    ContainsAt(linha, ". ");
    SplitAtFirst(marcador, texto, ". ");
    assert Split(linha, ". ")[1..] == Split(texto, ". ");
    if !Contains(texto, ". ") {
      SplitWithout(texto, ". ");
    }
  }
}
