# Pre-operative risk engine — a Dafny model

This project models the deterministic core of the pre-operative assessment form
in `streamlit_app.py`:

- **the risk scorer** `calcular_risco_cirurgico`. It adds points for age,
  each comorbidity, anticoagulants, corticosteroids, ASA class, recent surgery
  and surgical complexity, while counting severe comorbidities. It then
  assigns the tier Alto, Médio or Baixo. Two severe comorbidities force Alto
  whatever the score.
- **the fasting rule** `determinar_jejum`. It gives hours of fasting for
  solids and clear liquids from the surgery type and the anesthesia type.
- **the recommendation builder** `gerar_recomendacoes`. It appends fixed
  advice lines for age, selected comorbidities, anticoagulant use and the
  tier. When an API key is present, it appends the cleaned lines of the
  language-model reply. If the call raises, it appends exactly one failure
  line instead.

Modules:

- `questionnaire.dfy` (`Questionnaire`): the answers of the form as a
  datatype. Every closed choice of the form is an enumeration.
- `seqs.dfy` (`Seqs`): small facts about sequence concatenation and slicing
  that the list-building proofs use.
- `risk.dfy` (`Risk`):
  - the scorer as a method with two running totals, proved against the
    functions `Pontuacao`, `FatoresGraves` and `Classificar`;
  - a multiset reference formula for the comorbidity points;
  - lemmas showing that order does not matter, that added risk never lowers
    the tier, and worked cases.
- `fasting.dfy` (`Fasting`): the fasting rule as a function.
- `pystr.dfy` (`PyStr`): the Python string operations the reply cleaning
  uses, with their own properties:
  - `str.isspace`, `startswith` and the `in` test;
  - `split` with a separator, leftmost and non-overlapping;
  - `join`;
  - `strip`, with and without a character set.
- `reply.dfy` (`Reply`): the cleaning of one reply line, the filter over all
  lines, and what every kept line satisfies.
- `recommendations.dfy` (`Recommendations`):
  - the builder as a method that appends step by step, proved equal to
    `RecomendacoesBase(q, risco) + LinhasIA(ia)`;
  - lemmas on the shape of that list.

The outcome of the external model call is an input: `ConsultaIA`.

- `SemChave`: no API key (`None` or the empty string).
- `Resposta(texto)`: the text returned. This includes the
  `"Erro ao consultar a API: …"` string returned on a non-200 status.
- `Excecao(erro)`: the call raised, and `erro` is the text of `str(e)`.

## Model

| member | source | states |
|---|---|---|
| Risk.CalcularRiscoCirurgico | streamlit_app.py:114-172 | The returned points are the sum of all contributions (`Pontuacao`). The tier is `Classificar` of those points and the severe count, so it is Alto exactly when points ≥ 10 or at least two severe comorbidities are listed. |
| Risk.AcumularComorbidades | streamlit_app.py:130-137 | The comorbidity loop adds each entry's points to the running total and counts the entries in the severe set. Its results equal `SomaComorbidades` and `FatoresGraves` of the whole list. |
| Risk.SomaComorbidades | streamlit_app.py:130-137 | Each entry adds at most 3 points, and every severe entry adds 3. So the comorbidity total lies between 3·(severe count) and 3·(list length). |
| Risk.FatoresGraves | streamlit_app.py:131-133 | The severe count never exceeds the number of listed comorbidities. |
| Risk.Pontuacao | streamlit_app.py:118-164 | Any answers score at least 1, because complexity always adds 1 to 3. They score at most 15 plus 3 per comorbidity. |
| Risk.Classificar | streamlit_app.py:166-172 | Alto iff points ≥ 10 or severe ≥ 2. Médio iff 6 ≤ points < 10 and severe < 2. Baixo iff points < 6 and severe < 2. |
| Risk.Nivel | streamlit_app.py:166-172 | The tier of a questionnaire. Two severe comorbidities force Alto. Baixo holds iff the score is below 6 and at most one severe comorbidity is listed. |
| Risk.SomaNoMultisetMaisUm | streamlit_app.py:131-137 | One more occurrence of a comorbidity adds exactly its own points to the count-based total. It adds one to the severe count exactly when it is severe. |
| Risk.SomaPorContagem | streamlit_app.py:130-137 | The loop's total and severe count depend only on how many times each option occurs: 3·severe + 2·moderate + 1·mild, where unlisted options count 0. |
| Risk.OrdemIrrelevante | streamlit_app.py:130-172 | Reordering the comorbidity list changes neither the score, nor the severe count, nor the tier. |
| Risk.AcrescentarComorbidade | streamlit_app.py:130-137 | Appending one entry adds exactly its points and at most one severe factor. An entry is worth 3 iff severe, 2 iff moderate, 1 iff mild. |
| Risk.ClassificarMonotono | streamlit_app.py:167-172 | The tier rule is monotone in both the points and the severe count. |
| Risk.ContagemMonotona | streamlit_app.py:130-137 | A larger multiset of comorbidities never has fewer points or fewer severe factors. |
| Risk.NuncaReduzRisco | streamlit_app.py:118-172 | More exposure never lowers the score, the severe count or the tier. More exposure means being older, listing more comorbidities, or having more of the anticoagulant, corticosteroid and recent-surgery flags set, with ASA and complexity the same. |
| Risk.AcrescentarNuncaReduz | streamlit_app.py:130-172 | Adding a comorbidity never lowers the tier. |
| Risk.LigarFlagNuncaReduz | streamlit_app.py:140-156 | Setting the anticoagulant, corticosteroid or recent-surgery answer never lowers the tier. |
| Risk.CasoIdosoDoisGraves | streamlit_app.py:114-172 | Age 75, heart failure plus severe coronary disease, ASA III, anticoagulants and high complexity score 17, with 2 severe factors and tier Alto. |
| Risk.CasoDoisGravesPontuacaoBaixa | streamlit_app.py:167-168 | Two severe comorbidities with otherwise minimal answers score only 7 and are still Alto. |
| Risk.CasoBaixoRisco | streamlit_app.py:114-172 | Age 55, controlled hypertension, ASA I and low complexity score 3, tier Baixo. |
| Fasting.DeterminarJejum | streamlit_app.py:175-197 | Solids are 6, 8 or 10 hours, and liquids are 1 or 2. Liquids are 2 iff the anesthesia is general or regional. Solids are 10 iff the surgery is abdominal, and 6 iff simple ambulatory surgery under local anesthesia. Liquids are always shorter than solids. |
| Fasting.SolidosSoPelaCirurgia | streamlit_app.py:189-192 | Outside simple ambulatory surgery, the anesthesia type does not change the solids time. |
| Fasting.CasoAbdominalGeral | streamlit_app.py:183-190 | Abdominal surgery under general anesthesia gives 10 hours for solids and 2 for liquids. |
| Fasting.CasoAmbulatorialLocal | streamlit_app.py:185-192 | Simple ambulatory surgery under local anesthesia gives 6 hours for solids and 1 for liquids. |
| Recommendations.GerarRecomendacoes | streamlit_app.py:200-258 | The list built by appending equals the fixed advice plus the reply lines. The fixed advice is the geriatric line, the comorbidity lines in list order, the anticoagulant line and the tier line. The reply lines are empty without a key, the cleaned lines of the reply, or one failure line if the call raised. |
| Recommendations.AnexarLinhasComorbidades | streamlit_app.py:211-217 | The comorbidity loop appends, in list order, one fixed line per decompensated diabetes, uncontrolled hypertension or heart failure entry, and nothing for any other entry. |
| Recommendations.AnexarResposta | streamlit_app.py:248-254 | The reply loop appends exactly the kept cleaned lines of the stripped reply split at line breaks. |
| Recommendations.AnexarLinha | streamlit_app.py:249-254 | One raw line contributes its cleaned form exactly when it is non-empty, does not start with the header, and its cleaned form is longer than 10 characters. Otherwise it contributes nothing. |
| Recommendations.RecomendacoesBase | streamlit_app.py:204-227 | No contract of its own: the fixed part of the list. `TamanhoBase`, `ExtremosBase` and `DoisGravesPedemCardiologia` state its length and its first and last lines, and `GerarRecomendacoes` is proved against it. |
| Recommendations.LinhasComorbidades | streamlit_app.py:211-217 | No more comorbidity lines than listed comorbidities. `ContagemLinhasComorbidades` gives the exact count, and `LinhasComorbidadesConcat` the order. |
| Recommendations.LinhasIA | streamlit_app.py:229-256 | No contract of its own: what follows the fixed part for each outcome of the external call. `ApendiceIA`, `AposFalha` and `AposResposta` state it. |
| Recommendations.LinhasComorbidadesConcat | streamlit_app.py:211-217 | The comorbidity lines of a concatenated list are the lines of each part, in order. |
| Recommendations.ContagemLinhasComorbidades | streamlit_app.py:211-217 | The number of comorbidity lines is the number of decompensated diabetes, uncontrolled hypertension and heart failure entries. |
| Recommendations.TamanhoBase | streamlit_app.py:204-227 | The fixed part has one line for age ≥ 70, one per matching comorbidity entry, one for anticoagulants and one for tier Alto or Médio. |
| Recommendations.ExtremosBase | streamlit_app.py:207-227 | The geriatric line comes first when age ≥ 70. The fixed part ends with the cardiology line for Alto and with the additional-tests line for Médio. |
| Recommendations.ApendiceIA | streamlit_app.py:229-256 | The fixed part is a prefix of the list. After it comes nothing without a key, or exactly one failure line carrying the error text, or only lines that are longer than 10 characters, have no whitespace at either end and contain no line break. |
| Recommendations.AposPrefixo | streamlit_app.py:229-256 | The same three cases for any prefix list. |
| Recommendations.AposFalha | streamlit_app.py:255-256 | A raised call adds exactly one line: the failure prefix followed by the error text. |
| Recommendations.AposResposta | streamlit_app.py:248-254 | Every line a reply contributes is longer than 10 characters, has no whitespace at either end and holds no line break. |
| Recommendations.DoisGravesPedemCardiologia | streamlit_app.py:167-168 | With the scorer's own tier, two severe comorbidities always end the fixed advice with the cardiology line. |
| Reply.LimparLinha | streamlit_app.py:251-252 | A cleaned line has no whitespace at either end. |
| Reply.RemoverNumeracao | streamlit_app.py:251 | No contract of its own: the de-numbering step. `RemoverNumeracaoNumerada`, `RemoverNumeracaoChars` and `SemPontoNaoContem` state what it does. |
| Reply.RemoverNumeracaoNumerada | streamlit_app.py:251 | A line made of a marker without a full stop, `". "` and a text becomes the text with every further `". "` replaced by a space. A text without `". "` comes back unchanged. |
| Reply.Contribuicao | streamlit_app.py:249-254 | A raw line contributes at most one line, and what it contributes is a usable recommendation. |
| Reply.Aproveitadas | streamlit_app.py:248-254 | The filter never yields more lines than it reads, and every line it yields is usable. |
| Reply.AproveitadasOrigem | streamlit_app.py:248-254 | Every kept line is the cleaning of some raw line that was non-empty and did not start with the header. |
| Reply.AproveitadasConcat | streamlit_app.py:248-254 | Filtering a concatenation is filtering each part and concatenating. The filter treats each line independently and keeps the order. |
| Reply.LinhasDaResposta | streamlit_app.py:248 | Splitting the stripped reply at line breaks yields pieces that contain no line break. |
| Reply.ProcessarResposta | streamlit_app.py:248-254 | No contract of its own: everything a reply contributes. `LinhasAproveitadas` states that each such line is usable, has no line break and comes from a raw line of the reply. |
| Reply.RemoverNumeracaoChars | streamlit_app.py:251 | Removing the enumeration introduces no character other than a space. |
| Reply.LimparLinhaChars | streamlit_app.py:251-252 | Cleaning introduces no character other than a space. |
| Reply.LinhasAproveitadas | streamlit_app.py:248-254 | Each line kept from a reply is usable, has no line break, and comes from one of the reply's raw lines. |
| Reply.SemPontoNaoContem | streamlit_app.py:251 | A line without a full stop never contains `". "`, so the enumeration removal leaves it untouched. |
| Reply.TracoSobreviveAposTab | streamlit_app.py:252 | A line made of a tab, then a dash, then text without a full stop cleans to the dash followed by that text. `strip('- ')` stops at the tab, and `strip()` then removes only the tab. |
| Reply.TracoFinalSobreviveAntesDeTab | streamlit_app.py:252 | The mirror case: text without a full stop, then a dash, then a tab, cleans to the text followed by the dash. |
| PyStr.IsSpace | streamlit_app.py:248-252 | No contract of its own: the code points for which `str.isspace` holds, which `strip()` with no argument removes. |
| PyStr.StartsWith | streamlit_app.py:249 | No contract of its own: `startswith`, characterised by `StartsWithSlice`. |
| PyStr.Contains | streamlit_app.py:251 | No contract of its own: the `in` test, characterised by `ContainsAt`. |
| PyStr.Join | streamlit_app.py:251 | No contract of its own: `join`. `JoinSplit`, `JoinChars` and `JoinedPieceChars` state its properties. |
| PyStr.StartsWithSlice | streamlit_app.py:249 | `startswith` holds iff the prefix fits and equals the leading slice. |
| PyStr.ContainsAt | streamlit_app.py:251 | The `in` test holds iff the substring occurs at some position. |
| PyStr.Split | streamlit_app.py:248 | `split` always yields at least one piece. |
| PyStr.JoinSplit | streamlit_app.py:248-251 | Joining the pieces of a split with the same separator gives back the original string. |
| PyStr.SplitCutsIffContains | streamlit_app.py:251 | `split` yields more than one piece iff the separator occurs in the string. |
| PyStr.SplitAtFirst | streamlit_app.py:251 | When the text before the separator does not contain the separator's first character, `split` keeps that text as the first piece and splits the rest on its own. |
| PyStr.SplitWithout | streamlit_app.py:251 | A string without the separator splits into itself alone. |
| PyStr.SplitRemovesSeparator | streamlit_app.py:248 | No piece of a split at a single character contains that character. |
| PyStr.JoinedPieceChars | streamlit_app.py:251 | Every character of every piece appears in the join. |
| PyStr.JoinChars | streamlit_app.py:251 | Every character of a join comes from the separator or from a piece. |
| PyStr.SplitChars | streamlit_app.py:248-251 | Every character of a piece comes from the split string. |
| PyStr.JoinPrependChar | streamlit_app.py:251 | Prefixing the first piece with a character prefixes the join with it. |
| PyStr.ShortNeverContains | streamlit_app.py:251 | A string shorter than the substring never contains it. |
| PyStr.TrimStart | streamlit_app.py:252 | Trimming the front never lengthens the string and leaves no droppable first character. |
| PyStr.TrimEnd | streamlit_app.py:252 | Trimming the back never lengthens the string and leaves no droppable last character. |
| PyStr.TrimStartSuffix | streamlit_app.py:252 | Trimming the front yields a suffix of the input. |
| PyStr.TrimEndPrefix | streamlit_app.py:252 | Trimming the back yields a prefix of the input. |
| PyStr.TrimStartRemovesOnlyDroppable | streamlit_app.py:252 | Every character trimmed from the front is droppable. |
| PyStr.TrimEndRemovesOnlyDroppable | streamlit_app.py:252 | Every character trimmed from the back is droppable. |
| PyStr.Strip | streamlit_app.py:248-252 | `strip` never lengthens the string and leaves no droppable character at either end. |
| PyStr.StripChars | streamlit_app.py:252 | `strip` introduces no new character. |

## Left out

- `consultar_gemini` (the HTTP request to the external model) is not modelled; its outcome is the `ConsultaIA` input.
- The prompt text sent to the external model is not modelled. It does not affect the list apart from through the reply.
- `gerar_relatorio_pdf` and `html_para_download` are not modelled: document layout, the current date and base64 encoding.
- `main` is not modelled: the Streamlit form, session state and page rendering.
- The two chatbot applications of the repository are not part of this model.
- Risk.CalcularRiscoCirurgico: the form's text labels (for example `'ASA IV'`, `'Média'`) are enumerations here. Any label outside the listed ones scores 0, as in the source. ASA V, chronic kidney disease and liver cirrhosis are offered by the form but score 0, and the model keeps that.
- Risk.CalcularRiscoCirurgico: comorbidities are a list, as in the source, not a set. A repeated entry would be scored each time. `OrdemIrrelevante` shows only that the order is irrelevant.
- Risk.CalcularRiscoCirurgico: the comorbidity loop is a separate method, `AcumularComorbidades`. It is started from the age points and returns both totals.
- Recommendations.GerarRecomendacoes: the reply loop and its body are separate methods (`AnexarResposta`, `AnexarLinha`). The list is a value that each step reassigns, rather than a Python list mutated in place; nothing else aliases it.
- Recommendations.GerarRecomendacoes: a non-200 HTTP status is not an exception in the source. Its error string is cleaned like any reply, so it may or may not reach the list. Only exceptions produce the single failure line.
- Recommendations.GerarRecomendacoes: the enumeration removal keeps everything after the first `". "` and joins the rest with spaces. It therefore also drops any leading sentence and turns later `". "` into `" "`, not only numbering markers (`RemoverNumeracaoNumerada`). The model keeps this behaviour.
- Reply.LimparLinha: the contract promises no whitespace at either end. It does not promise the absence of a dash at either end, because a tab next to the dash keeps it: before a leading dash (`TracoSobreviveAposTab`) or after a trailing one (`TracoFinalSobreviveAntesDeTab`).
- Reply.Aproveitadas: the header is a parameter in the lemmas; `ProcessarResposta` instantiates it with `"Recomendações:"`.
- PyStr.Strip: Python's whitespace set is modelled as the code points for which `str.isspace` holds. Characters are Unicode scalar values, and `len` is the number of them.
