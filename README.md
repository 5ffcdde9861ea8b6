# Salary dashboard core, modelled in Dafny

This project models the data-processing core of a salary dashboard for data jobs. The
dashboard is a Streamlit application in `app.py`. A stand-alone normalization script in
`main.py` repeats its first steps. The model covers the following parts.

- **The normalizer** (`Normalizador`, `Script`). Raw rows come with nullable cells
  (`Row`, every field an `Option`).
  - Column names are renamed through a fixed dictionary.
  - The four coded columns (seniority, contract, company size, remote ratio) are
    translated. Unknown codes are left unchanged, so a remote ratio other than 0, 50
    or 100 stays a number (`Remote.Ratio`).
  - About two dozen job titles are translated. Other titles pass through.
  - Rows with a null are dropped.
  - The year becomes an integer (`Record`), with truncation toward zero, as `int64`
    casting does.
  - The script is proved to use the same dictionaries as the dashboard. The dashboard's
    output is proved equal to the script's output with the titles translated afterwards.
- **The filter** (`Filtro`): four membership tests and an optional title test. An empty
  or absent title list puts no restriction on titles.
- **The metrics** (`Estatistica`, `Metricas`):
  - mean, median, minimum, maximum and the 25th/75th percentiles, the last two by linear
    interpolation at position q·(n−1);
  - the sample variance, in place of the standard deviation;
  - the row count, the most frequent title and the number of distinct titles;
  - the year-over-year change from the two largest distinct years;
  - all-zero metrics for an empty table.
- **The insight rules** (`Insights`): an ordered battery of five threshold rules that
  append tagged messages, with a short circuit for an empty table and a fallback message.
  Each message carries the figure its text would show.
- **The views behind the charts** (`Grupos`, `Visoes`):
  - the top 10 titles by mean salary, in ascending order;
  - row counts per work mode;
  - the mean salary per country of residence for data scientists (the translated title
    `Cientista de Dados`);
  - the table in seniority order;
  - mean, median and count per year, guarded by "two distinct years or more";
  - the mean salary per work mode, in descending order.

A pandas table is a `seq<Record>`. Salaries are `int`. Means, medians, percentiles and
percentages are exact `real`s. pandas' NaN becomes `Option.None` wherever the source
tests it (`NaN > 0` is false).

Imperative code stays imperative:
- `traduzir_valores` overwrites one column after another (`Normalizador.TraduzirValores`);
- `processar_dados` and the script rebind the table step by step (`ProcessarDados`,
  `Script.LimparDados`);
- `calcular_metricas` updates its local `variacao` conditionally (`Metricas.CalcularVariacao`);
- `gerar_insights` appends to a list rule after rule (`Insights.GerarInsights`).

Each of these methods is proved equal to a function, and the properties are proved about
that function.

## Model

| member | source | states |
|---|---|---|
| Normalizador.RenameColumns | app.py:100 | the header keeps its length; a name that is a dictionary key becomes its entry, and any other name is kept |
| Normalizador.TraduzirColunas | app.py:90-100 | renaming the columns changes only the header; the cells are untouched |
| Normalizador.RenameChangesExactlyTheEleven | app.py:19-31 | a column name is changed exactly when it is one of the eleven source names; the eleven go to eleven different names |
| Normalizador.RenameSourceHeader | app.py:19-31 | the source file's header becomes `ano, senioridade, …, tamanho_empresa`; renaming a renamed header changes nothing |
| Normalizador.TraduzirCargosPassThrough | app.py:103-140 | a title outside the dictionary is returned unchanged, a known one is replaced by its entry, and translating twice is translating once |
| Normalizador.TitleValuesAreNotKeys | app.py:113-138 | no display title is itself one of the English keys |
| Normalizador.DataScientistTitle | app.py:114 | a translated title is `Cientista de Dados` exactly when it was `Data Scientist` or already `Cientista de Dados` |
| Normalizador.SubstituirColuna | app.py:155-159 | overwriting one column keeps the number of rows |
| Normalizador.CodigosTraduzidos | main.py:30-52 | translating the coded columns keeps the number of rows |
| Normalizador.LinhasTraduzidas | app.py:155-159 | translating the values keeps the number of rows |
| Normalizador.TraduzirValores | app.py:143-161 | the five column overwrites, in source order, give exactly every row translated |
| Normalizador.TraduzirPreservaNulos | app.py:155-159 | translation never creates or removes a null, and leaves year, salary, currency, USD salary, residence and company location as they were |
| Normalizador.TraduzirPassThrough | app.py:155-158 | seniority, contract and size codes outside their dictionaries pass through; a remote ratio other than 0, 50, 100 stays numeric; 100 becomes `Remoto` and 0 `Presencial` |
| Normalizador.DictionariesHaveNoChains | app.py:33-51 | no entry of the seniority, contract, size or title dictionary is itself a key |
| Normalizador.TraduzirTwice | app.py:143-161 | with chain-free dictionaries, translating a translated row changes nothing |
| Normalizador.TraduzirIdempotente | app.py:143-161 | translating the dashboard's translated rows again changes nothing |
| Normalizador.DropNa | app.py:177 | the result has only complete rows; a row is in it exactly when it is in the input and complete, with the same multiplicity, in input order |
| Normalizador.TruncarInt64 | app.py:180 | the year cast truncates toward zero: within one below a non-negative value and one above a negative one |
| Normalizador.TruncarAnoInteiro | app.py:180 | a whole-number year keeps its value |
| Normalizador.CastAno | app.py:180 | one record per row, each equal to its row with the year made an integer and every other column unchanged |
| Normalizador.CastAnoRoundTrip | app.py:180 | with whole-number years, turning the records back into rows gives the input rows |
| Normalizador.ProcessarDados | app.py:164-182 | the header is the renamed header; the records are the translated rows with nulls dropped and integer years; there are no more records than raw rows |
| Normalizador.ProcessadoSaoAsLinhasCompletas | app.py:174-180 | the output is the order-preserving subsequence of translated rows with no null: every complete raw row appears translated, and every output row comes from a complete raw row |
| Script.DicionariosIguais | main.py:8-52 | the script's five dictionaries are the dashboard's constants |
| Script.LimparDados | main.py:8-67 | `df_limpo` has the renamed header, and its records are the coded columns translated, nulls dropped and years cast |
| Script.SubstituirQuatroColunas | main.py:23-52 | the four successive column overwrites translate the coded columns of every row |
| Script.CodigosDoScript | main.py:23-52 | each coded column takes its dictionary entry when the code is a key and is kept otherwise; nulls stay null; every other column, the title included, is unchanged |
| Script.CargosTraduzidos | app.py:159 | translating the titles of the records keeps their number |
| Script.TitlesCommuteWithCleaning | app.py:159 | for any dictionaries, translating titles before the null drop and cast equals translating them afterwards |
| Script.TitlesCommuteWithDropNa | main.py:63 | title translation commutes with `dropna` |
| Script.TitlesCommuteWithCast | main.py:67 | title translation keeps rows complete and commutes with the integer year |
| Script.DashboardIsScriptPlusTitles | main.py:8-67 | the dashboard's normalized records are the script's `df_limpo` with the titles translated |
| Filtro.FiltrarDataframe | app.py:185-218 | a row is in the result exactly when it is in the input and passes the four required tests and, when the title list is non-empty, the title test; counts and input order are kept |
| Filtro.FiltroSemEfeito | app.py:207-218 | when every row passes, the result is the input |
| Filtro.FiltroDominiosCompletos | app.py:207-218 | with the four lists covering the table's values and no title list, or an empty one, the result is the input |
| Filtro.CriteriosPadrao | app.py:676-710 | the sidebar defaults select exactly the years, seniority levels, contract types and company sizes present, and put no restriction on titles |
| Filtro.FiltroPadraoMostraTudo | app.py:676-710 | with the sidebar defaults the filter returns the whole table |
| Filtro.FiltroListaVazia | app.py:207-212 | an empty list for year, seniority, contract or company size gives an empty result |
| Filtro.CargosAusentesOuVazios | app.py:215-216 | an absent title list and an empty one filter alike |
| Estatistica.Minimo | app.py:271 | the minimum is a salary of the column and no salary is below it |
| Estatistica.Maximo | app.py:272 | the maximum is a salary of the column and no salary is above it |
| Estatistica.Media | app.py:269 | the mean lies between the minimum and the maximum |
| Estatistica.MediaEntreExtremos | app.py:269 | sum over count lies between the minimum and the maximum |
| Estatistica.MediaConstante | app.py:269 | the mean of a constant column is that constant |
| Estatistica.Ordenados | app.py:274-275 | the sorted column is a permutation of the column, in ascending order |
| Estatistica.OrdenadosExtremos | app.py:271-275 | the sorted column starts at the minimum and ends at the maximum |
| Estatistica.Interpolar | app.py:274-275 | linear interpolation in a sorted column lies between its first and last values |
| Estatistica.InterpolarMonotono | app.py:274-275 | interpolation is monotone in the position |
| Estatistica.Posicao | app.py:274-275 | the position q·(n−1) lies within the column |
| Estatistica.PosicaoMonotona | app.py:274-275 | the position grows with q |
| Estatistica.Quantil | app.py:274-275 | a quantile lies between the minimum and the maximum |
| Estatistica.MedianaEhQuantil | app.py:270 | the median (middle value, or mean of the two middle values) is the 0.5 quantile |
| Estatistica.InterpolarMeio | app.py:270 | interpolation at the middle position is the middle value for odd n and the mean of the two middle values for even n |
| Estatistica.QuantilMonotono | app.py:274-275 | quantiles are monotone in q |
| Estatistica.QuartisOrdenados | app.py:270-275 | min ≤ p25 ≤ median ≤ p75 ≤ max |
| Estatistica.ExemploQuartis | app.py:274-275 | for salaries 10, 20, 30, 40: p25 = 17.5, median = 25 and p75 = 32.5 |
| Estatistica.VarianciaAmostral | app.py:273 | the sample variance exists exactly for two values or more, and is non-negative |
| Estatistica.VarianciaConstante | app.py:273 | a constant column has variance 0 |
| Metricas.Moda | app.py:277 | the most frequent title is in the column; no title is more frequent; among equally frequent titles it is the smallest |
| Metricas.SalariosDoAnoPresente | app.py:262-263 | a year present in the table has at least one salary |
| Metricas.VariacaoDeCasos | app.py:265-266 | the change is 0 when the prior mean is ≤ 0, and (current − prior) / prior · 100 otherwise |
| Metricas.VariacaoUmAno | app.py:255-256 | with a single distinct year the change is 0 |
| Metricas.VariacaoExemplo | app.py:254-266 | a 2020 salary of 100 and a 2021 salary of 150 give a change of 50 |
| Metricas.UltimosDeOrdenados | app.py:257-260 | the last and second-to-last distinct sorted years are the largest year and the largest year below it |
| Metricas.VariacaoPelosOrdenados | app.py:256-266 | the change is computed from the means of the last two distinct sorted years |
| Metricas.MetricasCoerentes | app.py:268-280 | on a non-empty table: the count is the row count; 1 ≤ distinct titles ≤ count; min ≤ p25 ≤ median ≤ p75 ≤ max; min ≤ mean ≤ max; the variance exists exactly for two rows or more and is ≥ 0; the most frequent title occurs |
| Metricas.CalcularVariacao | app.py:254-266 | the conditionally updated `variacao` equals the year-over-year change of the table |
| Metricas.VariacaoEntreAnos | app.py:261-265 | for two present years, the conditionally updated change equals `VariacaoDe` of the two means: 0 unless the earlier mean is positive |
| Metricas.CalcularMetricas | app.py:226-280 | the metrics are those of the table; an empty table gets all zeros and `""`; otherwise the count is the row count and 1 ≤ distinct titles ≤ count |
| Grupos.TamanhoDoGrupo | app.py:303 | a group has as many rows as its key has occurrences in the column |
| Grupos.GrupoPresente | app.py:303 | a key that occurs has a non-empty group |
| Grupos.MediasDe | app.py:303-304 | the groups of the given keys, in that order, each with the mean salary of its rows |
| Grupos.MediaPorGrupo | app.py:303-304 | one group per value present in the column, each value once, each with the mean salary of its rows |
| Grupos.MediaDoGrupoLimitada | app.py:303-304 | a group mean lies between the table's smallest and largest salary |
| Grupos.ContagensDe | app.py:370 | the counts of the given keys, in that order, each the size of its group, adding up to the keys' occurrences |
| Grupos.ContagemPorValor | app.py:370 | every value present once, with its number of occurrences; the counts add up to the row count |
| Visoes.MaioresEmOrdem | app.py:305-306 | `min(n, #groups)` groups, in ascending order of mean, forming a sub-multiset of the input (no group kept more often than it occurs), and no group left out has a larger mean than one kept |
| Visoes.TopCargos | app.py:298-308 | absent exactly for an empty table; otherwise min(10, #titles) groups of distinct titles drawn from the per-title means, in ascending order, none left out above one kept |
| Visoes.TopCargosLimites | app.py:301-308 | on a non-empty table there are between 1 and 10 groups, each with its title's true mean |
| Visoes.ContagemRemota | app.py:367-371 | absent exactly for an empty table; otherwise the counts are non-increasing, a mode is listed exactly when it occurs, each count is its number of rows, and the counts add up to the row count |
| Visoes.SalarioPorTipoTrabalho | app.py:542-551 | absent exactly for an empty table; otherwise the per-mode groups in non-increasing order of mean, a permutation of the group-by result, each with its mode's true mean |
| Visoes.MediaPorPais | app.py:398-409 | absent exactly when no row has the title `Cientista de Dados`; otherwise one group per country of a data scientist, each with the mean salary of that country's data scientists |
| Visoes.ResidenciasDosCientistas | app.py:401 | the data scientists are none exactly when no row has that title, and their countries are those of such rows |
| Visoes.PostoEm | app.py:444-451 | the rank of a level is its first position in the category order, or one past the end for a level outside it |
| Visoes.PostosDosNiveis | app.py:444 | junior, Pleno, Senior and executivo rank 0 to 3; any other level ranks last |
| Visoes.OrdenarPorSenioridade | app.py:441-451 | absent exactly for an empty table; otherwise a permutation of the rows in non-decreasing seniority rank |
| Visoes.PontoDoAno | app.py:488-494 | the point of a year present in the table has that year, the mean and median salary of the year, and its row count |
| Visoes.PontosCorretos | app.py:488-494 | the points of the given years carry those years in order, are correct, and their counts add up to the years' occurrences |
| Visoes.TendenciaTemporal | app.py:485-494 | absent exactly when all rows share one year; otherwise years strictly increasing, a point exactly for each year present, each correct, counts adding up to the row count |
| Visoes.TendenciaDosAnos | app.py:488-494 | the points of the distinct years in ascending order form a correct trend |
| Visoes.AnosIguais | app.py:485 | fewer than two distinct years exactly when all rows share one year |
| Visoes.AnosOrdenados | app.py:488-492 | the distinct years sorted are strictly increasing and are exactly the years present |
| Visoes.MedianaDoAnoLimitada | app.py:490-491 | a year's median lies between that year's smallest and largest salary |
| Insights.MediaDoModoPresente | app.py:624-625 | a work mode has a mean exactly when some row has that mode, and the mean is its group's |
| Insights.PorSenioridadeOrdenada | app.py:642 | the seniority groups are the group-by result in non-increasing order of mean |
| Insights.Gap | app.py:646-647 | the seniority gap is undefined exactly when the lowest group mean is 0 |
| Insights.CoeficienteDeVariacao | app.py:606-607 | for a positive mean, std/mean·100 > 50 holds exactly when the variance exceeds a quarter of the squared mean |
| Insights.GerarInsights | app.py:576-656 | the list built by appending is the list of the table and metrics; an empty table gives exactly the no-data message; there is always a message |
| Insights.AnexarTrabalho | app.py:622-638 | the work-mode block appends exactly the rule-4 message, if any |
| Insights.AnexarSenioridade | app.py:640-651 | the seniority block appends exactly the rule-5 message, if any |
| Insights.InsightsDaTabela | app.py:576-656 | on a table, the no-data message is the whole list exactly when the table is empty; the list is never empty and follows rule order; the fallback appears exactly when the table is non-empty and none of the five rules fires on it, and is then the only message |
| Insights.ListaBemFormada | app.py:589-654 | the no-data message is returned exactly for an empty table; the list is never empty; rule numbers strictly increase along it, so each rule fires at most once and in order; the fallback appears exactly when the table is non-empty and no rule fired, and is then the only message |
| Insights.EmSobre | app.py:592-654 | on a non-empty table a message is listed exactly when some rule produced it, or it is the fallback and no rule produced anything |
| Insights.CrescimentoSePositiva | app.py:593-598 | growth by v is reported exactly when the change is the positive v |
| Insights.ReducaoSeNegativa | app.py:599-603 | a reduction by p is reported exactly when the change is negative and p is its absolute value |
| Insights.VariabilidadeSeDispersa | app.py:606-611 | high variability is reported exactly when the mean is positive and the variance exceeds a quarter of its square |
| Insights.AssimetriaSeMediaAlta | app.py:614-620 | the skew message appears exactly when the mean exceeds the median by more than a tenth of the mean |
| Insights.RemotoGanhaMais | app.py:623-633 | the remote message with d appears exactly when both mode means exist, 0 < on-site < remote, and d = (remote − on-site)/on-site·100 > 5 |
| Insights.PresencialGanhaMais | app.py:623-638 | the on-site message with d appears exactly when both mode means exist, 0 < remote < on-site, and d = (on-site − remote)/on-site·100 > 5 |
| Insights.GapDosExtremos | app.py:640-651 | the gap message appears exactly when there are two seniority groups or more, naming the first and the last with the gap between their means |
| Insights.SenioridadesExtremas | app.py:642-645 | there are two groups or more exactly when two levels occur; then the first and last are different levels present, with true means bounding every level's mean |

## Left out

- Loading (`carregar_dados`, app.py:69-87; `read_csv`, main.py:5): network I/O, caching and the Streamlit error path. The raw table is an input.
- Plotly figure construction and layout, and the histogram view (app.py:328-355). Its 30-bin count is delegated to Plotly.
- The Streamlit interface (`criar_barra_lateral_filtros`, `exibir_*`, `main`, app.py:664-953). The sidebar defaults are modelled as `Filtro.CriteriosPadrao`.
- String formatting of messages (`:.1f`, emojis). Messages are tagged values carrying their figures.
- The prints of main.py (lines 64, 68, 69).
- `calcular_metricas`'s unused `dataframe_completo` argument.
- Metricas.MetricasDe: the standard deviation (app.py:273) needs a square root. The model carries the sample variance instead, `None` for fewer than two rows, where pandas gives NaN. Rule 2 is stated on the variance, and `Insights.CoeficienteDeVariacao` proves it equivalent to the CV test for any `sd ≥ 0` with `sd² = variance`. The CV figure itself is not computed.
- Metricas.Moda: pandas `mode()[0]` is taken as the smallest most frequent title in code-point order, since pandas returns modes sorted.
- Insights.Gap: the seniority rule divides by the lowest group mean without a check. The model returns `None` where that mean is 0, instead of numpy's inf/NaN.
- Grupos.MediaPorGrupo: groups are listed in the order their key first appears, whereas pandas sorts group keys. Every view that the source sorts afterwards is sorted in the model too. The order of `Visoes.MediaPorPais`, which feeds a map, differs, and so does the order among groups with equal means or counts (a stable insertion sort in the model). Where means tie, that order also decides which groups are chosen, as the next two lines say.
- Visoes.TopCargos: when several titles tie on the tenth-highest mean, the model keeps the ones that appear first in the table. pandas (`nlargest` with `keep='first'` over key-sorted groups, app.py:301-304) keeps the alphabetically first. So the set of titles shown can differ on such ties.
- Insights.RegraGrupos: when seniority levels tie on the highest or the lowest mean, the level the message names follows first-appearance order, where pandas follows its sort of the key-sorted groups (app.py:642-645). The named levels still hold the extreme means, and the gap figure is the same.
- Visoes.OrdenarPorSenioridade: pandas makes a level outside the four categories NaN, and keeps it last. The model keeps the level's text and ranks it last, so the relabelling to NaN is not modelled.
- Visoes.PontoDoAno: for a year absent from the table it returns a zero point. Only present years are ever used.
- The `'remota' in dataframe.columns` and `'senioridade' in dataframe.columns` tests of `gerar_insights` always hold on a normalized table, so they are not modelled.
- Columns beyond the eleven of the schema: a row has exactly the eleven fields, so an extra raw column, and the `KeyError` a missing one would raise, are out of scope.
- Normalizador.TruncarInt64: `int64` overflow is not modelled. Years are small, and integers are unbounded.
- Floating-point rounding: means, quantiles and percentages are exact reals.
