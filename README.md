# B.O. Digital in Dafny

B.O. Digital is a police-report application for the national police. A
React client lets officers sign in, register reports ("boletins de
ocorrência"), manage persons and officers, search and look at reports, and
read dashboards, a crime map and period reports. A small HTTP server, built
on a key-value store, keeps the records and writes an audit entry for every
action.

This project models the logic of both halves:

- **`Server` and `ServerLogic`:** the server's routes.
  - Each route is a method of a `Server` class whose field is the store.
  - Its postcondition gives the whole new store: unchanged on every error, and on success the records written plus exactly one audit entry.
  - The request-body checks, the record builders, the defensive filters, the statistics loop, the search filter chain and the in-place newest-first sort of the audit trail are specified functions, lemmas and methods.
- **`KvStore`:** the store's key layout, with the rule that record writes never disturb the audit trail.
- **`Tally`:** the `counts[k] = (counts[k] || 0) + 1` counters.
- **`AuthContext`:**
  - the client session, as a class over the user, the token, the officer list and the browser storage;
  - the login fallback chain, as a function: server, then exact local match, then alternate passwords.
- **The screens**, each over its own state:
  - `CadastroPolicial` is the ordered registration checks.
  - `GestaoPoliciais` and `GestaoPessoas` are the list editors.
  - `NovaOcorrencia` is the involved-person list, which never holds the same person twice.
- **Pure screens:**
  - `BuscaAvancada`, `MapaCrimes` and `Relatorios` are filters and reductions.
  - `Dashboard` and `ConsultarBoletins` are state replacement plus pure shaping and lookups.
- **Shared modules:**
  - `Base`, `Text`, `Json`, `Types`, `Upload` and `Sorting` hold the sequence, string and JavaScript-value helpers the rest is written in.
  - `Json` covers truthiness, `String()` coercion, object spread and strict equality.

Clocks, random numbers, generated ids, the identity provider, date parsing and
server answers are parameters of the operations that use them. An answer that
may be missing because the request threw is an `Option`.

Two behaviours of the code are worth knowing before reading the model:

- `GET /boletins` and `GET /pessoas` return every value under their prefix, index entries included. Only the officer listing, the statistics and the search filter index entries out, so the report listing holds the `boletim:numero:` index entries (`Server.BoletinsListingHoldsIndexEntries`).
- The report-lookup screen starts with the type filter on `todos` and sends it as it stands. The search route compares the type literally, so a search with the initial filters finds only reports whose type is the text `todos` (`ConsultarBoletins.BuscaComFiltrosIniciais`).

## Model

| member | source | states |
|---|---|---|
| ServerLogic.Authenticate | supabase/functions/server/index.tsx:24-38 | 401 unless the header's second space-separated field is a non-empty token that the provider maps to a non-empty user id; on success, that id |
| ServerLogic.SecondFieldOfBearer | supabase/functions/server/index.tsx:25 | `split(' ')[1]` of `Bearer <token>` is the token, for a token without spaces |
| ServerLogic.BearerAccepted | supabase/functions/server/index.tsx:24-38 | a well-formed bearer header with a token the provider accepts authenticates that user |
| ServerLogic.NewPolicial | supabase/functions/server/index.tsx:86-93 | the stored officer has exactly id, nome, posto, matricula, email and criadoEm, copied from the body and the clock, and never the password |
| ServerLogic.PublicPolicial | supabase/functions/server/index.tsx:101-104 | the signup answer carries exactly id, nome, posto and matricula |
| ServerLogic.LoginSnapshot | supabase/functions/server/index.tsx:149-154 | the login answer carries only id, nome, posto and matricula, each as the stored record has it (no e-mail, no password) |
| ServerLogic.NewBoletim | supabase/functions/server/index.tsx:198-205 | policialId, status `registrado`, criadoEm and atualizadoEm override the body; a body `id` overrides the generated one; every other body field is kept |
| ServerLogic.NewPessoa | supabase/functions/server/index.tsx:307-311 | the body plus criadaEm, with the generated id unless the body carries one |
| ServerLogic.Merge | supabase/functions/server/index.tsx:257-261 | right-biased union: update fields win, stored fields the update omits are kept, the timestamp field is set last |
| ServerLogic.IndexEntriesFiltered | supabase/functions/server/index.tsx:417 | an index entry (a bare id) never passes the report or officer record filter |
| ServerLogic.OccurrencesKeysBy | supabase/functions/server/index.tsx:427-434 | the number of times a type or status key occurs equals the number of reports yielding it |
| ServerLogic.DayKeysSpec | supabase/functions/server/index.tsx:436-440 | the per-day pass throws exactly when some dated report has an invalid date, else yields one day per dated report, each report counted under its own day |
| ServerLogic.DayKeysOccurrences | supabase/functions/server/index.tsx:436-440 | a day occurs in the day list exactly as often as there are reports dated on it |
| ServerLogic.EstatisticasSpec | supabase/functions/server/index.tsx:417-441 | total = number of valid reports; porTipo and porStatus count each key (missing type `outros`, missing status `registrado`) and each sums to the total; the day tally counts, for each day, the reports dated on it and sums to the dated reports; keys are distinct |
| ServerLogic.ComputeEstatisticas | supabase/functions/server/index.tsx:420-441 | the `forEach` loop of counter updates computes exactly `EstatisticasOf` |
| ServerLogic.SearchSpec | supabase/functions/server/index.tsx:463-487 | the search throws only when the number filter meets a non-string; otherwise it is the order-preserving subsequence of reports matching every given filter (number as case-insensitive substring, type and status strict equality, inclusive date range only with both bounds) |
| ServerLogic.SortNewestFirst | supabase/functions/server/index.tsx:512 | the in-place sort leaves the audit entries in non-increasing timestamp order, as a permutation |
| ServerLogic.InsertNewest | supabase/functions/server/index.tsx:512 | one insertion step extends the newest-first prefix by one cell, as a permutation |
| ServerLogic.NewestPrefix | supabase/functions/server/index.tsx:512-517 | the first 100 of a newest-first list are newest first and no entry cut off is newer than one kept |
| KvStore.LogEntry | supabase/functions/server/index.tsx:41-48 | the audit entry is a well-formed entry carrying the request's clock reading |
| KvStore.ListingValues | supabase/functions/server/index.tsx:169 | a prefix listing holds exactly the values stored under keys with that prefix |
| KvStore.RecordKeyNotLog | supabase/functions/server/index.tsx:207-208 | report, number-index, person, officer and badge-index keys never start with `log:` |
| KvStore.SetRecordKeepsLogs | supabase/functions/server/index.tsx:95-96 | writing a record or index key keeps every `log:` key an audit entry |
| KvStore.SetLogKeepsLogs | supabase/functions/server/index.tsx:50 | writing an audit entry keeps every `log:` key an audit entry |
| Tally.BumpSpec | supabase/functions/server/index.tsx:430 | one counter update raises that key's count by one, leaves the others, appends a new key at the end (JavaScript's order for keys that are not integer-like) and raises the sum by one |
| Tally.TallyOfSpec | supabase/functions/server/index.tsx:427-441 | a tally counts each key's occurrences, has distinct keys and sums to the number of keys tallied |
| Server.LoginTarget | supabase/functions/server/index.tsx:115-130 | 400 exactly when matricula or password is missing, then 404 for an unknown badge or a dangling index; with both present, exactly the stored officer the index points at |
| Server.BoletinsListingHoldsIndexEntries | supabase/functions/server/index.tsx:166-174 | the report listing contains the value of every `boletim:numero:` index entry |
| Server.Server.LogAction | supabase/functions/server/index.tsx:41-52 | exactly one key, `log:<id>`, is written, with the audit entry; the audit trail stays well formed |
| Server.Server.Signup | supabase/functions/server/index.tsx:57-110 | 400 on a missing field, 409 on a taken badge, 400 on a provider error, each with the store unchanged; else the record, the badge index and one audit entry, answering the public summary |
| Server.Server.Login | supabase/functions/server/index.tsx:113-161 | the `LoginTarget` failures, 401 on provider rejection, each with the store unchanged; else one audit entry and the token with the summary |
| Server.Server.ListBoletins | supabase/functions/server/index.tsx:166-179 | every value under `boletim:` plus one audit entry |
| Server.Server.CreateBoletim | supabase/functions/server/index.tsx:182-222 | 400 on a missing field and 409 on a taken number, store unchanged; else writes `boletim:<id>`, `boletim:numero:<n>` → id and one audit entry |
| Server.Server.GetBoletim | supabase/functions/server/index.tsx:225-243 | 404 with the store unchanged, or the stored report plus one audit entry |
| Server.Server.UpdateBoletim | supabase/functions/server/index.tsx:246-277 | 404 with the store unchanged, or only `boletim:<id>` rewritten with the merge (the number index untouched) plus one audit entry |
| Server.Server.ListPessoas | supabase/functions/server/index.tsx:282-295 | every value under `pessoa:` plus one audit entry |
| Server.Server.CreatePessoa | supabase/functions/server/index.tsx:298-327 | 400 without nome or tipo, store unchanged; else writes `pessoa:<id>` and one audit entry |
| Server.Server.UpdatePessoa | supabase/functions/server/index.tsx:330-361 | 404 with the store unchanged, or only `pessoa:<id>` rewritten with the merge plus one audit entry |
| Server.Server.DeletePessoa | supabase/functions/server/index.tsx:364-385 | 404 with the store unchanged, or exactly `pessoa:<id>` removed plus one audit entry |
| Server.Server.ListPoliciais | supabase/functions/server/index.tsx:390-406 | the officer records under `policial:`, badge-index entries filtered out, plus one audit entry |
| Server.Server.Estatisticas | supabase/functions/server/index.tsx:411-452 | the statistics of the valid reports plus one audit entry, or 500 with the store unchanged when a date is invalid |
| Server.Server.Buscar | supabase/functions/server/index.tsx:455-501 | the search result and its length plus one audit entry, or 500 with the store unchanged when the number filter throws |
| Server.Server.GetLogs | supabase/functions/server/index.tsx:506-522 | at most 100 audit entries, the first of a newest-first permutation of the stored ones, plus one audit entry |
| AuthContext.Seeded | contexts/AuthContext.tsx:29-35 | five officers, ids "1" to "5", all with password `pn2024` |
| AuthContext.ResolveLogin | contexts/AuthContext.tsx:95-152 | a server session, carrying the answer's officer and token, exactly when the answer is ok with a token; a local session only for the first officer whose badge (up to case) and password match exactly or, when none does, the first whose badge matches and whose password is an alternate one; rejection exactly when neither the server nor any exact or alternate match accepts |
| AuthContext.SeededCommanderLogsIn | contexts/AuthContext.tsx:110-113 | the seeded commander logs in locally with `pn2024`, whatever the case of the badge typed |
| AuthContext.AlternatePasswordsAccepted | contexts/AuthContext.tsx:132-135 | `123456` and the lower-cased badge open an account whatever its stored password |
| AuthContext.UnknownBadgeRejected | contexts/AuthContext.tsx:151-152 | an unknown badge is rejected unless the server accepts |
| AuthContext.WrongPasswordRejected | contexts/AuthContext.tsx:110-152 | a password neither stored nor alternate is rejected unless the server accepts |
| AuthContext.ExactBeforeAlternate | contexts/AuthContext.tsx:110-135 | an exact match wins over an earlier alternate match |
| AuthContext.AuthSession.constructor | contexts/AuthContext.tsx:38-41 | no session, loading, the seeded officers, not authenticated |
| AuthContext.AuthSession.Restore | contexts/AuthContext.tsx:44-70 | a session is restored only when user and token are both stored and the user parses; a bad user removes both keys; a bad officer list removes only its key |
| AuthContext.AuthSession.AdicionarPolicial | contexts/AuthContext.tsx:72-76 | appends without a duplicate check and persists the whole list |
| AuthContext.FirstLocalMatchUnique | contexts/AuthContext.tsx:110-135 | at most one position is the first exact match or, failing any, the first alternate match, so the local session is determined |
| AuthContext.AuthSession.Login | contexts/AuthContext.tsx:78-160 | adopts the session `ResolveLogin` picks and stores user and token; a rejection changes neither session nor storage; returns true exactly when authenticated by this login |
| AuthContext.AuthSession.Logout | contexts/AuthContext.tsx:162-169 | user and token cleared, so not authenticated; their two keys removed; the officer list key untouched |
| CadastroPolicial.Validar | components/CadastroPolicial.tsx:40-77 | no error exactly when every check passes; otherwise the reported check fails and every earlier one passes; blankness is judged by JavaScript's `trim` white-space set and the password length in UTF-16 code units |
| CadastroPolicial.EmSpaceNomeRejected | components/CadastroPolicial.tsx:41-44 | a name of one em space (U+2003) is reported as missing |
| CadastroPolicial.EmojiSenhaLongaOBastante | components/CadastroPolicial.tsx:66-69 | two emoji are four UTF-16 code units, so the password is not too short |
| CadastroPolicial.BlankNomeRejected | components/CadastroPolicial.tsx:41-44 | a name of spaces only is reported as missing |
| CadastroPolicial.BlankSenhaRejected | components/CadastroPolicial.tsx:61-64 | a password of spaces only is reported as missing, not as short |
| CadastroPolicial.MatriculaNotBlank | components/CadastroPolicial.tsx:51-59 | a well-formed badge is never blank |
| CadastroPolicial.GerarMatricula | components/CadastroPolicial.tsx:33-38 | every generated badge is `PN` plus six digits |
| CadastroPolicial.CadastroForm.Gerar | components/CadastroPolicial.tsx:33-38 | only the badge field changes, to the generated badge |
| CadastroPolicial.CadastroForm.Submit | components/CadastroPolicial.tsx:79-124 | a failing check is shown and nothing else changes; else the officer is appended and persisted and the form cleared |
| GestaoPoliciais.Editados | components/GestaoPoliciais.tsx:65-71 | same length; entries with the id get the form's fields, all others unchanged |
| GestaoPoliciais.EditadosKeepIds | components/GestaoPoliciais.tsx:65-71 | editing keeps every id and the fields the form does not hold |
| GestaoPoliciais.NovoIdCollidesAfterDelete | components/GestaoPoliciais.tsx:75-90 | after deleting officer "1" of two, the next id is "2", already taken |
| GestaoPoliciais.IndexOfPosto | components/GestaoPoliciais.tsx:93-94 | -1 exactly for an unknown rank, else the rank's position |
| GestaoPoliciais.HierarquiaDistinct | components/GestaoPoliciais.tsx:93 | no rank is listed twice |
| GestaoPoliciais.PostoColorBands | components/GestaoPoliciais.tsx:92-100 | positions 0-1 blue, 2-3 green, 4-5 yellow, 6-8 purple |
| GestaoPoliciais.UnknownPostoIsAzul | components/GestaoPoliciais.tsx:92-100 | an unknown rank is blue |
| GestaoPoliciais.GruposPartitionHierarquia | components/GestaoPoliciais.tsx:198-213 | the two groups are disjoint and cover the hierarchy |
| GestaoPoliciais.GruposSomamTotal | components/GestaoPoliciais.tsx:198-213 | with valid ranks, the two cards add up to the number of officers |
| GestaoPoliciais.GestaoPoliciais.ResetForm | components/GestaoPoliciais.tsx:30-37 | empty form, nothing edited, list kept |
| GestaoPoliciais.GestaoPoliciais.AbrirDialog | components/GestaoPoliciais.tsx:39-51 | dialog open with the officer's fields, or a blank form |
| GestaoPoliciais.GestaoPoliciais.Salvar | components/GestaoPoliciais.tsx:53-85 | a blank field, or a taken badge when creating, changes nothing; editing rewrites the edited id; creating appends with the next id; then the dialog closes and the form resets |
| GestaoPoliciais.GestaoPoliciais.Excluir | components/GestaoPoliciais.tsx:87-90 | removes every entry with the id, keeping the order of the rest |
| GestaoPessoas.ValidarPessoa | components/GestaoPessoas.tsx:127-137 | accepted exactly with a name and a well-formed identity number; missing fields reported before the format |
| GestaoPessoas.BiValidoFitsInput | components/GestaoPessoas.tsx:133-137 | a well-formed identity number is exactly 14 characters, the input's limit |
| GestaoPessoas.BiValidoUpperCase | components/GestaoPessoas.tsx:300 | a well-formed identity number is unchanged by the input's upper-casing |
| GestaoPessoas.BiExemplo | components/GestaoPessoas.tsx:132-135 | the sample number is accepted, its lower-case form is not |
| GestaoPessoas.VerificarFoto | components/GestaoPessoas.tsx:104-113 | accepted exactly when an `image/` type of at most 5 MiB |
| GestaoPessoas.FotoLimiteInclusivo | components/GestaoPessoas.tsx:110-113 | exactly 5 MiB is accepted, one byte more is too large |
| GestaoPessoas.UrlFoto | components/GestaoPessoas.tsx:142-153 | the form's photo unless a new file was chosen, then a `/fotos/pessoa_` address |
| GestaoPessoas.Dados | components/GestaoPessoas.tsx:155-159 | an empty alias becomes absent; the other fields and the photo are copied |
| GestaoPessoas.DadosDeFormDe | components/GestaoPessoas.tsx:80-93 | opening a person and saving unchanged sends back its alias and fields |
| GestaoPessoas.Substituidos | components/GestaoPessoas.tsx:167-169 | same length; entries with the id replaced, the rest unchanged |
| GestaoPessoas.SubstituidosKeepIds | components/GestaoPessoas.tsx:167-169 | replacing by a record with that id keeps every id and every other entry |
| GestaoPessoas.AposSalvar | components/GestaoPessoas.tsx:163-178 | no data keeps the list; a creation appends the answer; an edit keeps length and every entry of another id, and the entries with the edited id become the answer |
| GestaoPessoas.AposExcluir | components/GestaoPessoas.tsx:207-212 | with data or no error, exactly the entries of other ids remain; otherwise unchanged; always an order-preserving subsequence |
| GestaoPessoas.GestaoPessoas.ResetForm | components/GestaoPessoas.tsx:64-78 | default form (declarant), no photo, no preview, nothing edited |
| GestaoPessoas.GestaoPessoas.AbrirDialog | components/GestaoPessoas.tsx:80-98 | dialog open with the person's fields (`''` for missing ones) and preview, or a reset form |
| GestaoPessoas.GestaoPessoas.FotoChange | components/GestaoPessoas.tsx:100-124 | a failing file is reported and changes nothing; an accepted one becomes the selected photo |
| GestaoPessoas.GestaoPessoas.Salvar | components/GestaoPessoas.tsx:126-195 | validation first; then the PUT or POST payload, the list per `AposSalvar`, and a closed dialog and reset form only on an answer without error |
| GestaoPessoas.GestaoPessoas.Excluir | components/GestaoPessoas.tsx:197-219 | nothing without confirmation; else a DELETE and the list per `AposExcluir` |
| NovaOcorrencia.NumeroPadrao | components/NovaOcorrencia.tsx:22 | the default number starts with `BO-` |
| NovaOcorrencia.NumeroPadraoRepete | components/NovaOcorrencia.tsx:22 | clocks 1000 ms apart give the same default number |
| NovaOcorrencia.IdsFilterDistinct | components/NovaOcorrencia.tsx:59-61 | removing entries keeps the involved ids distinct |
| NovaOcorrencia.Opcoes | components/NovaOcorrencia.tsx:249 | exactly the persons not yet involved, in list order |
| NovaOcorrencia.NovaOcorrencia.constructor | components/NovaOcorrencia.tsx:21-33 | the default form, nobody involved, no persons, no notice |
| NovaOcorrencia.NovaOcorrencia.CarregarPessoas | components/NovaOcorrencia.tsx:35-46 | persons replaced only by an answer with data |
| NovaOcorrencia.NovaOcorrencia.Adicionar | components/NovaOcorrencia.tsx:53-57 | appends unless the person is already involved; ids stay distinct |
| NovaOcorrencia.NovaOcorrencia.Remover | components/NovaOcorrencia.tsx:59-61 | exactly the entries of other persons remain, in order; ids stay distinct |
| NovaOcorrencia.NovaOcorrencia.Selecionar | components/NovaOcorrencia.tsx:241-249 | the first person with the id (as `find` returns it), when not yet involved, is appended in the role of their type; an unknown or already involved id changes nothing |
| NovaOcorrencia.NovaOcorrencia.Submit | components/NovaOcorrencia.tsx:63-85 | an incomplete form sends nothing; else the form, the involved persons and the officer's id; success shows the notice |
| NovaOcorrencia.NovaOcorrencia.AoFimDoAviso | components/NovaOcorrencia.tsx:87-98 | notice hidden, a fresh default form, nobody involved |
| Upload.VerificarArquivo | components/BuscaAvancada.tsx:75-84 | accepted exactly for an `image/` type within the limit; a non-image is reported as such |
| Upload.VerificarArquivoMonotone | components/BuscaAvancada.tsx:75-84 | a file accepted under a limit is accepted under any larger one |
| BuscaAvancada.BuscarPorTexto | components/BuscaAvancada.tsx:48-69 | none exactly when every box is empty; else an order-preserving subsequence holding exactly the persons meeting every non-empty criterion |
| BuscaAvancada.CriteriosVaziosCasam | components/BuscaAvancada.tsx:54-60 | empty criteria impose nothing |
| BuscaAvancada.MaisCriteriosEstreitam | components/BuscaAvancada.tsx:54-60 | adding a criterion only narrows |
| BuscaAvancada.SemCodinomeNuncaCasa | components/BuscaAvancada.tsx:56 | a person without an alias never matches an alias query |
| BuscaAvancada.CasaIgnoraCaixa | components/BuscaAvancada.tsx:55-57 | the case the queries are typed in does not matter |
| BuscaAvancada.NomeProprioEncontrado | components/BuscaAvancada.tsx:55 | searching a person's own name finds them |
| BuscaAvancada.VerificarImagem | components/BuscaAvancada.tsx:71-95 | accepted exactly for an `image/` type of at most 10 MiB |
| BuscaAvancada.OrdenarMatches | components/BuscaAvancada.tsx:156 | non-increasing confidence, a permutation of the matches |
| BuscaAvancada.ConfiancaColor | components/BuscaAvancada.tsx:194-198 | green exactly at 85 and above, red exactly below 70 |
| BuscaAvancada.ConfiancaColorMonotone | components/BuscaAvancada.tsx:194-198 | a higher confidence never gets a worse colour |
| BuscaAvancada.CoresOrdenadas | components/BuscaAvancada.tsx:156 | down the sorted matches the colours never improve |
| Sorting.SortDesc | components/Dashboard.tsx:91-94 | sorted non-increasing by the key, a permutation of the input |
| Sorting.PrefixHoldsTop | components/Dashboard.tsx:91-95 | in a key-descending list no later element beats an earlier one |
| MapaCrimes.FiltrarSpec | components/MapaCrimes.tsx:25-63 | the filter chain keeps exactly the reports passing district, type and period, as an order-preserving subsequence |
| MapaCrimes.SemFiltros | components/MapaCrimes.tsx:25-63 | `todos`, `todos`, `mes` keeps the whole list |
| MapaCrimes.DataInvalida | components/MapaCrimes.tsx:43-60 | an unparsable date is kept only under `mes` |
| MapaCrimes.CorDoDistrito | components/MapaCrimes.tsx:65-71 | green exactly for a district with no report, orange exactly with one, yellow exactly with two, red exactly with three or more |
| MapaCrimes.CorMonotona | components/MapaCrimes.tsx:65-71 | one more report never lowers a district's colour |
| MapaCrimes.TileNaoExcede | components/MapaCrimes.tsx:220 | a tile never counts more than the district's reports |
| MapaCrimes.OutrosDistritosVazios | components/MapaCrimes.tsx:220 | choosing a district empties every other tile |
| MapaCrimes.Procurados | components/MapaCrimes.tsx:238-242 | exactly the wanted persons of the district, in list order, and as many as the persons who are wanted there, so the badge shows that number |
| Relatorios.DadosPeriodo | components/Relatorios.tsx:15-17 | the last `dias` entries, or all when fewer |
| Relatorios.PeriodoTerminaNoUltimoDia | components/Relatorios.tsx:15-17 | a non-empty period ends on the last day |
| Relatorios.PeriodosEncaixados | components/Relatorios.tsx:15-17 | a shorter period is the tail of a longer one |
| Relatorios.DadosPizza | components/Relatorios.tsx:21-26 | at most four slices: the robbery, theft, assault and other sums, in that order, with exactly the zero ones left out |
| Relatorios.TotalPorCategorias | components/Relatorios.tsx:21-28 | with consistent days, the total is the sum of the four categories |
| Relatorios.PizzaSomaTotal | components/Relatorios.tsx:21-28 | dropping zero slices keeps the pie's sum equal to the total |
| Relatorios.Media | components/Relatorios.tsx:28-29 | none for an empty period, else the total over the days rounded half up |
| Relatorios.Melhor | components/Relatorios.tsx:117 | the reduce keeps a maximum, the last among equals |
| Relatorios.MaisComum | components/Relatorios.tsx:117 | none for an empty pie, else the last largest slice's name |
| Relatorios.EmpateFicaComOUltimo | components/Relatorios.tsx:117 | a top tie of robbery and other reports other |
| Relatorios.Pico | components/Relatorios.tsx:132 | the largest daily total, 0 when empty |
| Relatorios.PicoAteTotal | components/Relatorios.tsx:132 | the peak never exceeds the total |
| Relatorios.ParcelaAteSoma | components/Relatorios.tsx:28 | one day's total is at most the period total |
| Relatorios.Tabela | components/Relatorios.tsx:242 | the period's days latest first |
| Relatorios.TabelaInvertida | components/Relatorios.tsx:242 | reversing the table gives the period back |
| Dashboard.Recentes | components/Dashboard.tsx:90-95 | at most five reports, all when fewer |
| Dashboard.RecentesSpec | components/Dashboard.tsx:91-95 | newest first, and only reports of the answer |
| Dashboard.RecentesSaoOsMaisNovos | components/Dashboard.tsx:91-95 | no report left out is newer than one shown |
| Dashboard.Grafico | components/Dashboard.tsx:117-125 | at most seven points, all when fewer |
| Dashboard.GraficoSpec | components/Dashboard.tsx:123-124 | earliest day first, and only days of the tally |
| Dashboard.GraficoMostraOsUltimos | components/Dashboard.tsx:123-124 | no day left out is later than one shown |
| Dashboard.StatusColor | components/Dashboard.tsx:107-114 | blue exactly for `registrado`, yellow exactly for `em_andamento`, green exactly for `concluido`, grey for anything else |
| Dashboard.NenhumEstadoVerde | components/Dashboard.tsx:107-114 | no report status is ever green; resolved and archived are grey |
| Dashboard.Dashboard.constructor | components/Dashboard.tsx:67-70 | demo data in demo mode |
| Dashboard.Dashboard.CarregarDados | components/Dashboard.tsx:76-105 | a thrown request keeps everything; statistics with a non-empty type tally and a non-empty report list each replace their part and leave demo mode |
| ConsultarBoletins.FiltrosJson | components/ConsultarBoletins.tsx:71 | all six filter fields are sent as strings |
| ConsultarBoletins.BuscaComFiltrosIniciais | components/ConsultarBoletins.tsx:18-25 | the initial filters find only reports typed `todos`, so none among ordinary reports |
| ConsultarBoletins.PessoaNome | components/ConsultarBoletins.tsx:108-111 | the label of the first person with the id, or `N/A` |
| ConsultarBoletins.PessoaNomeComIdsUnicos | components/ConsultarBoletins.tsx:108-111 | with unique ids, each person is named by its own label |
| ConsultarBoletins.PolicialNome | components/ConsultarBoletins.tsx:113-116 | `posto nome` of the first officer with the id, or `N/A` |
| ConsultarBoletins.PolicialNomeComIdsUnicos | components/ConsultarBoletins.tsx:113-116 | with unique ids, each officer is named by its own label |
| ConsultarBoletins.ConsultarBoletins.CarregarDados | components/ConsultarBoletins.tsx:38-62 | a thrown request keeps everything; each list is replaced independently by an answer with data |
| ConsultarBoletins.ConsultarBoletins.Buscar | components/ConsultarBoletins.tsx:68-85 | the whole filter form is sent; results replaced only by an answer with reports |
| ConsultarBoletins.ConsultarBoletins.LimparFiltros | components/ConsultarBoletins.tsx:87-97 | the initial filters come back and the lists reload |
| Text.LastThreeDigits | components/NovaOcorrencia.tsx:22 | the last three characters of a number of three or more digits are its three lowest digits |
| Text.NatToStringValue | components/GestaoPoliciais.tsx:76 | reading back the decimal rendering `String(n)` gives `n` |
| Text.TrimEmptyIff | components/CadastroPolicial.tsx:41 | a string trims to empty exactly when every character is in ECMAScript's WhiteSpace or LineTerminator set |
| Text.Utf16Length | components/CadastroPolicial.tsx:66 | `length` counts UTF-16 code units: between one and two per character, exactly one per character when none is outside the Basic Multilingual Plane |

## Left out

- The identity provider (token check, user creation, password sign-in) is a parameter: an id, a token or `None` for an error.
- `kv_store.tsx` is not part of this model. The store is a map. `getByPrefix` is a list of the prefixed keys in an order the store chooses. Storage failures and the 500 answers they cause are not modelled; only the 500 from an invalid date (statistics) and from a non-string number filter (search) are.
- Timestamps are the request's one clock reading, a natural number, not ISO text; every date string is read through a parameter (`tempo`, `time`, `dayOf`, `Relogio`).
- Request bodies are JSON objects; a body that is not an object is not modelled.
- Health check route: a constant answer.
- Case mapping (`toUpperCase`, `toLowerCase`) covers the ASCII letters only.
- The facial-recognition simulation (`Math.random` confidences, timers) in `BuscaAvancada`, and `ultimaOcorrencia`; only the final sort and the colour bands are modelled.
- `CorrelacaoCrimes`, `useApi`, `LoginForm`, `Navigation`, `App`, the build configuration and the fixture data: presentation, routing, network plumbing and demo data (demo data is passed to constructors).
- API answers are `ApiResponse(data, error)` with `data` the payload itself, not the wrapper object (`data.pessoa`, `data.boletins`).
- GestaoPessoas.AposSalvar: the source tests the wrapper (`response.data`) and stores `response.data.pessoa`. A wrapper without `pessoa`, such as the demo answers of `hooks/useApi.ts` (`{pessoas: [...]}` for a creation, `{message}` for an edit), appends or substitutes `undefined` there. The model has no such wrapper, so it always stores a person.
- Tally.BumpSpec: a new key is stated to go at the end. JavaScript lists integer-like property names (a type such as `2024`) first, in ascending order, so the key order of the serialised `porTipo` and `porStatus` can differ.
- Tally.BumpSpec: every key is counted as an own property starting from 0. The source counts into plain objects (`{}`), which inherit from `Object.prototype`:
  - a type or status named `constructor`, `toString`, `valueOf` or `hasOwnProperty` reads as an inherited function, which is truthy, so the stored count becomes text such as `function Object() { [native code] }1`;
  - a key `__proto__` is never stored.
  The model leaves these names out of its reading of JavaScript objects.
- Tally.TallyOfSpec: distinct keys and counts summing to the number tallied hold only for keys that are not `Object.prototype` names, for the reason given under Tally.BumpSpec.
- ServerLogic.EstatisticasSpec: `porTipo` and `porStatus` each summing to the total, and each count equalling the number of reports with that key, hold only when no type or status is an `Object.prototype` name (see Tally.BumpSpec).
- Json.JNum: JSON numbers are integers. Non-integer numbers, and numbers JavaScript renders in exponent form (`1e21`), are not represented. Stored bodies carry client numbers unchanged, and an id or report number interpolated into a key or log text would render as `1.5` or `1e+21`.
- `JSON.stringify`/`JSON.parse` of browser storage are parameters: encoders, and parse results with `None` for a parse error.
- Toasts, error texts, loading flags, `handleInputChange` setters and the CSS class names behind colours.
- `FileReader` photo previews: `GestaoPessoas.GestaoPessoas.FotoChange` leaves the preview as it was, because the preview is set asynchronously by the reader.
- The initial person load of `GestaoPessoas` (a replace-on-data like `NovaOcorrencia.NovaOcorrencia.CarregarPessoas`).
- The second `getStatusColor` in `ConsultarBoletins`, the same map as `Dashboard.StatusColor`.
- Map tile coordinates and floating-point percentages in chart labels; the average is integer round-half-up.
- Sorting.SortDesc: the order among equal keys is not stated. JavaScript's `Array.prototype.sort` is stable (ECMAScript 2019), so in the source equal keys keep their input order (`BuscaAvancada.tsx`:156, `Dashboard.tsx`:91-94 and 123).
- `GestaoPessoas.ValidarPessoa`: the `tipo` presence check never fails, because the person type is a non-empty choice from a list.
- `NovaOcorrencia.NumeroPadraoRepete`: stated for a 1000 ms step only; any multiple of 1000 ms collides likewise.
- `Dashboard.Recentes`, `Dashboard.Grafico`: dates are read through a total parameter, so an invalid date (`NaN` in the source) is not modelled.
