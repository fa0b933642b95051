# Ponto Evollutti: a verified model of the time-clock logic

Ponto Evollutti is a web time clock for interns and staff. Collaborators register the day's entry and exit. Managers plan a weekly schedule (`escala`) per collaborator. Administrators see weekly totals and progress towards a 30-hour goal, keep the list of collaborators, and correct attendance records. Most of the application is screens and calls to a hosted database. This project models the business logic inside those screens, one Dafny module per source file:

- **EscalasRecuperacao**: the schedule editor. It computes planned day minutes (one hour of lunch off only on days over six hours) and the Monday-to-Friday total as "HH:MM". It also edits one field of one schedule, merges stored schedules with blank ones, renders the PDF day cell, and builds the row written on save.
- **EscalasVisualizacao**: the collaborator's read-only schedule. It builds the blank week, shows each day as "XhYYmin", and computes the total. Its own day-minutes method is proved equal to the editor's.
- **PontoCard**: the punch card. Its net hours always deduct one hour. Its `registrado` flag is a class field set by `RegistrarPonto`.
- **PreviousWeekOverview**: net hours with the 11:59-12:59 lunch-window overlap taken off, rounded to a tenth. It also covers the stored-or-computed weekly `reduce` and the descending sort.
- **Utils**: `formatHorasMinutos`, decimal hours shown as "HH:MM" with the carry at sixty minutes.
- **AdminWeeklyOverview**: per-collaborator sums, progress, hours still missing, status and colour bands, the sort, and the summary cards.
- **NovoColaboradorForm**, **ColaboradoresLista**, **Cpf**: the CPF formatter, which both forms share because its two copies are textually identical. Also the ordered validator, the single-field edits (class state), the valid-row filter, and the admin guard.
- **PontoHistorico**: the record filter, clearing it, and the empty-time-to-null mapping of the edit dialog.
- **UseAuth**: the mock authentication provider, with a `user` slot changed by login, register and logout.

Shared helper modules:

- **JsText**: digits, `String(n)`, `padStart`, and `trim` with JavaScript's whitespace set.
- **TimeText**: "HH:MM" and "HH:MM:SS" read with `split(':').map(Number)`.
- **Clock**: the "HH:MM" rendering of minutes and reading it back.
- **JsMath**: `Math.max`, `Math.min` and `Math.round` on integers and reals.
- **Seqs**: `Array.prototype.filter` and its laws.
- **Sorting**: an in-place descending sort on an array, standing for `Array.prototype.sort`.
- **Escalas**: the schedule record.
- **Cadastro**: the collaborator row.
- **Options**: the optional-value datatype.

Times are well-formed `<input type="time">` values, or the empty string, as a precondition. Hours the source keeps as JavaScript numbers are Dafny `real`. Minutes are integers.

## Model

| member | source | states |
|---|---|---|
| EscalasRecuperacao.CalcularHorasDia | src/components/EscalasRecuperacao.tsx:124-141 | 0 when either time is empty; otherwise exactly 60 minutes are deducted iff the raw span exceeds 360, the span is kept (floored at 0) iff it is at most 360, and the result is never negative |
| EscalasRecuperacao.MinutosSemanaCincoDias | src/components/EscalasRecuperacao.tsx:54-60 | the week's minutes are the sum of the day minutes of segunda, terca, quarta, quinta and sexta |
| EscalasRecuperacao.FimDeSemanaIgnorado | src/components/EscalasRecuperacao.tsx:146-150 | whatever Saturday and Sunday hold, the week's total is the same |
| EscalasRecuperacao.CalcularTotalHoras | src/components/EscalasRecuperacao.tsx:143-155 | the loop's total is the week's minutes; the text is a clock string (at least two hour digits, minutes 00..59) whose hours*60+minutes is that total |
| Clock.ClockRoundTrip | src/components/EscalasRecuperacao.tsx:152-154 | every non-negative total renders as a well-formed "HH:MM" that reads back as the same total |
| EscalasRecuperacao.AtualizarHorario | src/components/EscalasRecuperacao.tsx:157-163 | same length; schedules of other collaborators unchanged; in the collaborator's schedules the named field holds the new time and every other field, the week and the weekend are kept |
| Escalas.Gravar | src/components/EscalasRecuperacao.tsx:160 | the spread-and-set writes the named field and keeps every other field |
| EscalasRecuperacao.AtualizarBemFormada | src/components/EscalasRecuperacao.tsx:157-163 | an edit with a time-input value keeps every field a time or empty |
| EscalasRecuperacao.IndiceDe | src/components/EscalasRecuperacao.tsx:95 | the index `find` stops at: no earlier schedule is the collaborator's, the one at it is |
| EscalasRecuperacao.EscalasCompletas | src/components/EscalasRecuperacao.tsx:93-109 | one schedule per collaborator in collaborator order; the first stored schedule for that id when there is one, else the blank schedule for the week |
| Escalas.EscalaVazia | src/components/EscalasRecuperacao.tsx:97-107 | the blank schedule has every weekday field empty and is well formed |
| EscalasRecuperacao.CelulaDia | src/components/EscalasRecuperacao.tsx:248-252 | "Folga" iff either time is empty, else exactly "entrada - saida" |
| EscalasRecuperacao.OrNull | src/components/EscalasRecuperacao.tsx:175-184 | `value \|\| null`: null iff the field is empty or missing, else the value itself |
| EscalasRecuperacao.ParaSalvar | src/components/EscalasRecuperacao.tsx:172-188 | the saved row keeps id and week, maps each weekday field through `\|\| null`, and has Saturday and Sunday null |
| EscalasRecuperacao.TurnoSalvoIgual | src/components/EscalasRecuperacao.tsx:175-188 | a day's fields read the same after the empty-to-null mapping |
| EscalasRecuperacao.SalvarPreservaTotal | src/components/EscalasRecuperacao.tsx:175-188 | saving does not change the week's total |
| EscalasVisualizacao.CalcularHorasDia | src/components/EscalasVisualizacao.tsx:93-110 | this screen's day minutes equal the editor's on every input (hence 0 on empty, 60 off only above 360, never negative) |
| EscalasVisualizacao.CalcularTotalHoras | src/components/EscalasVisualizacao.tsx:112-126 | "00:00" when no schedule is loaded; otherwise the clock string of the five weekdays' minutes, which reads back as that sum |
| EscalasVisualizacao.EscalaCarregada | src/components/EscalasVisualizacao.tsx:67-80 | the found row, or exactly the blank schedule for the user and week (every weekday field empty), whose total is 0 |
| EscalasVisualizacao.TotalEscalaVazia | src/components/EscalasVisualizacao.tsx:67-80 | the blank week's total shows "00:00" |
| EscalasVisualizacao.DuracaoDiaLegivel | src/components/EscalasVisualizacao.tsx:222 | the "XhYYmin" text is hour digits, "h", two minute digits below 60, "min", and 60*X+YY is the day's minutes |
| EscalasVisualizacao.CelulaDia | src/components/EscalasVisualizacao.tsx:212-228 | a day off iff either time is empty; otherwise both times and the duration text of the day's minutes |
| EscalasVisualizacao.CelulaConcordaComPdf | src/components/EscalasVisualizacao.tsx:212 | the view and the editor's PDF agree on which days are days off |
| TimeText.SecondsIgnored | src/components/EscalasVisualizacao.tsx:96-100 | a time with seconds counts the same minutes as its "HH:MM" prefix |
| PontoCard.CalcularHoras | src/components/PontoCard.tsx:16-28 | 0 when either time is empty; otherwise hours*60 is max(0, span - 60): the 60 minutes are always deducted; never negative |
| PontoCard.AteUmaHoraNaoConta | src/components/PontoCard.tsx:26-27 | a span of 60 minutes or less gives 0 |
| PontoCard.CartaoComparadoComEscala | src/components/PontoCard.tsx:24-26 | above six hours the card and the schedule agree; from one to six hours the card is exactly one hour lower |
| PontoCard.PontoCard.constructor | src/components/PontoCard.tsx:11-13 | both inputs empty, not registered |
| PontoCard.PontoCard.HorasLiquidas | src/components/PontoCard.tsx:30 | the net hours of the current inputs, never negative |
| PontoCard.PontoCard.ResumoVisivel | src/components/PontoCard.tsx:102 | the summary is shown iff both times are filled in, and while it is hidden the net hours are 0; RegistrarPonto registers exactly when it is shown |
| PontoCard.PontoCard.BotaoDesabilitado | src/components/PontoCard.tsx:116 | the button is disabled iff the day is registered; RegistrarPonto disables it on success and never enables it again |
| PontoCard.PontoCard.SetEntrada | src/components/PontoCard.tsx:11 | only the entry changes |
| PontoCard.PontoCard.SetSaida | src/components/PontoCard.tsx:12 | only the exit changes |
| PontoCard.PontoCard.RegistrarPonto | src/components/PontoCard.tsx:32-47 | with a time missing: the required-fields notice and `registrado` unchanged; with both: registered, the button disabled and the summary's net hours reported; registers iff the summary is shown; a disabled button stays disabled |
| PreviousWeekOverview.Sobreposicao | src/components/PreviousWeekOverview.tsx:41-43 | the overlap with the lunch window is between 0 and 60 minutes, and all 60 when the hours span it |
| PreviousWeekOverview.MinutosEstagio | src/components/PreviousWeekOverview.tsx:26-46 | at most one hour is ever deducted; with the exit after the entry the result is between 0 and the span |
| PreviousWeekOverview.MinutosDeAlmocoIntervalo | src/components/PreviousWeekOverview.tsx:41-43 | the overlap formula equals the count, minute by minute, of minutes inside 11:59-12:59 |
| PreviousWeekOverview.CasosDoAlmoco | src/components/PreviousWeekOverview.tsx:35-46 | spanning the window: exactly 60 deducted, floored at 0; partial: exactly the lunch-window minutes inside the record (at most 60), floored at 0; outside: nothing |
| PreviousWeekOverview.MesmoDiaDescontaSoOAlmoco | src/components/PreviousWeekOverview.tsx:35-46 | within one day, the net minutes are the span minus exactly the lunch-window minutes worked |
| PreviousWeekOverview.Decimos | src/components/PreviousWeekOverview.tsx:48 | `toFixed(1)` as tenths: within half a tenth of the value |
| PreviousWeekOverview.CalcularHorasEstagio | src/components/PreviousWeekOverview.tsx:19-49 | 0 when a timestamp is missing; otherwise within 0.05 h of the exact net hours |
| PreviousWeekOverview.Contribuicao | src/components/PreviousWeekOverview.tsx:103-118 | the stored net hours when positive, else the computed hours (0 without both timestamps) |
| PreviousWeekOverview.ContribuicaoNaoNegativa | src/components/PreviousWeekOverview.tsx:103-118 | a record with exit not before entry never lowers the total |
| PreviousWeekOverview.SomaSemanaConcat | src/components/PreviousWeekOverview.tsx:103-118 | the `reduce` over two batches is the sum of the two |
| PreviousWeekOverview.TotalComMaisUmPonto | src/components/PreviousWeekOverview.tsx:102-118 | another collaborator's record leaves a total unchanged; the collaborator's own adds exactly its contribution |
| PreviousWeekOverview.Totais | src/components/PreviousWeekOverview.tsx:101-128 | one row per collaborator, in order, with that collaborator's own total |
| PreviousWeekOverview.CarregarTotais | src/components/PreviousWeekOverview.tsx:101-131 | a permutation of the per-collaborator rows, one per collaborator, non-increasing in hours, each with its own total |
| Sorting.SortDescending | src/components/PreviousWeekOverview.tsx:131 | the array ends non-increasing in the key and a permutation of what it held |
| Sorting.Insert | src/components/AdminWeeklyOverview.tsx:79 | one insertion step extends the sorted prefix by one and permutes the array |
| Utils.MinutosArredondados | src/lib/utils.ts:11 | the rounded minutes are between 0 and 60 |
| Utils.FormatEhMinutoMaisProximo | src/lib/utils.ts:9-19 | the text is the "HH:MM" of the input rounded to the nearest minute: the hours are floor(x) or, on carry, floor(x)+1, and the minutes never show 60 |
| Utils.RoundDecompoe | src/lib/utils.ts:10-11 | whole hours times 60 plus the rounded fraction is the rounded total of minutes |
| Utils.FormatLeComoMinutos | src/lib/utils.ts:9-19 | for non-negative input: at least two hour digits, ":", minutes 00..59, reading back within half a minute of the input |
| Utils.FormatHorasInteiras | src/lib/utils.ts:10-11 | a whole number n shows as n padded to 2 digits and ":00" |
| AdminWeeklyOverview.HorasComMaisUmPonto | src/components/AdminWeeklyOverview.tsx:63-64 | a collaborator's hours add only their own records, a null value counting 0 |
| AdminWeeklyOverview.Progresso | src/components/AdminWeeklyOverview.tsx:65 | progress is hours over the 30-hour goal in percent; at least 100 iff hours at least 30 |
| AdminWeeklyOverview.HorasRestantes | src/components/AdminWeeklyOverview.tsx:66 | `Math.max(0, metaSemanal - horasEstagio)` with the goal of line 21: never negative, 0 iff the goal is reached, else exactly what reaches 30 |
| AdminWeeklyOverview.RestantesConcordaComProgresso | src/components/AdminWeeklyOverview.tsx:65-66 | nothing missing iff progress reaches 100; missing hours are the goal times the missing share |
| AdminWeeklyOverview.ProgressoDe | src/components/AdminWeeklyOverview.tsx:62-76 | a card's figures all derive from the collaborator's own sum |
| AdminWeeklyOverview.ProgressoEstagiarios | src/components/AdminWeeklyOverview.tsx:62-76 | one card per collaborator, in order |
| AdminWeeklyOverview.CarregarProgresso | src/components/AdminWeeklyOverview.tsx:62-79 | a permutation of the cards, one per collaborator, non-increasing in progress, each coherent with its records |
| AdminWeeklyOverview.StatusProgresso | src/components/AdminWeeklyOverview.tsx:100-105 | each status iff its band: at least 100, [75,100), [50,75), below 50 |
| AdminWeeklyOverview.CorSegueStatus | src/components/AdminWeeklyOverview.tsx:93-98 | the colour uses the same bands as the status |
| AdminWeeklyOverview.ValorBarra | src/components/AdminWeeklyOverview.tsx:250 | the bar value is capped at 100 and is the progress below it |
| AdminWeeklyOverview.ContaIndependeDaOrdem | src/components/AdminWeeklyOverview.tsx:155 | the "Meta Atingida" count does not depend on the order of the cards |
| AdminWeeklyOverview.ContaEhQuemFezTrintaHoras | src/components/AdminWeeklyOverview.tsx:155 | the count is the number of collaborators with at least 30 hours |
| AdminWeeklyOverview.SomaProgressoLinear | src/components/AdminWeeklyOverview.tsx:169 | the sum of the progresses is the progress of the total hours |
| AdminWeeklyOverview.ProgressoMedioDaMediaDeHoras | src/components/AdminWeeklyOverview.tsx:183-186 | the mean progress is the progress of the mean hours |
| Cpf.StripNonDigits | src/components/NovoColaboradorForm.tsx:30 | only digits remain, and never more characters than the input |
| Cpf.FormatCPFKeepsDigits | src/components/NovoColaboradorForm.tsx:29-32 | removing the non-digits from the output gives the input's digits |
| Cpf.FormatCPFElevenDigits | src/components/NovoColaboradorForm.tsx:31 | eleven digits give exactly ddd.ddd.ddd-dd |
| Cpf.FormatCPFShort | src/components/ColaboradoresLista.tsx:38-41 | fewer than eleven digits come back as the bare digits |
| Cpf.FormatCPFIdempotent | src/components/NovoColaboradorForm.tsx:29-32 | formatting twice equals formatting once |
| NovoColaboradorForm.ComEntrada | src/components/NovoColaboradorForm.tsx:34-40 | the named field changes, a CPF stored formatted, every other field kept |
| NovoColaboradorForm.ValidateForm | src/components/NovoColaboradorForm.tsx:42-80 | valid iff all four checks pass; each message iff its check is the first to fail, in the order name, e-mail, CPF, password; lengths in UTF-16 code units, like `.length` |
| JsText.Utf16Length | src/components/NovoColaboradorForm.tsx:70 | `.length` counts one code unit per Basic Multilingual Plane character and two per other character: between the character count and twice it, equal to it iff no character is astral |
| NovoColaboradorForm.CpfOkOnzeDigitos | src/components/NovoColaboradorForm.tsx:61 | the CPF check holds iff the input has exactly eleven digits |
| NovoColaboradorForm.SenhaContaUnidadesUtf16 | src/components/NovoColaboradorForm.tsx:70 | two emoji make a long enough password, three ASCII letters do not |
| NovoColaboradorForm.ArrobaNaoEhBranco | src/components/NovoColaboradorForm.tsx:52 | an e-mail with '@' is never blank |
| NovoColaboradorForm.ValidoTemCpfFormatado | src/components/NovoColaboradorForm.tsx:61 | a valid form whose CPF was typed through the field holds ddd.ddd.ddd-dd |
| NovoColaboradorForm.Formulario.constructor | src/components/NovoColaboradorForm.tsx:18-25 | all fields empty but the type, "colaborador" |
| NovoColaboradorForm.Formulario.HandleInputChange | src/components/NovoColaboradorForm.tsx:34-40 | the record becomes the single-field update and the CPF stays formatted |
| JsText.Trim | src/components/ColaboradoresLista.tsx:35 | trimming gives the empty string iff the text is blank, and otherwise starts and ends with a non-whitespace character |
| ColaboradoresLista.ColaboradoresValidos | src/components/ColaboradoresLista.tsx:34-36 | every kept row is valid and the list does not grow |
| ColaboradoresLista.ColaboradoresValidosExatos | src/components/ColaboradoresLista.tsx:34-36 | exactly the valid rows are kept, in their order |
| ColaboradoresLista.ValidoSimplificado | src/components/ColaboradoresLista.tsx:35 | a row is valid iff present, with a name and an id that is not blank |
| ColaboradoresLista.TodosValidos | src/components/ColaboradoresLista.tsx:34-36 | a list of valid rows is shown unchanged |
| ColaboradoresLista.AcoesDesabilitadas | src/components/ColaboradoresLista.tsx:235 | edit and delete are disabled iff the row's type is 'admin' (both buttons, lines 235 and 244); HandleEdit requires it to be false, as the button gates the handler |
| ColaboradoresLista.ComEntrada | src/components/ColaboradoresLista.tsx:175-178 | the named field changes, a CPF stored formatted, every other field kept |
| ColaboradoresLista.Lista.constructor | src/components/ColaboradoresLista.tsx:29-30 | nothing being edited, dialog closed |
| ColaboradoresLista.Lista.HandleEdit | src/components/ColaboradoresLista.tsx:43-53 | reached only from an enabled edit button (line 234-235); the dialog holds a copy of the row, never an admin's, and is open |
| ColaboradoresLista.Lista.HandleInputChange | src/components/ColaboradoresLista.tsx:170-180 | nothing changes while nothing is edited; otherwise only the named field |
| PontoHistorico.PontosFiltrados | src/components/PontoHistorico.tsx:149-153 | every shown record matches each filter that is set |
| PontoHistorico.FiltradosExatos | src/components/PontoHistorico.tsx:149-153 | a record is shown iff it is in the list and matches both filters; order is kept |
| PontoHistorico.FiltrarDuasVezes | src/components/PontoHistorico.tsx:149-153 | filtering is idempotent |
| PontoHistorico.LimparFiltros | src/components/PontoHistorico.tsx:210-211 | both filters become empty |
| PontoHistorico.LimparMostraTudo | src/components/PontoHistorico.tsx:208-212 | after clearing, the whole list is shown |
| PontoHistorico.TimestampDe | src/components/PontoHistorico.tsx:83-87 | null iff the time is empty, else the date joined to the time |
| PontoHistorico.PontoDataDe | src/components/PontoHistorico.tsx:81-93 | each of entry and exit is null iff its input is empty, else the record's date with that time |
| UseAuth.PrimeiroIndice | src/hooks/useAuth.tsx:41 | the first mock user matching both e-mail and password, no earlier one matching |
| UseAuth.SemSenha | src/hooks/useAuth.tsx:43 | the same user without password |
| UseAuth.Autenticar | src/hooks/useAuth.tsx:41-43 | none iff no mock user matches both; otherwise the first match, without password |
| UseAuth.LoginJoao | src/hooks/useAuth.tsx:16-25 | the first demo user logs in with their password |
| UseAuth.LoginDoUsuario | src/hooks/useAuth.tsx:16-48 | the e-mail of a demo account logs in iff the password is that account's, and then yields that account without password |
| UseAuth.LoginSenhaDeOutro | src/hooks/useAuth.tsx:16-35 | for every pair of distinct demo accounts, one's e-mail with the other's password does not log in |
| UseAuth.NovoUsuario | src/hooks/useAuth.tsx:50-59 | the registered user is the data and the fresh id, without password |
| UseAuth.RegistroGuardaSenha | src/hooks/useAuth.tsx:52-56 | as written, for every input the stored user keeps the typed password, so it differs from the password-free user `login` stores |
| UseAuth.AuthProvider.constructor | src/hooks/useAuth.tsx:38 | no user |
| UseAuth.AuthProvider.IsAuthenticated | src/hooks/useAuth.tsx:71 | authenticated iff the slot holds a user; Login makes it true on success and leaves it on failure, Register makes it true, Logout false |
| UseAuth.AuthProvider.Login | src/hooks/useAuth.tsx:40-48 | succeeds iff some mock user matches both fields, then stores the first match without password and is authenticated; on failure the user is unchanged |
| UseAuth.AuthProvider.Register | src/hooks/useAuth.tsx:50-59 | always succeeds, authenticates, and stores the corrected new user (the data and the fresh id, without password; see Findings) |
| UseAuth.AuthProvider.Logout | src/hooks/useAuth.tsx:61-63 | the slot becomes empty and the user is no longer authenticated |

## Left out

- Database access is not modelled: the Supabase queries, inserts, upserts and deletes, their errors, the loading flags, and the e-mail and CPF uniqueness checks. The overviews' methods start from the rows the queries return.
- The realtime subscriptions are event plumbing with no logic of their own.
- Date handling is not modelled: `new Date`, `getTime`, `getHours`, `toISOString`, date-fns and time zones. The week windows are built from these. A timestamp is an integer count of local minutes, and seconds are dropped.
- PreviousWeekOverview.MinutosEstagio: the hour of the day is the instant modulo one day. For a record that crosses midnight the model follows the source's branches on those hours, but nothing is proved about what such a record should count.
- IEEE floating point is left out: hours are exact reals. `Number(x.toFixed(1))` is modelled as rounding to the nearest tenth with halves away from zero, without binary representation effects.
- The display-only `toFixed(1)`/`toFixed(2)` calls on cards and toasts are left out.
- Rendering is left out: JSX, the jsPDF export, toasts, timers and the login screen.
- The `Date.now()` id of `register` is a parameter.
- Sorting.SortDescending: `Array.prototype.sort` is part of the JavaScript runtime. It is modelled by an insertion sort that is proved sorted and a permutation. Stability and the exact order of equal keys are not stated.
- `atualizarHorario` accepts any string as the field name in the source. The model restricts the field to the ten weekday keys, which are the only ones the inputs pass.
- UseAuth.AuthProvider.Register: stores the corrected user, without the typed password (`UseAuth.NovoUsuario`). The source stores the password too, as the Findings table records with `UseAuth.RegistroGuardaSenha`. The class invariant "the slot never holds a password" holds only for the corrected provider.
- Strings are sequences of Unicode characters. Where the source asks for `.length` (the CPF and password checks), the model counts UTF-16 code units with `JsText.Utf16Length`. `trim`, the `\D` regular expression and `padStart` are applied to characters. They give the same results as on code units, because the white-space characters and the digits are all in the Basic Multilingual Plane, and `\D` drops both halves of a surrogate pair.
- `handleSaveEdit` and `handleDelete` of the collaborator list only send data to the database, so they are left out.

## Findings

| source | as written | input that shows it | evidently intended | confidence | as-written member | corrected member |
|---|---|---|---|---|---|---|
| src/hooks/useAuth.tsx:50-59 | `newUser` is built by spreading `userData`, which copies `senha`. The later `delete` removes `senha` only from `userData`, so the stored user keeps the password. | registering `{..., senha: "segredo"}` stores a user with `senha == "segredo"` | the stored user has no password, as after `login` (line 43) | medium (not executed) | UseAuth.RegistroGuardaSenha | UseAuth.NovoUsuario |
