# Belarmino barbershop booking: a Dafny model of the client and admin logic

This project models the decision logic of a barbershop booking application. The booking
code is TypeScript: a React client and an Express server. The model covers six pieces:

- **The booking wizard** (`AgendarWizard`). It is a four-step state machine:
  - choose a barber;
  - choose a date and a time;
  - choose services and type the client's name and phone;
  - confirm.

  It also includes the per-step guard, the reset when the barber or date changes, the
  normalisation of the free-times answer, and the confirm-time guard and payload.
- **The day agenda** (`AgendaVisual`). It is a fixed grid of eighteen half-hour slots from
  09:00 to 17:30. Start times are cut to `HH:MM`. Each slot is looked up in a map where the
  last appointment written wins, and is shown free or busy.
- **The avatar initials** on a barber card (`BarbeiroCard`). The name is trimmed, split on
  runs of white space and filtered. The result is the first and last initial, upper-cased,
  or `"BB"` for a blank name.
- **The admin page** (`AdminPage`), which covers:
  - the login gate on a stored token;
  - logout, and logout on a 401;
  - loading the agenda, with its guard and error path;
  - barber selection;
  - status updates;
  - the list sorted by start time.
- **The admin routes on the server** (`AdminRoutes`). The token a request presents is the
  header, else the query parameter, else `""`. It must equal a non-empty configured secret.
  Every route answers 401 before doing anything else when that check fails.
- **The step indicator** (`StepDots`). Each dot is lit when its step has been reached; each
  connector is lit when the step before it has been passed.

Two support modules model what the code takes from JavaScript:

- `Text`: `trim`, the `\s` class, `toUpperCase`, string `<`, `join`, `padStart`.
- `Http`: JSON values, `?.`, truthiness, `String(v)`, `Response.ok`.

Every browser or server effect is represented as data:

- Each `fetch` is an outcome parameter: rejected with a message, or answered with a status
  and a body.
- `localStorage` is two fields of the admin state.
- `alert` is a returned flag.
- The current date is a parameter.

## Model

| member | source | states |
|---|---|---|
| StepDots.Render | client/src/components/StepDots.tsx:11-34 | one dot per step, numbered 1..n and keyed by its label (the label is not drawn); dot i is lit iff i <= currentStep; every dot but the last has a connector, lit iff i < currentStep |
| StepDots.LitDotCount | client/src/components/StepDots.tsx:13 | the number of lit dots is currentStep clamped to 0..n |
| StepDots.ConnectorsBetweenDots | client/src/components/StepDots.tsx:26 | n steps give exactly n-1 connectors |
| StepDots.ActiveDotsFormPrefix | client/src/components/StepDots.tsx:13 | a lit dot has only lit dots before it |
| StepDots.HighlightedConnectorBetweenActiveDots | client/src/components/StepDots.tsx:13-29 | a lit connector has lit dots on both sides |
| Text.TrimBlank | client/src/components/AgendarWizard.tsx:140 | `s.trim()` is empty exactly when every character of s is white space |
| Text.UpperChar | client/src/components/BarbeiroCard.tsx:23 | a-z and à-þ except ÷ become the letter 0x20 below (a-z become A-Z), ÿ becomes Ÿ, every other character is kept, and no result is an ASCII lower-case letter |
| Text.ToUpper | client/src/components/BarbeiroCard.tsx:23 | upper-casing keeps the length and upper-cases each character on its own, as `Text.UpperChar` states |
| Text.JoinLength | client/src/components/AgendarWizard.tsx:144 | the joined string's length is the services' total plus one separator per neighbouring pair |
| Text.JoinCons | client/src/components/AgendarWizard.tsx:144 | joining a service in front of a non-empty list gives that service, the separator, then the rest joined |
| Text.JoinSpelled | client/src/components/AgendarWizard.tsx:144 | no services join to "", one service to itself, and more to the first service, ", " and the others joined |
| Text.JoinConcat | client/src/components/AgendarWizard.tsx:144 | joining two lists in turn equals joining their concatenation |
| Text.Pad2Digits | client/src/components/AgendaVisual.tsx:34-35 | `String(h).padStart(2, "0")` is the two decimal digits of h for h < 100 |
| BarbeiroCard.GetInitials | client/src/components/BarbeiroCard.tsx:15-23 | the initials have one or two characters and no ASCII lower-case letter |
| BarbeiroCard.WordsAreTokens | client/src/components/BarbeiroCard.tsx:16-19 | trim, split on white-space runs and drop empty parts gives exactly the maximal runs of non-space characters |
| BarbeiroCard.InitialsOfTokens | client/src/components/BarbeiroCard.tsx:15-23 | the initials depend on the name only through those runs |
| BarbeiroCard.InitialsOfBlankName | client/src/components/BarbeiroCard.tsx:16-20 | an empty or blank name gives "BB" |
| BarbeiroCard.InitialsOfNonBlankName | client/src/components/BarbeiroCard.tsx:20-21 | a name with a non-space character has at least one word, so the "BB" fallback is not taken, and its initials start with that character upper-cased |
| BarbeiroCard.InitialsOfOneWord | client/src/components/BarbeiroCard.tsx:21-23 | a one-word name gives only its first character upper-cased |
| BarbeiroCard.InitialsOfManyWords | client/src/components/BarbeiroCard.tsx:21-23 | two or more words give the first characters of the first and last words; middle words do not matter |
| BarbeiroCard.InitialsIgnoreOuterSpace | client/src/components/BarbeiroCard.tsx:16-17 | leading and trailing white space do not change the initials |
| BarbeiroCard.InitialsIgnoreRunLength | client/src/components/BarbeiroCard.tsx:18 | any non-empty run of white space between words acts as one space |
| BarbeiroCard.TokensOfSpace | client/src/components/BarbeiroCard.tsx:16-20 | a string has no word iff it is all white space |
| AgendaVisual.Hhmm | client/src/components/AgendaVisual.tsx:22 | `hhmm` keeps the first min(5, length) characters, a prefix of the input |
| AgendaVisual.HhmmIdempotent | client/src/components/AgendaVisual.tsx:22 | cutting twice is cutting once |
| AgendaVisual.HhmmDropsSeconds | client/src/components/AgendaVisual.tsx:13-22 | "HH:MM" followed by anything becomes "HH:MM" |
| AgendaVisual.SlotsFrom | client/src/components/AgendaVisual.tsx:31-38 | the loop from hour h pushes 2*(18-h) labels, the i-th being the i-th half hour from h |
| AgendaVisual.GerarSlots | client/src/components/AgendaVisual.tsx:31-38 | there are exactly 18 slots |
| AgendaVisual.SlotTime | client/src/components/AgendaVisual.tsx:33-36 | slot i reads as 09:00 plus i half hours |
| AgendaVisual.SlotsFirstAndLast | client/src/components/AgendaVisual.tsx:33-36 | the first slot is "09:00" and the last "17:30" |
| AgendaVisual.SlotShape | client/src/components/AgendaVisual.tsx:34-35 | each slot is "HH:00" or "HH:30" with HH from 09 to 17 |
| AgendaVisual.SlotsAscending | client/src/components/AgendaVisual.tsx:33-36 | the slots strictly increase in string order and are pairwise distinct |
| AgendaVisual.ClockOrder | client/src/components/AgendaVisual.tsx:33-36 | on well-formed "HH:MM" labels, string order is time order |
| AgendaVisual.ParseInjective | client/src/components/AgendaVisual.tsx:34-35 | two well-formed labels with the same time are the same label |
| AgendaVisual.MapaDomain | client/src/components/AgendaVisual.tsx:43-46 | a slot is in the map iff some appointment starts in it |
| AgendaVisual.MapaLastWins | client/src/components/AgendaVisual.tsx:43-46 | a slot holds the last appointment of the list that starts in it |
| AgendaVisual.Render | client/src/components/AgendaVisual.tsx:50-51 | one row per slot, in slot order |
| AgendaVisual.SlotFreeIff | client/src/components/AgendaVisual.tsx:50-69 | a slot is shown free iff no appointment's cut start equals it |
| AgendaVisual.SlotShowsLastAppointment | client/src/components/AgendaVisual.tsx:43-51 | a busy slot shows the last appointment in the list that starts in it |
| AgendaVisual.OffGridNeverShown | client/src/components/AgendaVisual.tsx:50-51 | an appointment whose start is off the half-hour grid appears in no row |
| AgendarWizard.Inicial | client/src/components/AgendarWizard.tsx:45-63 | the wizard opens at step 1 with no barber, on the given date |
| AgendarWizard.Avancar | client/src/components/AgendarWizard.tsx:181-184 | without the guard nothing changes; with it the step goes up by one, capped at 4; only the step changes; validity is kept |
| AgendarWizard.Voltar | client/src/components/AgendarWizard.tsx:186-188 | the step goes down by one, floored at 1, with no guard; only the step changes |
| AgendarWizard.PodeAvancarCases | client/src/components/AgendarWizard.tsx:136-142 | step 1 may be left iff a barber is chosen, step 2 iff a time is chosen, and step 4 always |
| AgendarWizard.PodeAvancarOnDados | client/src/components/AgendarWizard.tsx:139-140 | on step 3 the guard holds iff name and phone are not blank and a service is chosen |
| AgendarWizard.ResetHorario | client/src/components/AgendarWizard.tsx:89-93 | a change of barber or date clears the time, the slot list and the slot error; nothing else changes |
| AgendarWizard.EscolherBarbeiro | client/src/components/AgendarWizard.tsx:89-93 | choosing another barber clears the time, slots and slot error; choosing the same one changes nothing |
| AgendarWizard.EscolherData | client/src/components/AgendarWizard.tsx:89-93 | choosing another date clears the time, slots and slot error; the same date changes nothing |
| AgendarWizard.ChangeClosesTimeStep | client/src/components/AgendarWizard.tsx:89-93 | after another barber or date, step 2 cannot be left until a time is chosen again |
| AgendarWizard.NormalizeHorarios | client/src/components/AgendarWizard.tsx:118-122 | the `horarios` member if it is an array, else the answer if it is an array, else the empty list |
| AgendarWizard.HorariosShapes | client/src/components/AgendarWizard.tsx:118-122 | a bare array and an object with a `horarios` array give the same list |
| AgendarWizard.HorariosFromAnswer | client/src/components/AgendarWizard.tsx:118-122 | a non-empty list always comes from the answer or its `horarios` member |
| AgendarWizard.BuscarHorarios | client/src/components/AgendarWizard.tsx:97-134 | no barber: "Selecione um barbeiro."; a failure or non-ok status: empty list and "Erro ao buscar horários."; otherwise the normalised list, and "Nenhum horário disponível para esta data." when it is empty; with a barber, an error is shown iff the list is empty |
| AgendarWizard.PedidoDe | client/src/components/AgendarWizard.tsx:144-166 | a request is sent iff barber, time, name, phone and services are all present; `servico` is the services joined with ", " |
| AgendarWizard.Confirmar | client/src/components/AgendarWizard.tsx:146-179 | only the feedback changes and is never empty; it is a success iff the guard passes and the answer is 2xx, and then reads "Agendamento confirmado com sucesso!"; a failed guard gives "Preencha todos os campos." |
| AgendarWizard.RefusalMessages | client/src/components/AgendarWizard.tsx:171-175 | a refused booking shows the server's message, "Erro ao confirmar" without one, and the generic message when the value prints as "" |
| AgendarWizard.DadosGuardImpliesCampos | client/src/components/AgendarWizard.tsx:136-150 | the trimmed step-3 guard with a chosen time implies the untrimmed confirm guard |
| AgendarWizard.BlankNamePassesConfirmGuard | client/src/components/AgendarWizard.tsx:136-150 | the converse fails: a blank name " " passes the confirm guard but not the step-3 guard |
| AgendarWizard.Apply | client/src/components/AgendarWizard.tsx:181-188 | every event keeps the wizard valid, and only forward and back change the step |
| AgendarWizard.RunValid | client/src/components/AgendarWizard.tsx:181-188 | after any sequence of events the step stays within 1..4 and steps past 1 have a barber |
| AgendarWizard.SessionValid | client/src/components/AgendarWizard.tsx:45-188 | the same from the opening state |
| AdminPage.Abrir | client/src/pages/Admin.tsx:84-91 | the page opens with the stored token and barber, or "" without them, and no items |
| AdminPage.Login | client/src/pages/Admin.tsx:95-98 | the token is kept in the page and in storage; the panel is shown iff the token is non-empty; the barber, the items and everything else are kept |
| AdminPage.Logout | client/src/pages/Admin.tsx:100-106 | token, barber and items are emptied and both stored entries removed; nothing else changes |
| AdminPage.StorageRoundTrip | client/src/pages/Admin.tsx:84-106 | a login survives a reload, and so does a logout |
| AdminPage.Screen | client/src/pages/Admin.tsx:179-181 | the login form is shown iff there is no token; otherwise the agenda of the sorted list |
| AdminPage.SelectBarbeiro | client/src/pages/Admin.tsx:229-232 | choosing a barber stores it and clears the items |
| AdminPage.SelectBarbeiroThenReload | client/src/pages/Admin.tsx:229-232 | a chosen barber survives a reload with the token unchanged, and with a token every slot of the new panel is free |
| AdminPage.LoadBarbeiros | client/src/pages/Admin.tsx:110-117 | nothing without a token; a failure sets "Erro ao carregar barbeiros"; otherwise the body's list or [] |
| AdminPage.Carregar | client/src/pages/Admin.tsx:121-147 | no barber: unchanged; 401: logout; 2xx: the answer's appointments or []; any other outcome: no items and a non-empty error |
| AdminPage.LoadErrorMessage | client/src/pages/Admin.tsx:138-142 | a refused load shows the server's message, or "Erro" without one |
| AdminPage.UnauthorizedLoadShowsLogin | client/src/pages/Admin.tsx:132-135 | a 401 while loading leads to the login form |
| AdminPage.StatusDe | client/src/pages/Admin.tsx:284-285 | confirm asks for "confirmado", cancel for "cancelado", never "pendente" |
| AdminPage.SetStatus | client/src/pages/Admin.tsx:166 | same length; items with the id get the new status and nothing else; other items are unchanged |
| AdminPage.SetStatusIdempotent | client/src/pages/Admin.tsx:166 | applying the same update twice is applying it once |
| AdminPage.SetStatusKeepsFreeSlots | client/src/pages/Admin.tsx:166 | a status update leaves every slot as free or busy as it was |
| AdminPage.ListaKeepsFreeSlots | client/src/pages/Admin.tsx:172-175 | sorting does not change which slots are free |
| AdminPage.UpdateKeepsAgendaShape | client/src/pages/Admin.tsx:159-166 | after a successful update the shown agenda has the same free and busy slots |
| AdminPage.AtualizarStatus | client/src/pages/Admin.tsx:151-170 | the answer's body is never read: 401 logs out without an alert; 2xx applies the update without an alert; any other status or a network failure changes nothing and raises the alert |
| AdminPage.CompareAsWritten | client/src/pages/Admin.tsx:173 | the comparator as written answers 1 iff the first start is later, else -1 |
| AdminPage.CompareAsWrittenTies | client/src/pages/Admin.tsx:173 | with equal starts each side compares as smaller than the other |
| AdminPage.CompareInicio | client/src/pages/Admin.tsx:173 | the corrected comparator is negative, zero or positive exactly as the first start is earlier, equal or later |
| AdminPage.CompareInicioConsistent | client/src/pages/Admin.tsx:173 | the corrected comparator is antisymmetric and transitive |
| AdminPage.Insert | client/src/pages/Admin.tsx:172-175 | inserting into a sorted list adds exactly that element and keeps the list sorted |
| AdminPage.Lista | client/src/pages/Admin.tsx:172-175 | the list is a permutation of the items, non-decreasing by start time |
| AdminPage.ListaStable | client/src/pages/Admin.tsx:172-175 | appointments with the same start keep their relative order |
| AdminRoutes.ConfiguredToken | server/admin.ts:4 | the environment's token, or "" when unset |
| AdminRoutes.PresentedToken | server/admin.ts:7-10 | a non-empty header wins; else a non-empty query string; else ""; a repeated or nested query value is not a string |
| AdminRoutes.Auth | server/admin.ts:6-13 | a request passes iff the configured token is non-empty and the presented token is that string |
| AdminRoutes.AuthCases | server/admin.ts:7-12 | the same, stated on the header and the query directly |
| AdminRoutes.EmptyConfigDenies | server/admin.ts:4-12 | without a configured token nobody passes |
| AdminRoutes.WrongHeaderShadowsQuery | server/admin.ts:7-12 | a non-empty wrong header fails even with the right query token |
| AdminRoutes.QueryUsedWithoutHeader | server/admin.ts:7-12 | with no header or an empty one, the right query token passes |
| AdminRoutes.NoTokenDenies | server/admin.ts:10-12 | a request with no token fails |
| AdminRoutes.RepeatedQueryDenied | server/admin.ts:9-12 | a repeated `token` parameter never passes |
| AdminRoutes.Guarded | server/admin.ts:21-23 | a failing request gets 401 "Não autorizado"; a passing one gets the route's own answer |
| AdminRoutes.GateIgnoresHandler | server/admin.ts:47-49 | a refused request's answer does not depend on what the route would do |
| AdminRoutes.ListarBarbeirosBody | server/admin.ts:25-40 | rows give 200 with `barbeiros` (or []); an error gives 500 "Erro ao listar barbeiros" with `detalhe` iff the error has a message |
| AdminRoutes.ListarBarbeiros | server/admin.ts:20-41 | 200 iff authorised and the query succeeded; 401 iff not authorised |

## Left out

- server/schedule.ts: its slot generation and interval exclusion call functions that are not part of this model, so the free-time computation is not modelled. The wizard takes the server's answer as a parameter.
- server/index.ts: server setup, CORS, static files and the health check.
- The data store. Its query results are parameters (`AdminRoutes.Query`).
- The body of `GET /api/admin/agendamentos` after its gate, and the status-update route. Neither is part of the model.
- Each `fetch` is an outcome parameter. Request URLs, `encodeURIComponent` and request headers are not modelled.
- Loading and submitting flags (`loadingBarbeiros`, `horariosLoading`, `submitting`, `loading`). They only disable buttons.
- Late answers. An answer that arrives after the barber or date has changed is applied to the current state, and the interleaving of such answers is not modelled.
- The wizard's barber-list loader (client/src/components/AgendarWizard.tsx:67-86). The mount effect runs it once, and it only fills the barber list and its error message. That list is not modelled; a chosen barber enters the model as the event `AgendarWizard.Evento.PickBarbeiro`.
- The wizard's markup is a placeholder (client/src/components/AgendarWizard.tsx:190-194), and the imported `Checkbox` is never used. So there are no handlers for services, name or phone. They change only through the raw state setters (`setServicosSelecionados`, `setCliente`, `setTelefone`), and `AgendarWizard.Evento` models these as plain assignments.
- React compares the barber in the reset effect by object identity; the model compares by value.
- `hojeISO`, `todayISO` and `formatDatePtBr`. They read the clock or the locale; the date is a parameter.
- The wizard's `horarios` list is typed `string[]` but holds whatever array the server sends. The model keeps the JSON values.
- JSON numbers are whole numbers in the model. Fractions, and `String()` of such numbers, are not modelled. `Http.NumberString` prints every digit, whereas JavaScript prints magnitudes of 1e21 or more in exponent form ("1e+21").
- Text.UpperChar: only ASCII and Latin-1 letters are mapped (`ÿ` to `Ÿ` included). `ß`, `µ` and letters beyond Latin-1 are left unchanged, though JavaScript maps them.
- Text.ToUpper: inherits the same gap, character by character.
- Strings are sequences of Unicode scalar values, not UTF-16 code units. `parts[0][0]` on a name starting with an astral character differs in JavaScript.
- `AgendaVisual` as shown accepts only `agendamentos`. It draws no confirm or cancel control, so nothing calls the `onConfirmar`/`onCancelar` callbacks that Admin passes (client/src/pages/Admin.tsx:284-285). `AdminPage.AtualizarStatus` models what such a call would do.
- In `carregar`, a 2xx answer whose body is JSON `null` makes `j.agendamentos` throw. The model treats it as a rejected request, `AdminPage.Reply.Rejected`, and the text of the thrown `TypeError` is an engine-specific parameter.
- The admin page's barber loader reads no status, so a `null` body throws on `j.barbeiros` whatever the status. The model treats it as `AdminPage.BarbeirosReply.BarbeirosRejected`.
- Page markup, class names and styling.

## Findings

| source | as written | input that shows it | evidently intended | confidence | as-written member | corrected member |
|---|---|---|---|---|---|---|
| client/src/pages/Admin.tsx:173 | `(a, b) => (a.inicio > b.inicio ? 1 : -1)` never answers 0, so for two appointments with the same start each compares as smaller than the other; `Array.prototype.sort` then leaves their order to the engine | two appointments whose `inicio` are both "09:00:00" | sort by start time with ties kept in list order, so the agenda shows the appointment that comes last in the server's list | medium; not executed | AdminPage.CompareAsWrittenTies | AdminPage.CompareInicio (used by AdminPage.Lista; see AdminPage.CompareInicioConsistent and AdminPage.ListaStable) |
