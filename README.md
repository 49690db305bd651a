# Personal finance stores, modelled in Dafny

This project models the non-UI logic of a personal-finance web application. That logic lives in three React context stores.

- **The ledger** (`DadosContext`) holds three lists:
  - incomes (`receitas`);
  - expenses (`despesas`);
  - expense categories (`categorias`).

  It answers these queries:
  - the current balance;
  - income and expense totals, over everything, the current month or the current year;
  - the per-category expense rollup shown in the pie chart;
  - the twelve monthly buckets of the evolution chart.

  Its mutators add, edit and remove records. Removing a category un-links the expenses that used it. Clearing everything restores the seven default categories. An import replaces the three lists together once its key check passes.
- **The alert store** (`AlertasContext`) holds the list of alerts. Its rule engine, `gerarAlertasInteligentes`, proposes new alerts in a fixed order:
  - a negative-balance alert;
  - one due-date alert per expense falling due in the next three days;
  - a cost-rise alert when this month's expenses exceed last month's by more than 20%.

  A proposal is dropped when an unread alert of the same kind already exists. For a due date, that means an unread due-date alert whose text contains the expense description.
- **The goal store** (`MetasContext`) holds savings goals:
  - deposits recompute `ativa` from the new amount;
  - progress is a percentage capped at 100.

Each store is a class whose fields are the lists the source keeps in React state. Each mutator replaces them. Every mutator's postcondition ties the new lists to a pure function:
- `RemoveWhere`, `UpdateWhere` and `KeepWhere` in `Records` are the `filter`/`map` copies the source makes;
- `DesvincularCategoria`, `Depositar` and `AlertasInteligentes` are specific to one store.

The properties are proved about those functions. The loops of the source stay loops, each proved against the pure function it computes:
- the `forEach` that fills the category dictionary;
- the two `forEach` passes over a twelve-slot array for the monthly series;
- the `forEach` that pushes due-date alerts;
- the `forEach` that appends the alerts.

Modelling choices:
- Amounts are `real`.
- Dates are a year, a zero-based month and a day (`Calendar.Date`). Day arithmetic uses a civil day number.
- The wall clock, the random ids and the `confirm` dialogs are parameters:
  - `hoje` is today and `agora` is the timestamp;
  - ids are fresh and supplied by the caller;
  - `confirmado` is the answer to the dialog.
- The text formatting of amounts and dates is a caller-supplied `Formatador`.

## Model

| member | source | states |
|---|---|---|
| Records.RemoveWhere | src/contexts/DadosContext.tsx:134-140 | removal by id never grows the list, and an id no record carries leaves it unchanged |
| Records.RemoveWhereMembers | src/contexts/DadosContext.tsx:134-140 | after removal, a record is present if and only if it was present before and its id differs from the removed one |
| Records.RemoveWhereAppend | src/contexts/DadosContext.tsx:134-140 | removal keeps the relative order of the remaining records (it distributes over concatenation) |
| Records.PartitionLength | src/contexts/DadosContext.tsx:134-140 | every record is either removed or kept, so the two counts add up to the length |
| Records.KeepWhereMembers | src/contexts/DadosContext.tsx:260-274 | a filter keeps exactly the records that pass its test |
| Records.UpdateWhere | src/contexts/DadosContext.tsx:160-176 | an update by id keeps length and order, changes exactly the records with that id, and is the identity when the id is unknown |
| Records.FindWhere | src/contexts/DadosContext.tsx:288 | `find` returns nothing if and only if no record has the key, otherwise the first record that has it |
| Calendar.MesAnterior | src/contexts/AlertasContext.tsx:143-146 | the previous month is exactly one month earlier on a running month count, so January wraps to December of the year before |
| Text.ContainsMiddle | src/contexts/AlertasContext.tsx:130-134 | `includes` finds any text that was interpolated into a string |
| Text.NatToString | src/contexts/AlertasContext.tsx:166 | the decimal rendering of a number is non-empty, made of digits, has no leading zero, and read back as digits gives the number |
| Text.IntToString | src/contexts/AlertasContext.tsx:160-166 | the percentage interpolated into the message is canonical: non-empty, a minus sign before the digits of a negative number, no leading zero, and the digits read back give the number |
| Dados.EditarTransacoes | src/contexts/DadosContext.tsx:160-170 | editing an income or expense merges the patch into the records with that id only, and an unknown id changes nothing |
| Dados.EditarCategorias | src/contexts/DadosContext.tsx:172-176 | editing a category merges the patch into the categories with that id only, and an unknown id changes nothing |
| Dados.DesvincularCategoria | src/contexts/DadosContext.tsx:151-154 | after un-linking, no expense points at the category; those that did lose only their category; the others are untouched |
| Dados.SomaValoresAppend | src/contexts/DadosContext.tsx:196-200 | the `reduce` sum of two lists joined is the sum of the parts |
| Dados.SomaParticao | src/contexts/DadosContext.tsx:196-200 | splitting a list by a key splits its sum |
| Dados.SaldoAposAdicionar | src/contexts/DadosContext.tsx:196-200 | adding an income raises the balance by its amount; adding an expense lowers it by its amount |
| Dados.SomaValoresNaoNegativa | src/contexts/DadosContext.tsx:196-200 | the `reduce` sum of amounts that are not negative is not negative |
| Dados.CalcularSaldoAtual | src/contexts/DadosContext.tsx:196-200 | the balance is negative exactly when the expenses add up to more than the incomes, and with expenses that are not negative it never exceeds the incomes |
| Dados.SaldoAposRemover | src/contexts/DadosContext.tsx:196-200 | removing by id changes the balance by exactly the amounts of the removed records |
| Dados.FiltrarPeriodo | src/contexts/DadosContext.tsx:260-274 | the period filter keeps exactly the records whose year (and for `'mes'` also month) are today's |
| Dados.SomaNoPeriodoFiltrada | src/contexts/DadosContext.tsx:211-225 | for `'mes'` and `'ano'`, the `reduce` with the date test inside equals the sum of the list the rollup's `filter` keeps |
| Dados.CalcularTotal | src/contexts/DadosContext.tsx:202-252 | `calcularTotalReceitas`/`calcularTotalDespesas` for each period (none, `'mes'`, `'ano'`) is the sum of exactly the records of that period |
| Dados.TotaisPorPeriodo | src/contexts/DadosContext.tsx:202-252 | with amounts that are not negative, month total ≤ year total ≤ overall total |
| Dados.ChaveCategoria | src/contexts/DadosContext.tsx:279 | the dictionary key of an expense is its category id when that id is not empty; the key is never empty, and it is 'sem-categoria' exactly when the category is missing, empty or that very text |
| Dados.AgruparPassoChaves | src/contexts/DadosContext.tsx:278-284 | one step of the `forEach` keeps each key once, appends a new key at the end, and keeps the keys those of the expenses seen so far |
| Dados.AgruparPassoSomas | src/contexts/DadosContext.tsx:278-284 | one step of the `forEach` adds the expense's amount under its own key (starting from it for a new key) and leaves every other sum as it was |
| Dados.AcumularSoma | src/contexts/DadosContext.tsx:278-284 | one step of the `forEach` raises the total of the dictionary by exactly the expense's amount |
| Dados.Agrupar | src/contexts/DadosContext.tsx:277-284 | the dictionary holds each key once, exactly the keys of the expenses, and under each key the sum of the expenses with that key |
| Dados.AgruparTotal | src/contexts/DadosContext.tsx:277-284 | the sums in the dictionary add up to the sum of the grouped expenses |
| Dados.Rotulo | src/contexts/DadosContext.tsx:287-294 | an entry takes the name and colour of the first category with that id, or 'Sem Categoria' and '#CCCCCC' when there is none, and keeps the value |
| Dados.Rotular | src/contexts/DadosContext.tsx:286-294 | one labelled entry per dictionary key, in key order |
| Dados.SomaRotulada | src/contexts/DadosContext.tsx:286-294 | labelling keeps the sum of the values |
| Dados.DespesasPorCategoriaSomaTotal | src/contexts/DadosContext.tsx:254-295 | the values of the rollup add up to the expense total of the same period |
| Dados.SemCategoriaRotulada | src/contexts/DadosContext.tsx:277-294 | an expense of the period with no category or an unknown one is counted under an entry labelled 'Sem Categoria' with colour '#CCCCCC' |
| Dados.CalcularDespesasPorCategoria | src/contexts/DadosContext.tsx:254-295 | the `forEach` over the filtered expenses computes the rollup, whose values add up to the period's expense total |
| Dados.SerieMensal | src/contexts/DadosContext.tsx:363-364 | the series has twelve buckets |
| Dados.SerieMensalSomaAno | src/contexts/DadosContext.tsx:363-380 | the twelve buckets add up to the year's total |
| Dados.SomarPorMes | src/contexts/DadosContext.tsx:366-372 | the `forEach` over a twelve-slot array leaves in slot m the total of month m of the year |
| Dados.ObterEvolucaoMensal | src/contexts/DadosContext.tsx:357-380 | both series are the monthly totals of the current year, and each adds up to that year's total |
| Dados.DadosStore.constructor | src/contexts/DadosContext.tsx:63-65 | the store starts with three empty lists |
| Dados.DadosStore.AdicionarReceita | src/contexts/DadosContext.tsx:106-113 | one income is appended with the fresh id and a missing date replaced by today; the other lists are unchanged |
| Dados.DadosStore.AdicionarDespesa | src/contexts/DadosContext.tsx:115-122 | one expense is appended with the fresh id and a missing date replaced by today; the other lists are unchanged |
| Dados.DadosStore.AdicionarCategoria | src/contexts/DadosContext.tsx:124-132 | one category is appended; an empty colour becomes the palette colour at the category count modulo 10 |
| Dados.DadosStore.RemoverReceita | src/contexts/DadosContext.tsx:134-136 | the incomes become the filtered list; nothing else changes |
| Dados.DadosStore.RemoverDespesa | src/contexts/DadosContext.tsx:138-140 | the expenses become the filtered list; nothing else changes |
| Dados.DadosStore.RemoverCategoria | src/contexts/DadosContext.tsx:142-158 | declined while in use, nothing changes; otherwise the category goes and its expenses are un-linked in the same step |
| Dados.DadosStore.EditarReceita | src/contexts/DadosContext.tsx:160-164 | the incomes become the edited list; nothing else changes |
| Dados.DadosStore.EditarDespesa | src/contexts/DadosContext.tsx:166-170 | the expenses become the edited list; nothing else changes |
| Dados.DadosStore.EditarCategoria | src/contexts/DadosContext.tsx:172-176 | the categories become the edited list; nothing else changes |
| Dados.DadosStore.LimparTodosDados | src/contexts/DadosContext.tsx:178-194 | once confirmed, no incomes, no expenses and the seven default categories; declined, nothing changes |
| Dados.DadosStore.ExportarDados | src/contexts/DadosContext.tsx:297-304 | the export holds the three lists and passes the import's key check |
| Dados.DadosStore.ImportarDados | src/contexts/DadosContext.tsx:306-326 | the import succeeds exactly when all three keys are present and the user confirms; it then replaces all three lists, and otherwise changes none |
| Alertas.TemVencimentoNaoLido | src/contexts/AlertasContext.tsx:130-134 | the guard of a due-date alert implies an unread alert of that kind, and for an empty description it is exactly that guard, since every text includes the empty text |
| Alertas.GuardasPersistem | src/contexts/AlertasContext.tsx:106-108 | the `some` guards (`TemNaoLido` of line 106 and the due-date guard of line 130), once they hold, keep holding after alerts are appended |
| Alertas.RegraSaldo | src/contexts/AlertasContext.tsx:98-113 | at most one proposal; there is one exactly when the balance is negative and no unread balance alert is stored, and it is a `saldo_baixo` alert carrying the balance's message |
| Alertas.VenceEmBreve | src/contexts/AlertasContext.tsx:116-123 | within today's month, an expense is due soon exactly when its day is one to three days after today |
| Alertas.VenceEmBreveNaVirada | src/contexts/AlertasContext.tsx:116-123 | the three-day window runs over the month end (January 30 reaches February 1) and over the year end (December 31 reaches January 1-3 of the next year, not January 4) |
| Alertas.TotalMesAtual | src/contexts/AlertasContext.tsx:148-152 | this month's expense total of the rule is the ledger's `calcularTotalDespesas('mes')` |
| Alertas.TotalMesAnterior | src/contexts/AlertasContext.tsx:143-158 | last month's total sums the expenses of December of the previous year in January, otherwise of the month before in the same year |
| Alertas.TemAlgumaNoMes | src/contexts/AlertasContext.tsx:148-158 | a month whose expense total is not zero has at least one expense |
| Alertas.AumentoSignificativo | src/contexts/AlertasContext.tsx:160 | when the rise is significant, both this month and last month hold at least one expense |
| Alertas.RegraAumento | src/contexts/AlertasContext.tsx:160-177 | at most one proposal; there is one exactly when the rise is significant and no unread cost-rise alert is stored, and it is an `aumento_custos` alert whose message carries the rounded percentage rise of this month's total over last month's |
| Alertas.MensagemVencimentoContem | src/contexts/AlertasContext.tsx:126-134 | a due-date message contains the description of its expense, so the dedup guard finds it |
| Alertas.PercentualAumento | src/contexts/AlertasContext.tsx:160-162 | the reported percentage is the rise rounded to the nearest integer, and under the rule's guard it is at least 20 |
| Alertas.RegraVencimentos | src/contexts/AlertasContext.tsx:119-140 | at most one due-date proposal per expense, all of kind `vencimento` |
| Alertas.RegraVencimentosExata | src/contexts/AlertasContext.tsx:119-140 | a due-date proposal is made if and only if its expense falls due in the next three days and no unread due-date alert names it |
| Alertas.RegraVencimentosVazia | src/contexts/AlertasContext.tsx:130-138 | when every expense due soon is already named by an unread alert, no due-date alert is proposed |
| Alertas.AlertasInteligentes | src/contexts/AlertasContext.tsx:93-182 | one run proposes at most two alerts more than there are expenses |
| Alertas.OrdemDasRegras | src/contexts/AlertasContext.tsx:93-182 | the proposals come in rule order: balance, then due dates, then cost rise |
| Alertas.SaldoBaixoExato | src/contexts/AlertasContext.tsx:98-113 | a negative-balance alert is proposed if and only if the balance is negative and no unread one exists |
| Alertas.AumentoCustosExato | src/contexts/AlertasContext.tsx:148-177 | a cost-rise alert is proposed if and only if last month had expenses, this month's exceed them by more than 20%, and no unread one exists |
| Alertas.VencimentosExatos | src/contexts/AlertasContext.tsx:115-140 | every expense due soon and not named by an unread alert gets its message; every due-date proposal comes from such an expense; dedup looks only at the alerts stored before the run |
| Alertas.Materializar | src/contexts/AlertasContext.tsx:63-71 | each proposal becomes one unread alert with its kind, its text and the fresh id, in order |
| Alertas.MarcarLido | src/contexts/AlertasContext.tsx:73-77 | marking one alert read sets `lido` on the alerts with that id only, and changes nothing else |
| Alertas.MarcarTodos | src/contexts/AlertasContext.tsx:79-81 | marking all read keeps count, order and every other field, and sets every alert read |
| Alertas.MarcarTodosLibera | src/contexts/AlertasContext.tsx:79-81 | after marking all read, no dedup guard holds |
| Alertas.SaldoNegativoAposMarcarTodos | src/contexts/AlertasContext.tsx:98-113 | with a negative balance, marking all read makes the next run propose the balance alert first |
| Alertas.MaterializarGuarda | src/contexts/AlertasContext.tsx:63-71 | an appended alert is unread, so it trips the guard of its own rule |
| Alertas.SegundoSaldoVazio | src/contexts/AlertasContext.tsx:106-110 | on a second run the balance rule finds its own alert |
| Alertas.VencimentoProposto | src/contexts/AlertasContext.tsx:119-140 | an expense that asks for a due-date alert has its message at some place in the engine's output |
| Alertas.VencimentoBloqueado | src/contexts/AlertasContext.tsx:130-134 | on a second run, an expense due soon is named by an unread due-date alert, the old one or the one the first run added |
| Alertas.SegundosVencimentosVazios | src/contexts/AlertasContext.tsx:130-134 | on a second run the due-date rule finds, for each expense due soon, its own alert |
| Alertas.SegundoAumentoVazio | src/contexts/AlertasContext.tsx:170-172 | on a second run the cost-rise rule finds its own alert |
| Alertas.SegundaExecucaoVazia | src/contexts/AlertasContext.tsx:93-182 | with the ledger and the day unchanged, running the engine again on its own output proposes nothing |
| Alertas.EmpilharVencimentos | src/contexts/AlertasContext.tsx:119-140 | the `forEach` over the expenses pushes exactly the due-date proposals, in expense order, after what was already pushed |
| Alertas.NovasMensagens | src/contexts/AlertasContext.tsx:93-177 | the pushes into `novosMensagens`, including those inside the `forEach`, produce exactly the three rules' proposals in order |
| Alertas.AlertasStore.constructor | src/contexts/AlertasContext.tsx:37 | the store starts with no alerts |
| Alertas.AlertasStore.AdicionarAlerta | src/contexts/AlertasContext.tsx:63-71 | one unread alert with the fresh id and the timestamp is appended |
| Alertas.AlertasStore.MarcarComoLido | src/contexts/AlertasContext.tsx:73-77 | the alerts become the list with that id marked read |
| Alertas.AlertasStore.MarcarTodosComoLidos | src/contexts/AlertasContext.tsx:79-81 | the alerts become the list with every alert read |
| Alertas.AlertasStore.RemoverAlerta | src/contexts/AlertasContext.tsx:83-85 | the alerts with that id go; the rest stay in order |
| Alertas.AlertasStore.RemoverTodosAlertas | src/contexts/AlertasContext.tsx:87-91 | once confirmed the list is empty; declined, it is unchanged |
| Alertas.AlertasStore.GerarAlertasInteligentes | src/contexts/AlertasContext.tsx:93-182 | the stored alerts are the old ones followed by one unread alert per proposal, in rule order |
| Metas.CriarMeta | src/contexts/MetasContext.tsx:56-66 | a new goal carries the fresh id and the given fields; an empty colour becomes `CORES_METAS[count % 10]`; an empty start date becomes now; a given `ativa` is kept and a missing one becomes true |
| Metas.CriarMetaConsistente | src/components/formularios/FormularioMeta.tsx:41-52 | a goal built from what the goal form accepts has a positive target, a saved amount that is not negative, and is active only below its target |
| Metas.EditarMetas | src/contexts/MetasContext.tsx:68-72 | editing merges the patch into the goals with that id only, and an unknown id changes nothing |
| Metas.Depositada | src/contexts/MetasContext.tsx:82-91 | a deposit adds the amount; `ativa` becomes "below target", whatever it was; every other field is kept |
| Metas.Depositar | src/contexts/MetasContext.tsx:80-94 | a deposit changes exactly the goals with that id, and an unknown id changes nothing |
| Metas.DepositoPositivo | src/contexts/MetasContext.tsx:83-85 | a positive deposit strictly raises the saved amount, a goal that reaches its target is inactive, and consistent goals stay consistent |
| Metas.Progresso | src/contexts/MetasContext.tsx:100-101 | progress is at most 100; below 100 it is exactly `valorAtual / valorAlvo * 100`; with a positive target it equals 100 exactly when the target is reached, and it is not negative for a consistent goal |
| Metas.CalcularProgressoMeta | src/contexts/MetasContext.tsx:96-102 | an unknown id gives 0; a known id gives the progress of the first goal with that id (the one `find` returns), at most 100, and not negative when the goals with that id are consistent |
| Metas.AtivaAposDeposito | src/contexts/MetasContext.tsx:80-102 | after a deposit a goal is active exactly while its progress is below 100% |
| Metas.MetasStore.constructor | src/contexts/MetasContext.tsx:43 | the store starts with no goals |
| Metas.MetasStore.AdicionarMeta | src/contexts/MetasContext.tsx:56-66 | one goal is appended with the fresh id, the palette colour at the goal count modulo 10 when none is given, and the defaults |
| Metas.MetasStore.EditarMeta | src/contexts/MetasContext.tsx:68-72 | the goals become the edited list |
| Metas.MetasStore.RemoverMeta | src/contexts/MetasContext.tsx:74-78 | once confirmed the goals with that id go; declined, nothing changes |
| Metas.MetasStore.AdicionarValorMeta | src/contexts/MetasContext.tsx:80-94 | the goals become the list after the deposit |

## Left out

- Persistence is not modelled:
  - the `localStorage` load and save effects of all three stores;
  - `JSON.stringify`/`JSON.parse`;
  - the start-up load of default categories (src/contexts/DadosContext.tsx:67-104).

  Import and export work on a `Snapshot` value, not on JSON text.
- Dados.DadosStore.ImportarDados: a key is `None` when it is missing. The model cannot express a key that is present with a falsy or non-list value, and it does not check the shape of the records inside.
- React scheduling is not modelled:
  - `useEffect`/`setTimeout` triggering of the alert engine (at start-up and whenever the expenses change);
  - batched state updates and stale closures.

  Every operation is one sequential step on the current state.
- Alertas.AlertasStore.GerarAlertasInteligentes: all alerts of one run share the single timestamp `agora`, while the source reads the clock once per alert.
- Text formatting comes from the caller-supplied `Formatador`. This covers `toFixed(2).replace('.', ',')` and `toLocaleDateString('pt-BR')`, so the model does not fix the exact text of amounts and dates.
- Time is modelled as calendar dates only: no time of day, time zones or date-string parsing. The due-date window is the three calendar days after today, compared by day number.
- Calendar.Date: a date is assumed valid (its day within its month), as a parsed date string always is. The model does not exclude other days; for such a date the month tests and the day-number comparison would disagree.
- Amounts are exact reals, so floating-point rounding is not modelled. This includes the factor 1.2 in the cost-rise rule and the 100 in the progress percentage.
- Dados.Agrupar: entries come out in the order their keys were first inserted. JavaScript lists integer-like object keys first, in numeric order; category ids are UUIDs, so this never arises.
- The remaining chart shaping of `obterDadosGrafico` is rendering and is left out: the `'receitas-despesas'` and `'categorias'` cases, and the labels and shape of `'evolucao'`. Its monthly buckets are modelled.
- Metas.CalcularProgressoMeta: requires the target of the first goal with that id (the one `find` returns) to be non-zero. With a zero target the source divides by zero: `Math.min` then gives 100 for a positive saved amount, `NaN` for a zero one and `-Infinity` for a negative one.
- Dados.DadosStore.AdicionarReceita, Dados.DadosStore.AdicionarDespesa and Metas.MetasStore.AdicionarValorMeta require a positive amount, and Metas.MetasStore.AdicionarMeta requires a positive target and an amount that is not negative. These are the guards of the forms that call them. The forms themselves are not modelled (src/components/formularios/FormularioDespesa.tsx:27, FormularioReceita.tsx:26, FormularioDepositoMeta.tsx:23, FormularioMeta.tsx:41-49).
