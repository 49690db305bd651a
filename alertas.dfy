/** The alert store (`AlertasContext`) and its rule engine
    `gerarAlertasInteligentes`. The engine looks at the ledger and at the alerts
    already stored, and proposes at most one negative-balance alert, one
    due-date alert per expense due in the next three days, and at most one
    cost-rise alert; a proposal is dropped when an unread alert of the same kind
    (for due dates: one whose text contains the expense description) exists. */
module Alertas {
  import opened Records
  import opened Calendar
  import opened Text
  import opened Dados

  /** `'vencimento' | 'saldo_baixo' | 'aumento_custos' | 'outro'` */
  datatype TipoAlerta = Vencimento | SaldoBaixo | AumentoCustos | Outro

  /** A stored alert; `data` is the ISO timestamp of its creation. */
  datatype Alerta = Alerta(id: Id, tipo: TipoAlerta, mensagem: string, data: string, lido: bool)

  /** `Omit<Alerta, 'id' | 'data' | 'lido'>`: what the engine proposes. */
  datatype NovoAlerta = NovoAlerta(tipo: TipoAlerta, mensagem: string)

  /** The text renderings the messages interpolate: an amount as
      `toFixed(2)` with a decimal comma, and a date as `toLocaleDateString('pt-BR')`. */
  datatype Formatador = Formatador(moeda: real -> string, data: Date -> string)

  function AlertaId(a: Alerta): Id { a.id }

  // ------------------------------------------------------------------
  // The dedup guards

  /** `alertas.some(a => a.tipo === tipo && !a.lido)` */
  predicate TemNaoLido(alertas: seq<Alerta>, tipo: TipoAlerta) {
    exists a :: a in alertas && a.tipo == tipo && !a.lido
  }

  /** The guard of a due-date alert: an unread due-date alert whose text
      contains the description of the expense. It implies the guard of the
      kind, and an empty description is found in every message, so for it the
      two guards coincide. */
  predicate TemVencimentoNaoLido(alertas: seq<Alerta>, descricao: string)
    ensures TemVencimentoNaoLido(alertas, descricao) ==> TemNaoLido(alertas, Vencimento)
    ensures descricao == "" ==> (TemVencimentoNaoLido(alertas, descricao) <==> TemNaoLido(alertas, Vencimento))
  {
    exists a :: a in alertas && a.tipo == Vencimento && Contains(a.mensagem, descricao) && !a.lido
  }

  /** A guard that holds keeps holding when more alerts are appended: the
      engine only adds alerts. */
  lemma GuardasPersistem(alertas: seq<Alerta>, extra: seq<Alerta>, tipo: TipoAlerta, descricao: string)
    ensures TemNaoLido(alertas, tipo) ==> TemNaoLido(alertas + extra, tipo)
    ensures TemVencimentoNaoLido(alertas, descricao) ==> TemVencimentoNaoLido(alertas + extra, descricao)
  {
    if TemNaoLido(alertas, tipo) {
      var a :| a in alertas && a.tipo == tipo && !a.lido;
      assert a in alertas + extra;
    }
    if TemVencimentoNaoLido(alertas, descricao) {
      var a :| a in alertas && a.tipo == Vencimento && Contains(a.mensagem, descricao) && !a.lido;
      assert a in alertas + extra;
    }
  }

  // ------------------------------------------------------------------
  // Messages

  function MensagemSaldo(saldo: real, fmt: Formatador): string {
    "Seu saldo está negativo: R$ " + fmt.moeda(saldo)
  }

  function MensagemVencimento(d: Transacao, fmt: Formatador): string {
    "Vencimento próximo: " + d.descricao + " - R$ " + fmt.moeda(d.valor) + " (" + fmt.data(d.data) + ")"
  }

  /** A due-date message names its expense, so the guard finds it again. */
  lemma MensagemVencimentoContem(d: Transacao, fmt: Formatador)
    ensures Contains(MensagemVencimento(d, fmt), d.descricao)
  {
    var p := "Vencimento próximo: ";
    var q := " - R$ " + fmt.moeda(d.valor) + " (" + fmt.data(d.data) + ")";
    assert MensagemVencimento(d, fmt) == p + d.descricao + q;
    ContainsMiddle(p, d.descricao, q);
  }

  function MensagemAumento(percentual: int): string {
    "Aumento significativo de gastos: " + IntToString(percentual) + "% em relação ao mês anterior"
  }

  /** `Math.round((atual / anterior - 1) * 100)`, rounding halves upwards; with
      the rule's guard the rise it reports is at least 20%. */
  function PercentualAumento(atual: real, anterior: real): (p: int)
    requires anterior > 0.0 && atual > anterior * 1.2
    ensures p as real - 0.5 <= (atual / anterior - 1.0) * 100.0 < p as real + 0.5
    ensures p >= 20
  {
    assert atual / anterior > 1.2 by {
      assert atual / anterior * anterior == atual;
    }
    ((atual / anterior - 1.0) * 100.0 + 0.5).Floor
  }

  // ------------------------------------------------------------------
  // The three rules

  /** The balance rule: one negative-balance alert, carrying the balance,
      exactly when the balance is negative and no unread one is stored. */
  function RegraSaldo(saldo: real, alertas: seq<Alerta>, fmt: Formatador): (r: seq<NovoAlerta>)
    ensures |r| <= 1
    ensures r != [] <==> saldo < 0.0 && !TemNaoLido(alertas, SaldoBaixo)
    ensures r != [] ==> r[0].tipo == SaldoBaixo && r[0].mensagem == MensagemSaldo(saldo, fmt)
  {
    if saldo < 0.0 && !TemNaoLido(alertas, SaldoBaixo) then [NovoAlerta(SaldoBaixo, MensagemSaldo(saldo, fmt))]
    else []
  }

  /** The expense falls due after today and at most three days from today:
      `data > hoje && data <= hoje + 3 dias`, compared as calendar days. Within
      one month that is the next three days of the month. */
  predicate VenceEmBreve(data: Date, hoje: Date)
    ensures data.year == hoje.year && data.month == hoje.month ==>
              (VenceEmBreve(data, hoje) <==> hoje.day < data.day <= hoje.day + 3)
  {
    DayNumber(hoje) < DayNumber(data) <= DayNumber(hoje) + 3
  }

  /** The three days run over the end of a month and of a year: on January 30
      the 1st of February is due soon, and on December 31 the 1st to the 3rd of
      January of the next year are, but the 4th is not. */
  lemma VenceEmBreveNaVirada(ano: int, dia: int)
    ensures VenceEmBreve(Date(ano, 1, 1), Date(ano, 0, 30))
    ensures 1 <= dia <= 3 ==> VenceEmBreve(Date(ano + 1, 0, dia), Date(ano, 11, 31))
    ensures !VenceEmBreve(Date(ano + 1, 0, 4), Date(ano, 11, 31))
  {
    // January and February count with the year before, so each pair of dates
    // shares its `era` and `yoe` and differs only in the day of the year.
    var y := ano - 1;
    var base := (y / 400) * 146097 + (y - (y / 400) * 400) * 365 + (y - (y / 400) * 400) / 4
                - (y - (y / 400) * 400) / 100 - 719468;
    assert DayNumber(Date(ano, 0, 30)) == base + 306 + 29;
    assert DayNumber(Date(ano, 1, 1)) == base + 337;
    var z := ano;
    var base' := (z / 400) * 146097 + (z - (z / 400) * 400) * 365 + (z - (z / 400) * 400) / 4
                 - (z - (z / 400) * 400) / 100 - 719468;
    assert DayNumber(Date(ano, 11, 31)) == base' + 275 + 30;
    assert DayNumber(Date(ano + 1, 0, dia)) == base' + 306 + dia - 1;
  }

  /** The expense gets a due-date alert: it falls due soon and no unread
      due-date alert names it. */
  predicate PedeVencimento(d: Transacao, hoje: Date, alertas: seq<Alerta>) {
    VenceEmBreve(d.data, hoje) && !TemVencimentoNaoLido(alertas, d.descricao)
  }

  /** The due-date rule over `ds`, in expense order. */
  function RegraVencimentos(ds: seq<Transacao>, hoje: Date, alertas: seq<Alerta>, fmt: Formatador)
    : (r: seq<NovoAlerta>)
    ensures |r| <= |ds|
    ensures forall i :: 0 <= i < |r| ==> r[i].tipo == Vencimento
  {
    if ds == [] then []
    else
      var d := ds[|ds| - 1];
      RegraVencimentos(ds[..|ds| - 1], hoje, alertas, fmt)
        + (if PedeVencimento(d, hoje, alertas) then [NovoAlerta(Vencimento, MensagemVencimento(d, fmt))] else [])
  }

  /** The due-date rule proposes exactly the messages of the expenses that ask
      for one. */
  lemma {:induction false} RegraVencimentosExata(ds: seq<Transacao>, hoje: Date, alertas: seq<Alerta>,
                                                 fmt: Formatador, n: NovoAlerta)
    ensures n in RegraVencimentos(ds, hoje, alertas, fmt) <==>
              exists d :: d in ds && PedeVencimento(d, hoje, alertas)
                          && n == NovoAlerta(Vencimento, MensagemVencimento(d, fmt))
  {
    if ds != [] {
      var init := ds[..|ds| - 1];
      var d := ds[|ds| - 1];
      assert ds == init + [d];
      RegraVencimentosExata(init, hoje, alertas, fmt, n);
      assert forall x :: x in ds <==> x in init || x == d;
    }
  }

  /** One more expense of the `forEach`. */
  lemma RegraVencimentosPasso(ds: seq<Transacao>, i: nat, hoje: Date, alertas: seq<Alerta>, fmt: Formatador)
    requires i < |ds|
    ensures RegraVencimentos(ds[..i + 1], hoje, alertas, fmt) ==
              RegraVencimentos(ds[..i], hoje, alertas, fmt)
                + (if PedeVencimento(ds[i], hoje, alertas) then [NovoAlerta(Vencimento, MensagemVencimento(ds[i], fmt))] else [])
  {
    assert ds[..i + 1][..i] == ds[..i];
  }

  /** When every expense due soon is already named by an unread alert, the
      rule proposes nothing. */
  lemma {:induction false} RegraVencimentosVazia(ds: seq<Transacao>, hoje: Date, alertas: seq<Alerta>,
                                                 fmt: Formatador)
    requires forall i :: 0 <= i < |ds| ==> !PedeVencimento(ds[i], hoje, alertas)
    ensures RegraVencimentos(ds, hoje, alertas, fmt) == []
  {
    if ds != [] {
      RegraVencimentosVazia(ds[..|ds| - 1], hoje, alertas, fmt);
    }
  }

  /** The expenses of the current month: the same figure the ledger reports as
      `calcularTotalDespesas('mes')`. */
  function TotalMesAtual(despesas: seq<Transacao>, hoje: Date): (r: real)
    ensures r == CalcularTotal(despesas, Mes, hoje)
  {
    TotalDoMes(despesas, hoje.year, hoje.month)
  }

  /** The expenses of the previous month: December of last year in January,
      otherwise the month before in the same year. */
  function TotalMesAnterior(despesas: seq<Transacao>, hoje: Date): (r: real)
    ensures hoje.month == 0 ==> r == SomaValores(KeepWhere(despesas, MesDe, (hoje.year - 1, 11)))
    ensures hoje.month > 0 ==> r == SomaValores(KeepWhere(despesas, MesDe, (hoje.year, hoje.month - 1)))
  {
    var ant := MesAnterior(hoje.year, hoje.month);
    TotalDoMes(despesas, ant.0, ant.1)
  }

  /** The month-over-month expenses grew by more than 20% over a month with
      expenses: then both months hold at least one expense. */
  predicate AumentoSignificativo(despesas: seq<Transacao>, hoje: Date)
    ensures AumentoSignificativo(despesas, hoje) ==>
              (exists t :: t in despesas && MesDe(t) == (hoje.year, hoje.month))
              && (exists t :: t in despesas && MesDe(t) == MesAnterior(hoje.year, hoje.month))
  {
    var ant := MesAnterior(hoje.year, hoje.month);
    TemAlgumaNoMes(despesas, hoje.year, hoje.month);
    TemAlgumaNoMes(despesas, ant.0, ant.1);
    TotalMesAnterior(despesas, hoje) > 0.0 && TotalMesAtual(despesas, hoje) > TotalMesAnterior(despesas, hoje) * 1.2
  }

  /** A month whose total is not zero has an expense in it. */
  lemma TemAlgumaNoMes(despesas: seq<Transacao>, ano: int, mes: Month)
    ensures TotalDoMes(despesas, ano, mes) != 0.0 ==> exists t :: t in despesas && MesDe(t) == (ano, mes)
  {
    var e := KeepWhere(despesas, MesDe, (ano, mes));
    if e != [] {
      KeepWhereMembers(despesas, MesDe, (ano, mes));
      assert e[0] in e;
    }
  }

  /** The cost-rise rule: one cost-rise alert exactly when the rise is
      significant and no unread one is stored. */
  function RegraAumento(despesas: seq<Transacao>, hoje: Date, alertas: seq<Alerta>): (r: seq<NovoAlerta>)
    ensures |r| <= 1
    ensures r != [] <==> AumentoSignificativo(despesas, hoje) && !TemNaoLido(alertas, AumentoCustos)
    ensures r != [] ==> r[0].tipo == AumentoCustos
    ensures r != [] ==> r[0].mensagem == MensagemAumento(PercentualAumento(TotalMesAtual(despesas, hoje),
                                                                          TotalMesAnterior(despesas, hoje)))
  {
    if AumentoSignificativo(despesas, hoje) && !TemNaoLido(alertas, AumentoCustos) then
      var p := PercentualAumento(TotalMesAtual(despesas, hoje), TotalMesAnterior(despesas, hoje));
      [NovoAlerta(AumentoCustos, MensagemAumento(p))]
    else []
  }

  /** `novosMensagens` of `gerarAlertasInteligentes`: the three rules in their
      fixed order. */
  function AlertasInteligentes(receitas: seq<Transacao>, despesas: seq<Transacao>, hoje: Date,
                               alertas: seq<Alerta>, fmt: Formatador): (r: seq<NovoAlerta>)
    ensures |r| <= |despesas| + 2
  {
    RegraSaldo(CalcularSaldoAtual(receitas, despesas), alertas, fmt)
      + RegraVencimentos(despesas, hoje, alertas, fmt)
      + RegraAumento(despesas, hoje, alertas)
  }

  /** The place of a kind of alert in the engine's output. */
  function Ordem(t: TipoAlerta): nat {
    match t
    case SaldoBaixo => 0
    case Vencimento => 1
    case AumentoCustos => 2
    case Outro => 3
  }

  /** Proposals of the three kinds, joined in rule order, are ordered. */
  lemma OrdemConcatenada(s: seq<NovoAlerta>, v: seq<NovoAlerta>, a: seq<NovoAlerta>)
    requires forall i :: 0 <= i < |s| ==> s[i].tipo == SaldoBaixo
    requires forall i :: 0 <= i < |v| ==> v[i].tipo == Vencimento
    requires forall i :: 0 <= i < |a| ==> a[i].tipo == AumentoCustos
    ensures forall i, j :: 0 <= i < j < |s + v + a| ==> Ordem((s + v + a)[i].tipo) <= Ordem((s + v + a)[j].tipo)
  {
    var r := s + v + a;
    forall i | 0 <= i < |r|
      ensures Ordem(r[i].tipo) == if i < |s| then 0 else if i < |s| + |v| then 1 else 2
    {
      if i < |s| {
        assert r[i] == s[i];
      } else if i < |s| + |v| {
        assert r[i] == v[i - |s|];
      } else {
        assert r[i] == a[i - |s| - |v|];
      }
    }
  }

  /** The proposals come in rule order: the balance alert, then the due dates,
      then the cost rise. */
  lemma OrdemDasRegras(receitas: seq<Transacao>, despesas: seq<Transacao>, hoje: Date,
                       alertas: seq<Alerta>, fmt: Formatador)
    ensures var r := AlertasInteligentes(receitas, despesas, hoje, alertas, fmt);
            forall i, j :: 0 <= i < j < |r| ==> Ordem(r[i].tipo) <= Ordem(r[j].tipo)
  {
    OrdemConcatenada(RegraSaldo(CalcularSaldoAtual(receitas, despesas), alertas, fmt),
                     RegraVencimentos(despesas, hoje, alertas, fmt),
                     RegraAumento(despesas, hoje, alertas));
  }

  /** The balance rule is exact: a negative-balance alert is proposed if and
      only if the balance is negative and no unread one exists. */
  lemma SaldoBaixoExato(receitas: seq<Transacao>, despesas: seq<Transacao>, hoje: Date,
                        alertas: seq<Alerta>, fmt: Formatador)
    ensures (exists n :: n in AlertasInteligentes(receitas, despesas, hoje, alertas, fmt) && n.tipo == SaldoBaixo)
            <==> CalcularSaldoAtual(receitas, despesas) < 0.0 && !TemNaoLido(alertas, SaldoBaixo)
  {
    var saldo := CalcularSaldoAtual(receitas, despesas);
    var s := RegraSaldo(saldo, alertas, fmt);
    var v := RegraVencimentos(despesas, hoje, alertas, fmt);
    var a := RegraAumento(despesas, hoje, alertas);
    var r := s + v + a;
    assert forall n :: n in r <==> n in s || n in v || n in a;
    if saldo < 0.0 && !TemNaoLido(alertas, SaldoBaixo) {
      assert s[0] in r;
    }
  }

  /** The cost-rise rule is exact: a cost-rise alert is proposed if and only if
      the previous month had expenses, this month's exceed them by more than
      20%, and no unread cost-rise alert exists. */
  lemma AumentoCustosExato(receitas: seq<Transacao>, despesas: seq<Transacao>, hoje: Date,
                           alertas: seq<Alerta>, fmt: Formatador)
    ensures (exists n :: n in AlertasInteligentes(receitas, despesas, hoje, alertas, fmt) && n.tipo == AumentoCustos)
            <==> AumentoSignificativo(despesas, hoje) && !TemNaoLido(alertas, AumentoCustos)
  {
    var saldo := CalcularSaldoAtual(receitas, despesas);
    var s := RegraSaldo(saldo, alertas, fmt);
    var v := RegraVencimentos(despesas, hoje, alertas, fmt);
    var a := RegraAumento(despesas, hoje, alertas);
    var r := s + v + a;
    assert forall n :: n in r <==> n in s || n in v || n in a;
    if AumentoSignificativo(despesas, hoje) && !TemNaoLido(alertas, AumentoCustos) {
      assert a[0] in r;
    }
  }

  /** The due-date part of the output: exactly one message for each expense
      that falls due in the next three days and is not yet named by an unread
      due-date alert; those in the current batch do not count. */
  lemma VencimentosExatos(receitas: seq<Transacao>, despesas: seq<Transacao>, hoje: Date,
                          alertas: seq<Alerta>, fmt: Formatador, d: Transacao)
    requires d in despesas
    ensures NovoAlerta(Vencimento, MensagemVencimento(d, fmt)) in AlertasInteligentes(receitas, despesas, hoje, alertas, fmt)
            <== VenceEmBreve(d.data, hoje) && !TemVencimentoNaoLido(alertas, d.descricao)
    ensures forall n :: n in AlertasInteligentes(receitas, despesas, hoje, alertas, fmt) && n.tipo == Vencimento ==>
              exists e :: e in despesas && PedeVencimento(e, hoje, alertas)
                          && n == NovoAlerta(Vencimento, MensagemVencimento(e, fmt))
  {
    var s := RegraSaldo(CalcularSaldoAtual(receitas, despesas), alertas, fmt);
    var v := RegraVencimentos(despesas, hoje, alertas, fmt);
    var a := RegraAumento(despesas, hoje, alertas);
    var r := s + v + a;
    assert forall n :: n in r <==> n in s || n in v || n in a;
    RegraVencimentosExata(despesas, hoje, alertas, fmt, NovoAlerta(Vencimento, MensagemVencimento(d, fmt)));
    forall n: NovoAlerta | n in r && n.tipo == Vencimento
      ensures exists e :: e in despesas && PedeVencimento(e, hoje, alertas)
                          && n == NovoAlerta(Vencimento, MensagemVencimento(e, fmt))
    {
      RegraVencimentosExata(despesas, hoje, alertas, fmt, n);
    }
  }

  // ------------------------------------------------------------------
  // Store operations on the list

  /** The alerts `adicionarAlerta` appends for `novas`, in order: the fresh id
      `ids[i]`, the creation timestamp, unread. */
  function Materializar(novas: seq<NovoAlerta>, ids: seq<Id>, agora: string): (r: seq<Alerta>)
    requires |ids| >= |novas|
    ensures |r| == |novas|
    ensures forall i :: 0 <= i < |novas| ==>
              r[i].tipo == novas[i].tipo && r[i].mensagem == novas[i].mensagem && !r[i].lido && r[i].id == ids[i]
  {
    seq(|novas|, i requires 0 <= i < |novas| => Alerta(ids[i], novas[i].tipo, novas[i].mensagem, agora, false))
  }

  function Lido(a: Alerta): Alerta { a.(lido := true) }

  /** `marcarComoLido(id)`: the alerts with that id become read, every other
      field and every other alert stay as they were. */
  function MarcarLido(alertas: seq<Alerta>, id: Id): (r: seq<Alerta>)
    ensures |r| == |alertas|
    ensures forall i :: 0 <= i < |r| ==>
              r[i] == if alertas[i].id == id then alertas[i].(lido := true) else alertas[i]
  {
    UpdateWhere(alertas, AlertaId, id, Lido)
  }

  /** `marcarTodosComoLidos`: same alerts, same order, all read. */
  function MarcarTodos(alertas: seq<Alerta>): (r: seq<Alerta>)
    ensures |r| == |alertas|
    ensures forall i :: 0 <= i < |r| ==> r[i] == alertas[i].(lido := true)
  {
    if alertas == [] then [] else MarcarTodos(alertas[..|alertas| - 1]) + [Lido(alertas[|alertas| - 1])]
  }

  /** After marking all as read, no guard holds any more: the next run proposes
      every alert its conditions call for. */
  lemma MarcarTodosLibera(alertas: seq<Alerta>)
    ensures forall t :: !TemNaoLido(MarcarTodos(alertas), t)
    ensures forall descricao :: !TemVencimentoNaoLido(MarcarTodos(alertas), descricao)
  {
    var r := MarcarTodos(alertas);
    assert forall a :: a in r ==> a.lido;
  }

  /** A negative balance raises an alert again once the old one was read. */
  lemma SaldoNegativoAposMarcarTodos(receitas: seq<Transacao>, despesas: seq<Transacao>, hoje: Date,
                                     alertas: seq<Alerta>, fmt: Formatador)
    requires CalcularSaldoAtual(receitas, despesas) < 0.0
    ensures var r := AlertasInteligentes(receitas, despesas, hoje, MarcarTodos(alertas), fmt);
            |r| > 0 && r[0] == NovoAlerta(SaldoBaixo, MensagemSaldo(CalcularSaldoAtual(receitas, despesas), fmt))
  {
    MarcarTodosLibera(alertas);
  }

  // ------------------------------------------------------------------
  // Running the engine twice

  /** An alert proposed by the engine and appended unread satisfies the guard
      of its own rule on the next run. */
  lemma MaterializarGuarda(novas: seq<NovoAlerta>, ids: seq<Id>, agora: string, velhos: seq<Alerta>, i: nat)
    requires |ids| >= |novas| && i < |novas|
    ensures var todos := velhos + Materializar(novas, ids, agora);
            && TemNaoLido(todos, novas[i].tipo)
            && (forall descricao :: novas[i].tipo == Vencimento && Contains(novas[i].mensagem, descricao) ==>
                  TemVencimentoNaoLido(todos, descricao))
  {
    var todos := velhos + Materializar(novas, ids, agora);
    assert todos[|velhos| + i] == Materializar(novas, ids, agora)[i];
    assert todos[|velhos| + i] in todos;
  }

  /** The balance rule finds its own alert on the second run. */
  lemma SegundoSaldoVazio(receitas: seq<Transacao>, despesas: seq<Transacao>, hoje: Date,
                          alertas: seq<Alerta>, fmt: Formatador, ids: seq<Id>, agora: string)
    requires |ids| >= |AlertasInteligentes(receitas, despesas, hoje, alertas, fmt)|
    ensures var novas := AlertasInteligentes(receitas, despesas, hoje, alertas, fmt);
            RegraSaldo(CalcularSaldoAtual(receitas, despesas), alertas + Materializar(novas, ids, agora), fmt) == []
  {
    var saldo := CalcularSaldoAtual(receitas, despesas);
    var novas := AlertasInteligentes(receitas, despesas, hoje, alertas, fmt);
    var todos := alertas + Materializar(novas, ids, agora);
    if saldo < 0.0 && !TemNaoLido(alertas, SaldoBaixo) {
      assert novas[0] == RegraSaldo(saldo, alertas, fmt)[0];
      MaterializarGuarda(novas, ids, agora, alertas, 0);
    } else if saldo < 0.0 {
      var x :| x in alertas && x.tipo == SaldoBaixo && !x.lido;
      assert x in todos;
    }
  }

  /** The place in the engine's output of the due-date alert of an expense
      that asks for one. */
  lemma VencimentoProposto(receitas: seq<Transacao>, despesas: seq<Transacao>, hoje: Date,
                           alertas: seq<Alerta>, fmt: Formatador, d: Transacao) returns (k: nat)
    requires d in despesas && PedeVencimento(d, hoje, alertas)
    ensures var novas := AlertasInteligentes(receitas, despesas, hoje, alertas, fmt);
            k < |novas| && novas[k] == NovoAlerta(Vencimento, MensagemVencimento(d, fmt))
  {
    var s := RegraSaldo(CalcularSaldoAtual(receitas, despesas), alertas, fmt);
    var v := RegraVencimentos(despesas, hoje, alertas, fmt);
    var n := NovoAlerta(Vencimento, MensagemVencimento(d, fmt));
    RegraVencimentosExata(despesas, hoje, alertas, fmt, n);
    var j :| 0 <= j < |v| && v[j] == n;
    k := |s| + j;
  }

  /** An expense due soon is named, on the second run, either by the old alert
      or by the one the first run added. */
  lemma VencimentoBloqueado(receitas: seq<Transacao>, despesas: seq<Transacao>, hoje: Date,
                            alertas: seq<Alerta>, fmt: Formatador, ids: seq<Id>, agora: string, d: Transacao)
    requires |ids| >= |AlertasInteligentes(receitas, despesas, hoje, alertas, fmt)|
    requires d in despesas
    ensures var novas := AlertasInteligentes(receitas, despesas, hoje, alertas, fmt);
            !PedeVencimento(d, hoje, alertas + Materializar(novas, ids, agora))
  {
    var novas := AlertasInteligentes(receitas, despesas, hoje, alertas, fmt);
    if PedeVencimento(d, hoje, alertas) {
      var k := VencimentoProposto(receitas, despesas, hoje, alertas, fmt, d);
      MensagemVencimentoContem(d, fmt);
      MaterializarGuarda(novas, ids, agora, alertas, k);
    } else {
      GuardasPersistem(alertas, Materializar(novas, ids, agora), Vencimento, d.descricao);
    }
  }

  /** The due-date rule finds, for each expense due soon, either the old
      alert or the one the first run added. */
  lemma SegundosVencimentosVazios(receitas: seq<Transacao>, despesas: seq<Transacao>, hoje: Date,
                                  alertas: seq<Alerta>, fmt: Formatador, ids: seq<Id>, agora: string)
    requires |ids| >= |AlertasInteligentes(receitas, despesas, hoje, alertas, fmt)|
    ensures var novas := AlertasInteligentes(receitas, despesas, hoje, alertas, fmt);
            RegraVencimentos(despesas, hoje, alertas + Materializar(novas, ids, agora), fmt) == []
  {
    var novas := AlertasInteligentes(receitas, despesas, hoje, alertas, fmt);
    var todos := alertas + Materializar(novas, ids, agora);
    forall i | 0 <= i < |despesas|
      ensures !PedeVencimento(despesas[i], hoje, todos)
    {
      VencimentoBloqueado(receitas, despesas, hoje, alertas, fmt, ids, agora, despesas[i]);
    }
    RegraVencimentosVazia(despesas, hoje, todos, fmt);
  }

  /** The cost-rise rule finds its own alert on the second run. */
  lemma SegundoAumentoVazio(receitas: seq<Transacao>, despesas: seq<Transacao>, hoje: Date,
                            alertas: seq<Alerta>, fmt: Formatador, ids: seq<Id>, agora: string)
    requires |ids| >= |AlertasInteligentes(receitas, despesas, hoje, alertas, fmt)|
    ensures var novas := AlertasInteligentes(receitas, despesas, hoje, alertas, fmt);
            RegraAumento(despesas, hoje, alertas + Materializar(novas, ids, agora)) == []
  {
    var s := RegraSaldo(CalcularSaldoAtual(receitas, despesas), alertas, fmt);
    var v := RegraVencimentos(despesas, hoje, alertas, fmt);
    var a := RegraAumento(despesas, hoje, alertas);
    var novas := AlertasInteligentes(receitas, despesas, hoje, alertas, fmt);
    var todos := alertas + Materializar(novas, ids, agora);
    if AumentoSignificativo(despesas, hoje) && !TemNaoLido(alertas, AumentoCustos) {
      assert novas == s + v + a;
      assert novas[|s| + |v|] == a[0];
      MaterializarGuarda(novas, ids, agora, alertas, |s| + |v|);
    } else if AumentoSignificativo(despesas, hoje) {
      var x :| x in alertas && x.tipo == AumentoCustos && !x.lido;
      assert x in todos;
    }
  }

  /** Running the engine again on its own output, with the same ledger and the
      same day, proposes nothing: each alert of the first run is unread and
      blocks its own rule. */
  lemma SegundaExecucaoVazia(receitas: seq<Transacao>, despesas: seq<Transacao>, hoje: Date,
                             alertas: seq<Alerta>, fmt: Formatador, ids: seq<Id>, agora: string)
    requires |ids| >= |AlertasInteligentes(receitas, despesas, hoje, alertas, fmt)|
    ensures var novas := AlertasInteligentes(receitas, despesas, hoje, alertas, fmt);
            AlertasInteligentes(receitas, despesas, hoje, alertas + Materializar(novas, ids, agora), fmt) == []
  {
    SegundoSaldoVazio(receitas, despesas, hoje, alertas, fmt, ids, agora);
    SegundosVencimentosVazios(receitas, despesas, hoje, alertas, fmt, ids, agora);
    SegundoAumentoVazio(receitas, despesas, hoje, alertas, fmt, ids, agora);
  }

  // ------------------------------------------------------------------
  // The engine as the source runs it

  /** The `forEach` over the expenses: pushes, after `novas0`, the due-date
      alert of each expense that falls due soon and is not yet named by an
      unread alert. */
  method EmpilharVencimentos(novas0: seq<NovoAlerta>, despesas: seq<Transacao>, hoje: Date,
                             alertas: seq<Alerta>, fmt: Formatador) returns (novas: seq<NovoAlerta>)
    ensures novas == novas0 + RegraVencimentos(despesas, hoje, alertas, fmt)
  {
    novas := novas0;
    for i := 0 to |despesas|
      invariant novas == novas0 + RegraVencimentos(despesas[..i], hoje, alertas, fmt)
    {
      var d := despesas[i];
      RegraVencimentosPasso(despesas, i, hoje, alertas, fmt);
      if VenceEmBreve(d.data, hoje) {
        if !TemVencimentoNaoLido(alertas, d.descricao) {
          novas := novas + [NovoAlerta(Vencimento, MensagemVencimento(d, fmt))];
        }
      }
    }
    assert despesas[..|despesas|] == despesas;
  }

  /** `gerarAlertasInteligentes` up to the appends: pushes into `novosMensagens`
      the balance alert, then the due-date alerts, then the cost-rise alert. */
  method NovasMensagens(receitas: seq<Transacao>, despesas: seq<Transacao>, hoje: Date,
                        alertas: seq<Alerta>, fmt: Formatador) returns (novas: seq<NovoAlerta>)
    ensures novas == AlertasInteligentes(receitas, despesas, hoje, alertas, fmt)
  {
    novas := [];
    var saldo := CalcularSaldoAtual(receitas, despesas);
    if saldo < 0.0 {
      if !TemNaoLido(alertas, SaldoBaixo) {
        novas := novas + [NovoAlerta(SaldoBaixo, MensagemSaldo(saldo, fmt))];
      }
    }
    assert novas == RegraSaldo(saldo, alertas, fmt);
    novas := EmpilharVencimentos(novas, despesas, hoje, alertas, fmt);
    var atual := TotalMesAtual(despesas, hoje);
    var anterior := TotalMesAnterior(despesas, hoje);
    var aumento: seq<NovoAlerta> := [];
    if anterior > 0.0 && atual > anterior * 1.2 {
      var p := PercentualAumento(atual, anterior);
      if !TemNaoLido(alertas, AumentoCustos) {
        aumento := [NovoAlerta(AumentoCustos, MensagemAumento(p))];
      }
    }
    assert aumento == RegraAumento(despesas, hoje, alertas);
    novas := novas + aumento;
  }

  // ------------------------------------------------------------------
  // The store

  class AlertasStore {
    var alertas: seq<Alerta>

    constructor ()
      ensures alertas == []
    {
      alertas := [];
    }

    /** `adicionarAlerta`: appends one unread alert with the fresh id and the
        creation timestamp. */
    method AdicionarAlerta(nova: NovoAlerta, id: Id, agora: string)
      requires id !in Keys(alertas, AlertaId)
      modifies this
      ensures alertas == old(alertas) + [Alerta(id, nova.tipo, nova.mensagem, agora, false)]
    {
      alertas := alertas + [Alerta(id, nova.tipo, nova.mensagem, agora, false)];
    }

    method MarcarComoLido(id: Id)
      modifies this
      ensures alertas == MarcarLido(old(alertas), id)
    {
      alertas := MarcarLido(alertas, id);
    }

    method MarcarTodosComoLidos()
      modifies this
      ensures alertas == MarcarTodos(old(alertas))
    {
      alertas := MarcarTodos(alertas);
    }

    method RemoverAlerta(id: Id)
      modifies this
      ensures alertas == RemoveWhere(old(alertas), AlertaId, id)
    {
      alertas := RemoveWhere(alertas, AlertaId, id);
    }

    /** `removerTodosAlertas`: empties the list once the user confirms. */
    method RemoverTodosAlertas(confirmado: bool)
      modifies this
      ensures confirmado ==> alertas == []
      ensures !confirmado ==> alertas == old(alertas)
    {
      if confirmado {
        alertas := [];
      }
    }

    /** `gerarAlertasInteligentes`: evaluates the rules against the ledger and
        the current alerts, then appends each proposal in order through
        `AdicionarAlerta`, with the fresh ids `ids`. */
    method GerarAlertasInteligentes(dados: DadosStore, hoje: Date, fmt: Formatador, ids: seq<Id>, agora: string)
      requires |ids| >= |dados.despesas| + 2 && Distinct(ids)
      requires forall i :: 0 <= i < |ids| ==> ids[i] !in Keys(alertas, AlertaId)
      modifies this
      ensures var novas := AlertasInteligentes(dados.receitas, dados.despesas, hoje, old(alertas), fmt);
              alertas == old(alertas) + Materializar(novas, ids, agora)
    {
      var novas := NovasMensagens(dados.receitas, dados.despesas, hoje, alertas, fmt);
      ghost var velhos := alertas;
      assert |novas| <= |ids|;
      for i := 0 to |novas|
        invariant alertas == velhos + Materializar(novas[..i], ids, agora)
      {
        assert ids[i] !in Keys(velhos, AlertaId);
        AdicionarIdsFrescos(velhos, novas[..i], ids, agora, i);
        AdicionarAlerta(novas[i], ids[i], agora);
        MaterializarPasso(novas, ids, agora, i);
      }
      assert novas[..|novas|] == novas;
    }
  }

  /** One more append of the final `forEach`. */
  lemma MaterializarPasso(novas: seq<NovoAlerta>, ids: seq<Id>, agora: string, i: nat)
    requires i < |novas| <= |ids|
    ensures Materializar(novas[..i + 1], ids, agora)
            == Materializar(novas[..i], ids, agora) + [Alerta(ids[i], novas[i].tipo, novas[i].mensagem, agora, false)]
  {
  }

  /** The id `ids[i]` is still unused after the first `i` proposals were added
      with `ids[..i]`. */
  lemma AdicionarIdsFrescos(velhos: seq<Alerta>, feitas: seq<NovoAlerta>, ids: seq<Id>, agora: string, i: nat)
    requires |feitas| == i < |ids| && Distinct(ids)
    requires ids[i] !in Keys(velhos, AlertaId)
    ensures ids[i] !in Keys(velhos + Materializar(feitas, ids, agora), AlertaId)
  {
    var m := Materializar(feitas, ids, agora);
    forall a | a in velhos + m
      ensures a.id != ids[i]
    {
      if a !in velhos {
        var j :| 0 <= j < |m| && m[j] == a;
      }
    }
  }
}
