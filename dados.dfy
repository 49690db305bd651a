/** The ledger store (`DadosContext`): incomes (`receitas`), expenses
    (`despesas`) and expense categories (`categorias`); the queries the pages and
    the alert engine ask of them (balance, totals per period, the per-category
    rollup, the monthly series of the evolution chart); and `DadosStore`, whose
    mutators replace those three lists. */
module Dados {
  import opened Records
  import opened Calendar

  /** An income or an expense; `tipo` and `categoria` are used by expenses only. */
  datatype Transacao = Transacao(id: Id, valor: real, data: Date, descricao: string,
                                 tipo: Option<string>, categoria: Option<Id>)

  /** `Omit<Transacao, 'id'>`, the argument of `adicionarReceita`/`adicionarDespesa`;
      `data` is `None` when the caller left the date empty. */
  datatype TransacaoNova = TransacaoNova(valor: real, data: Option<Date>, descricao: string,
                                         tipo: Option<string>, categoria: Option<Id>)

  /** `Partial<Transacao>`: each present field overrides the old one; for the
      optional fields `Some(None)` is a field present with the value `undefined`. */
  datatype TransacaoParcial = TransacaoParcial(id: Option<Id>, valor: Option<real>, data: Option<Date>,
                                               descricao: Option<string>, tipo: Option<Option<string>>,
                                               categoria: Option<Option<Id>>)

  datatype CategoriaDespesa = CategoriaDespesa(id: Id, nome: string, cor: string)

  /** `Omit<CategoriaDespesa, 'id'>`; an empty `cor` picks a colour from the palette. */
  datatype CategoriaNova = CategoriaNova(nome: string, cor: string)

  datatype CategoriaParcial = CategoriaParcial(id: Option<Id>, nome: Option<string>, cor: Option<string>)

  /** The optional `periodo` argument of the totals: absent, `'mes'` or `'ano'`. */
  datatype Periodo = Todos | Mes | Ano

  /** One entry of `calcularDespesasPorCategoria`. */
  datatype ItemCategoria = ItemCategoria(categoria: string, valor: real, cor: string)

  /** The dictionary `despesasPorCategoria`: its keys in insertion order (the
      order `Object.entries` lists them) and the sum held under each key. */
  datatype Grupos = Grupos(chaves: seq<Id>, somas: map<Id, real>)

  /** A parsed import payload; a top-level key that is missing (or holds a falsy
      value) is `None`. */
  datatype Snapshot = Snapshot(receitas: Option<seq<Transacao>>, despesas: Option<seq<Transacao>>,
                               categorias: Option<seq<CategoriaDespesa>>)

  const CoresCategorias: seq<string> :=
    ["#3B82F6", "#10B981", "#F59E0B", "#EF4444", "#8B5CF6",
     "#EC4899", "#14B8A6", "#6366F1", "#D946EF", "#F97316"]

  /** The names of the categories `limparTodosDados` restores, with the first
      seven colours of the palette. */
  const NomesCategoriasIniciais: seq<string> :=
    ["Alimentação", "Transporte", "Moradia", "Saúde", "Educação", "Lazer", "Outros"]

  const SemCategoriaChave: Id := "sem-categoria"
  const SemCategoriaNome: string := "Sem Categoria"
  const SemCategoriaCor: string := "#CCCCCC"

  function TransacaoId(t: Transacao): Id { t.id }
  function CategoriaId(c: CategoriaDespesa): Id { c.id }
  function CategoriaDe(t: Transacao): Option<Id> { t.categoria }
  function AnoDe(t: Transacao): int { t.data.year }
  function MesDe(t: Transacao): (int, Month) { (t.data.year, t.data.month) }

  // ------------------------------------------------------------------
  // Records built and changed by the mutators

  function CriarTransacao(nova: TransacaoNova, id: Id, hoje: Date): Transacao {
    Transacao(id, nova.valor, nova.data.GetOr(hoje), nova.descricao, nova.tipo, nova.categoria)
  }

  function CriarCategoria(nova: CategoriaNova, id: Id, quantidade: nat): CategoriaDespesa {
    var cor := if nova.cor != "" then nova.cor else CoresCategorias[quantidade % |CoresCategorias|];
    CategoriaDespesa(id, nova.nome, cor)
  }

  /** `{ ...t, ...p }` */
  function MesclarTransacao(t: Transacao, p: TransacaoParcial): Transacao {
    Transacao(p.id.GetOr(t.id), p.valor.GetOr(t.valor), p.data.GetOr(t.data),
              p.descricao.GetOr(t.descricao), p.tipo.GetOr(t.tipo), p.categoria.GetOr(t.categoria))
  }

  /** `{ ...c, ...p }` */
  function MesclarCategoria(c: CategoriaDespesa, p: CategoriaParcial): CategoriaDespesa {
    CategoriaDespesa(p.id.GetOr(c.id), p.nome.GetOr(c.nome), p.cor.GetOr(c.cor))
  }

  /** `editarReceita`/`editarDespesa` on a list: the patch is merged into every
      record with the given id and into no other; an unknown id changes nothing. */
  function EditarTransacoes(s: seq<Transacao>, id: Id, p: TransacaoParcial): (r: seq<Transacao>)
    ensures |r| == |s|
    ensures forall i :: 0 <= i < |s| ==> r[i] == if s[i].id == id then MesclarTransacao(s[i], p) else s[i]
    ensures (forall t :: t in s ==> t.id != id) ==> r == s
  {
    UpdateWhere(s, TransacaoId, id, t => MesclarTransacao(t, p))
  }

  /** `editarCategoria` on the category list. */
  function EditarCategorias(s: seq<CategoriaDespesa>, id: Id, p: CategoriaParcial): (r: seq<CategoriaDespesa>)
    ensures |r| == |s|
    ensures forall i :: 0 <= i < |s| ==> r[i] == if s[i].id == id then MesclarCategoria(s[i], p) else s[i]
    ensures (forall c :: c in s ==> c.id != id) ==> r == s
  {
    UpdateWhere(s, CategoriaId, id, c => MesclarCategoria(c, p))
  }

  /** Some expense points at category `id`. */
  predicate UsaCategoria(despesas: seq<Transacao>, id: Id) {
    exists t :: t in despesas && t.categoria == Some(id)
  }

  function SemCategoria(t: Transacao): Transacao { t.(categoria := None) }

  /** The expense side of `removerCategoria`: afterwards no expense points at
      `id`; the expenses that pointed at it lose their category and keep every
      other field; all other expenses are untouched. */
  function DesvincularCategoria(despesas: seq<Transacao>, id: Id): (r: seq<Transacao>)
    ensures |r| == |despesas|
    ensures !UsaCategoria(r, id)
    ensures forall i :: 0 <= i < |despesas| ==>
              r[i] == if despesas[i].categoria == Some(id) then despesas[i].(categoria := None) else despesas[i]
    ensures !UsaCategoria(despesas, id) ==> r == despesas
  {
    UpdateWhere(despesas, CategoriaDe, Some(id), SemCategoria)
  }

  /** The seven categories restored by `limparTodosDados`, with fresh ids. */
  function CategoriasIniciais(ids: seq<Id>): (r: seq<CategoriaDespesa>)
    requires |ids| == |NomesCategoriasIniciais|
  {
    seq(|ids|, i requires 0 <= i < |ids| =>
      CategoriaDespesa(ids[i], NomesCategoriasIniciais[i], CoresCategorias[i]))
  }

  // ------------------------------------------------------------------
  // Balance

  /** `list.reduce((total, t) => total + t.valor, 0)` */
  function SomaValores(s: seq<Transacao>): real {
    if s == [] then 0.0 else SomaValores(s[..|s| - 1]) + s[|s| - 1].valor
  }

  lemma SomaValoresSnoc(s: seq<Transacao>, t: Transacao)
    ensures SomaValores(s + [t]) == SomaValores(s) + t.valor
  {
    assert (s + [t])[..|s|] == s;
  }

  /** The sum of a list split in two is the sum of the parts. */
  lemma {:induction false} SomaValoresAppend(a: seq<Transacao>, b: seq<Transacao>)
    ensures SomaValores(a + b) == SomaValores(a) + SomaValores(b)
    decreases |b|
  {
    if b == [] {
      assert a + b == a;
    } else {
      var init := b[..|b| - 1];
      assert a + b == (a + init) + [b[|b| - 1]];
      SomaValoresSnoc(a + init, b[|b| - 1]);
      SomaValoresAppend(a, init);
    }
  }

  /** Splitting a list by a key splits its sum. */
  lemma {:induction false} SomaParticao<K>(s: seq<Transacao>, key: Transacao -> K, k: K)
    ensures SomaValores(KeepWhere(s, key, k)) + SomaValores(RemoveWhere(s, key, k)) == SomaValores(s)
  {
    if s != [] {
      var init := s[..|s| - 1];
      var last := s[|s| - 1];
      assert s == init + [last];
      SomaParticao(init, key, k);
      KeepWhereSnoc(init, last, key, k);
      RemoveWhereSnoc(init, last, key, k);
      if key(last) == k {
        SomaValoresSnoc(KeepWhere(init, key, k), last);
        assert RemoveWhere(init, key, k) + [] == RemoveWhere(init, key, k);
      } else {
        SomaValoresSnoc(RemoveWhere(init, key, k), last);
        assert KeepWhere(init, key, k) + [] == KeepWhere(init, key, k);
      }
    }
  }

  /** A list of amounts that are not negative has a sum that is not negative. */
  lemma {:induction false} SomaValoresNaoNegativa(s: seq<Transacao>)
    ensures (forall t :: t in s ==> t.valor >= 0.0) ==> SomaValores(s) >= 0.0
  {
    if s != [] {
      assert s[|s| - 1] in s;
      assert forall t :: t in s[..|s| - 1] ==> t in s;
      SomaValoresNaoNegativa(s[..|s| - 1]);
    }
  }

  /** `calcularSaldoAtual`: the incomes less the expenses. It is negative
      exactly when the expenses outweigh the incomes, and with expenses that are
      not negative it never exceeds the incomes. */
  function CalcularSaldoAtual(receitas: seq<Transacao>, despesas: seq<Transacao>): (r: real)
    ensures r < 0.0 <==> SomaValores(despesas) > SomaValores(receitas)
    ensures (forall t :: t in despesas ==> t.valor >= 0.0) ==> r <= SomaValores(receitas)
  {
    SomaValoresNaoNegativa(despesas);
    SomaValores(receitas) - SomaValores(despesas)
  }

  /** Adding an income raises the balance by its amount; adding an expense
      lowers it by its amount. */
  lemma SaldoAposAdicionar(receitas: seq<Transacao>, despesas: seq<Transacao>, t: Transacao)
    ensures CalcularSaldoAtual(receitas + [t], despesas) == CalcularSaldoAtual(receitas, despesas) + t.valor
    ensures CalcularSaldoAtual(receitas, despesas + [t]) == CalcularSaldoAtual(receitas, despesas) - t.valor
  {
    SomaValoresSnoc(receitas, t);
    SomaValoresSnoc(despesas, t);
  }

  /** Removing the incomes (expenses) with id `id` lowers (raises) the balance by
      exactly their amounts. */
  lemma SaldoAposRemover(receitas: seq<Transacao>, despesas: seq<Transacao>, id: Id)
    ensures CalcularSaldoAtual(RemoveWhere(receitas, TransacaoId, id), despesas)
            == CalcularSaldoAtual(receitas, despesas) - SomaValores(KeepWhere(receitas, TransacaoId, id))
    ensures CalcularSaldoAtual(receitas, RemoveWhere(despesas, TransacaoId, id))
            == CalcularSaldoAtual(receitas, despesas) + SomaValores(KeepWhere(despesas, TransacaoId, id))
  {
    SomaParticao(receitas, TransacaoId, id);
    SomaParticao(despesas, TransacaoId, id);
  }

  // ------------------------------------------------------------------
  // Totals per period

  /** The date test of the totals: `'mes'` needs today's year and month, `'ano'`
      today's year. */
  predicate NoPeriodo(d: Date, p: Periodo, hoje: Date) {
    match p
    case Todos => true
    case Mes => d.year == hoje.year && d.month == hoje.month
    case Ano => d.year == hoje.year
  }

  /** The `reduce` with a date test inside `calcularTotalReceitas`/`calcularTotalDespesas`. */
  function SomaNoPeriodo(s: seq<Transacao>, p: Periodo, hoje: Date): real {
    if s == [] then 0.0
    else
      var last := s[|s| - 1];
      SomaNoPeriodo(s[..|s| - 1], p, hoje) + (if NoPeriodo(last.data, p, hoje) then last.valor else 0.0)
  }

  /** The `filter` that opens `calcularDespesasPorCategoria`. */
  function FiltrarPeriodo(s: seq<Transacao>, p: Periodo, hoje: Date): (r: seq<Transacao>)
    ensures forall t :: t in r <==> t in s && NoPeriodo(t.data, p, hoje)
  {
    KeepWhereMembers(s, MesDe, (hoje.year, hoje.month));
    KeepWhereMembers(s, AnoDe, hoje.year);
    match p
    case Todos => s
    case Mes => KeepWhere(s, MesDe, (hoje.year, hoje.month))
    case Ano => KeepWhere(s, AnoDe, hoje.year)
  }

  /** The total of one month (`filter` on month and year, then `reduce`). */
  function TotalDoMes(s: seq<Transacao>, ano: int, mes: Month): real {
    SomaValores(KeepWhere(s, MesDe, (ano, mes)))
  }

  lemma TotalDoMesSnoc(s: seq<Transacao>, t: Transacao, ano: int, mes: Month)
    ensures TotalDoMes(s + [t], ano, mes)
            == TotalDoMes(s, ano, mes) + (if MesDe(t) == (ano, mes) then t.valor else 0.0)
  {
    KeepWhereSnoc(s, t, MesDe, (ano, mes));
    if MesDe(t) == (ano, mes) {
      SomaValoresSnoc(KeepWhere(s, MesDe, (ano, mes)), t);
    } else {
      assert KeepWhere(s, MesDe, (ano, mes)) + [] == KeepWhere(s, MesDe, (ano, mes));
    }
  }

  /** The conditional `reduce` over a period is the sum of the records whose
      key is `k`, when the period's date test and the key test agree. */
  lemma {:induction false} SomaNoPeriodoPorChave<K>(s: seq<Transacao>, p: Periodo, hoje: Date,
                                                     key: Transacao -> K, k: K)
    requires forall t: Transacao :: NoPeriodo(t.data, p, hoje) <==> key(t) == k
    ensures SomaNoPeriodo(s, p, hoje) == SomaValores(KeepWhere(s, key, k))
  {
    if s != [] {
      var init := s[..|s| - 1];
      var last := s[|s| - 1];
      SomaNoPeriodoPorChave(init, p, hoje, key, k);
      if key(last) == k {
        SomaValoresSnoc(KeepWhere(init, key, k), last);
      } else {
        assert KeepWhere(s, key, k) == KeepWhere(init, key, k);
      }
    }
  }

  /** The conditional `reduce` and the `filter` of the rollup select the same
      records: the conditional sum is the sum of the filtered list. */
  lemma SomaNoPeriodoFiltrada(s: seq<Transacao>, p: Periodo, hoje: Date)
    requires p != Todos
    ensures SomaNoPeriodo(s, p, hoje) == SomaValores(FiltrarPeriodo(s, p, hoje))
  {
    match p
    case Mes => SomaNoPeriodoPorChave(s, p, hoje, MesDe, (hoje.year, hoje.month));
    case Ano => SomaNoPeriodoPorChave(s, p, hoje, AnoDe, hoje.year);
  }

  /** `calcularTotalReceitas(periodo)` / `calcularTotalDespesas(periodo)` on the
      corresponding list: the sum of the records of the period, the same
      records the rollup's `filter` keeps. */
  function CalcularTotal(s: seq<Transacao>, p: Periodo, hoje: Date): (r: real)
    ensures r == SomaValores(FiltrarPeriodo(s, p, hoje))
  {
    if p == Todos then SomaValores(s)
    else
      SomaNoPeriodoFiltrada(s, p, hoje);
      SomaNoPeriodo(s, p, hoje)
  }

  /** With amounts that are not negative, the month total is at most the year
      total, which is at most the total of the whole list. */
  lemma {:induction false} TotaisPorPeriodo(s: seq<Transacao>, hoje: Date)
    requires forall t :: t in s ==> t.valor >= 0.0
    ensures CalcularTotal(s, Mes, hoje) <= CalcularTotal(s, Ano, hoje) <= CalcularTotal(s, Todos, hoje)
  {
    SomasPorPeriodo(s, hoje);
  }

  lemma {:induction false} SomasPorPeriodo(s: seq<Transacao>, hoje: Date)
    requires forall t :: t in s ==> t.valor >= 0.0
    ensures SomaNoPeriodo(s, Mes, hoje) <= SomaNoPeriodo(s, Ano, hoje) <= SomaValores(s)
  {
    if s != [] {
      var init := s[..|s| - 1];
      assert forall t :: t in init ==> t in s;
      SomasPorPeriodo(init, hoje);
      assert s[|s| - 1] in s;
    }
  }

  // ------------------------------------------------------------------
  // Expenses per category

  /** `despesa.categoria || 'sem-categoria'`: the dictionary key of an expense.
      It is never empty, a category id that is not empty is itself the key,
      and an expense falls under 'sem-categoria' when its
      category is missing, empty, or that very text. */
  function ChaveCategoria(t: Transacao): (k: Id)
    ensures k != ""
    ensures t.categoria.Some? && t.categoria.value != "" ==> k == t.categoria.value
    ensures k == SemCategoriaChave <==> t.categoria.None? || t.categoria.value in {"", SemCategoriaChave}
  {
    if t.categoria.Some? && t.categoria.value != "" then t.categoria.value else SemCategoriaChave
  }

  /** One step of the `forEach` that fills `despesasPorCategoria`. */
  function Acumular(g: Grupos, t: Transacao): Grupos {
    var k := ChaveCategoria(t);
    if k in g.somas then Grupos(g.chaves, g.somas[k := g.somas[k] + t.valor])
    else Grupos(g.chaves + [k], g.somas[k := t.valor])
  }

  /** The dictionary after the `forEach` over `ds`: each key once, exactly the
      keys of the expenses, each holding the sum of the expenses with that key. */
  function Agrupar(ds: seq<Transacao>): (g: Grupos)
    ensures Distinct(g.chaves)
    ensures forall k :: k in g.chaves <==> k in g.somas
    ensures g.somas.Keys == Keys(ds, ChaveCategoria)
    ensures forall k :: k in g.somas ==> g.somas[k] == SomaValores(KeepWhere(ds, ChaveCategoria, k))
  {
    if ds == [] then Grupos([], map[])
    else
      var init := ds[..|ds| - 1];
      var last := ds[|ds| - 1];
      var g := Agrupar(init);
      assert ds == init + [last];
      AgruparPassoChaves(init, last, g);
      AgruparPassoSomas(init, last, g);
      Acumular(g, last)
  }

  /** The step of `Agrupar` on its keys: a new key goes at the end, once. */
  lemma AgruparPassoChaves(init: seq<Transacao>, last: Transacao, g: Grupos)
    requires Distinct(g.chaves)
    requires forall k :: k in g.chaves <==> k in g.somas
    requires g.somas.Keys == Keys(init, ChaveCategoria)
    ensures ChaveCategoria(last) !in g.somas ==> Acumular(g, last).chaves == g.chaves + [ChaveCategoria(last)]
    ensures ChaveCategoria(last) in g.somas ==> Acumular(g, last).chaves == g.chaves
    ensures var g' := Acumular(g, last);
            && Distinct(g'.chaves)
            && (forall k :: k in g'.chaves <==> k in g'.somas)
            && g'.somas.Keys == Keys(init + [last], ChaveCategoria)
  {
    var key := ChaveCategoria(last);
    var ds := init + [last];
    assert forall x :: x in ds <==> x in init || x == last;
    assert Keys(ds, ChaveCategoria) == Keys(init, ChaveCategoria) + {key};
  }

  /** The step of `Agrupar` on its sums: only the sum under the key of the new
      expense grows, by its amount. */
  lemma AgruparPassoSomas(init: seq<Transacao>, last: Transacao, g: Grupos)
    requires g.somas.Keys == Keys(init, ChaveCategoria)
    requires forall k :: k in g.somas ==> g.somas[k] == SomaValores(KeepWhere(init, ChaveCategoria, k))
    ensures var g' := Acumular(g, last);
            forall k :: k in g'.somas ==> g'.somas[k] == SomaValores(KeepWhere(init + [last], ChaveCategoria, k))
  {
    var g' := Acumular(g, last);
    var key := ChaveCategoria(last);
    forall k | k in g'.somas
      ensures g'.somas[k] == SomaValores(KeepWhere(init + [last], ChaveCategoria, k))
    {
      KeepWhereSnoc(init, last, ChaveCategoria, k);
      if k == key {
        var e := KeepWhere(init, ChaveCategoria, key);
        if key !in g.somas {
          assert forall i :: 0 <= i < |init| ==> ChaveCategoria(init[i]) in Keys(init, ChaveCategoria);
          KeepWhereNone(init, ChaveCategoria, key);
        }
        SomaValoresSnoc(e, last);
      } else {
        assert KeepWhere(init, ChaveCategoria, k) + [] == KeepWhere(init, ChaveCategoria, k);
      }
    }
  }

  /** The sum of the values stored under the keys `ks`. */
  function SomaMapa(ks: seq<Id>, m: map<Id, real>): real
    requires forall k :: k in ks ==> k in m
  {
    if ks == [] then 0.0 else SomaMapa(ks[..|ks| - 1], m) + m[ks[|ks| - 1]]
  }

  lemma {:induction false} SomaMapaIgnora(ks: seq<Id>, m: map<Id, real>, k: Id, v: real)
    requires forall x :: x in ks ==> x in m
    requires k !in ks
    ensures SomaMapa(ks, m[k := v]) == SomaMapa(ks, m)
  {
    if ks != [] {
      SomaMapaIgnora(ks[..|ks| - 1], m, k, v);
    }
  }

  lemma {:induction false} SomaMapaSoma(ks: seq<Id>, m: map<Id, real>, k: Id, v: real)
    requires forall x :: x in ks ==> x in m
    requires Distinct(ks) && k in ks
    ensures SomaMapa(ks, m[k := m[k] + v]) == SomaMapa(ks, m) + v
  {
    var init := ks[..|ks| - 1];
    if ks[|ks| - 1] == k {
      assert k !in init;
      SomaMapaIgnora(init, m, k, m[k] + v);
    } else {
      assert k in init;
      SomaMapaSoma(init, m, k, v);
    }
  }

  /** One step of the `forEach` adds the amount of the expense to the total
      of the dictionary. */
  lemma AcumularSoma(g: Grupos, t: Transacao)
    requires Distinct(g.chaves)
    requires forall k :: k in g.chaves <==> k in g.somas
    ensures var g' := Acumular(g, t);
            (forall k :: k in g'.chaves ==> k in g'.somas)
            && SomaMapa(g'.chaves, g'.somas) == SomaMapa(g.chaves, g.somas) + t.valor
  {
    var k := ChaveCategoria(t);
    if k in g.somas {
      SomaMapaSoma(g.chaves, g.somas, k, t.valor);
    } else {
      SomaMapaIgnora(g.chaves, g.somas, k, t.valor);
      var ks := g.chaves + [k];
      assert ks[..|ks| - 1] == g.chaves;
    }
  }

  /** Grouping neither loses nor duplicates an amount: the sums over the keys
      add up to the sum of the expenses. */
  lemma {:induction false} AgruparTotal(ds: seq<Transacao>)
    ensures SomaMapa(Agrupar(ds).chaves, Agrupar(ds).somas) == SomaValores(ds)
  {
    if ds != [] {
      var init := ds[..|ds| - 1];
      var last := ds[|ds| - 1];
      AgruparTotal(init);
      AcumularSoma(Agrupar(init), last);
    }
  }

  /** An entry of the result: the name and colour of the first category whose
      id is the key, or 'Sem Categoria' and '#CCCCCC' when there is none. */
  function Rotulo(k: Id, valor: real, categorias: seq<CategoriaDespesa>): (item: ItemCategoria)
    ensures item.valor == valor
    ensures (forall c :: c in categorias ==> c.id != k) ==>
              item.categoria == SemCategoriaNome && item.cor == SemCategoriaCor
    ensures (exists c :: c in categorias && c.id == k) ==>
              exists i :: 0 <= i < |categorias| && categorias[i].id == k
                          && (forall j :: 0 <= j < i ==> categorias[j].id != k)
                          && item.categoria == categorias[i].nome && item.cor == categorias[i].cor
  {
    match FindWhere(categorias, CategoriaId, k)
    case Some(c) => ItemCategoria(c.nome, valor, c.cor)
    case None => ItemCategoria(SemCategoriaNome, valor, SemCategoriaCor)
  }

  /** `Object.entries(...).map(...)`: one entry per key, in key order. */
  function Rotular(ks: seq<Id>, somas: map<Id, real>, categorias: seq<CategoriaDespesa>): (r: seq<ItemCategoria>)
    requires forall k :: k in ks ==> k in somas
    ensures |r| == |ks|
    ensures forall i :: 0 <= i < |ks| ==> r[i] == Rotulo(ks[i], somas[ks[i]], categorias)
  {
    if ks == [] then []
    else
      var k := ks[|ks| - 1];
      Rotular(ks[..|ks| - 1], somas, categorias) + [Rotulo(k, somas[k], categorias)]
  }

  /** The sum of the values of the entries. */
  function SomaItens(r: seq<ItemCategoria>): real {
    if r == [] then 0.0 else SomaItens(r[..|r| - 1]) + r[|r| - 1].valor
  }

  lemma {:induction false} SomaRotulada(ks: seq<Id>, somas: map<Id, real>, categorias: seq<CategoriaDespesa>)
    requires forall k :: k in ks ==> k in somas
    ensures SomaItens(Rotular(ks, somas, categorias)) == SomaMapa(ks, somas)
  {
    if ks != [] {
      var r := Rotular(ks, somas, categorias);
      assert r[..|r| - 1] == Rotular(ks[..|ks| - 1], somas, categorias);
      SomaRotulada(ks[..|ks| - 1], somas, categorias);
    }
  }

  /** `calcularDespesasPorCategoria(periodo)` as a value. */
  function DespesasPorCategoria(despesas: seq<Transacao>, categorias: seq<CategoriaDespesa>,
                                p: Periodo, hoje: Date): seq<ItemCategoria>
  {
    var g := Agrupar(FiltrarPeriodo(despesas, p, hoje));
    Rotular(g.chaves, g.somas, categorias)
  }

  /** The rollup splits the period's expense total among its entries: their
      values add up to `calcularTotalDespesas(periodo)`. */
  lemma DespesasPorCategoriaSomaTotal(despesas: seq<Transacao>, categorias: seq<CategoriaDespesa>,
                                      p: Periodo, hoje: Date)
    ensures SomaItens(DespesasPorCategoria(despesas, categorias, p, hoje)) == CalcularTotal(despesas, p, hoje)
  {
    var f := FiltrarPeriodo(despesas, p, hoje);
    var g := Agrupar(f);
    SomaRotulada(g.chaves, g.somas, categorias);
    AgruparTotal(f);
  }

  /** The key of every grouped expense is among the dictionary's keys. */
  lemma ChaveAgrupada(ds: seq<Transacao>, t: Transacao)
    requires t in ds
    ensures ChaveCategoria(t) in Agrupar(ds).chaves
  {
    assert ChaveCategoria(t) in Keys(ds, ChaveCategoria);
  }

  /** A key that names no category is labelled 'Sem Categoria'. */
  lemma RotularSemCategoria(ks: seq<Id>, somas: map<Id, real>, categorias: seq<CategoriaDespesa>, k: Id)
    returns (i: nat)
    requires forall x :: x in ks ==> x in somas
    requires k in ks
    requires forall c :: c in categorias ==> c.id != k
    ensures i < |Rotular(ks, somas, categorias)|
    ensures Rotular(ks, somas, categorias)[i] == ItemCategoria(SemCategoriaNome, somas[k], SemCategoriaCor)
  {
    i :| 0 <= i < |ks| && ks[i] == k;
    assert Rotular(ks, somas, categorias)[i] == Rotulo(k, somas[k], categorias);
  }

  /** An expense of the period whose key names no category (no category set, or
      one that does not exist) is counted under an entry labelled
      'Sem Categoria' with colour '#CCCCCC'; that entry holds the sum of all the
      period's expenses with that key. */
  lemma SemCategoriaRotulada(despesas: seq<Transacao>, categorias: seq<CategoriaDespesa>,
                             p: Periodo, hoje: Date, t: Transacao)
    requires t in despesas && NoPeriodo(t.data, p, hoje)
    requires forall c :: c in categorias ==> c.id != ChaveCategoria(t)
    ensures var r := DespesasPorCategoria(despesas, categorias, p, hoje);
            var soma := SomaValores(KeepWhere(FiltrarPeriodo(despesas, p, hoje), ChaveCategoria, ChaveCategoria(t)));
            exists i :: 0 <= i < |r| && r[i] == ItemCategoria(SemCategoriaNome, soma, SemCategoriaCor)
  {
    var f := FiltrarPeriodo(despesas, p, hoje);
    var g := Agrupar(f);
    var k := ChaveCategoria(t);
    ChaveAgrupada(f, t);
    var soma := SomaValores(KeepWhere(f, ChaveCategoria, k));
    assert g.somas[k] == soma;
    var i := RotularSemCategoria(g.chaves, g.somas, categorias, k);
    var r := DespesasPorCategoria(despesas, categorias, p, hoje);
    assert r == Rotular(g.chaves, g.somas, categorias);
    assert r[i] == ItemCategoria(SemCategoriaNome, soma, SemCategoriaCor);
  }

  /** `calcularDespesasPorCategoria(periodo)`: filters the period's expenses,
      fills the dictionary in a `forEach`, then labels its entries. */
  method CalcularDespesasPorCategoria(despesas: seq<Transacao>, categorias: seq<CategoriaDespesa>,
                                      p: Periodo, hoje: Date) returns (r: seq<ItemCategoria>)
    ensures r == DespesasPorCategoria(despesas, categorias, p, hoje)
    ensures SomaItens(r) == CalcularTotal(despesas, p, hoje)
  {
    var filtradas := FiltrarPeriodo(despesas, p, hoje);
    var g := Grupos([], map[]);
    for i := 0 to |filtradas|
      invariant g == Agrupar(filtradas[..i])
    {
      assert filtradas[..i + 1][..i] == filtradas[..i];
      g := Acumular(g, filtradas[i]);
    }
    assert filtradas[..|filtradas|] == filtradas;
    r := Rotular(g.chaves, g.somas, categorias);
    DespesasPorCategoriaSomaTotal(despesas, categorias, p, hoje);
  }

  // ------------------------------------------------------------------
  // Monthly series of the evolution chart

  /** The twelve monthly totals of year `ano`, January first. */
  function SerieMensal(s: seq<Transacao>, ano: int): (r: seq<real>)
    ensures |r| == 12
  {
    seq(12, m requires 0 <= m < 12 => TotalDoMes(s, ano, m))
  }

  function SomaSeq(xs: seq<real>): real {
    if xs == [] then 0.0 else SomaSeq(xs[..|xs| - 1]) + xs[|xs| - 1]
  }

  lemma {:induction false} SomaSeqZeros(xs: seq<real>)
    requires forall i :: 0 <= i < |xs| ==> xs[i] == 0.0
    ensures SomaSeq(xs) == 0.0
  {
    if xs != [] {
      SomaSeqZeros(xs[..|xs| - 1]);
    }
  }

  lemma {:induction false} SomaSeqAtualiza(xs: seq<real>, j: nat, v: real)
    requires j < |xs|
    ensures SomaSeq(xs[j := xs[j] + v]) == SomaSeq(xs) + v
  {
    var ys := xs[j := xs[j] + v];
    assert ys[..|ys| - 1] == if j == |xs| - 1 then xs[..|xs| - 1] else xs[..|xs| - 1][j := xs[j] + v];
    if j < |xs| - 1 {
      SomaSeqAtualiza(xs[..|xs| - 1], j, v);
    }
  }

  /** Appending a transaction moves only the bucket of its month, and only when
      it falls in year `ano`. */
  lemma SerieMensalSnoc(s: seq<Transacao>, t: Transacao, ano: int)
    ensures var antes := SerieMensal(s, ano);
            SerieMensal(s + [t], ano) ==
              if t.data.year == ano then antes[t.data.month := antes[t.data.month] + t.valor] else antes
  {
    var antes := SerieMensal(s, ano);
    var depois := SerieMensal(s + [t], ano);
    forall m | 0 <= m < 12
      ensures depois[m] == antes[m] + (if MesDe(t) == (ano, m) then t.valor else 0.0)
    {
      TotalDoMesSnoc(s, t, ano, m);
    }
  }

  lemma SomaSeqSeAtualiza(xs: seq<real>, ys: seq<real>, c: bool, j: nat, v: real)
    requires j < |xs|
    requires ys == if c then xs[j := xs[j] + v] else xs
    ensures SomaSeq(ys) == SomaSeq(xs) + if c then v else 0.0
  {
    if c {
      SomaSeqAtualiza(xs, j, v);
    }
  }

  /** Appending a transaction adds its amount to the sum of the buckets exactly
      when it falls in year `ano`. */
  lemma SerieMensalSomaSnoc(s: seq<Transacao>, t: Transacao, ano: int)
    ensures SomaSeq(SerieMensal(s + [t], ano)) ==
              SomaSeq(SerieMensal(s, ano)) + if t.data.year == ano then t.valor else 0.0
  {
    SerieMensalSnoc(s, t, ano);
    SomaSeqSeAtualiza(SerieMensal(s, ano), SerieMensal(s + [t], ano), t.data.year == ano, t.data.month, t.valor);
  }

  /** Appending a transaction adds its amount to the year's total exactly when
      it falls in year `ano`. */
  lemma SomaDoAnoSnoc(s: seq<Transacao>, t: Transacao, ano: int)
    ensures SomaValores(KeepWhere(s + [t], AnoDe, ano)) ==
              SomaValores(KeepWhere(s, AnoDe, ano)) + if t.data.year == ano then t.valor else 0.0
  {
    KeepWhereSnoc(s, t, AnoDe, ano);
    if t.data.year == ano {
      SomaValoresSnoc(KeepWhere(s, AnoDe, ano), t);
    } else {
      assert AnoDe(t) != ano;
      assert KeepWhere(s + [t], AnoDe, ano) == KeepWhere(s, AnoDe, ano);
    }
  }

  /** The twelve buckets of a year add up to that year's total. */
  lemma {:induction false} SerieMensalSomaAno(s: seq<Transacao>, ano: int)
    ensures SomaSeq(SerieMensal(s, ano)) == SomaValores(KeepWhere(s, AnoDe, ano))
  {
    if s == [] {
      SomaSeqZeros(SerieMensal(s, ano));
    } else {
      var init := s[..|s| - 1];
      assert s == init + [s[|s| - 1]];
      SerieMensalSomaAno(init, ano);
      SerieMensalSomaSnoc(init, s[|s| - 1], ano);
      SomaDoAnoSnoc(init, s[|s| - 1], ano);
    }
  }

  /** One `forEach` of the evolution chart: `Array(12).fill(0)`, then each
      record of year `ano` adds its amount to the bucket of its month. */
  method SomarPorMes(s: seq<Transacao>, ano: int) returns (mensais: seq<real>)
    ensures mensais == SerieMensal(s, ano)
  {
    var a := new real[12](_ => 0.0);
    for i := 0 to |s|
      invariant forall m :: 0 <= m < 12 ==> a[m] == TotalDoMes(s[..i], ano, m)
    {
      var t := s[i];
      assert s[..i + 1] == s[..i] + [t];
      forall m: Month
        ensures TotalDoMes(s[..i + 1], ano, m) == TotalDoMes(s[..i], ano, m) + (if MesDe(t) == (ano, m) then t.valor else 0.0)
      {
        TotalDoMesSnoc(s[..i], t, ano, m);
      }
      if t.data.year == ano {
        a[t.data.month] := a[t.data.month] + t.valor;
      }
    }
    assert s[..|s|] == s;
    mensais := a[..];
  }

  /** The series of `obterDadosGrafico('evolucao')` for the current year: the
      monthly incomes and expenses, each adding up to the year's total. */
  method ObterEvolucaoMensal(receitas: seq<Transacao>, despesas: seq<Transacao>, hoje: Date)
    returns (receitasMensais: seq<real>, despesasMensais: seq<real>)
    ensures receitasMensais == SerieMensal(receitas, hoje.year)
    ensures despesasMensais == SerieMensal(despesas, hoje.year)
    ensures SomaSeq(receitasMensais) == CalcularTotal(receitas, Ano, hoje)
    ensures SomaSeq(despesasMensais) == CalcularTotal(despesas, Ano, hoje)
  {
    receitasMensais := SomarPorMes(receitas, hoje.year);
    despesasMensais := SomarPorMes(despesas, hoje.year);
    SerieMensalSomaAno(receitas, hoje.year);
    SerieMensalSomaAno(despesas, hoje.year);
  }

  // ------------------------------------------------------------------
  // Import and export

  /** The key check of `importarDados`: all three lists are present. */
  predicate Completo(s: Snapshot) {
    s.receitas.Some? && s.despesas.Some? && s.categorias.Some?
  }

  // ------------------------------------------------------------------
  // The store

  class DadosStore {
    var receitas: seq<Transacao>
    var despesas: seq<Transacao>
    var categorias: seq<CategoriaDespesa>

    /** The three `useState([])` lists. */
    constructor ()
      ensures receitas == [] && despesas == [] && categorias == []
    {
      receitas, despesas, categorias := [], [], [];
    }

    /** `adicionarReceita`: appends one income with the fresh id; an absent date
        becomes today. */
    method AdicionarReceita(nova: TransacaoNova, id: Id, hoje: Date)
      requires nova.valor > 0.0
      requires id !in Keys(receitas, TransacaoId)
      modifies this
      ensures receitas == old(receitas) + [CriarTransacao(nova, id, hoje)]
      ensures despesas == old(despesas) && categorias == old(categorias)
    {
      receitas := receitas + [CriarTransacao(nova, id, hoje)];
    }

    /** `adicionarDespesa`: appends one expense with the fresh id; an absent date
        becomes today. */
    method AdicionarDespesa(nova: TransacaoNova, id: Id, hoje: Date)
      requires nova.valor > 0.0
      requires id !in Keys(despesas, TransacaoId)
      modifies this
      ensures despesas == old(despesas) + [CriarTransacao(nova, id, hoje)]
      ensures receitas == old(receitas) && categorias == old(categorias)
    {
      despesas := despesas + [CriarTransacao(nova, id, hoje)];
    }

    /** `adicionarCategoria`: appends one category; an empty colour becomes the
        palette colour at the current number of categories modulo 10. */
    method AdicionarCategoria(nova: CategoriaNova, id: Id)
      requires id !in Keys(categorias, CategoriaId)
      modifies this
      ensures categorias == old(categorias) + [CriarCategoria(nova, id, |old(categorias)|)]
      ensures receitas == old(receitas) && despesas == old(despesas)
    {
      categorias := categorias + [CriarCategoria(nova, id, |categorias|)];
    }

    method RemoverReceita(id: Id)
      modifies this
      ensures receitas == RemoveWhere(old(receitas), TransacaoId, id)
      ensures despesas == old(despesas) && categorias == old(categorias)
    {
      receitas := RemoveWhere(receitas, TransacaoId, id);
    }

    method RemoverDespesa(id: Id)
      modifies this
      ensures despesas == RemoveWhere(old(despesas), TransacaoId, id)
      ensures receitas == old(receitas) && categorias == old(categorias)
    {
      despesas := RemoveWhere(despesas, TransacaoId, id);
    }

    /** `removerCategoria`: when some expense uses the category the user must
        confirm; on refusal nothing changes. Otherwise the category goes and the
        expenses that used it lose their category in the same step. */
    method RemoverCategoria(id: Id, confirmado: bool)
      modifies this
      ensures receitas == old(receitas)
      ensures UsaCategoria(old(despesas), id) && !confirmado ==>
                despesas == old(despesas) && categorias == old(categorias)
      ensures !UsaCategoria(old(despesas), id) || confirmado ==>
                && despesas == DesvincularCategoria(old(despesas), id)
                && categorias == RemoveWhere(old(categorias), CategoriaId, id)
    {
      if UsaCategoria(despesas, id) {
        if !confirmado {
          return;
        }
        despesas := DesvincularCategoria(despesas, id);
      }
      categorias := RemoveWhere(categorias, CategoriaId, id);
    }

    method EditarReceita(id: Id, p: TransacaoParcial)
      modifies this
      ensures receitas == EditarTransacoes(old(receitas), id, p)
      ensures despesas == old(despesas) && categorias == old(categorias)
    {
      receitas := EditarTransacoes(receitas, id, p);
    }

    method EditarDespesa(id: Id, p: TransacaoParcial)
      modifies this
      ensures despesas == EditarTransacoes(old(despesas), id, p)
      ensures receitas == old(receitas) && categorias == old(categorias)
    {
      despesas := EditarTransacoes(despesas, id, p);
    }

    method EditarCategoria(id: Id, p: CategoriaParcial)
      modifies this
      ensures categorias == EditarCategorias(old(categorias), id, p)
      ensures receitas == old(receitas) && despesas == old(despesas)
    {
      categorias := EditarCategorias(categorias, id, p);
    }

    /** `limparTodosDados`: once confirmed, no incomes, no expenses and the seven
        initial categories under fresh ids; refused, nothing changes. */
    method LimparTodosDados(confirmado: bool, ids: seq<Id>)
      requires |ids| == |NomesCategoriasIniciais| && Distinct(ids)
      modifies this
      ensures confirmado ==> receitas == [] && despesas == [] && categorias == CategoriasIniciais(ids)
      ensures !confirmado ==>
                receitas == old(receitas) && despesas == old(despesas) && categorias == old(categorias)
    {
      if confirmado {
        receitas, despesas := [], [];
        categorias := CategoriasIniciais(ids);
      }
    }

    /** `exportarDados` before serialisation: the three lists, all present, so
        the key check of `importarDados` accepts it. */
    function ExportarDados(): (s: Snapshot)
      reads this
      ensures Completo(s)
      ensures s.receitas == Some(receitas) && s.despesas == Some(despesas)
              && s.categorias == Some(categorias)
    {
      Snapshot(Some(receitas), Some(despesas), Some(categorias))
    }

    /** `importarDados` after parsing: succeeds exactly when all three keys are
        present and the user confirms, and then replaces the three lists
        together; otherwise returns false and changes nothing. Importing what
        `ExportarDados` gave restores the three lists. */
    method ImportarDados(dados: Snapshot, confirmado: bool) returns (ok: bool)
      modifies this
      ensures ok == (Completo(dados) && confirmado)
      ensures ok ==> receitas == dados.receitas.value && despesas == dados.despesas.value
                     && categorias == dados.categorias.value
      ensures !ok ==> receitas == old(receitas) && despesas == old(despesas) && categorias == old(categorias)
    {
      if !Completo(dados) {
        return false;
      }
      if confirmado {
        receitas, despesas, categorias := dados.receitas.value, dados.despesas.value, dados.categorias.value;
        return true;
      }
      return false;
    }
  }
}
