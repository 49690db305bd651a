/** The goal store (`MetasContext`): savings goals with a target amount, the
    amount saved so far and an `ativa` flag; deposits, edits, removal and the
    progress percentage shown for each goal. */
module Metas {
  import opened Records

  datatype Meta = Meta(id: Id, titulo: string, valorAlvo: real, valorAtual: real, dataInicio: string,
                       dataFinal: Option<string>, cor: string, ativa: bool)

  /** `Omit<Meta, 'id'>`, the argument of `adicionarMeta`; `ativa` may be absent. */
  datatype NovaMeta = NovaMeta(titulo: string, valorAlvo: real, valorAtual: real, dataInicio: string,
                               dataFinal: Option<string>, cor: string, ativa: Option<bool>)

  /** `Partial<Meta>`; for `dataFinal`, `Some(None)` is a field present with the
      value `undefined`. */
  datatype MetaParcial = MetaParcial(id: Option<Id>, titulo: Option<string>, valorAlvo: Option<real>,
                                     valorAtual: Option<real>, dataInicio: Option<string>,
                                     dataFinal: Option<Option<string>>, cor: Option<string>,
                                     ativa: Option<bool>)

  const CoresMetas: seq<string> :=
    ["#3B82F6", "#10B981", "#F59E0B", "#EF4444", "#8B5CF6",
     "#EC4899", "#14B8A6", "#6366F1", "#D946EF", "#F97316"]

  function MetaId(m: Meta): Id { m.id }

  /** What the goal form guarantees for a goal it saves: a positive target, a
      saved amount that is not negative, and a goal that is active only while
      the target is not reached. */
  predicate Consistente(m: Meta) {
    m.valorAlvo > 0.0 && m.valorAtual >= 0.0 && (m.ativa ==> m.valorAtual < m.valorAlvo)
  }

  predicate TodasConsistentes(metas: seq<Meta>) {
    forall i :: 0 <= i < |metas| ==> Consistente(metas[i])
  }

  // ------------------------------------------------------------------
  // Adding, editing, removing

  /** The goal `adicionarMeta` appends as the goal number `quantidade`: an empty
      colour becomes `CORES_METAS[quantidade % 10]`, an empty start date becomes
      `agora`, an absent `ativa` becomes true. */
  function CriarMeta(nova: NovaMeta, id: Id, quantidade: nat, agora: string): (m: Meta)
    ensures m.id == id && m.titulo == nova.titulo && m.dataFinal == nova.dataFinal
    ensures m.valorAlvo == nova.valorAlvo && m.valorAtual == nova.valorAtual
    ensures nova.cor != "" ==> m.cor == nova.cor
    ensures nova.cor == "" ==> m.cor == CoresMetas[quantidade % 10]
    ensures nova.dataInicio != "" ==> m.dataInicio == nova.dataInicio
    ensures nova.dataInicio == "" ==> m.dataInicio == agora
    ensures nova.ativa.Some? ==> m.ativa == nova.ativa.value
    ensures nova.ativa.None? ==> m.ativa
  {
    Meta(id, nova.titulo, nova.valorAlvo, nova.valorAtual,
         if nova.dataInicio != "" then nova.dataInicio else agora,
         nova.dataFinal,
         if nova.cor != "" then nova.cor else CoresMetas[quantidade % |CoresMetas|],
         nova.ativa.GetOr(true))
  }

  /** A goal built from what the goal form submits is consistent. */
  lemma CriarMetaConsistente(nova: NovaMeta, id: Id, quantidade: nat, agora: string, ativaNoFormulario: bool)
    requires nova.valorAlvo > 0.0 && nova.valorAtual >= 0.0
    requires nova.ativa == Some(nova.valorAtual < nova.valorAlvo && ativaNoFormulario)
    ensures Consistente(CriarMeta(nova, id, quantidade, agora))
  {
  }

  /** `{ ...m, ...p }` */
  function MesclarMeta(m: Meta, p: MetaParcial): Meta {
    Meta(p.id.GetOr(m.id), p.titulo.GetOr(m.titulo), p.valorAlvo.GetOr(m.valorAlvo),
         p.valorAtual.GetOr(m.valorAtual), p.dataInicio.GetOr(m.dataInicio), p.dataFinal.GetOr(m.dataFinal),
         p.cor.GetOr(m.cor), p.ativa.GetOr(m.ativa))
  }

  /** `editarMeta` on the list: the patch is merged into the goals with that id
      and into no other; an unknown id changes nothing. */
  function EditarMetas(metas: seq<Meta>, id: Id, p: MetaParcial): (r: seq<Meta>)
    ensures |r| == |metas|
    ensures forall i :: 0 <= i < |metas| ==> r[i] == if metas[i].id == id then MesclarMeta(metas[i], p) else metas[i]
    ensures (forall m :: m in metas ==> m.id != id) ==> r == metas
  {
    UpdateWhere(metas, MetaId, id, m => MesclarMeta(m, p))
  }

  // ------------------------------------------------------------------
  // Deposits

  /** One goal after a deposit of `valor`: the saved amount grows by `valor`
      and the goal is active exactly while it is below the target, whatever it
      was before. */
  function Depositada(m: Meta, valor: real): (r: Meta)
    ensures r.valorAtual == m.valorAtual + valor
    ensures r.ativa <==> r.valorAtual < m.valorAlvo
    ensures r.(valorAtual := m.valorAtual, ativa := m.ativa) == m
  {
    var novoValor := m.valorAtual + valor;
    m.(valorAtual := novoValor, ativa := novoValor < m.valorAlvo)
  }

  /** `adicionarValorMeta(id, valor)` on the list. */
  function Depositar(metas: seq<Meta>, id: Id, valor: real): (r: seq<Meta>)
    ensures |r| == |metas|
    ensures forall i :: 0 <= i < |metas| ==> r[i] == if metas[i].id == id then Depositada(metas[i], valor) else metas[i]
    ensures (forall m :: m in metas ==> m.id != id) ==> r == metas
  {
    UpdateWhere(metas, MetaId, id, m => Depositada(m, valor))
  }

  /** With the positive amounts the deposit form accepts, a deposit strictly
      raises the saved amount of the goal, leaves it inactive once the target
      is reached, and keeps every goal consistent. */
  lemma DepositoPositivo(metas: seq<Meta>, id: Id, valor: real)
    requires valor > 0.0
    ensures var r := Depositar(metas, id, valor);
            forall i :: 0 <= i < |metas| && metas[i].id == id ==>
              r[i].valorAtual > metas[i].valorAtual
              && (r[i].valorAtual >= r[i].valorAlvo ==> !r[i].ativa)
    ensures TodasConsistentes(metas) ==> TodasConsistentes(Depositar(metas, id, valor))
  {
  }

  // ------------------------------------------------------------------
  // Progress

  /** `(valorAtual / valorAlvo) * 100`, capped at 100. */
  function Progresso(m: Meta): (p: real)
    requires m.valorAlvo != 0.0
    ensures p <= 100.0
    ensures m.valorAlvo > 0.0 ==> (p == 100.0 <==> m.valorAtual >= m.valorAlvo)
    ensures m.valorAlvo > 0.0 && m.valorAtual >= 0.0 ==> p >= 0.0
    ensures p < 100.0 ==> p * m.valorAlvo == m.valorAtual * 100.0
    ensures m.valorAlvo > 0.0 && m.valorAtual < m.valorAlvo ==> p * m.valorAlvo == m.valorAtual * 100.0
  {
    var progresso := m.valorAtual / m.valorAlvo * 100.0;
    assert m.valorAlvo > 0.0 ==> (progresso >= 100.0 <==> m.valorAtual >= m.valorAlvo) by {
      if m.valorAlvo > 0.0 {
        assert progresso * m.valorAlvo == m.valorAtual * 100.0;
      }
    }
    if progresso < 100.0 then progresso else 100.0
  }

  /** `calcularProgressoMeta(id)`: 0 for an unknown id, otherwise the progress
      of the first goal with that id. */
  function CalcularProgressoMeta(metas: seq<Meta>, id: Id): (p: real)
    requires FindWhere(metas, MetaId, id).Some? ==> FindWhere(metas, MetaId, id).value.valorAlvo != 0.0
    ensures p <= 100.0
    ensures (forall m :: m in metas ==> m.id != id) ==> p == 0.0
    ensures (forall i :: 0 <= i < |metas| && metas[i].id == id ==> Consistente(metas[i])) ==> p >= 0.0
    ensures forall i :: (0 <= i < |metas| && metas[i].id == id && forall j :: 0 <= j < i ==> metas[j].id != id)
                        ==> metas[i].valorAlvo != 0.0 && p == Progresso(metas[i])
  {
    match FindWhere(metas, MetaId, id)
    case None =>
      assert forall i :: 0 <= i < |metas| ==> metas[i] in metas;
      0.0
    case Some(m) => Progresso(m)
  }

  /** After a deposit the goal is active exactly while its progress is below
      100%: `ativa` and the progress bar agree. */
  lemma AtivaAposDeposito(metas: seq<Meta>, id: Id, valor: real, i: nat)
    requires i < |metas| && metas[i].id == id && metas[i].valorAlvo > 0.0
    ensures var m := Depositar(metas, id, valor)[i];
            m.ativa <==> Progresso(m) < 100.0
  {
  }

  // ------------------------------------------------------------------
  // The store

  class MetasStore {
    var metas: seq<Meta>

    constructor ()
      ensures metas == []
    {
      metas := [];
    }

    /** `adicionarMeta`: appends one goal with the fresh id. */
    method AdicionarMeta(nova: NovaMeta, id: Id, agora: string)
      requires nova.valorAlvo > 0.0 && nova.valorAtual >= 0.0
      requires id !in Keys(metas, MetaId)
      modifies this
      ensures metas == old(metas) + [CriarMeta(nova, id, |old(metas)|, agora)]
    {
      metas := metas + [CriarMeta(nova, id, |metas|, agora)];
    }

    method EditarMeta(id: Id, p: MetaParcial)
      modifies this
      ensures metas == EditarMetas(old(metas), id, p)
    {
      metas := EditarMetas(metas, id, p);
    }

    /** `removerMeta`: removes the goals with that id once the user confirms. */
    method RemoverMeta(id: Id, confirmado: bool)
      modifies this
      ensures confirmado ==> metas == RemoveWhere(old(metas), MetaId, id)
      ensures !confirmado ==> metas == old(metas)
    {
      if confirmado {
        metas := RemoveWhere(metas, MetaId, id);
      }
    }

    /** `adicionarValorMeta`: a deposit of a positive amount into the goals with
        that id. */
    method AdicionarValorMeta(id: Id, valor: real)
      requires valor > 0.0
      modifies this
      ensures metas == Depositar(old(metas), id, valor)
    {
      metas := Depositar(metas, id, valor);
    }
  }
}
