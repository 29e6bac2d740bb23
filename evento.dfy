/** The event entity of the layered implementation
    (backend/src/domain/entities/evento.ts): field validation against the
    current instant, the validated partial update, and the unguarded
    cancel and finish operations. */
module Eventos {
  import opened Wrappers
  import Texto

  datatype StatusEvento = Ativo | Cancelado | Finalizado

  /** What the constructor receives; "" and 0 are missing values, and an
      absent `status` is None. */
  datatype DadosEvento = DadosEvento(
    id: string,
    nome: string,
    data: int,
    local: string,
    capacidadeMaxima: int,
    organizadorId: string,
    descricao: Option<string>,
    status: Option<StatusEvento>,
    criadoEm: Option<int>,
    atualizadoEm: Option<int>)

  datatype PropsEvento = PropsEvento(
    id: string,
    nome: string,
    data: int,
    local: string,
    capacidadeMaxima: int,
    organizadorId: string,
    descricao: Option<string>,
    status: StatusEvento,
    criadoEm: int,
    atualizadoEm: int)

  /** `Partial<EventoProps>`: Some for every key the caller supplied. */
  datatype AtualizacaoEvento = AtualizacaoEvento(
    id: Option<string>,
    nome: Option<string>,
    data: Option<int>,
    local: Option<string>,
    capacidadeMaxima: Option<int>,
    organizadorId: Option<string>,
    descricao: Option<string>,
    status: Option<StatusEvento>,
    criadoEm: Option<int>)

  /** `validarDados` on the five checked fields, at instant `agora`. */
  function ValidarCampos(nome: string, data: int, local: string, capacidadeMaxima: int, organizadorId: string, agora: int): (r: Option<string>)
    ensures r.None? <==> && |Texto.Trim(nome)| >= 3 && data > agora && |Texto.Trim(local)| >= 3
                         && capacidadeMaxima > 0 && organizadorId != ""
    ensures |Texto.Trim(nome)| >= 3 && data <= agora ==> r == Some("Data do evento deve ser futura")
  {
    if nome == "" || |Texto.Trim(nome)| < 3 then Some("Nome do evento deve ter pelo menos 3 caracteres")
    else if data <= agora then Some("Data do evento deve ser futura")
    else if local == "" || |Texto.Trim(local)| < 3 then Some("Local do evento deve ter pelo menos 3 caracteres")
    else if capacidadeMaxima == 0 || capacidadeMaxima <= 0 then Some("Capacidade máxima deve ser maior que zero")
    else if organizadorId == "" then Some("ID do organizador é obrigatório")
    else None
  }

  function ValidarProps(p: PropsEvento, agora: int): Option<string>
  {
    ValidarCampos(p.nome, p.data, p.local, p.capacidadeMaxima, p.organizadorId, agora)
  }

  /** The constructor; `idGerado` and `agora` stand for `gerarId()` and
      `new Date()`. `status` defaults to `ativo`. */
  function NovoEvento(d: DadosEvento, idGerado: string, agora: int): (r: Result<PropsEvento>)
    ensures r.Err? <==> ValidarCampos(d.nome, d.data, d.local, d.capacidadeMaxima, d.organizadorId, agora).Some?
    ensures r.Err? ==> Some(r.mensagem) == ValidarCampos(d.nome, d.data, d.local, d.capacidadeMaxima, d.organizadorId, agora)
    ensures r.Ok? ==>
      && r.value.id == (if d.id != "" then d.id else idGerado)
      && r.value.status == (if d.status.Some? then d.status.value else Ativo)
      && r.value.nome == d.nome && r.value.data == d.data && r.value.local == d.local
      && r.value.capacidadeMaxima == d.capacidadeMaxima && r.value.organizadorId == d.organizadorId
      && r.value.descricao == d.descricao
      && r.value.criadoEm == d.criadoEm.GetOr(agora) && r.value.atualizadoEm == d.atualizadoEm.GetOr(agora)
      && ValidarProps(r.value, agora).None?
  {
    match ValidarCampos(d.nome, d.data, d.local, d.capacidadeMaxima, d.organizadorId, agora)
    case Some(erro) => Err(erro)
    case None =>
      Ok(PropsEvento(if d.id != "" then d.id else idGerado, d.nome, d.data, d.local, d.capacidadeMaxima,
                     d.organizadorId, d.descricao, d.status.GetOr(Ativo),
                     d.criadoEm.GetOr(agora), d.atualizadoEm.GetOr(agora)))
  }

  /** `{ ...this.props, ...dadosAtualizacao, atualizadoEm: new Date() }`. */
  function Mesclar(p: PropsEvento, u: AtualizacaoEvento, agora: int): PropsEvento
  {
    PropsEvento(u.id.GetOr(p.id), u.nome.GetOr(p.nome), u.data.GetOr(p.data), u.local.GetOr(p.local),
                u.capacidadeMaxima.GetOr(p.capacidadeMaxima), u.organizadorId.GetOr(p.organizadorId),
                if u.descricao.Some? then u.descricao else p.descricao,
                u.status.GetOr(p.status), u.criadoEm.GetOr(p.criadoEm), agora)
  }

  /** `atualizarEvento`: the merged record, if it still validates at
      `agora`; otherwise the validation error and the event is kept. */
  function EventoAtualizado(p: PropsEvento, u: AtualizacaoEvento, agora: int): (r: Result<PropsEvento>)
    ensures r.Ok? <==> ValidarProps(Mesclar(p, u, agora), agora).None?
    ensures r.Ok? ==>
      && r.value.id == (if u.id.Some? then u.id.value else p.id)
      && r.value.nome == (if u.nome.Some? then u.nome.value else p.nome)
      && r.value.data == (if u.data.Some? then u.data.value else p.data)
      && r.value.local == (if u.local.Some? then u.local.value else p.local)
      && r.value.capacidadeMaxima == (if u.capacidadeMaxima.Some? then u.capacidadeMaxima.value else p.capacidadeMaxima)
      && r.value.organizadorId == (if u.organizadorId.Some? then u.organizadorId.value else p.organizadorId)
      && r.value.status == (if u.status.Some? then u.status.value else p.status)
      && r.value.descricao == (if u.descricao.Some? then u.descricao else p.descricao)
      && r.value.criadoEm == (if u.criadoEm.Some? then u.criadoEm.value else p.criadoEm)
      && r.value.atualizadoEm == agora
      && |Texto.Trim(r.value.nome)| >= 3 && r.value.data > agora && r.value.capacidadeMaxima > 0
  {
    var novosDados := Mesclar(p, u, agora);
    match ValidarProps(novosDados, agora)
    case Some(erro) => Err(erro)
    case None => Ok(novosDados)
  }

  /** An event whose date is not after `agora` can no longer be updated
      unless the update itself moves the date into the future. */
  lemma EventoPassadoNaoAtualiza(p: PropsEvento, u: AtualizacaoEvento, agora: int)
    requires p.data <= agora && u.data.None?
    ensures EventoAtualizado(p, u, agora).Err?
  {
  }

  /** An update that supplies nothing only refreshes the stamp, and does so
      exactly when the event is still valid at that instant. */
  lemma AtualizacaoVazia(p: PropsEvento, agora: int)
    ensures var vazia := AtualizacaoEvento(None, None, None, None, None, None, None, None, None);
      && (EventoAtualizado(p, vazia, agora).Ok? <==> ValidarProps(p, agora).None?)
      && (EventoAtualizado(p, vazia, agora).Ok? ==> EventoAtualizado(p, vazia, agora).value == p.(atualizadoEm := agora))
  {
  }

  /** Applying the same update twice gives what applying it once gives, up
      to the update stamp. */
  lemma AtualizarIdempotente(p: PropsEvento, u: AtualizacaoEvento, a: int, b: int)
    requires EventoAtualizado(p, u, a).Ok?
    requires b <= a
    ensures EventoAtualizado(EventoAtualizado(p, u, a).value, u, b) == Ok(EventoAtualizado(p, u, a).value.(atualizadoEm := b))
  {
    var um := EventoAtualizado(p, u, a).value;
    assert Mesclar(um, u, b) == um.(atualizadoEm := b);
  }

  /** `cancelarEvento` and `finalizarEvento`: no guard on the old status. */
  function EventoCancelado(p: PropsEvento, agora: int): PropsEvento
  {
    p.(status := Cancelado, atualizadoEm := agora)
  }

  function EventoFinalizado(p: PropsEvento, agora: int): PropsEvento
  {
    p.(status := Finalizado, atualizadoEm := agora)
  }

  /** Both succeed from any status, are idempotent, and the later one wins;
      nothing but status and stamp changes. */
  lemma CancelarFinalizarIdempotentes(p: PropsEvento, a: int, b: int)
    ensures EventoCancelado(p, a).status == Cancelado && EventoFinalizado(p, a).status == Finalizado
    ensures EventoCancelado(p, a).(status := p.status, atualizadoEm := p.atualizadoEm) == p
    ensures EventoFinalizado(p, a).(status := p.status, atualizadoEm := p.atualizadoEm) == p
    ensures EventoCancelado(EventoCancelado(p, a), b) == EventoCancelado(p, b)
    ensures EventoFinalizado(EventoFinalizado(p, a), b) == EventoFinalizado(p, b)
    ensures EventoCancelado(EventoFinalizado(p, a), b) == EventoCancelado(p, b)
    ensures EventoFinalizado(EventoCancelado(p, a), b) == EventoFinalizado(p, b)
  {
  }

  /** The entity object; its methods reassign `props`. */
  class Evento {
    var props: PropsEvento

    /** Only an accepted record is constructed; the refused inputs are the
        `Err` cases of `NovoEvento`. */
    constructor (dados: DadosEvento, idGerado: string, agora: int)
      requires NovoEvento(dados, idGerado, agora).Ok?
      ensures props == NovoEvento(dados, idGerado, agora).value
    {
      props := NovoEvento(dados, idGerado, agora).value;
    }

    /** `atualizarEvento`: on a validation error nothing changes. */
    method AtualizarEvento(dadosAtualizacao: AtualizacaoEvento, agora: int) returns (erro: Option<string>)
      modifies this
      ensures erro.None? <==> EventoAtualizado(old(props), dadosAtualizacao, agora).Ok?
      ensures erro.None? ==> props == EventoAtualizado(old(props), dadosAtualizacao, agora).value
      ensures erro.Some? ==>
        props == old(props) && erro.value == EventoAtualizado(old(props), dadosAtualizacao, agora).mensagem
    {
      var r := EventoAtualizado(props, dadosAtualizacao, agora);
      if r.Err? {
        return Some(r.mensagem);
      }
      props := r.value;
      return None;
    }

    method CancelarEvento(agora: int)
      modifies this
      ensures props == EventoCancelado(old(props), agora)
    {
      props := props.(status := Cancelado, atualizadoEm := agora);
    }

    method FinalizarEvento(agora: int)
      modifies this
      ensures props == EventoFinalizado(old(props), agora)
    {
      props := props.(status := Finalizado, atualizadoEm := agora);
    }
  }
}
