/** The event HTTP handlers of the first implementation
    (backend/src/controladores/ControladorEventos.ts): authentication,
    request checks and ownership checks in front of the event store. The
    authenticated user's id is "" when nobody is authenticated. */
module ControladorEventos {
  import opened Wrappers
  import opened Colecoes
  import ME = ModeloEventos

  datatype Resposta = Resposta(status: int, mensagem: string)

  const MsgNaoAutenticado := "Usuário não autenticado"
  const MsgObrigatorios := "Nome, data e local são obrigatórios"
  const MsgCapacidade := "Capacidade máxima deve ser maior que zero"
  const MsgSemTipos := "Pelo menos um tipo de ingresso deve ser definido"
  const MsgDataPassada := "A data do evento deve ser no futuro"
  const MsgCriado := "Evento criado com sucesso"
  const MsgNaoEncontrado := "Evento não encontrado"
  const MsgSemPermissaoAtualizar := "Você não tem permissão para atualizar este evento"
  const MsgSemPermissaoRemover := "Você não tem permissão para remover este evento"
  const MsgAtualizado := "Evento atualizado com sucesso"
  const MsgRemovido := "Evento removido com sucesso"
  const MsgErroRemover := "Erro ao remover evento"

  /** The creation body; `data` is None when missing or empty, otherwise the
      instant it denotes. */
  datatype RequisicaoEvento = RequisicaoEvento(
    nome: string,
    descricao: string,
    data: Option<int>,
    local: string,
    capacidadeMaxima: int,
    tiposIngresso: seq<ME.TipoIngressoDto>)

  /** The early returns of `criarEvento`, in source order. */
  function RecusaCriacao(organizadorId: string, req: RequisicaoEvento, agora: int): (r: Option<Resposta>)
    ensures r.None? <==> && organizadorId != "" && req.nome != "" && req.data.Some? && req.local != ""
                         && req.capacidadeMaxima > 0 && |req.tiposIngresso| > 0 && req.data.value > agora
    ensures organizadorId == "" ==> r == Some(Resposta(401, MsgNaoAutenticado))
    ensures r.Some? ==> r.value.status == 401 || r.value.status == 400
    ensures (&& organizadorId != "" && req.nome != "" && req.data.Some? && req.local != ""
             && req.capacidadeMaxima > 0 && |req.tiposIngresso| > 0 && req.data.value <= agora)
            ==> r == Some(Resposta(400, MsgDataPassada))
    ensures organizadorId != "" && (req.nome == "" || req.data.None? || req.local == "") ==>
      r == Some(Resposta(400, MsgObrigatorios))
    ensures (&& organizadorId != "" && req.nome != "" && req.data.Some? && req.local != ""
             && req.capacidadeMaxima <= 0)
            ==> r == Some(Resposta(400, MsgCapacidade))
    ensures (&& organizadorId != "" && req.nome != "" && req.data.Some? && req.local != ""
             && req.capacidadeMaxima > 0 && |req.tiposIngresso| == 0)
            ==> r == Some(Resposta(400, MsgSemTipos))
  {
    if organizadorId == "" then Some(Resposta(401, MsgNaoAutenticado))
    else if req.nome == "" || req.data.None? || req.local == "" then Some(Resposta(400, MsgObrigatorios))
    else if req.capacidadeMaxima <= 0 then Some(Resposta(400, MsgCapacidade))
    else if |req.tiposIngresso| == 0 then Some(Resposta(400, MsgSemTipos))
    else if req.data.value <= agora then Some(Resposta(400, MsgDataPassada))
    else None
  }

  /** `criarEvento`: a refusal stores nothing; otherwise the event is
      created for the authenticated organizer. */
  method CriarEvento(modelo: ME.ModeloEvento, organizadorId: string, req: RequisicaoEvento,
                     eventoId: string, tipoIds: seq<string>, agora: int)
    returns (resposta: Resposta, evento: Option<ME.Evento>)
    requires |tipoIds| == |req.tiposIngresso|
    modifies modelo
    ensures var recusa := RecusaCriacao(organizadorId, req, agora);
      && (recusa.Some? ==>
            && resposta == recusa.value && evento.None?
            && modelo.eventos == old(modelo.eventos) && modelo.tiposIngresso == old(modelo.tiposIngresso))
      && (recusa.None? ==>
            && resposta == Resposta(201, MsgCriado) && evento.Some?
            && evento.value == ME.Evento(eventoId, req.nome, req.descricao, req.data.value, req.local,
                                         req.capacidadeMaxima, organizadorId,
                                         ME.TiposCriados(req.tiposIngresso, tipoIds, eventoId), agora, agora)
            && modelo.eventos == old(modelo.eventos) + [evento.value]
            && modelo.tiposIngresso == old(modelo.tiposIngresso) + evento.value.tiposIngresso)
  {
    var recusa := RecusaCriacao(organizadorId, req, agora);
    if recusa.Some? {
      return recusa.value, None;
    }
    var dto := ME.CriarEventoDto(req.nome, req.descricao, req.data.value, req.local, req.capacidadeMaxima, req.tiposIngresso);
    var criado := modelo.CriarEvento(dto, organizadorId, eventoId, tipoIds, agora);
    return Resposta(201, MsgCriado), Some(criado);
  }

  /** The guard shared by `atualizarEvento` and `removerEvento`: 401, then
      404, then 403 with the handler's own message. */
  function RecusaAlteracao(eventos: seq<ME.Evento>, tipos: seq<ME.TipoIngresso>, organizadorId: string, id: string,
                           msgSemPermissao: string): (r: Option<Resposta>)
    ensures r.None? <==> && organizadorId != ""
                         && (exists k :: 0 <= k < |eventos| && eventos[k].id == id)
                         && eventos[IndiceDe(eventos, ME.EventoPorId(id))].organizadorId == organizadorId
    ensures organizadorId == "" ==> r == Some(Resposta(401, MsgNaoAutenticado))
    ensures organizadorId != "" && (forall k :: 0 <= k < |eventos| ==> eventos[k].id != id) ==>
      r == Some(Resposta(404, MsgNaoEncontrado))
    ensures organizadorId != "" && (exists k :: 0 <= k < |eventos| && eventos[k].id == id)
            && eventos[IndiceDe(eventos, ME.EventoPorId(id))].organizadorId != organizadorId ==>
      r == Some(Resposta(403, msgSemPermissao))
  {
    if organizadorId == "" then Some(Resposta(401, MsgNaoAutenticado))
    else
      match ME.BuscarPorId(eventos, tipos, id)
      case None => Some(Resposta(404, MsgNaoEncontrado))
      case Some(existente) =>
        if existente.organizadorId != organizadorId then Some(Resposta(403, msgSemPermissao)) else None
  }

  /** Ownership survives an update: once the owner has updated an event,
      any other authenticated user is still refused with 403. */
  lemma PosseMantidaAposAtualizar(eventos: seq<ME.Evento>, tipos: seq<ME.TipoIngresso>, dono: string, outro: string,
                                  id: string, dados: ME.AtualizacaoEvento, agora: int, msg: string)
    requires RecusaAlteracao(eventos, tipos, dono, id, msg).None?
    requires outro != "" && outro != dono
    ensures var i := IndiceDe(eventos, ME.EventoPorId(id));
      RecusaAlteracao(eventos[i := ME.Mesclado(eventos[i], dados, agora)], tipos, outro, id, msg)
        == Some(Resposta(403, msg))
  {
    var i := IndiceDe(eventos, ME.EventoPorId(id));
    var novos := eventos[i := ME.Mesclado(eventos[i], dados, agora)];
    forall k | 0 <= k < i ensures !ME.EventoPorId(id)(novos[k]) {
      assert novos[k] == eventos[k];
    }
    PrimeiroIndice(novos, ME.EventoPorId(id), i);
  }

  /** `atualizarEvento`: only the owner's request reaches the store. */
  method AtualizarEvento(modelo: ME.ModeloEvento, organizadorId: string, id: string,
                         dadosAtualizacao: ME.AtualizacaoEvento, agora: int)
    returns (resposta: Resposta, evento: Option<ME.Evento>)
    modifies modelo
    ensures modelo.tiposIngresso == old(modelo.tiposIngresso)
    ensures var recusa := RecusaAlteracao(old(modelo.eventos), old(modelo.tiposIngresso), organizadorId, id, MsgSemPermissaoAtualizar);
      var i := IndiceDe(old(modelo.eventos), ME.EventoPorId(id));
      && (recusa.Some? ==> resposta == recusa.value && evento.None? && modelo.eventos == old(modelo.eventos))
      && (recusa.None? ==>
            && resposta == Resposta(200, MsgAtualizado)
            && modelo.eventos == old(modelo.eventos)[i := ME.Mesclado(old(modelo.eventos)[i], dadosAtualizacao, agora)]
            && evento == Some(ME.ComTipos(modelo.eventos[i], modelo.tiposIngresso))
            && evento.value.organizadorId == organizadorId)
  {
    var recusa := RecusaAlteracao(modelo.eventos, modelo.tiposIngresso, organizadorId, id, MsgSemPermissaoAtualizar);
    if recusa.Some? {
      return recusa.value, None;
    }
    evento := modelo.Atualizar(id, dadosAtualizacao, agora);
    resposta := Resposta(200, MsgAtualizado);
  }

  /** `removerEvento`: only the owner's request reaches the store; the event
      and its tiers are then gone. */
  method RemoverEvento(modelo: ME.ModeloEvento, organizadorId: string, id: string) returns (resposta: Resposta)
    modifies modelo
    ensures var recusa := RecusaAlteracao(old(modelo.eventos), old(modelo.tiposIngresso), organizadorId, id, MsgSemPermissaoRemover);
      var i := IndiceDe(old(modelo.eventos), ME.EventoPorId(id));
      && (recusa.Some? ==>
            resposta == recusa.value && modelo.eventos == old(modelo.eventos) && modelo.tiposIngresso == old(modelo.tiposIngresso))
      && (recusa.None? ==>
            && resposta == Resposta(200, MsgRemovido)
            && modelo.eventos == old(modelo.eventos)[..i] + old(modelo.eventos)[i + 1..]
            && modelo.tiposIngresso == Filtrar(old(modelo.tiposIngresso), ME.TipoDeOutroEvento(id)))
  {
    var recusa := RecusaAlteracao(modelo.eventos, modelo.tiposIngresso, organizadorId, id, MsgSemPermissaoRemover);
    if recusa.Some? {
      return recusa.value;
    }
    var removido := modelo.Remover(id);
    if removido {
      resposta := Resposta(200, MsgRemovido);
    } else {
      resposta := Resposta(500, MsgErroRemover);
    }
  }
}
