/** The ticket HTTP handlers of the first implementation
    (backend/src/controladores/ControladorIngressos.ts): the purchase and gate
    validation decision chains and the event statistics. A response is a
    status code and a message; the current instant is a parameter. */
module ControladorIngressos {
  import opened Wrappers
  import opened Colecoes
  import MI = ModeloIngressos
  import ME = ModeloEventos

  datatype Resposta = Resposta(status: int, mensagem: string)

  const MsgObrigatorios := "Evento, tipo de ingresso e quantidade são obrigatórios"
  const MsgQuantidade := "Quantidade deve ser maior que zero"
  const MsgComprador := "Nome e email do comprador são obrigatórios"
  const MsgEventoNaoEncontrado := "Evento não encontrado"
  const MsgTipoNaoEncontrado := "Tipo de ingresso não encontrado para este evento"
  const MsgIndisponivel := "Não há ingressos suficientes disponíveis"
  const MsgEventoPassado := "Não é possível comprar ingressos para eventos que já aconteceram"
  const MsgCompraRealizada := "Ingressos comprados com sucesso"
  const MsgCodigoObrigatorio := "Código QR é obrigatório"
  const MsgEntradaAutorizada := "Ingresso válido - Entrada autorizada"
  const MsgNaoAutenticado := "Usuário não autenticado"
  const MsgSemPermissao := "Você não tem permissão para ver estatísticas deste evento"

  /** The body checks of `comprarIngresso`: ids, a positive quantity and the
      buyer's name and e-mail are all present. */
  predicate DadosCompletos(dados: MI.ComprarIngressoDto)
  {
    && dados.eventoId != "" && dados.tipoIngressoId != "" && dados.quantidade > 0
    && dados.comprador.nome != "" && dados.comprador.email != ""
  }

  /** Everything `comprarIngresso` demands before it mints anything. */
  predicate CompraPermitida(eventos: seq<ME.Evento>, tipos: seq<ME.TipoIngresso>, dados: MI.ComprarIngressoDto, agora: int)
  {
    && DadosCompletos(dados)
    && (exists k :: 0 <= k < |eventos| && eventos[k].id == dados.eventoId)
    && (exists k :: 0 <= k < |tipos| && tipos[k].id == dados.tipoIngressoId)
    && ME.BuscarTipoIngresso(tipos, dados.tipoIngressoId).value.eventoId == dados.eventoId
    && ME.VerificarDisponibilidade(tipos, dados.tipoIngressoId, dados.quantidade)
    && eventos[IndiceDe(eventos, ME.EventoPorId(dados.eventoId))].data > agora
  }

  /** The early returns of `comprarIngresso`, in source order; None means the
      purchase goes ahead. */
  function RecusaDaCompra(eventos: seq<ME.Evento>, tipos: seq<ME.TipoIngresso>, dados: MI.ComprarIngressoDto, agora: int): (r: Option<Resposta>)
    ensures r.None? <==> CompraPermitida(eventos, tipos, dados, agora)
    ensures r.Some? ==> r.value.status == 400 || r.value.status == 404
    ensures (dados.eventoId == "" || dados.tipoIngressoId == "" || dados.quantidade == 0) ==>
      r == Some(Resposta(400, MsgObrigatorios))
    ensures r == Some(Resposta(400, MsgQuantidade)) <==>
      dados.eventoId != "" && dados.tipoIngressoId != "" && dados.quantidade < 0
    ensures (&& dados.eventoId != "" && dados.tipoIngressoId != "" && dados.quantidade > 0
             && dados.comprador.nome != "" && dados.comprador.email != ""
             && (exists k :: 0 <= k < |eventos| && eventos[k].id == dados.eventoId)
             && (exists k :: 0 <= k < |tipos| && tipos[k].id == dados.tipoIngressoId
                              && tipos[k].eventoId != dados.eventoId
                              && k == IndiceDe(tipos, ME.TipoPorId(dados.tipoIngressoId))))
            ==> r == Some(Resposta(404, MsgTipoNaoEncontrado))
    ensures (&& dados.eventoId != "" && dados.tipoIngressoId != "" && dados.quantidade > 0
             && (dados.comprador.nome == "" || dados.comprador.email == ""))
            ==> r == Some(Resposta(400, MsgComprador))
    ensures DadosCompletos(dados) && (forall k :: 0 <= k < |eventos| ==> eventos[k].id != dados.eventoId)
            ==> r == Some(Resposta(404, MsgEventoNaoEncontrado))
    ensures (&& DadosCompletos(dados)
             && (exists k :: 0 <= k < |eventos| && eventos[k].id == dados.eventoId)
             && (forall k :: 0 <= k < |tipos| ==> tipos[k].id != dados.tipoIngressoId))
            ==> r == Some(Resposta(404, MsgTipoNaoEncontrado))
    ensures (&& DadosCompletos(dados)
             && (exists k :: 0 <= k < |eventos| && eventos[k].id == dados.eventoId)
             && (exists k :: 0 <= k < |tipos| && tipos[k].id == dados.tipoIngressoId)
             && ME.BuscarTipoIngresso(tipos, dados.tipoIngressoId).value.eventoId == dados.eventoId
             && !ME.VerificarDisponibilidade(tipos, dados.tipoIngressoId, dados.quantidade))
            ==> r == Some(Resposta(400, MsgIndisponivel))
    ensures (&& DadosCompletos(dados)
             && (exists k :: 0 <= k < |eventos| && eventos[k].id == dados.eventoId)
             && (exists k :: 0 <= k < |tipos| && tipos[k].id == dados.tipoIngressoId)
             && ME.BuscarTipoIngresso(tipos, dados.tipoIngressoId).value.eventoId == dados.eventoId
             && ME.VerificarDisponibilidade(tipos, dados.tipoIngressoId, dados.quantidade)
             && eventos[IndiceDe(eventos, ME.EventoPorId(dados.eventoId))].data <= agora)
            ==> r == Some(Resposta(400, MsgEventoPassado))
  {
    if dados.eventoId == "" || dados.tipoIngressoId == "" || dados.quantidade == 0 then
      Some(Resposta(400, MsgObrigatorios))
    else if dados.quantidade <= 0 then
      Some(Resposta(400, MsgQuantidade))
    else if dados.comprador.nome == "" || dados.comprador.email == "" then
      Some(Resposta(400, MsgComprador))
    else
      match ME.BuscarPorId(eventos, tipos, dados.eventoId)
      case None => Some(Resposta(404, MsgEventoNaoEncontrado))
      case Some(evento) =>
        match ME.BuscarTipoIngresso(tipos, dados.tipoIngressoId)
        case None => Some(Resposta(404, MsgTipoNaoEncontrado))
        case Some(tipoIngresso) =>
          if tipoIngresso.eventoId != dados.eventoId then
            Some(Resposta(404, MsgTipoNaoEncontrado))
          else if !ME.VerificarDisponibilidade(tipos, dados.tipoIngressoId, dados.quantidade) then
            Some(Resposta(400, MsgIndisponivel))
          else if evento.data <= agora then
            Some(Resposta(400, MsgEventoPassado))
          else
            None
  }

  /** No tier has sold more than it makes available. */
  predicate SemExcessoDeVenda(tipos: seq<ME.TipoIngresso>)
  {
    forall k :: 0 <= k < |tipos| ==> tipos[k].quantidadeVendida <= tipos[k].quantidadeDisponivel
  }

  /** A purchase that passed every check keeps every tier within what it
      makes available, because availability was checked before the sold
      count was raised. */
  lemma CompraPreservaSemExcesso(eventos: seq<ME.Evento>, tipos: seq<ME.TipoIngresso>, dados: MI.ComprarIngressoDto, agora: int)
    requires SemExcessoDeVenda(tipos)
    requires RecusaDaCompra(eventos, tipos, dados, agora).None?
    ensures SemExcessoDeVenda(ME.VendaRegistrada(tipos, dados.tipoIngressoId, dados.quantidade))
  {
    var novos := ME.VendaRegistrada(tipos, dados.tipoIngressoId, dados.quantidade);
    var i := IndiceDe(tipos, ME.TipoPorId(dados.tipoIngressoId));
    assert ME.VerificarDisponibilidade(tipos, dados.tipoIngressoId, dados.quantidade);
    assert 0 <= i && tipos[i].quantidadeDisponivel - tipos[i].quantidadeVendida >= dados.quantidade;
    forall k | 0 <= k < |novos|
      ensures novos[k].quantidadeVendida <= novos[k].quantidadeDisponivel
    {
      if k != i {
        assert novos[k] == tipos[k];
      }
    }
  }

  /** What a successful purchase answers besides the message. */
  datatype CompraRealizada = CompraRealizada(
    ingressos: seq<MI.Ingresso>,
    valorTotal: int,
    nomeEvento: string,
    dataEvento: int,
    localEvento: string)

  /** `comprarIngresso`: a refusal changes neither store; otherwise exactly
      `quantidade` tickets are minted, the tier's sold count grows by
      `quantidade`, and the total is price times quantity. */
  method ComprarIngresso(ingressos: MI.ModeloIngresso, eventos: ME.ModeloEvento,
                         dados: MI.ComprarIngressoDto, sementes: seq<MI.Semente>, agora: int)
    returns (resposta: Resposta, compra: Option<CompraRealizada>)
    requires |sementes| == MI.Iteracoes(dados.quantidade)
    modifies ingressos, eventos
    ensures var recusa := RecusaDaCompra(old(eventos.eventos), old(eventos.tiposIngresso), dados, agora);
      && (recusa.Some? ==>
            && resposta == recusa.value && compra.None?
            && ingressos.ingressos == old(ingressos.ingressos)
            && eventos.eventos == old(eventos.eventos)
            && eventos.tiposIngresso == old(eventos.tiposIngresso))
      && (recusa.None? ==>
            && resposta == Resposta(201, MsgCompraRealizada) && compra.Some?
            && compra.value.ingressos == MI.Emitidos(dados, dados.tipoIngressoId, dados.eventoId, sementes, ingressos.sha256, ingressos.base64)
            && |compra.value.ingressos| == dados.quantidade
            && ingressos.ingressos == old(ingressos.ingressos) + compra.value.ingressos
            && eventos.eventos == old(eventos.eventos)
            && eventos.tiposIngresso == ME.VendaRegistrada(old(eventos.tiposIngresso), dados.tipoIngressoId, dados.quantidade)
            && compra.value.valorTotal == ME.BuscarTipoIngresso(old(eventos.tiposIngresso), dados.tipoIngressoId).value.preco * dados.quantidade)
  {
    var recusa := RecusaDaCompra(eventos.eventos, eventos.tiposIngresso, dados, agora);
    if recusa.Some? {
      return recusa.value, None;
    }
    var evento := ME.BuscarPorId(eventos.eventos, eventos.tiposIngresso, dados.eventoId).value;
    var tipoIngresso := ME.BuscarTipoIngresso(eventos.tiposIngresso, dados.tipoIngressoId).value;
    var criados := ingressos.CriarIngresso(dados, dados.tipoIngressoId, dados.eventoId, sementes);
    var _ := eventos.AtualizarQuantidadeVendida(dados.tipoIngressoId, dados.quantidade);
    var valorTotal := tipoIngresso.preco * dados.quantidade;
    return Resposta(201, MsgCompraRealizada), Some(CompraRealizada(criados, valorTotal, evento.nome, evento.data, evento.local));
  }

  /** The answer of `validarIngresso`. */
  datatype RespostaValidacao = RespostaValidacao(
    status: int,
    valido: bool,
    mensagem: string,
    ingresso: Option<MI.Ingresso>,
    evento: Option<ME.Evento>)

  /** The decision of `validarIngresso`, before any write: a missing code,
      then the ticket store's verdict, then the event lookup. `ingresso` is
      the ticket as found; the handler marks it used afterwards. */
  function DecisaoValidacao(ingressos: seq<MI.Ingresso>, sha256: string -> string,
                            eventos: seq<ME.Evento>, tipos: seq<ME.TipoIngresso>, codigoQr: string): (r: RespostaValidacao)
    ensures r.valido <==> r.status == 200
    ensures r.valido <==> && codigoQr != ""
                          && MI.ValidarIngresso(ingressos, sha256, codigoQr).valido
                          && ME.BuscarPorId(eventos, tipos, MI.BuscarPorCodigoQr(ingressos, codigoQr).value.eventoId).Some?
    ensures codigoQr == "" ==> r == RespostaValidacao(400, false, MsgCodigoObrigatorio, None, None)
    ensures codigoQr != "" && !MI.ValidarIngresso(ingressos, sha256, codigoQr).valido ==>
      r.status == 400 && r.mensagem == MI.ValidarIngresso(ingressos, sha256, codigoQr).motivo.value
    ensures (&& codigoQr != "" && MI.ValidarIngresso(ingressos, sha256, codigoQr).valido
             && ME.BuscarPorId(eventos, tipos, MI.BuscarPorCodigoQr(ingressos, codigoQr).value.eventoId).None?)
            ==> r == RespostaValidacao(404, false, MsgEventoNaoEncontrado, None, None)
    ensures r.valido ==> r.ingresso == MI.BuscarPorCodigoQr(ingressos, codigoQr) && r.mensagem == MsgEntradaAutorizada
                         && r.evento == ME.BuscarPorId(eventos, tipos, r.ingresso.value.eventoId)
  {
    if codigoQr == "" then
      RespostaValidacao(400, false, MsgCodigoObrigatorio, None, None)
    else
      var resultado := MI.ValidarIngresso(ingressos, sha256, codigoQr);
      if !resultado.valido then
        RespostaValidacao(400, false, resultado.motivo.GetOr("Ingresso inválido"), None, None)
      else
        var ingresso := resultado.ingresso.value;
        match ME.BuscarPorId(eventos, tipos, ingresso.eventoId)
        case None => RespostaValidacao(404, false, MsgEventoNaoEncontrado, None, None)
        case Some(evento) => RespostaValidacao(200, true, MsgEntradaAutorizada, Some(ingresso), Some(evento))
  }

  /** The ticket store after `validarIngresso`: only an accepted code marks
      its ticket used. */
  function AposValidacao(ingressos: seq<MI.Ingresso>, sha256: string -> string,
                         eventos: seq<ME.Evento>, tipos: seq<ME.TipoIngresso>, codigoQr: string, agora: int): (r: seq<MI.Ingresso>)
    ensures !DecisaoValidacao(ingressos, sha256, eventos, tipos, codigoQr).valido ==> r == ingressos
    ensures DecisaoValidacao(ingressos, sha256, eventos, tipos, codigoQr).valido ==>
      r == MI.MarcadoComoUsado(ingressos, MI.BuscarPorCodigoQr(ingressos, codigoQr).value.id, agora)
  {
    var decisao := DecisaoValidacao(ingressos, sha256, eventos, tipos, codigoQr);
    if decisao.valido then MI.MarcadoComoUsado(ingressos, decisao.ingresso.value.id, agora) else ingressos
  }

  /** A code accepted once is refused the second time with "already used",
      and the store is not changed again. */
  lemma SegundaValidacaoRecusada(ingressos: seq<MI.Ingresso>, sha256: string -> string,
                                 eventos: seq<ME.Evento>, tipos: seq<ME.TipoIngresso>, codigoQr: string, agora: int, depois: int)
    requires MI.IdsUnicos(ingressos)
    requires DecisaoValidacao(ingressos, sha256, eventos, tipos, codigoQr).valido
    ensures var s1 := AposValidacao(ingressos, sha256, eventos, tipos, codigoQr, agora);
      && DecisaoValidacao(s1, sha256, eventos, tipos, codigoQr) == RespostaValidacao(400, false, MI.MotivoJaUsado, None, None)
      && AposValidacao(s1, sha256, eventos, tipos, codigoQr, depois) == s1
  {
    var t := MI.ValidarIngresso(ingressos, sha256, codigoQr).ingresso.value;
    MI.SegundaValidacaoRejeitada(ingressos, sha256, codigoQr, agora);
    assert AposValidacao(ingressos, sha256, eventos, tipos, codigoQr, agora) == MI.MarcadoComoUsado(ingressos, t.id, agora);
  }

  /** `validarIngresso`: the answer and the new store follow the decision;
      the ticket in an accepted answer is the stored object after it was
      marked, so it already shows `usado` and `dataUso`. */
  method ValidarIngresso(ingressos: MI.ModeloIngresso, eventos: ME.ModeloEvento, codigoQr: string, agora: int)
    returns (resposta: RespostaValidacao)
    modifies ingressos
    ensures var decisao := DecisaoValidacao(old(ingressos.ingressos), ingressos.sha256, eventos.eventos, eventos.tiposIngresso, codigoQr);
      && ingressos.ingressos == AposValidacao(old(ingressos.ingressos), ingressos.sha256, eventos.eventos, eventos.tiposIngresso, codigoQr, agora)
      && (!decisao.valido ==> resposta == decisao)
      && (decisao.valido ==>
            resposta == decisao.(ingresso := Some(ingressos.ingressos[IndiceDe(old(ingressos.ingressos), MI.PorCodigo(codigoQr))])))
  {
    var decisao := DecisaoValidacao(ingressos.ingressos, ingressos.sha256, eventos.eventos, eventos.tiposIngresso, codigoQr);
    if !decisao.valido {
      return decisao;
    }
    var indice := IndiceDe(ingressos.ingressos, MI.PorCodigo(codigoQr));
    var _ := ingressos.MarcarComoUsado(decisao.ingresso.value.id, agora);
    return decisao.(ingresso := Some(ingressos.ingressos[indice]));
  }

  /** The integer part of the statistics answer. */
  datatype Estatisticas = Estatisticas(
    ingressosVendidos: nat,
    ingressosUsados: nat,
    ingressosDisponiveis: int)

  /** `estatisticasEvento` for the authenticated user `organizadorId` ("" when
      nobody is authenticated). */
  function EstatisticasEvento(ingressos: seq<MI.Ingresso>, eventos: seq<ME.Evento>, tipos: seq<ME.TipoIngresso>,
                              organizadorId: string, eventoId: string): (r: (Resposta, Option<Estatisticas>))
    ensures organizadorId == "" ==> r.0.status == 401 && r.1.None?
    ensures r.1.Some? <==> r.0.status == 200
    ensures r.1.Some? <==> && organizadorId != ""
                           && (exists k :: 0 <= k < |eventos| && eventos[k].id == eventoId)
                           && eventos[IndiceDe(eventos, ME.EventoPorId(eventoId))].organizadorId == organizadorId
    ensures organizadorId != "" && (exists k :: 0 <= k < |eventos| && eventos[k].id == eventoId)
            && eventos[IndiceDe(eventos, ME.EventoPorId(eventoId))].organizadorId != organizadorId
            ==> r.0 == Resposta(403, MsgSemPermissao)
    ensures organizadorId != "" && (forall k :: 0 <= k < |eventos| ==> eventos[k].id != eventoId)
            ==> r.0 == Resposta(404, MsgEventoNaoEncontrado)
    ensures r.1.Some? ==>
      && r.1.value.ingressosVendidos == MI.ContarIngressosVendidos(ingressos, eventoId)
      && r.1.value.ingressosUsados == MI.ContarIngressosUsados(ingressos, eventoId)
      && r.1.value.ingressosUsados <= r.1.value.ingressosVendidos
      && r.1.value.ingressosDisponiveis == eventos[IndiceDe(eventos, ME.EventoPorId(eventoId))].capacidadeMaxima - r.1.value.ingressosVendidos
  {
    if organizadorId == "" then
      (Resposta(401, MsgNaoAutenticado), None)
    else
      match ME.BuscarPorId(eventos, tipos, eventoId)
      case None => (Resposta(404, MsgEventoNaoEncontrado), None)
      case Some(evento) =>
        if evento.organizadorId != organizadorId then
          (Resposta(403, MsgSemPermissao), None)
        else
          var totalVendidos := MI.ContarIngressosVendidos(ingressos, eventoId);
          var totalUsados := MI.ContarIngressosUsados(ingressos, eventoId);
          MI.UsadosNaoExcedemVendidos(ingressos, eventoId);
          (Resposta(200, ""), Some(Estatisticas(totalVendidos, totalUsados, evento.capacidadeMaxima - totalVendidos)))
  }
}
