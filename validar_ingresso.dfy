/** The gate check of the layered implementation
    (backend/src/domain/usecases/validar-ingresso-usecase.ts): a chain of
    early returns on the purchase found by its QR code, ending in the
    transition confirmada -> utilizada and one repository update. */
module ValidarIngresso {
  import opened Wrappers
  import opened Colecoes
  import C = Compras
  import E = Eventos
  import R = Repositorios

  datatype DadosParticipante = DadosParticipante(nome: string, documento: string, nomeEvento: string, tipoIngresso: string)

  datatype Resposta = Resposta(
    compra: Option<C.PropsCompra>,
    valido: bool,
    jaUtilizado: bool,
    sucesso: bool,
    mensagem: string,
    dadosParticipante: Option<DadosParticipante>)

  const MsgNaoEncontrado := "Código QR inválido ou não encontrado"
  const MsgNaoConfirmado := "Ingresso não foi confirmado ou está cancelado"
  const MsgJaUtilizado := "Este ingresso já foi utilizado para entrada"
  const MsgFalsificacao := "Código de segurança inválido - possível falsificação"
  const MsgEventoNaoEncontrado := "Evento não encontrado"
  const MsgEventoCancelado := "Evento foi cancelado"
  const MsgEntradaAutorizada := "Ingresso válido - entrada autorizada"

  /** `validarHashSeguranca`: a non-empty hash longer than ten characters.
      The emptiness test adds nothing: the length alone decides. */
  predicate HashValido(c: C.PropsCompra)
    ensures HashValido(c) <==> |c.hashSeguranca| >= 11
    ensures |c.hashSeguranca| <= 10 ==> !HashValido(c)
  {
    c.hashSeguranca != "" && |c.hashSeguranca| > 10
  }

  /** The fixed participant data of the success answer; only the event
      name is looked up. */
  function Participante(evento: E.PropsEvento): DadosParticipante
  {
    DadosParticipante("Nome do Participante", "XXX.XXX.XXX-XX", evento.nome, "Tipo do Ingresso")
  }

  /** The answer of `executar` for the purchase table `compras` and the event
      table `eventos`, when the final update is written. A refusal carries
      the purchase as found; a success carries it after `utilizarIngresso()`. */
  function Validar(compras: seq<C.PropsCompra>, eventos: map<string, E.PropsEvento>, codigoQR: string, agora: int): (r: Resposta)
    ensures R.BuscarPorCodigoQR(compras, codigoQR).None? ==>
      r == Resposta(None, false, false, false, MsgNaoEncontrado, None)
    ensures R.BuscarPorCodigoQR(compras, codigoQR).Some? ==>
      var c := R.BuscarPorCodigoQR(compras, codigoQR).value;
      && r.compra.Some? && r.compra.value.id == c.id && r.compra.value.codigoQR == codigoQR
      && ((c.status == C.Pendente || c.status == C.Cancelada) ==>
            r == Resposta(Some(c), false, false, false, MsgNaoConfirmado, None))
      && (c.status == C.Utilizada ==> r == Resposta(Some(c), true, true, false, MsgJaUtilizado, None))
      && (c.status == C.Confirmada && |c.hashSeguranca| <= 10 ==>
            r == Resposta(Some(c), false, false, false, MsgFalsificacao, None))
      && (c.status == C.Confirmada && |c.hashSeguranca| > 10 && c.eventoId !in eventos ==>
            r == Resposta(Some(c), false, false, false, MsgEventoNaoEncontrado, None))
      && (c.status == C.Confirmada && |c.hashSeguranca| > 10 && c.eventoId in eventos
          && eventos[c.eventoId].status == E.Cancelado ==>
            r == Resposta(Some(c), false, false, false, MsgEventoCancelado, None))
    ensures r.sucesso <==> && R.BuscarPorCodigoQR(compras, codigoQR).Some?
                           && R.BuscarPorCodigoQR(compras, codigoQR).value.status == C.Confirmada
                           && |R.BuscarPorCodigoQR(compras, codigoQR).value.hashSeguranca| > 10
                           && R.BuscarPorCodigoQR(compras, codigoQR).value.eventoId in eventos
                           && eventos[R.BuscarPorCodigoQR(compras, codigoQR).value.eventoId].status != E.Cancelado
    ensures r.sucesso ==>
      var c := R.BuscarPorCodigoQR(compras, codigoQR).value;
      r == Resposta(Some(c.(status := C.Utilizada, atualizadoEm := agora)), true, false, true, MsgEntradaAutorizada,
                    Some(Participante(eventos[c.eventoId])))
    ensures r.jaUtilizado <==> R.BuscarPorCodigoQR(compras, codigoQR).Some? && R.BuscarPorCodigoQR(compras, codigoQR).value.status == C.Utilizada
    ensures r.valido <==> r.sucesso || r.jaUtilizado
  {
    match R.BuscarPorCodigoQR(compras, codigoQR)
    case None => Resposta(None, false, false, false, MsgNaoEncontrado, None)
    case Some(c) =>
      if c.status != C.Confirmada && c.status != C.Utilizada then
        Resposta(Some(c), false, false, false, MsgNaoConfirmado, None)
      else if c.status == C.Utilizada then
        Resposta(Some(c), true, true, false, MsgJaUtilizado, None)
      else if !HashValido(c) then
        Resposta(Some(c), false, false, false, MsgFalsificacao, None)
      else if c.eventoId !in eventos then
        Resposta(Some(c), false, false, false, MsgEventoNaoEncontrado, None)
      else if eventos[c.eventoId].status == E.Cancelado then
        Resposta(Some(c), false, false, false, MsgEventoCancelado, None)
      else
        Resposta(Some(C.Aplicar(c, C.Utilizar, agora).value), true, false, true, MsgEntradaAutorizada,
                 Some(Participante(eventos[c.eventoId])))
  }

  /** The purchase table after a call whose update is written: only a
      success writes, and it writes the used purchase back by id. */
  function AposValidar(compras: seq<C.PropsCompra>, eventos: map<string, E.PropsEvento>, codigoQR: string, agora: int): seq<C.PropsCompra>
  {
    var r := Validar(compras, eventos, codigoQR, agora);
    if r.sucesso then R.AtualizarCompra(compras, r.compra.value) else compras
  }

  /** After a successful entry the same code is answered "already used",
      with the purchase as written back, and that answer writes nothing. */
  lemma SegundaValidacaoJaUtilizada(compras: seq<C.PropsCompra>, eventos: map<string, E.PropsEvento>, codigoQR: string, agora: int, depois: int)
    requires Validar(compras, eventos, codigoQR, agora).sucesso
    ensures var s1 := AposValidar(compras, eventos, codigoQR, agora);
      var usada := Validar(compras, eventos, codigoQR, agora).compra.value;
      && R.BuscarPorCodigoQR(s1, codigoQR) == Some(usada)
      && Validar(s1, eventos, codigoQR, depois) == Resposta(Some(usada), true, true, false, MsgJaUtilizado, None)
      && AposValidar(s1, eventos, codigoQR, depois) == s1
  {
    var usada := Validar(compras, eventos, codigoQR, agora).compra.value;
    var s1 := R.AtualizarCompra(compras, usada);
    var i := IndiceDe(compras, R.CompraPorCodigo(codigoQR));
    assert compras[i] == R.BuscarPorCodigoQR(compras, codigoQR).value;
    assert s1[i] == usada;
    forall k | 0 <= k < i ensures !R.CompraPorCodigo(codigoQR)(s1[k]) {
      assert !R.CompraPorCodigo(codigoQR)(compras[k]);
    }
    PrimeiroIndice(s1, R.CompraPorCodigo(codigoQR), i);
  }

  /** How many of a run of calls with the same code, at the given instants,
      let someone in, each call seeing the table the previous one left. */
  function Entradas(compras: seq<C.PropsCompra>, eventos: map<string, E.PropsEvento>, codigoQR: string, instantes: seq<int>): nat
    decreases |instantes|
  {
    if instantes == [] then 0
    else
      (if Validar(compras, eventos, codigoQR, instantes[0]).sucesso then 1 else 0)
      + Entradas(AposValidar(compras, eventos, codigoQR, instantes[0]), eventos, codigoQR, instantes[1..])
  }

  /** Once the code leads to a used purchase, no later call lets anyone in. */
  lemma {:induction false} UtilizadaNaoEntraMais(compras: seq<C.PropsCompra>, eventos: map<string, E.PropsEvento>, codigoQR: string, instantes: seq<int>)
    requires R.BuscarPorCodigoQR(compras, codigoQR).Some?
    requires R.BuscarPorCodigoQR(compras, codigoQR).value.status == C.Utilizada
    ensures Entradas(compras, eventos, codigoQR, instantes) == 0
    decreases |instantes|
  {
    if instantes != [] {
      assert AposValidar(compras, eventos, codigoQR, instantes[0]) == compras;
      UtilizadaNaoEntraMais(compras, eventos, codigoQR, instantes[1..]);
    }
  }

  /** A purchase lets its holder in at most once, however often the code is
      presented. */
  lemma {:induction false} NoMaximoUmaEntrada(compras: seq<C.PropsCompra>, eventos: map<string, E.PropsEvento>, codigoQR: string, instantes: seq<int>)
    ensures Entradas(compras, eventos, codigoQR, instantes) <= 1
    decreases |instantes|
  {
    if instantes != [] {
      if Validar(compras, eventos, codigoQR, instantes[0]).sucesso {
        SegundaValidacaoJaUtilizada(compras, eventos, codigoQR, instantes[0], instantes[0]);
        UtilizadaNaoEntraMais(AposValidar(compras, eventos, codigoQR, instantes[0]), eventos, codigoQR, instantes[1..]);
      } else {
        NoMaximoUmaEntrada(compras, eventos, codigoQR, instantes[1..]);
      }
    }
  }

  class ValidarIngressoUseCase {
    const compraRepository: R.RepositorioCompras
    const eventoRepository: R.RepositorioEventos

    constructor (compraRepository: R.RepositorioCompras, eventoRepository: R.RepositorioEventos)
      ensures this.compraRepository == compraRepository && this.eventoRepository == eventoRepository
    {
      this.compraRepository := compraRepository;
      this.eventoRepository := eventoRepository;
    }

    /** `executar`; `falha` is an error the purchase update may report, which
        the catch turns into an answer without a purchase. */
    method Executar(codigoQR: string, agora: int, falha: Option<string>) returns (resposta: Resposta)
      modifies compraRepository
      ensures var v := Validar(old(compraRepository.compras), eventoRepository.eventos, codigoQR, agora);
        && (!v.sucesso ==> resposta == v && compraRepository.compras == old(compraRepository.compras))
        && (v.sucesso && falha.None? ==>
              resposta == v && compraRepository.compras == AposValidar(old(compraRepository.compras), eventoRepository.eventos, codigoQR, agora))
        && (v.sucesso && falha.Some? ==>
              resposta == Resposta(None, false, false, false, falha.value, None)
              && compraRepository.compras == old(compraRepository.compras))
    {
      var encontrada := R.BuscarPorCodigoQR(compraRepository.compras, codigoQR);
      if encontrada.None? {
        return Resposta(None, false, false, false, MsgNaoEncontrado, None);
      }
      var compra := encontrada.value;
      if compra.status != C.Confirmada && compra.status != C.Utilizada {
        return Resposta(Some(compra), false, false, false, MsgNaoConfirmado, None);
      }
      if compra.status == C.Utilizada {
        return Resposta(Some(compra), true, true, false, MsgJaUtilizado, None);
      }
      if !HashValido(compra) {
        return Resposta(Some(compra), false, false, false, MsgFalsificacao, None);
      }
      if compra.eventoId !in eventoRepository.eventos {
        return Resposta(Some(compra), false, false, false, MsgEventoNaoEncontrado, None);
      }
      var evento := eventoRepository.eventos[compra.eventoId];
      if evento.status == E.Cancelado {
        return Resposta(Some(compra), false, false, false, MsgEventoCancelado, None);
      }
      compra := compra.(status := C.Utilizada, atualizadoEm := agora);
      var erro := compraRepository.Atualizar(compra, falha);
      if erro.Some? {
        return Resposta(None, false, false, false, erro.value, None);
      }
      resposta := Resposta(Some(compra), true, false, true, MsgEntradaAutorizada, Some(Participante(evento)));
    }
  }
}
