/** The purchase of the layered implementation
    (backend/src/domain/usecases/comprar-ingresso-usecase.ts): early returns
    on the user, the event and the tier, the construction of a confirmed
    purchase, the in-memory reduction of the tier, and two repository writes.

    `Date.now()`, `new Date()`, `Math.random()` and `gerarId()` are the
    `Sorteio` of one call; Base64 is a function-valued field of the use-case. */
module ComprarIngresso {
  import opened Wrappers
  import opened Colecoes
  import Texto
  import C = Compras
  import E = Eventos
  import I = Ingressos
  import U = Usuarios
  import R = Repositorios
  import V = ValidarIngresso

  datatype Requisicao = Requisicao(usuarioId: string, eventoId: string, ingressoId: string, quantidade: int)

  datatype Resposta = Resposta(compra: Option<C.PropsCompra>, sucesso: bool, mensagem: string)

  /** The nondeterministic inputs of one call: the clock (read as one
      instant), the random suffix of the QR code and the purchase id. */
  datatype Sorteio = Sorteio(instante: nat, aleatorio: string, idCompra: string)

  /** The tier and the purchase the call would write. */
  datatype Venda = Venda(compra: C.PropsCompra, ingresso: I.PropsIngresso)

  const MsgUsuarioNaoEncontrado := "Usuário não encontrado"
  const MsgEventoNaoEncontrado := "Evento não encontrado"
  const MsgEventoInativo := "Evento não está ativo para compra de ingressos"
  const MsgTipoNaoEncontrado := "Tipo de ingresso não encontrado"
  const MsgSucesso := "Compra realizada com sucesso"

  function MsgDisponivel(n: int): string
  {
    "Apenas " + Texto.Numero(n) + " ingresso(s) disponível(is)"
  }

  /** `gerarCodigoQR`: "QR_<event>_<user>_<Date.now()>_<random>". */
  function GerarCodigoQR(req: Requisicao, instante: nat, aleatorio: string): string
  {
    "QR_" + req.eventoId + "_" + req.usuarioId + "_" + Texto.Decimal(instante) + "_" + aleatorio
  }

  /** The text `gerarHashSeguranca` encodes. */
  function DadosHash(codigoQR: string, req: Requisicao, instante: nat): string
  {
    codigoQR + "_" + req.usuarioId + "_" + req.eventoId + "_" + req.ingressoId + "_" + Texto.Decimal(instante)
  }

  /** `gerarHashSeguranca`: Base64 of the code and the request's ids. */
  function GerarHashSeguranca(base64: string -> string, codigoQR: string, req: Requisicao, instante: nat): string
  {
    base64(DadosHash(codigoQR, req, instante))
  }

  /** The `CompraProps` the call builds for tier `t`. */
  function DadosDaCompra(req: Requisicao, t: I.PropsIngresso, base64: string -> string, s: Sorteio): C.DadosCompra
  {
    var codigoQR := GerarCodigoQR(req, s.instante, s.aleatorio);
    C.DadosCompra("", req.usuarioId, req.eventoId, req.ingressoId, req.quantidade, t.preco * req.quantidade,
                  codigoQR, "confirmada", GerarHashSeguranca(base64, codigoQR, req, s.instante), None, None)
  }

  /** The user, the event and the tier are found and the event is active. */
  predicate Encontrados(usuarios: map<string, U.PropsUsuario>, eventos: map<string, E.PropsEvento>,
                        ingressos: map<string, I.PropsIngresso>, req: Requisicao)
  {
    && req.usuarioId in usuarios && req.eventoId in eventos && eventos[req.eventoId].status == E.Ativo
    && req.ingressoId in ingressos
  }

  lemma ProdutoPositivo(p: int, q: int)
    requires q > 0
    ensures p * q > 0 <==> p > 0
  {
    if p <= 0 {
      assert p * q <= 0 * q;
    }
  }

  /** What the `Compra` constructor demands of the data the use-case builds:
      the code always starts with "QR_" and the status literal is known, so
      only the ids, the quantity, the total and the hash can fail. */
  lemma DadosDaCompraAceitos(req: Requisicao, t: I.PropsIngresso, base64: string -> string, s: Sorteio)
    ensures C.ValidarDados(DadosDaCompra(req, t, base64, s)).None? <==>
      && req.usuarioId != "" && req.eventoId != "" && req.ingressoId != ""
      && req.quantidade > 0 && t.preco * req.quantidade > 0
      && GerarHashSeguranca(base64, GerarCodigoQR(req, s.instante, s.aleatorio), req, s.instante) != ""
  {
    var d := DadosDaCompra(req, t, base64, s);
    assert d.codigoQR[0] == 'Q';
    C.StatusIdaEVolta(C.Confirmada);
  }

  /** Everything `executar` decides before its first write: the refusal
      message of the first failed check, or the purchase and the reduced tier. */
  function Planejar(usuarios: map<string, U.PropsUsuario>, eventos: map<string, E.PropsEvento>,
                    ingressos: map<string, I.PropsIngresso>, base64: string -> string,
                    req: Requisicao, s: Sorteio): (r: Result<Venda>)
    ensures req.usuarioId !in usuarios ==> r == Err(MsgUsuarioNaoEncontrado)
    ensures req.usuarioId in usuarios && req.eventoId !in eventos ==> r == Err(MsgEventoNaoEncontrado)
    ensures req.usuarioId in usuarios && req.eventoId in eventos && eventos[req.eventoId].status != E.Ativo ==>
      r == Err(MsgEventoInativo)
    ensures (&& req.usuarioId in usuarios && req.eventoId in eventos && eventos[req.eventoId].status == E.Ativo
             && req.ingressoId !in ingressos)
            ==> r == Err(MsgTipoNaoEncontrado)
    ensures Encontrados(usuarios, eventos, ingressos, req) && ingressos[req.ingressoId].quantidadeDisponivel < req.quantidade ==>
      r == Err(MsgDisponivel(ingressos[req.ingressoId].quantidadeDisponivel))
    ensures req.quantidade <= 0 ==> r.Err?
    ensures (&& Encontrados(usuarios, eventos, ingressos, req)
             && req.quantidade <= ingressos[req.ingressoId].quantidadeDisponivel && r.Err?)
            ==> Some(r.mensagem) == C.ValidarDados(DadosDaCompra(req, ingressos[req.ingressoId], base64, s))
    ensures r.Ok? <==> && Encontrados(usuarios, eventos, ingressos, req)
                       && 0 < req.quantidade <= ingressos[req.ingressoId].quantidadeDisponivel
                       && req.usuarioId != "" && req.eventoId != "" && req.ingressoId != ""
                       && ingressos[req.ingressoId].preco > 0
                       && GerarHashSeguranca(base64, GerarCodigoQR(req, s.instante, s.aleatorio), req, s.instante) != ""
    ensures r.Ok? ==>
      var t := ingressos[req.ingressoId];
      var c := r.value.compra;
      && c.id == s.idCompra && c.status == C.Confirmada
      && c.usuarioId == req.usuarioId && c.eventoId == req.eventoId && c.ingressoId == req.ingressoId
      && c.quantidade == req.quantidade && c.valorTotal == t.preco * req.quantidade
      && c.codigoQR == GerarCodigoQR(req, s.instante, s.aleatorio)
      && c.hashSeguranca == GerarHashSeguranca(base64, c.codigoQR, req, s.instante)
      && c.criadoEm == s.instante && c.atualizadoEm == s.instante
      && r.value.ingresso == t.(quantidadeDisponivel := t.quantidadeDisponivel - req.quantidade, atualizadoEm := s.instante)
      && 0 <= r.value.ingresso.quantidadeDisponivel
      && r.value.ingresso.quantidadeDisponivel + c.quantidade == t.quantidadeDisponivel
  {
    if req.usuarioId !in usuarios then Err(MsgUsuarioNaoEncontrado)
    else if req.eventoId !in eventos then Err(MsgEventoNaoEncontrado)
    else if eventos[req.eventoId].status != E.Ativo then Err(MsgEventoInativo)
    else if req.ingressoId !in ingressos then Err(MsgTipoNaoEncontrado)
    else
      var t := ingressos[req.ingressoId];
      if t.quantidadeDisponivel < req.quantidade then Err(MsgDisponivel(t.quantidadeDisponivel))
      else Vender(req, t, base64, s)
  }

  /** The last step of `executar`'s plan, once the tier holds enough tickets:
      build the purchase and reduce the tier. */
  function Vender(req: Requisicao, t: I.PropsIngresso, base64: string -> string, s: Sorteio): (r: Result<Venda>)
    requires req.quantidade <= t.quantidadeDisponivel
    ensures r.Ok? <==> && 0 < req.quantidade
                       && req.usuarioId != "" && req.eventoId != "" && req.ingressoId != ""
                       && t.preco > 0
                       && GerarHashSeguranca(base64, GerarCodigoQR(req, s.instante, s.aleatorio), req, s.instante) != ""
    ensures r.Err? ==> Some(r.mensagem) == C.ValidarDados(DadosDaCompra(req, t, base64, s))
    ensures r.Ok? ==>
      var c := r.value.compra;
      && c.id == s.idCompra && c.status == C.Confirmada
      && c.usuarioId == req.usuarioId && c.eventoId == req.eventoId && c.ingressoId == req.ingressoId
      && c.quantidade == req.quantidade && c.valorTotal == t.preco * req.quantidade
      && c.codigoQR == GerarCodigoQR(req, s.instante, s.aleatorio)
      && c.hashSeguranca == GerarHashSeguranca(base64, c.codigoQR, req, s.instante)
      && c.criadoEm == s.instante && c.atualizadoEm == s.instante
      && r.value.ingresso == t.(quantidadeDisponivel := t.quantidadeDisponivel - req.quantidade, atualizadoEm := s.instante)
      && 0 <= r.value.ingresso.quantidadeDisponivel
      && r.value.ingresso.quantidadeDisponivel + c.quantidade == t.quantidadeDisponivel
  {
    DadosDaCompraAceitos(req, t, base64, s);
    match C.NovaCompra(DadosDaCompra(req, t, base64, s), s.idCompra, s.instante)
    case Err(erro) =>
      if req.quantidade > 0 then (ProdutoPositivo(t.preco, req.quantidade); Err(erro)) else Err(erro)
    case Ok(compra) =>
      ProdutoPositivo(t.preco, req.quantidade);
      Ok(Venda(compra, I.ReduzirQuantidade(t, req.quantidade, s.instante).value))
  }

  /** The tier's own event is never consulted: moving the requested tier
      to another event changes neither the outcome nor the purchase. */
  lemma TipoDeOutroEventoAceito(usuarios: map<string, U.PropsUsuario>, eventos: map<string, E.PropsEvento>,
                                ingressos: map<string, I.PropsIngresso>, base64: string -> string,
                                req: Requisicao, s: Sorteio, outroEvento: string)
    requires req.ingressoId in ingressos
    ensures var a := Planejar(usuarios, eventos, ingressos, base64, req, s);
      var b := Planejar(usuarios, eventos, ingressos[req.ingressoId := ingressos[req.ingressoId].(eventoId := outroEvento)],
                        base64, req, s);
      && a.Ok? == b.Ok?
      && (a.Err? ==> b == a)
      && (a.Ok? ==> b.value.compra == a.value.compra && b.value.ingresso == a.value.ingresso.(eventoId := outroEvento))
  {
  }

  /** The recorded QR data is long: at least twelve characters. */
  lemma DadosHashLongos(req: Requisicao, s: Sorteio)
    ensures |DadosHash(GerarCodigoQR(req, s.instante, s.aleatorio), req, s.instante)| >= 12
  {
    var d := Texto.Decimal(s.instante);
    assert |GerarCodigoQR(req, s.instante, s.aleatorio)| >= 7;
  }

  /** A purchase code reads "QR_<event id>_…": it names its event, so codes
      minted for two different events whose ids have the same length differ. */
  lemma CodigoQRIdentificaEvento(req1: Requisicao, instante1: nat, aleatorio1: string,
                                 req2: Requisicao, instante2: nat, aleatorio2: string)
    requires |req1.eventoId| == |req2.eventoId|
    ensures var c := GerarCodigoQR(req1, instante1, aleatorio1);
      |c| > 4 + |req1.eventoId| && c[..3] == "QR_" && c[3..3 + |req1.eventoId|] == req1.eventoId
      && c[3 + |req1.eventoId|] == '_'
    ensures GerarCodigoQR(req1, instante1, aleatorio1) == GerarCodigoQR(req2, instante2, aleatorio2)
      ==> req1.eventoId == req2.eventoId
  {
    var c1 := GerarCodigoQR(req1, instante1, aleatorio1);
    var c2 := GerarCodigoQR(req2, instante2, aleatorio2);
    var n := 3 + |req1.eventoId|;
    assert c1[..n] == "QR_" + req1.eventoId;
    assert c2[..n] == "QR_" + req2.eventoId;
    assert ("QR_" + req1.eventoId)[3..] == req1.eventoId;
  }

  /** Read back through a decoder, a purchase hash starts with the purchase
      code and an '_': hashes made for two different codes of the same length
      differ. */
  lemma HashRevelaCodigo(base64: string -> string, decodificar: string -> string,
                         c1: string, req1: Requisicao, instante1: nat,
                         c2: string, req2: Requisicao, instante2: nat)
    requires forall x :: decodificar(base64(x)) == x
    requires |c1| == |c2|
    ensures var d := decodificar(GerarHashSeguranca(base64, c1, req1, instante1));
      |d| > |c1| && d[..|c1|] == c1 && d[|c1|] == '_'
    ensures GerarHashSeguranca(base64, c1, req1, instante1) == GerarHashSeguranca(base64, c2, req2, instante2)
      ==> c1 == c2
  {
    var d1 := DadosHash(c1, req1, instante1);
    var d2 := DadosHash(c2, req2, instante2);
    assert decodificar(GerarHashSeguranca(base64, c1, req1, instante1)) == d1;
    assert d1[..|c1|] == c1;
    assert d2[..|c2|] == c2;
    if GerarHashSeguranca(base64, c1, req1, instante1) == GerarHashSeguranca(base64, c2, req2, instante2) {
      assert decodificar(GerarHashSeguranca(base64, c2, req2, instante2)) == d2;
    }
  }

  /** Buy, then present the code: when Base64 never shortens its input, the
      purchase just written lets its holder in, because it is confirmed, its
      hash is longer than ten characters and its event is active. */
  lemma CompraRecemFeitaValida(usuarios: map<string, U.PropsUsuario>, eventos: map<string, E.PropsEvento>,
                               ingressos: map<string, I.PropsIngresso>, compras: seq<C.PropsCompra>,
                               base64: string -> string, req: Requisicao, s: Sorteio, agora: int)
    requires forall x :: |base64(x)| >= |x|
    requires Planejar(usuarios, eventos, ingressos, base64, req, s).Ok?
    requires R.InserirCompra(compras, Planejar(usuarios, eventos, ingressos, base64, req, s).value.compra).Ok?
    ensures var c := Planejar(usuarios, eventos, ingressos, base64, req, s).value.compra;
      && R.BuscarPorCodigoQR(compras + [c], c.codigoQR) == Some(c)
      && V.Validar(compras + [c], eventos, c.codigoQR, agora).sucesso
  {
    var c := Planejar(usuarios, eventos, ingressos, base64, req, s).value.compra;
    var tabela := compras + [c];
    forall k | 0 <= k < |compras| ensures !R.CompraPorCodigo(c.codigoQR)(tabela[k]) {
      assert tabela[k] == compras[k];
    }
    PrimeiroIndice(tabela, R.CompraPorCodigo(c.codigoQR), |compras|);
    DadosHashLongos(req, s);
    assert |c.hashSeguranca| >= |DadosHash(c.codigoQR, req, s.instante)|;
  }

  class ComprarIngressoUseCase {
    const compraRepository: R.RepositorioCompras
    const ingressoRepository: R.RepositorioIngressos
    const eventoRepository: R.RepositorioEventos
    const usuarioRepository: R.RepositorioUsuarios
    const base64: string -> string

    constructor (compraRepository: R.RepositorioCompras, ingressoRepository: R.RepositorioIngressos,
                 eventoRepository: R.RepositorioEventos, usuarioRepository: R.RepositorioUsuarios,
                 base64: string -> string)
      ensures this.compraRepository == compraRepository && this.ingressoRepository == ingressoRepository
      ensures this.eventoRepository == eventoRepository && this.usuarioRepository == usuarioRepository
      ensures this.base64 == base64
    {
      this.compraRepository := compraRepository;
      this.ingressoRepository := ingressoRepository;
      this.eventoRepository := eventoRepository;
      this.usuarioRepository := usuarioRepository;
      this.base64 := base64;
    }

    /** `executar`. `falhaSalvar` and `falhaAtualizar` are errors the two
        writes may report; either is caught and answered without a purchase.
        The purchase is written first and is not undone when the tier
        update then fails. */
    method Executar(req: Requisicao, s: Sorteio, falhaSalvar: Option<string>, falhaAtualizar: Option<string>)
      returns (resposta: Resposta)
      modifies compraRepository, ingressoRepository
      ensures var plano := Planejar(usuarioRepository.usuarios, eventoRepository.eventos, old(ingressoRepository.ingressos),
                                    base64, req, s);
        plano.Err? ==>
          && resposta == Resposta(None, false, plano.mensagem)
          && compraRepository.compras == old(compraRepository.compras)
          && ingressoRepository.ingressos == old(ingressoRepository.ingressos)
      ensures var plano := Planejar(usuarioRepository.usuarios, eventoRepository.eventos, old(ingressoRepository.ingressos),
                                    base64, req, s);
        var insercao := if plano.Ok? then R.InserirCompra(old(compraRepository.compras), plano.value.compra) else Err("");
        (plano.Ok? && (falhaSalvar.Some? || insercao.Err?)) ==>
          && resposta == Resposta(None, false, if falhaSalvar.Some? then falhaSalvar.value else insercao.mensagem)
          && compraRepository.compras == old(compraRepository.compras)
          && ingressoRepository.ingressos == old(ingressoRepository.ingressos)
      ensures var plano := Planejar(usuarioRepository.usuarios, eventoRepository.eventos, old(ingressoRepository.ingressos),
                                    base64, req, s);
        (plano.Ok? && falhaSalvar.None? && R.InserirCompra(old(compraRepository.compras), plano.value.compra).Ok?) ==>
          && compraRepository.compras == old(compraRepository.compras) + [plano.value.compra]
          && (falhaAtualizar.Some? ==>
                resposta == Resposta(None, false, falhaAtualizar.value)
                && ingressoRepository.ingressos == old(ingressoRepository.ingressos))
          && (falhaAtualizar.None? ==>
                resposta == Resposta(Some(plano.value.compra), true, MsgSucesso)
                && ingressoRepository.ingressos == R.AtualizarIngresso(old(ingressoRepository.ingressos), plano.value.ingresso))
      ensures resposta.sucesso <==> resposta.compra.Some?
    {
      var plano := Planejar(usuarioRepository.usuarios, eventoRepository.eventos, ingressoRepository.ingressos, base64, req, s);
      if plano.Err? {
        return Resposta(None, false, plano.mensagem);
      }
      var compra := plano.value.compra;
      var ingresso := plano.value.ingresso;
      var erro := compraRepository.Salvar(compra, falhaSalvar);
      if erro.Some? {
        return Resposta(None, false, erro.value);
      }
      erro := ingressoRepository.Atualizar(ingresso, falhaAtualizar);
      if erro.Some? {
        return Resposta(None, false, erro.value);
      }
      resposta := Resposta(Some(compra), true, MsgSucesso);
    }
  }
}
