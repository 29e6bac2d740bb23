/** The purchase entity of the layered implementation
    (backend/src/domain/entities/compra.ts): field validation on construction
    and the status machine pendente -> confirmada -> utilizada, with
    cancellation from anywhere but utilizada. */
module Compras {
  import opened Wrappers

  datatype StatusCompra = Pendente | Confirmada | Cancelada | Utilizada

  /** The status literal as stored and serialised. */
  function TextoDeStatus(s: StatusCompra): string
  {
    match s
    case Pendente => "pendente"
    case Confirmada => "confirmada"
    case Cancelada => "cancelada"
    case Utilizada => "utilizada"
  }

  /** Membership in `['pendente', 'confirmada', 'cancelada', 'utilizada']`. */
  function StatusDeTexto(t: string): (r: Option<StatusCompra>)
    ensures r.Some? ==> TextoDeStatus(r.value) == t
    ensures r.None? <==> forall s: StatusCompra :: TextoDeStatus(s) != t
  {
    if t == "pendente" then Some(Pendente)
    else if t == "confirmada" then Some(Confirmada)
    else if t == "cancelada" then Some(Cancelada)
    else if t == "utilizada" then Some(Utilizada)
    else None
  }

  /** The literal of every status is read back as that status. */
  lemma StatusIdaEVolta(s: StatusCompra)
    ensures StatusDeTexto(TextoDeStatus(s)) == Some(s)
  {
  }

  /** What the constructor receives. "" is a missing string and 0 a missing
      number; `status` arrives as text. */
  datatype DadosCompra = DadosCompra(
    id: string,
    usuarioId: string,
    eventoId: string,
    ingressoId: string,
    quantidade: int,
    valorTotal: int,
    codigoQR: string,
    status: string,
    hashSeguranca: string,
    criadoEm: Option<int>,
    atualizadoEm: Option<int>)

  /** The stored record. */
  datatype PropsCompra = PropsCompra(
    id: string,
    usuarioId: string,
    eventoId: string,
    ingressoId: string,
    quantidade: int,
    valorTotal: int,
    codigoQR: string,
    status: StatusCompra,
    hashSeguranca: string,
    criadoEm: int,
    atualizadoEm: int)

  /** `validarDados`: the message of the first failed check, or None. */
  function ValidarDados(d: DadosCompra): (r: Option<string>)
    ensures r.None? <==> && d.usuarioId != "" && d.eventoId != "" && d.ingressoId != ""
                         && d.quantidade > 0 && d.valorTotal > 0
                         && d.codigoQR != "" && d.hashSeguranca != ""
                         && StatusDeTexto(d.status).Some?
    ensures d.usuarioId != "" && d.eventoId != "" && d.ingressoId != "" && d.quantidade <= 0 ==>
      r == Some("Quantidade deve ser maior que zero")
  {
    if d.usuarioId == "" then Some("ID do usuário é obrigatório")
    else if d.eventoId == "" then Some("ID do evento é obrigatório")
    else if d.ingressoId == "" then Some("ID do ingresso é obrigatório")
    else if d.quantidade == 0 || d.quantidade <= 0 then Some("Quantidade deve ser maior que zero")
    else if d.valorTotal == 0 || d.valorTotal < 0 then Some("Valor total deve ser maior ou igual a zero")
    else if d.codigoQR == "" then Some("Código QR é obrigatório")
    else if d.hashSeguranca == "" then Some("Hash de segurança é obrigatório")
    else if StatusDeTexto(d.status).None? then Some("Status inválido")
    else None
  }

  /** The constructor: validation, then the defaults for id and timestamps
      (`idGerado` and `agora` stand for `gerarId()` and `new Date()`). */
  function NovaCompra(d: DadosCompra, idGerado: string, agora: int): (r: Result<PropsCompra>)
    ensures r.Err? <==> ValidarDados(d).Some?
    ensures r.Err? ==> r.mensagem == ValidarDados(d).value
    ensures r.Ok? ==>
      && r.value.id == (if d.id != "" then d.id else idGerado)
      && TextoDeStatus(r.value.status) == d.status
      && r.value.usuarioId == d.usuarioId && r.value.eventoId == d.eventoId
      && r.value.ingressoId == d.ingressoId && r.value.quantidade == d.quantidade && d.quantidade > 0
      && r.value.valorTotal == d.valorTotal && d.valorTotal > 0
      && r.value.codigoQR == d.codigoQR && r.value.hashSeguranca == d.hashSeguranca
      && r.value.criadoEm == d.criadoEm.GetOr(agora) && r.value.atualizadoEm == d.atualizadoEm.GetOr(agora)
  {
    match ValidarDados(d)
    case Some(erro) => Err(erro)
    case None =>
      Ok(PropsCompra(
        if d.id != "" then d.id else idGerado,
        d.usuarioId, d.eventoId, d.ingressoId, d.quantidade, d.valorTotal, d.codigoQR,
        StatusDeTexto(d.status).value, d.hashSeguranca,
        d.criadoEm.GetOr(agora), d.atualizadoEm.GetOr(agora)))
  }

  /** A record the constructor accepts. */
  predicate Valida(p: PropsCompra)
  {
    && p.usuarioId != "" && p.eventoId != "" && p.ingressoId != ""
    && p.quantidade > 0 && p.valorTotal > 0 && p.codigoQR != "" && p.hashSeguranca != ""
  }

  datatype Operacao = Confirmar | Cancelar | Utilizar

  /** The status change of `confirmarCompra`, `cancelarCompra` and
      `utilizarIngresso`, or the error each throws. */
  function Transicao(s: StatusCompra, op: Operacao): (r: Result<StatusCompra>)
    ensures op == Confirmar ==> (r.Ok? <==> s == Pendente)
    ensures op == Cancelar ==> (r.Ok? <==> s != Utilizada)
    ensures op == Utilizar ==> (r.Ok? <==> s == Confirmada)
    ensures r.Ok? ==> r.value == match op
                                 case Confirmar => Confirmada
                                 case Cancelar => Cancelada
                                 case Utilizar => Utilizada
  {
    match op
    case Confirmar =>
      if s != Pendente then Err("Apenas compras pendentes podem ser confirmadas") else Ok(Confirmada)
    case Cancelar =>
      if s == Utilizada then Err("Compras já utilizadas não podem ser canceladas") else Ok(Cancelada)
    case Utilizar =>
      if s != Confirmada then Err("Apenas ingressos confirmados podem ser utilizados") else Ok(Utilizada)
  }

  /** The record after an operation at instant `agora`: only `status` and
      `atualizadoEm` change, and only when the transition is allowed. */
  function Aplicar(p: PropsCompra, op: Operacao, agora: int): (r: Result<PropsCompra>)
    ensures r.Ok? <==> Transicao(p.status, op).Ok?
    ensures r.Ok? ==> r.value == p.(status := Transicao(p.status, op).value, atualizadoEm := agora)
    ensures Valida(p) && r.Ok? ==> Valida(r.value)
  {
    match Transicao(p.status, op)
    case Err(erro) => Err(erro)
    case Ok(s) => Ok(p.(status := s, atualizadoEm := agora))
  }

  /** The status after a run of operations where a caller catches each
      refusal and carries on. */
  function StatusAposOperacoes(s: StatusCompra, ops: seq<Operacao>): StatusCompra
    decreases |ops|
  {
    if ops == [] then s
    else StatusAposOperacoes(if Transicao(s, ops[0]).Ok? then Transicao(s, ops[0]).value else s, ops[1..])
  }

  /** How many operations of that run were `op` and succeeded. */
  function Sucessos(s: StatusCompra, ops: seq<Operacao>, op: Operacao): nat
    decreases |ops|
  {
    if ops == [] then 0
    else
      var proximo := if Transicao(s, ops[0]).Ok? then Transicao(s, ops[0]).value else s;
      (if ops[0] == op && Transicao(s, ops[0]).Ok? then 1 else 0) + Sucessos(proximo, ops[1..], op)
  }

  /** `utilizada` is terminal: no run of operations leaves it, and none of
      them succeeds. */
  lemma {:induction false} UtilizadaTerminal(ops: seq<Operacao>, op: Operacao)
    ensures StatusAposOperacoes(Utilizada, ops) == Utilizada
    ensures Sucessos(Utilizada, ops, op) == 0
    decreases |ops|
  {
    if ops != [] {
      UtilizadaTerminal(ops[1..], op);
    }
  }

  /** A purchase is used at most once, whatever is attempted on it. */
  lemma {:induction false} UtilizarNoMaximoUmaVez(s: StatusCompra, ops: seq<Operacao>)
    ensures Sucessos(s, ops, Utilizar) <= 1
    ensures s == Utilizada ==> Sucessos(s, ops, Utilizar) == 0
    decreases |ops|
  {
    if ops != [] {
      var proximo := if Transicao(s, ops[0]).Ok? then Transicao(s, ops[0]).value else s;
      if ops[0] == Utilizar && Transicao(s, ops[0]).Ok? {
        UtilizadaTerminal(ops[1..], Utilizar);
      } else if s == Utilizada {
        UtilizadaTerminal(ops, Utilizar);
      } else {
        UtilizarNoMaximoUmaVez(proximo, ops[1..]);
      }
    }
  }

  /** Ending in `utilizada` from another status means a run passed through
      `confirmada` and a `Utilizar` succeeded there. */
  lemma {:induction false} UtilizadaSoAposConfirmada(s: StatusCompra, ops: seq<Operacao>)
    requires s != Utilizada
    requires StatusAposOperacoes(s, ops) == Utilizada
    ensures Sucessos(s, ops, Utilizar) == 1
    decreases |ops|
  {
    var proximo := if Transicao(s, ops[0]).Ok? then Transicao(s, ops[0]).value else s;
    if ops[0] == Utilizar && Transicao(s, ops[0]).Ok? {
      UtilizadaTerminal(ops[1..], Utilizar);
    } else {
      UtilizadaSoAposConfirmada(proximo, ops[1..]);
    }
  }

  /** Cancelling is idempotent. */
  lemma CancelarIdempotente(p: PropsCompra, a: int, b: int)
    requires Aplicar(p, Cancelar, a).Ok?
    ensures Aplicar(Aplicar(p, Cancelar, a).value, Cancelar, b) == Ok(p.(status := Cancelada, atualizadoEm := b))
  {
  }

  /** The entity object; its methods reassign `props`. */
  class Compra {
    var props: PropsCompra

    /** Only a record that passes `validarDados` is constructed; the
        rejected inputs are the `Err` cases of `NovaCompra`. */
    constructor (dados: DadosCompra, idGerado: string, agora: int)
      requires NovaCompra(dados, idGerado, agora).Ok?
      ensures props == NovaCompra(dados, idGerado, agora).value
    {
      props := NovaCompra(dados, idGerado, agora).value;
    }

    /** The `is*` tests compare the stored literal; each holds exactly for
        its own status. */
    predicate IsPendente()
      reads this
      ensures IsPendente() <==> props.status == Pendente
    {
      TextoDeStatus(props.status) == "pendente"
    }

    predicate IsConfirmada()
      reads this
      ensures IsConfirmada() <==> props.status == Confirmada
    {
      TextoDeStatus(props.status) == "confirmada"
    }

    predicate IsCancelada()
      reads this
      ensures IsCancelada() <==> props.status == Cancelada
    {
      TextoDeStatus(props.status) == "cancelada"
    }

    predicate IsUtilizada()
      reads this
      ensures IsUtilizada() <==> props.status == Utilizada
    {
      TextoDeStatus(props.status) == "utilizada"
    }

    /** Runs one transition; on refusal returns the error and changes nothing. */
    method Executar(op: Operacao, agora: int) returns (erro: Option<string>)
      modifies this
      ensures Aplicar(old(props), op, agora).Err? ==>
        props == old(props) && erro == Some(Aplicar(old(props), op, agora).mensagem)
      ensures Aplicar(old(props), op, agora).Ok? ==>
        props == Aplicar(old(props), op, agora).value && erro.None?
    {
      var r := Aplicar(props, op, agora);
      if r.Err? {
        return Some(r.mensagem);
      }
      props := r.value;
      return None;
    }

    /** `confirmarCompra`: pendente -> confirmada. */
    method ConfirmarCompra(agora: int) returns (erro: Option<string>)
      modifies this
      ensures erro.None? <==> old(props).status == Pendente
      ensures erro.None? ==> props == old(props).(status := Confirmada, atualizadoEm := agora)
      ensures erro.Some? ==> props == old(props)
    {
      erro := Executar(Confirmar, agora);
    }

    /** `cancelarCompra`: anything but utilizada -> cancelada. */
    method CancelarCompra(agora: int) returns (erro: Option<string>)
      modifies this
      ensures erro.None? <==> old(props).status != Utilizada
      ensures erro.None? ==> props == old(props).(status := Cancelada, atualizadoEm := agora)
      ensures erro.Some? ==> props == old(props)
    {
      erro := Executar(Cancelar, agora);
    }

    /** `utilizarIngresso`: confirmada -> utilizada. */
    method UtilizarIngresso(agora: int) returns (erro: Option<string>)
      modifies this
      ensures erro.None? <==> old(props).status == Confirmada
      ensures erro.None? ==> props == old(props).(status := Utilizada, atualizadoEm := agora)
      ensures erro.Some? ==> props == old(props)
    {
      erro := Executar(Utilizar, agora);
    }
  }

  function Um(b: bool): nat
  {
    if b then 1 else 0
  }

  /** Exactly one of the four status tests holds for a purchase. */
  lemma UmUnicoStatus(c: Compra)
    ensures Um(c.IsPendente()) + Um(c.IsConfirmada()) + Um(c.IsCancelada()) + Um(c.IsUtilizada()) == 1
  {
  }
}
