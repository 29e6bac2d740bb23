/** The ticket-tier entity of the layered implementation
    (backend/src/domain/entities/ingresso.ts): an inventory counter
    `quantidadeDisponivel` with guarded set, reduce and increase operations. */
module Ingressos {
  import opened Wrappers

  datatype TipoIngresso = Vip | Pista | Camarote

  /** Membership in `['vip', 'pista', 'camarote']`. */
  function TipoDeTexto(t: string): (r: Option<TipoIngresso>)
    ensures r.Some? <==> t == "vip" || t == "pista" || t == "camarote"
    ensures r == Some(Vip) <==> t == "vip"
    ensures r == Some(Pista) <==> t == "pista"
    ensures r == Some(Camarote) <==> t == "camarote"
  {
    if t == "vip" then Some(Vip)
    else if t == "pista" then Some(Pista)
    else if t == "camarote" then Some(Camarote)
    else None
  }

  /** What the constructor receives ("" and 0 are missing values). */
  datatype DadosIngresso = DadosIngresso(
    id: string,
    eventoId: string,
    tipo: string,
    preco: int,
    quantidadeDisponivel: int,
    descricao: Option<string>,
    criadoEm: Option<int>,
    atualizadoEm: Option<int>)

  datatype PropsIngresso = PropsIngresso(
    id: string,
    eventoId: string,
    tipo: TipoIngresso,
    preco: int,
    quantidadeDisponivel: int,
    descricao: Option<string>,
    criadoEm: int,
    atualizadoEm: int)

  /** `validarDados`: the message of the first failed check, or None. A zero
      price or quantity is rejected by the falsy test. */
  function ValidarDados(d: DadosIngresso): (r: Option<string>)
    ensures r.None? <==> && d.eventoId != "" && TipoDeTexto(d.tipo).Some?
                         && d.preco > 0 && d.quantidadeDisponivel > 0
    ensures d.eventoId != "" && TipoDeTexto(d.tipo).None? ==> r == Some("Tipo de ingresso inválido")
  {
    if d.eventoId == "" then Some("ID do evento é obrigatório")
    else if TipoDeTexto(d.tipo).None? then Some("Tipo de ingresso inválido")
    else if d.preco == 0 || d.preco < 0 then Some("Preço deve ser maior ou igual a zero")
    else if d.quantidadeDisponivel == 0 || d.quantidadeDisponivel < 0 then
      Some("Quantidade disponível deve ser maior ou igual a zero")
    else None
  }

  /** The constructor; `idGerado` and `agora` stand for `gerarId()` and `new Date()`. */
  function NovoIngresso(d: DadosIngresso, idGerado: string, agora: int): (r: Result<PropsIngresso>)
    ensures r.Err? <==> ValidarDados(d).Some?
    ensures r.Err? ==> r.mensagem == ValidarDados(d).value
    ensures r.Ok? ==>
      && r.value.id == (if d.id != "" then d.id else idGerado)
      && r.value.eventoId == d.eventoId && Some(r.value.tipo) == TipoDeTexto(d.tipo)
      && r.value.preco == d.preco && r.value.quantidadeDisponivel == d.quantidadeDisponivel
      && r.value.quantidadeDisponivel > 0 && r.value.descricao == d.descricao
      && r.value.criadoEm == d.criadoEm.GetOr(agora) && r.value.atualizadoEm == d.atualizadoEm.GetOr(agora)
  {
    match ValidarDados(d)
    case Some(erro) => Err(erro)
    case None =>
      Ok(PropsIngresso(if d.id != "" then d.id else idGerado, d.eventoId, TipoDeTexto(d.tipo).value,
                       d.preco, d.quantidadeDisponivel, d.descricao,
                       d.criadoEm.GetOr(agora), d.atualizadoEm.GetOr(agora)))
  }

  /** `atualizarQuantidade(n)`: sets the count to n, refusing a negative n. */
  function AtualizarQuantidade(p: PropsIngresso, novaQuantidade: int, agora: int): (r: Result<PropsIngresso>)
    ensures r.Ok? <==> novaQuantidade >= 0
    ensures r.Ok? ==> r.value == p.(quantidadeDisponivel := novaQuantidade, atualizadoEm := agora)
    ensures r.Err? ==> r.mensagem == "Quantidade não pode ser negativa"
  {
    if novaQuantidade < 0 then Err("Quantidade não pode ser negativa")
    else Ok(p.(quantidadeDisponivel := novaQuantidade, atualizadoEm := agora))
  }

  /** `reduzirQuantidade(q)`: needs 0 < q <= available, then takes q away. */
  function ReduzirQuantidade(p: PropsIngresso, quantidade: int, agora: int): (r: Result<PropsIngresso>)
    ensures r.Ok? <==> 0 < quantidade <= p.quantidadeDisponivel
    ensures r.Ok? ==> r.value == p.(quantidadeDisponivel := p.quantidadeDisponivel - quantidade, atualizadoEm := agora)
    ensures quantidade > 0 && p.quantidadeDisponivel < quantidade ==> r == Err("Quantidade insuficiente disponível")
  {
    if quantidade <= 0 then Err("Quantidade a reduzir deve ser positiva")
    else if p.quantidadeDisponivel < quantidade then Err("Quantidade insuficiente disponível")
    else Ok(p.(quantidadeDisponivel := p.quantidadeDisponivel - quantidade, atualizadoEm := agora))
  }

  /** `aumentarQuantidade(q)`: needs q > 0, then adds q. */
  function AumentarQuantidade(p: PropsIngresso, quantidade: int, agora: int): (r: Result<PropsIngresso>)
    ensures r.Ok? <==> quantidade > 0
    ensures r.Ok? ==> r.value == p.(quantidadeDisponivel := p.quantidadeDisponivel + quantidade, atualizadoEm := agora)
  {
    if quantidade <= 0 then Err("Quantidade a aumentar deve ser positiva")
    else Ok(p.(quantidadeDisponivel := p.quantidadeDisponivel + quantidade, atualizadoEm := agora))
  }

  /** Reducing then increasing by the same amount restores the count; every
      other field but the update stamp is as before. */
  lemma ReduzirEntaoAumentarRestaura(p: PropsIngresso, q: int, a: int, b: int)
    requires ReduzirQuantidade(p, q, a).Ok?
    ensures AumentarQuantidade(ReduzirQuantidade(p, q, a).value, q, b) == Ok(p.(atualizadoEm := b))
  {
  }

  /** Increasing then reducing by the same amount also restores the count. */
  lemma AumentarEntaoReduzirRestaura(p: PropsIngresso, q: int, a: int, b: int)
    requires AumentarQuantidade(p, q, a).Ok?
    requires p.quantidadeDisponivel >= 0
    ensures ReduzirQuantidade(AumentarQuantidade(p, q, a).value, q, b) == Ok(p.(atualizadoEm := b))
  {
  }

  datatype Mutacao = Atualizar(novaQuantidade: int) | Reduzir(quantidade: int) | Aumentar(quantidade: int)

  function Mutar(p: PropsIngresso, m: Mutacao, agora: int): Result<PropsIngresso>
  {
    match m
    case Atualizar(n) => AtualizarQuantidade(p, n, agora)
    case Reduzir(q) => ReduzirQuantidade(p, q, agora)
    case Aumentar(q) => AumentarQuantidade(p, q, agora)
  }

  /** The tier after a run of mutations where each refusal is caught. */
  function AposMutacoes(p: PropsIngresso, ms: seq<Mutacao>, agora: int): PropsIngresso
    decreases |ms|
  {
    if ms == [] then p
    else
      var r := Mutar(p, ms[0], agora);
      AposMutacoes(if r.Ok? then r.value else p, ms[1..], agora)
  }

  /** No run of mutations makes the available count negative, and none of
      them changes id, event, kind, price or description. */
  lemma {:induction false} QuantidadeNuncaNegativa(p: PropsIngresso, ms: seq<Mutacao>, agora: int)
    requires p.quantidadeDisponivel >= 0
    ensures AposMutacoes(p, ms, agora).quantidadeDisponivel >= 0
    ensures var f := AposMutacoes(p, ms, agora);
      f.id == p.id && f.eventoId == p.eventoId && f.tipo == p.tipo && f.preco == p.preco
      && f.descricao == p.descricao && f.criadoEm == p.criadoEm
    decreases |ms|
  {
    if ms != [] {
      var r := Mutar(p, ms[0], agora);
      QuantidadeNuncaNegativa(if r.Ok? then r.value else p, ms[1..], agora);
    }
  }

  /** The entity object; its methods update `props.quantidadeDisponivel`
      in place. */
  class Ingresso {
    var props: PropsIngresso

    /** Only an accepted record is constructed; the refused inputs are the
        `Err` cases of `NovoIngresso`. */
    constructor (dados: DadosIngresso, idGerado: string, agora: int)
      requires NovoIngresso(dados, idGerado, agora).Ok?
      ensures props == NovoIngresso(dados, idGerado, agora).value
    {
      props := NovoIngresso(dados, idGerado, agora).value;
    }

    /** Applies one mutation; on refusal returns its error and changes nothing. */
    method Executar(m: Mutacao, agora: int) returns (erro: Option<string>)
      modifies this
      ensures Mutar(old(props), m, agora).Err? ==>
        props == old(props) && erro == Some(Mutar(old(props), m, agora).mensagem)
      ensures Mutar(old(props), m, agora).Ok? ==> props == Mutar(old(props), m, agora).value && erro.None?
    {
      var r := Mutar(props, m, agora);
      if r.Err? {
        return Some(r.mensagem);
      }
      props := r.value;
      return None;
    }

    method AtualizarQuantidade(novaQuantidade: int, agora: int) returns (erro: Option<string>)
      modifies this
      ensures erro.None? <==> novaQuantidade >= 0
      ensures erro.None? ==> props == old(props).(quantidadeDisponivel := novaQuantidade, atualizadoEm := agora)
      ensures erro.Some? ==> props == old(props)
    {
      erro := Executar(Atualizar(novaQuantidade), agora);
    }

    method ReduzirQuantidade(quantidade: int, agora: int) returns (erro: Option<string>)
      modifies this
      ensures erro.None? <==> 0 < quantidade <= old(props).quantidadeDisponivel
      ensures erro.None? ==> props == old(props).(quantidadeDisponivel := old(props).quantidadeDisponivel - quantidade, atualizadoEm := agora)
      ensures erro.Some? ==> props == old(props)
    {
      erro := Executar(Reduzir(quantidade), agora);
    }

    method AumentarQuantidade(quantidade: int, agora: int) returns (erro: Option<string>)
      modifies this
      ensures erro.None? <==> quantidade > 0
      ensures erro.None? ==> props == old(props).(quantidadeDisponivel := old(props).quantidadeDisponivel + quantidade, atualizadoEm := agora)
      ensures erro.Some? ==> props == old(props)
    {
      erro := Executar(Aumentar(quantidade), agora);
    }
  }
}
