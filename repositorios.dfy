/** The repositories behind the interfaces of backend/src/domain/repositories.ts,
    as the tables of the SQL schema: users, events and ticket tiers keyed by
    their primary key, and purchases as the rows of `compras` in insertion
    order (its `id` is the primary key and `codigo_qr` is UNIQUE). Each write
    takes `falha`, an error the database may report instead of writing. */
module Repositorios {
  import opened Wrappers
  import opened Colecoes
  import C = Compras
  import E = Eventos
  import I = Ingressos
  import U = Usuarios

  const MsgCompraIdDuplicado := "SQLITE_CONSTRAINT: UNIQUE constraint failed: compras.id"
  const MsgCodigoDuplicado := "SQLITE_CONSTRAINT: UNIQUE constraint failed: compras.codigo_qr"
  const MsgEventoIdDuplicado := "SQLITE_CONSTRAINT: UNIQUE constraint failed: eventos.id"

  /** No two purchase rows share an id or a QR code. */
  predicate ChavesUnicas(compras: seq<C.PropsCompra>)
  {
    forall i, j :: 0 <= i < j < |compras| ==> compras[i].id != compras[j].id && compras[i].codigoQR != compras[j].codigoQR
  }

  /** Every row of a keyed table is stored under its own id. */
  predicate EventosIndexados(eventos: map<string, E.PropsEvento>)
  {
    forall id :: id in eventos ==> eventos[id].id == id
  }

  function CompraPorCodigo(codigoQR: string): C.PropsCompra -> bool
  {
    (c: C.PropsCompra) => c.codigoQR == codigoQR
  }

  /** `buscarPorCodigoQR`: the row with that code, or null. */
  function BuscarPorCodigoQR(compras: seq<C.PropsCompra>, codigoQR: string): (r: Option<C.PropsCompra>)
    ensures r.None? <==> forall k :: 0 <= k < |compras| ==> compras[k].codigoQR != codigoQR
    ensures r.Some? ==> r.value in compras && r.value.codigoQR == codigoQR
    ensures ChavesUnicas(compras) ==> forall k :: 0 <= k < |compras| && compras[k].codigoQR == codigoQR ==> r == Some(compras[k])
  {
    Encontrar(compras, CompraPorCodigo(codigoQR))
  }

  /** `salvar` on `compras`: an INSERT that the primary key and the UNIQUE
      code refuse when either is already present. */
  function InserirCompra(compras: seq<C.PropsCompra>, c: C.PropsCompra): (r: Result<seq<C.PropsCompra>>)
    ensures r.Ok? <==> forall k :: 0 <= k < |compras| ==> compras[k].id != c.id && compras[k].codigoQR != c.codigoQR
    ensures r.Ok? ==> r.value == compras + [c]
    ensures r.Ok? && ChavesUnicas(compras) ==> ChavesUnicas(r.value)
  {
    if exists k :: 0 <= k < |compras| && compras[k].id == c.id then Err(MsgCompraIdDuplicado)
    else if exists k :: 0 <= k < |compras| && compras[k].codigoQR == c.codigoQR then Err(MsgCodigoDuplicado)
    else Ok(compras + [c])
  }

  /** The columns `atualizar` writes on a purchase row: quantidade,
      valor_total, status, hash_seguranca and atualizado_em. */
  function ComColunasDe(linha: C.PropsCompra, c: C.PropsCompra): C.PropsCompra
  {
    linha.(quantidade := c.quantidade, valorTotal := c.valorTotal, status := c.status,
           hashSeguranca := c.hashSeguranca, atualizadoEm := c.atualizadoEm)
  }

  /** `atualizar` on `compras`: an UPDATE ... WHERE id = ?, which rewrites
      the rows with that id and leaves every other row, and every key, as it was. */
  function AtualizarCompra(compras: seq<C.PropsCompra>, c: C.PropsCompra): (r: seq<C.PropsCompra>)
    ensures |r| == |compras|
    ensures forall k :: 0 <= k < |r| ==>
      r[k] == if compras[k].id == c.id then ComColunasDe(compras[k], c) else compras[k]
    ensures forall k :: 0 <= k < |r| ==> r[k].id == compras[k].id && r[k].codigoQR == compras[k].codigoQR
    ensures ChavesUnicas(compras) ==> ChavesUnicas(r)
  {
    if compras == [] then []
    else [if compras[0].id == c.id then ComColunasDe(compras[0], c) else compras[0]] + AtualizarCompra(compras[1..], c)
  }

  /** The columns `atualizar` writes on a tier row: tipo, preco,
      quantidade_disponivel, descricao and atualizado_em. */
  function ComColunasDeIngresso(linha: I.PropsIngresso, t: I.PropsIngresso): I.PropsIngresso
  {
    linha.(tipo := t.tipo, preco := t.preco, quantidadeDisponivel := t.quantidadeDisponivel,
           descricao := t.descricao, atualizadoEm := t.atualizadoEm)
  }

  /** `atualizar` on `ingressos`; an absent id updates no row and is not an error. */
  function AtualizarIngresso(ingressos: map<string, I.PropsIngresso>, t: I.PropsIngresso): (r: map<string, I.PropsIngresso>)
    ensures r.Keys == ingressos.Keys
    ensures forall id :: id in r && id != t.id ==> r[id] == ingressos[id]
    ensures (&& t.id in ingressos && ingressos[t.id].id == t.id && ingressos[t.id].eventoId == t.eventoId
             && ingressos[t.id].criadoEm == t.criadoEm)
            ==> r[t.id] == t
    ensures t.id in ingressos ==>
      && r[t.id].tipo == t.tipo && r[t.id].preco == t.preco
      && r[t.id].quantidadeDisponivel == t.quantidadeDisponivel
      && r[t.id].descricao == t.descricao && r[t.id].atualizadoEm == t.atualizadoEm
      && r[t.id].id == ingressos[t.id].id && r[t.id].eventoId == ingressos[t.id].eventoId
      && r[t.id].criadoEm == ingressos[t.id].criadoEm
  {
    if t.id in ingressos then ingressos[t.id := ComColunasDeIngresso(ingressos[t.id], t)] else ingressos
  }

  /** `salvar` on `eventos`: an INSERT refused on a duplicate primary key. */
  function InserirEvento(eventos: map<string, E.PropsEvento>, e: E.PropsEvento): (r: Result<map<string, E.PropsEvento>>)
    ensures r.Ok? <==> e.id !in eventos
    ensures r.Ok? ==> r.value.Keys == eventos.Keys + {e.id} && r.value[e.id] == e
    ensures r.Ok? ==> forall id :: id in eventos ==> r.value[id] == eventos[id]
    ensures r.Ok? && EventosIndexados(eventos) ==> EventosIndexados(r.value)
  {
    if e.id in eventos then Err(MsgEventoIdDuplicado) else Ok(eventos[e.id := e])
  }

  class RepositorioUsuarios {
    var usuarios: map<string, U.PropsUsuario>

    constructor (usuarios: map<string, U.PropsUsuario>)
      ensures this.usuarios == usuarios
    {
      this.usuarios := usuarios;
    }
  }

  class RepositorioEventos {
    var eventos: map<string, E.PropsEvento>

    constructor (eventos: map<string, E.PropsEvento>)
      ensures this.eventos == eventos
    {
      this.eventos := eventos;
    }

    method Salvar(e: E.PropsEvento, falha: Option<string>) returns (erro: Option<string>)
      modifies this
      ensures falha.Some? ==> erro == falha && eventos == old(eventos)
      ensures falha.None? ==> (erro.None? <==> InserirEvento(old(eventos), e).Ok?)
      ensures falha.None? && erro.None? ==> eventos == InserirEvento(old(eventos), e).value
      ensures falha.None? && erro.Some? ==> eventos == old(eventos) && erro == Some(InserirEvento(old(eventos), e).mensagem)
    {
      if falha.Some? {
        return falha;
      }
      var r := InserirEvento(eventos, e);
      if r.Err? {
        return Some(r.mensagem);
      }
      eventos := r.value;
      return None;
    }
  }

  class RepositorioIngressos {
    var ingressos: map<string, I.PropsIngresso>

    constructor (ingressos: map<string, I.PropsIngresso>)
      ensures this.ingressos == ingressos
    {
      this.ingressos := ingressos;
    }

    method Atualizar(t: I.PropsIngresso, falha: Option<string>) returns (erro: Option<string>)
      modifies this
      ensures erro == falha
      ensures falha.Some? ==> ingressos == old(ingressos)
      ensures falha.None? ==> ingressos == AtualizarIngresso(old(ingressos), t)
    {
      if falha.Some? {
        return falha;
      }
      ingressos := AtualizarIngresso(ingressos, t);
      return None;
    }
  }

  class RepositorioCompras {
    var compras: seq<C.PropsCompra>

    constructor (compras: seq<C.PropsCompra>)
      ensures this.compras == compras
    {
      this.compras := compras;
    }

    method Salvar(c: C.PropsCompra, falha: Option<string>) returns (erro: Option<string>)
      modifies this
      ensures falha.Some? ==> erro == falha && compras == old(compras)
      ensures falha.None? ==> (erro.None? <==> InserirCompra(old(compras), c).Ok?)
      ensures falha.None? && erro.None? ==> compras == old(compras) + [c]
      ensures falha.None? && erro.Some? ==> compras == old(compras) && erro == Some(InserirCompra(old(compras), c).mensagem)
    {
      if falha.Some? {
        return falha;
      }
      var r := InserirCompra(compras, c);
      if r.Err? {
        return Some(r.mensagem);
      }
      compras := r.value;
      return None;
    }

    method Atualizar(c: C.PropsCompra, falha: Option<string>) returns (erro: Option<string>)
      modifies this
      ensures erro == falha
      ensures falha.Some? ==> compras == old(compras)
      ensures falha.None? ==> compras == AtualizarCompra(old(compras), c)
    {
      if falha.Some? {
        return falha;
      }
      compras := AtualizarCompra(compras, c);
      return None;
    }
  }
}
