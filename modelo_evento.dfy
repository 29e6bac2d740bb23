/** The in-memory event and ticket-tier store of the first implementation
    (backend/src/modelos/ModeloEvento.ts). Ids and instants are parameters;
    dates are millisecond timestamps and prices integers (cents). */
module ModeloEventos {
  import opened Wrappers
  import opened Colecoes

  datatype TipoIngresso = TipoIngresso(
    id: string,
    nome: string,
    preco: int,
    quantidadeDisponivel: int,
    quantidadeVendida: int,
    eventoId: string)

  datatype Evento = Evento(
    id: string,
    nome: string,
    descricao: string,
    data: int,
    local: string,
    capacidadeMaxima: int,
    organizadorId: string,
    tiposIngresso: seq<TipoIngresso>,
    criadoEm: int,
    atualizadoEm: int)

  datatype TipoIngressoDto = TipoIngressoDto(nome: string, preco: int, quantidadeDisponivel: int)

  /** The creation request, its date already read as a timestamp. */
  datatype CriarEventoDto = CriarEventoDto(
    nome: string,
    descricao: string,
    data: int,
    local: string,
    capacidadeMaxima: int,
    tiposIngresso: seq<TipoIngressoDto>)

  /** The partial update of `atualizar`; None is a field not supplied. */
  datatype AtualizacaoEvento = AtualizacaoEvento(
    nome: Option<string>,
    descricao: Option<string>,
    data: Option<int>,
    local: Option<string>,
    capacidadeMaxima: Option<int>)

  function EventoPorId(id: string): Evento -> bool
  {
    (e: Evento) => e.id == id
  }

  function DoOrganizador(organizadorId: string): Evento -> bool
  {
    (e: Evento) => e.organizadorId == organizadorId
  }

  function TipoPorId(id: string): TipoIngresso -> bool
  {
    (t: TipoIngresso) => t.id == id
  }

  function TipoDoEvento(eventoId: string): TipoIngresso -> bool
  {
    (t: TipoIngresso) => t.eventoId == eventoId
  }

  function TipoDeOutroEvento(eventoId: string): TipoIngresso -> bool
  {
    (t: TipoIngresso) => t.eventoId != eventoId
  }

  /** `{ ...evento, tiposIngresso: tiposIngresso.filter(t => t.eventoId === evento.id) }` */
  function ComTipos(e: Evento, tipos: seq<TipoIngresso>): Evento
  {
    e.(tiposIngresso := Filtrar(tipos, TipoDoEvento(e.id)))
  }

  /** The tiers `criarEvento` creates for the new event, one per DTO entry. */
  function TiposCriados(dtos: seq<TipoIngressoDto>, ids: seq<string>, eventoId: string): seq<TipoIngresso>
    requires |ids| == |dtos|
  {
    seq(|dtos|, k requires 0 <= k < |dtos| =>
      TipoIngresso(ids[k], dtos[k].nome, dtos[k].preco, dtos[k].quantidadeDisponivel, 0, eventoId))
  }

  /** `buscarPorId`: the first event with that id, carrying exactly the tiers
      whose `eventoId` matches, or None. */
  function BuscarPorId(eventos: seq<Evento>, tipos: seq<TipoIngresso>, id: string): (r: Option<Evento>)
    ensures r.None? <==> forall k :: 0 <= k < |eventos| ==> eventos[k].id != id
    ensures r.Some? ==> r.value.id == id
    ensures r.Some? ==> forall k :: 0 <= k < |r.value.tiposIngresso| ==>
      r.value.tiposIngresso[k] in tipos && r.value.tiposIngresso[k].eventoId == id
    ensures r.Some? ==> forall k :: 0 <= k < |tipos| && tipos[k].eventoId == id ==>
      tipos[k] in r.value.tiposIngresso
    ensures r.Some? ==> r.value == eventos[IndiceDe(eventos, EventoPorId(id))].(tiposIngresso := r.value.tiposIngresso)
  {
    match Encontrar(eventos, EventoPorId(id))
    case None => None
    case Some(evento) => Some(ComTipos(evento, tipos))
  }

  /** `listarEventosPorOrganizador`: that organizer's events in insertion
      order, each with its tiers. */
  function ListarEventosPorOrganizador(eventos: seq<Evento>, tipos: seq<TipoIngresso>, organizadorId: string): (r: seq<Evento>)
    ensures |r| == |Filtrar(eventos, DoOrganizador(organizadorId))|
    ensures forall k :: 0 <= k < |r| ==> r[k].organizadorId == organizadorId
    ensures forall k :: 0 <= k < |r| ==>
      r[k] == ComTipos(Filtrar(eventos, DoOrganizador(organizadorId))[k], tipos)
  {
    var doOrganizador := Filtrar(eventos, DoOrganizador(organizadorId));
    assert forall k :: 0 <= k < |doOrganizador| ==> DoOrganizador(organizadorId)(doOrganizador[k]);
    seq(|doOrganizador|, k requires 0 <= k < |doOrganizador| => ComTipos(doOrganizador[k], tipos))
  }

  /** `buscarTipoIngresso`: the first tier with that id. */
  function BuscarTipoIngresso(tipos: seq<TipoIngresso>, id: string): (r: Option<TipoIngresso>)
    ensures r.None? <==> forall k :: 0 <= k < |tipos| ==> tipos[k].id != id
    ensures r.Some? ==> r.value.id == id && r.value == tipos[IndiceDe(tipos, TipoPorId(id))]
  {
    Encontrar(tipos, TipoPorId(id))
  }

  /** `verificarDisponibilidade`: the tier exists and what is left of it
      (available minus sold) covers the requested quantity. */
  function VerificarDisponibilidade(tipos: seq<TipoIngresso>, id: string, quantidade: int): (r: bool)
    ensures r <==> (exists k :: 0 <= k < |tipos| && tipos[k].id == id
                      && k == IndiceDe(tipos, TipoPorId(id))
                      && tipos[k].quantidadeDisponivel - tipos[k].quantidadeVendida >= quantidade)
    ensures (forall k :: 0 <= k < |tipos| ==> tipos[k].id != id) ==> !r
  {
    match BuscarTipoIngresso(tipos, id)
    case None => false
    case Some(tipo) => tipo.quantidadeDisponivel - tipo.quantidadeVendida >= quantidade
  }

  /** The tiers after `atualizarQuantidadeVendida(id, quantidade)`: the first
      tier with that id has its sold count raised by exactly `quantidade`
      (no capacity check); nothing else changes. */
  function VendaRegistrada(tipos: seq<TipoIngresso>, id: string, quantidade: int): (r: seq<TipoIngresso>)
    ensures |r| == |tipos|
    ensures IndiceDe(tipos, TipoPorId(id)) == -1 ==> r == tipos
    ensures forall k :: 0 <= k < |tipos| && k != IndiceDe(tipos, TipoPorId(id)) ==> r[k] == tipos[k]
    ensures var i := IndiceDe(tipos, TipoPorId(id));
      0 <= i ==> r[i] == tipos[i].(quantidadeVendida := tipos[i].quantidadeVendida + quantidade)
  {
    var i := IndiceDe(tipos, TipoPorId(id));
    if i == -1 then tipos
    else tipos[i := tipos[i].(quantidadeVendida := tipos[i].quantidadeVendida + quantidade)]
  }

  /** JavaScript truthiness of a supplied string or number field. */
  predicate TextoInformado(o: Option<string>)
  {
    o.Some? && o.value != ""
  }

  predicate NumeroInformado(o: Option<int>)
  {
    o.Some? && o.value != 0
  }

  /** The record `atualizar` stores: each truthy supplied field overwrites
      the old one; id, organizer, tiers and creation time are kept. */
  function Mesclado(e: Evento, d: AtualizacaoEvento, agora: int): (r: Evento)
    ensures r.id == e.id && r.organizadorId == e.organizadorId
    ensures r.tiposIngresso == e.tiposIngresso && r.criadoEm == e.criadoEm
    ensures r.atualizadoEm == agora
    ensures r.nome == (if TextoInformado(d.nome) then d.nome.value else e.nome)
    ensures r.descricao == (if TextoInformado(d.descricao) then d.descricao.value else e.descricao)
    ensures r.data == (if d.data.Some? then d.data.value else e.data)
    ensures r.local == (if TextoInformado(d.local) then d.local.value else e.local)
    ensures r.capacidadeMaxima == (if NumeroInformado(d.capacidadeMaxima) then d.capacidadeMaxima.value else e.capacidadeMaxima)
  {
    var e1 := if TextoInformado(d.nome) then e.(nome := d.nome.value) else e;
    var e2 := if TextoInformado(d.descricao) then e1.(descricao := d.descricao.value) else e1;
    var e3 := if d.data.Some? then e2.(data := d.data.value) else e2;
    var e4 := if TextoInformado(d.local) then e3.(local := d.local.value) else e3;
    var e5 := if NumeroInformado(d.capacidadeMaxima) then e4.(capacidadeMaxima := d.capacidadeMaxima.value) else e4;
    e5.(atualizadoEm := agora)
  }

  predicate IdsUnicos(eventos: seq<Evento>)
  {
    forall a, b :: 0 <= a < b < |eventos| ==> eventos[a].id != eventos[b].id
  }

  /** Events are listed per organizer in the order they were stored: the
      listing of a concatenation is the concatenation of the listings. */
  lemma ListarPorOrganizadorPreservaOrdem(a: seq<Evento>, b: seq<Evento>, tipos: seq<TipoIngresso>, organizadorId: string)
    ensures ListarEventosPorOrganizador(a + b, tipos, organizadorId)
         == ListarEventosPorOrganizador(a, tipos, organizadorId) + ListarEventosPorOrganizador(b, tipos, organizadorId)
  {
    FiltrarConcat(a, b, DoOrganizador(organizadorId));
  }

  /** After `remover(id)` on a store with unique ids, the event is gone, and
      so are its tiers, while every other event and tier is still there. */
  lemma RemoverApagaSoOEvento(eventos: seq<Evento>, tipos: seq<TipoIngresso>, id: string, i: nat)
    requires IdsUnicos(eventos)
    requires i < |eventos| && eventos[i].id == id
    ensures var restantes := eventos[..i] + eventos[i + 1..];
      && BuscarPorId(restantes, Filtrar(tipos, TipoDeOutroEvento(id)), id).None?
      && (forall k :: 0 <= k < |eventos| && k != i ==> eventos[k] in restantes)
      && (forall k :: 0 <= k < |tipos| && tipos[k].eventoId != id ==> tipos[k] in Filtrar(tipos, TipoDeOutroEvento(id)))
      && (forall t :: t in Filtrar(tipos, TipoDeOutroEvento(id)) ==> t.eventoId != id)
  {
    RestantesSemOId(eventos, i, eventos[..i] + eventos[i + 1..]);
    RestantesMantidos(eventos, i);
    TiposDeOutrosEventos(tipos, id);
  }

  lemma RestantesSemOId(eventos: seq<Evento>, i: nat, restantes: seq<Evento>)
    requires IdsUnicos(eventos) && i < |eventos|
    requires restantes == eventos[..i] + eventos[i + 1..]
    ensures forall k :: 0 <= k < |restantes| ==> restantes[k].id != eventos[i].id
  {
    forall k | 0 <= k < |restantes| ensures restantes[k].id != eventos[i].id {
      if k < i {
        assert restantes[k] == eventos[k];
      } else {
        assert restantes[k] == eventos[k + 1];
      }
    }
  }

  lemma RestantesMantidos(eventos: seq<Evento>, i: nat)
    requires i < |eventos|
    ensures forall k :: 0 <= k < |eventos| && k != i ==> eventos[k] in eventos[..i] + eventos[i + 1..]
  {
    var restantes := eventos[..i] + eventos[i + 1..];
    forall k | 0 <= k < |eventos| && k != i ensures eventos[k] in restantes {
      if k < i {
        assert restantes[k] == eventos[k];
      } else {
        assert restantes[k - 1] == eventos[k];
      }
    }
  }

  lemma TiposDeOutrosEventos(tipos: seq<TipoIngresso>, id: string)
    ensures forall k :: 0 <= k < |tipos| && tipos[k].eventoId != id ==> tipos[k] in Filtrar(tipos, TipoDeOutroEvento(id))
    ensures forall t :: t in Filtrar(tipos, TipoDeOutroEvento(id)) ==> t.eventoId != id
  {
    var outros := Filtrar(tipos, TipoDeOutroEvento(id));
    forall t | t in outros ensures t.eventoId != id {
      var k :| 0 <= k < |outros| && outros[k] == t;
      assert TipoDeOutroEvento(id)(outros[k]);
    }
  }

  /** The module-level `eventos` and `tiposIngresso` arrays and the static
      methods that change them. */
  class ModeloEvento {
    var eventos: seq<Evento>
    var tiposIngresso: seq<TipoIngresso>

    constructor ()
      ensures eventos == [] && tiposIngresso == []
    {
      eventos := [];
      tiposIngresso := [];
    }

    /** `criarEvento`: stores the event and one tier per DTO entry, each with
        nothing sold and owned by the new event. */
    method CriarEvento(dadosEvento: CriarEventoDto, organizadorId: string, eventoId: string, tipoIds: seq<string>, agora: int)
      returns (novoEvento: Evento)
      requires |tipoIds| == |dadosEvento.tiposIngresso|
      modifies this
      ensures novoEvento == Evento(eventoId, dadosEvento.nome, dadosEvento.descricao, dadosEvento.data,
                                   dadosEvento.local, dadosEvento.capacidadeMaxima, organizadorId,
                                   TiposCriados(dadosEvento.tiposIngresso, tipoIds, eventoId), agora, agora)
      ensures eventos == old(eventos) + [novoEvento]
      ensures tiposIngresso == old(tiposIngresso) + novoEvento.tiposIngresso
      ensures |novoEvento.tiposIngresso| == |dadosEvento.tiposIngresso|
      ensures forall k :: 0 <= k < |novoEvento.tiposIngresso| ==>
        novoEvento.tiposIngresso[k].quantidadeVendida == 0 && novoEvento.tiposIngresso[k].eventoId == eventoId
    {
      var criados: seq<TipoIngresso> := [];
      var i := 0;
      ghost var eventosAntes := eventos;
      ghost var tiposAntes := tiposIngresso;
      while i < |dadosEvento.tiposIngresso|
        invariant 0 <= i <= |dadosEvento.tiposIngresso|
        invariant criados == TiposCriados(dadosEvento.tiposIngresso, tipoIds, eventoId)[..i]
        invariant tiposIngresso == tiposAntes + criados
        invariant eventos == eventosAntes
      {
        var tipoDto := dadosEvento.tiposIngresso[i];
        var novoTipo := TipoIngresso(tipoIds[i], tipoDto.nome, tipoDto.preco, tipoDto.quantidadeDisponivel, 0, eventoId);
        tiposIngresso := tiposIngresso + [novoTipo];
        criados := criados + [novoTipo];
        i := i + 1;
      }
      novoEvento := Evento(eventoId, dadosEvento.nome, dadosEvento.descricao, dadosEvento.data,
                           dadosEvento.local, dadosEvento.capacidadeMaxima, organizadorId, criados, agora, agora);
      eventos := eventos + [novoEvento];
    }

    /** `atualizar`: None for an unknown id; otherwise the first event with
        that id becomes `Mesclado(...)` and is returned with its tiers. */
    method Atualizar(id: string, dadosAtualizacao: AtualizacaoEvento, agora: int) returns (r: Option<Evento>)
      modifies this
      ensures tiposIngresso == old(tiposIngresso)
      ensures var i := IndiceDe(old(eventos), EventoPorId(id));
        && (i == -1 ==> r.None? && eventos == old(eventos))
        && (i != -1 ==>
              && eventos == old(eventos)[i := Mesclado(old(eventos)[i], dadosAtualizacao, agora)]
              && r == Some(ComTipos(Mesclado(old(eventos)[i], dadosAtualizacao, agora), tiposIngresso)))
    {
      var indiceEvento := IndiceDe(eventos, EventoPorId(id));
      if indiceEvento == -1 {
        return None;
      }
      var evento := Mesclado(eventos[indiceEvento], dadosAtualizacao, agora);
      eventos := eventos[indiceEvento := evento];
      return Some(ComTipos(evento, tiposIngresso));
    }

    /** `remover`: false for an unknown id; otherwise the first event with
        that id and every tier of that event id are deleted. */
    method Remover(id: string) returns (removido: bool)
      modifies this
      ensures var i := IndiceDe(old(eventos), EventoPorId(id));
        && (removido <==> i != -1)
        && (i == -1 ==> eventos == old(eventos) && tiposIngresso == old(tiposIngresso))
        && (i != -1 ==>
              && eventos == old(eventos)[..i] + old(eventos)[i + 1..]
              && tiposIngresso == Filtrar(old(tiposIngresso), TipoDeOutroEvento(id)))
    {
      var indiceEvento := IndiceDe(eventos, EventoPorId(id));
      if indiceEvento == -1 {
        return false;
      }
      tiposIngresso := Filtrar(tiposIngresso, TipoDeOutroEvento(id));
      eventos := eventos[..indiceEvento] + eventos[indiceEvento + 1..];
      return true;
    }

    /** `atualizarQuantidadeVendida`: false and no change for an unknown tier. */
    method AtualizarQuantidadeVendida(tipoIngressoId: string, quantidade: int) returns (ok: bool)
      modifies this
      ensures ok <==> exists k :: 0 <= k < |old(tiposIngresso)| && old(tiposIngresso)[k].id == tipoIngressoId
      ensures tiposIngresso == VendaRegistrada(old(tiposIngresso), tipoIngressoId, quantidade)
      ensures eventos == old(eventos)
    {
      var indice := IndiceDe(tiposIngresso, TipoPorId(tipoIngressoId));
      if indice == -1 {
        return false;
      }
      tiposIngresso := tiposIngresso[indice := tiposIngresso[indice].(quantidadeVendida := tiposIngresso[indice].quantidadeVendida + quantidade)];
      return true;
    }

    /** `limparDados`. */
    method LimparDados()
      modifies this
      ensures eventos == [] && tiposIngresso == []
    {
      eventos := [];
      tiposIngresso := [];
    }
  }
}
