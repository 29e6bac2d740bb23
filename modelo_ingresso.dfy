/** The in-memory ticket store of the first implementation
    (backend/src/modelos/ModeloIngresso.ts): minting tickets for a purchase,
    looking them up, marking them used and validating a presented QR code.

    SHA-256 and Base64 are function-valued parameters of the store; `uuidv4()`
    and `Date.now()` are supplied per minted ticket as a `Semente`. */
module ModeloIngressos {
  import opened Wrappers
  import opened Colecoes
  import Texto

  datatype Comprador = Comprador(nome: string, email: string, telefone: Option<string>)

  /** Purchase request body. A missing string is "" and a missing number is 0,
      which is how the controller's truthiness tests see them. */
  datatype ComprarIngressoDto = ComprarIngressoDto(
    eventoId: string,
    tipoIngressoId: string,
    quantidade: int,
    comprador: Comprador)

  datatype Ingresso = Ingresso(
    id: string,
    codigoQr: string,
    eventoId: string,
    tipoIngressoId: string,
    compradorId: string,
    nomeComprador: string,
    emailComprador: string,
    telefoneComprador: Option<string>,
    usado: bool,
    dataCompra: int,
    dataUso: Option<int>,
    hashSeguranca: string)

  /** What `uuidv4()` and `Date.now()` return in one iteration of the minting loop. */
  datatype Semente = Semente(id: string, instante: nat)

  /** The result of `validarIngresso`; `motivo` is None on success. */
  datatype ResultadoValidacao = ResultadoValidacao(
    valido: bool,
    ingresso: Option<Ingresso>,
    motivo: Option<string>)

  const ChaveSecreta := "chave-secreta-sistema"
  const MotivoNaoEncontrado := "Ingresso não encontrado"
  const MotivoJaUsado := "Ingresso já foi usado"
  const MotivoAdulterado := "Código QR inválido ou adulterado"

  /** `gerarCodigoQr`: Base64 of "<ticket id>-<event id>-<Date.now()>". */
  function GerarCodigoQr(base64: string -> string, ingressoId: string, eventoId: string, instante: nat): string
  {
    base64(ingressoId + "-" + eventoId + "-" + Texto.Decimal(instante))
  }

  /** `gerarHashSeguranca`: SHA-256 of the code followed by the fixed key.
      Being a function of the code alone, it is deterministic. */
  function GerarHashSeguranca(sha256: string -> string, codigoQr: string): string
  {
    sha256(codigoQr + ChaveSecreta)
  }

  /** Read back through a decoder, a QR code is "<ticket id>-<event id>-<digits>";
      so two tickets whose ids differ but have the same length (as `uuidv4()`
      ids do) never share a code. */
  lemma CodigoQrRevelaIngresso(
    base64: string -> string, decodificar: string -> string,
    id1: string, ev1: string, instante1: nat, id2: string, ev2: string, instante2: nat)
    requires forall x :: decodificar(base64(x)) == x
    requires |id1| == |id2|
    ensures var d := decodificar(GerarCodigoQr(base64, id1, ev1, instante1));
      |d| > |id1| + |ev1| + 2 && d[..|id1|] == id1 && d[|id1|] == '-'
      && d[|id1| + 1..|id1| + 1 + |ev1|] == ev1 && d[|id1| + 1 + |ev1|] == '-'
      && forall k :: |id1| + |ev1| + 2 <= k < |d| ==> '0' <= d[k] <= '9'
    ensures GerarCodigoQr(base64, id1, ev1, instante1) == GerarCodigoQr(base64, id2, ev2, instante2)
      ==> id1 == id2
  {
    var d1 := id1 + "-" + ev1 + "-" + Texto.Decimal(instante1);
    var d2 := id2 + "-" + ev2 + "-" + Texto.Decimal(instante2);
    assert decodificar(GerarCodigoQr(base64, id1, ev1, instante1)) == d1;
    assert d1[..|id1|] == id1;
    assert d2[..|id2|] == id2;
    forall k | |id1| + |ev1| + 2 <= k < |d1| ensures '0' <= d1[k] <= '9' {
      assert d1[k] == Texto.Decimal(instante1)[k - |id1| - |ev1| - 2];
    }
    if GerarCodigoQr(base64, id1, ev1, instante1) == GerarCodigoQr(base64, id2, ev2, instante2) {
      assert decodificar(GerarCodigoQr(base64, id2, ev2, instante2)) == d2;
    }
  }

  /** With an injective SHA-256, two codes have the same security hash exactly
      when they are the same code: the hash pins down the code it was made for. */
  lemma HashDeterminaCodigo(sha256: string -> string, c1: string, c2: string)
    requires forall x, y :: sha256(x) == sha256(y) ==> x == y
    ensures GerarHashSeguranca(sha256, c1) == GerarHashSeguranca(sha256, c2) <==> c1 == c2
  {
    if GerarHashSeguranca(sha256, c1) == GerarHashSeguranca(sha256, c2) {
      var a, b := c1 + ChaveSecreta, c2 + ChaveSecreta;
      assert a == b;
      assert a[..|c1|] == c1;
      assert b[..|c2|] == c2;
    }
  }

  function PorId(id: string): Ingresso -> bool
  {
    (t: Ingresso) => t.id == id
  }

  function PorCodigo(codigoQr: string): Ingresso -> bool
  {
    (t: Ingresso) => t.codigoQr == codigoQr
  }

  function DoEvento(eventoId: string): Ingresso -> bool
  {
    (t: Ingresso) => t.eventoId == eventoId
  }

  function UsadoDoEvento(eventoId: string): Ingresso -> bool
  {
    (t: Ingresso) => t.eventoId == eventoId && t.usado
  }

  /** The loop `for (i = 0; i < quantidade; i++)` runs this many times. */
  function Iteracoes(quantidade: int): nat
  {
    if quantidade > 0 then quantidade else 0
  }

  /** The ticket minted in one iteration of `criarIngresso`. */
  function NovoIngresso(
    dados: ComprarIngressoDto, tipoIngressoId: string, eventoId: string,
    semente: Semente, sha256: string -> string, base64: string -> string): Ingresso
  {
    var codigoQr := GerarCodigoQr(base64, semente.id, eventoId, semente.instante);
    Ingresso(semente.id, codigoQr, eventoId, tipoIngressoId, semente.id,
             dados.comprador.nome, dados.comprador.email, dados.comprador.telefone,
             false, semente.instante, None, GerarHashSeguranca(sha256, codigoQr))
  }

  /** The tickets one call of `criarIngresso` mints, in order. */
  function Emitidos(
    dados: ComprarIngressoDto, tipoIngressoId: string, eventoId: string,
    sementes: seq<Semente>, sha256: string -> string, base64: string -> string): seq<Ingresso>
  {
    seq(|sementes|, k requires 0 <= k < |sementes| =>
      NovoIngresso(dados, tipoIngressoId, eventoId, sementes[k], sha256, base64))
  }

  /** `buscarPorId`: the first ticket with that id. */
  function BuscarPorId(s: seq<Ingresso>, id: string): (r: Option<Ingresso>)
    ensures r.None? <==> forall k :: 0 <= k < |s| ==> s[k].id != id
    ensures r.Some? ==> r.value.id == id && r.value == s[IndiceDe(s, PorId(id))]
  {
    Encontrar(s, PorId(id))
  }

  /** `buscarPorCodigoQr`: the first ticket with that code. */
  function BuscarPorCodigoQr(s: seq<Ingresso>, codigoQr: string): (r: Option<Ingresso>)
    ensures r.None? <==> forall k :: 0 <= k < |s| ==> s[k].codigoQr != codigoQr
    ensures r.Some? ==> r.value.codigoQr == codigoQr && r.value == s[IndiceDe(s, PorCodigo(codigoQr))]
  {
    Encontrar(s, PorCodigo(codigoQr))
  }

  /** `buscarPorEvento`: the event's tickets, in store order. */
  function BuscarPorEvento(s: seq<Ingresso>, eventoId: string): (r: seq<Ingresso>)
    ensures forall k :: 0 <= k < |r| ==> r[k] in s && r[k].eventoId == eventoId
    ensures forall k :: 0 <= k < |s| && s[k].eventoId == eventoId ==> s[k] in r
  {
    Filtrar(s, DoEvento(eventoId))
  }

  /** `contarIngressosVendidos`. */
  function ContarIngressosVendidos(s: seq<Ingresso>, eventoId: string): (r: nat)
    ensures r <= |s|
    ensures r == 0 <==> forall k :: 0 <= k < |s| ==> !(s[k].eventoId == eventoId)
    ensures r == |s| <==> forall k :: 0 <= k < |s| ==> s[k].eventoId == eventoId
  {
    TamanhoFiltrar(s, DoEvento(eventoId));
    |Filtrar(s, DoEvento(eventoId))|
  }

  /** `contarIngressosUsados`. */
  function ContarIngressosUsados(s: seq<Ingresso>, eventoId: string): (r: nat)
    ensures r <= |s|
    ensures r == 0 <==> forall k :: 0 <= k < |s| ==> !(s[k].eventoId == eventoId && s[k].usado)
    ensures r == |s| <==> forall k :: 0 <= k < |s| ==> s[k].eventoId == eventoId && s[k].usado
  {
    TamanhoFiltrar(s, UsadoDoEvento(eventoId));
    |Filtrar(s, UsadoDoEvento(eventoId))|
  }

  /** `validarIngresso`: not found, then already used, then hash mismatch,
      decided in that order; it only reads the store. */
  function ValidarIngresso(s: seq<Ingresso>, sha256: string -> string, codigoQr: string): (r: ResultadoValidacao)
    ensures r.ingresso == BuscarPorCodigoQr(s, codigoQr)
    ensures r.valido <==> r.motivo.None?
    ensures r.valido <==> r.ingresso.Some? && !r.ingresso.value.usado
                          && r.ingresso.value.hashSeguranca == GerarHashSeguranca(sha256, codigoQr)
    ensures r.motivo == Some(MotivoNaoEncontrado) <==> r.ingresso.None?
    ensures r.motivo == Some(MotivoJaUsado) <==> r.ingresso.Some? && r.ingresso.value.usado
    ensures r.motivo == Some(MotivoAdulterado) <==>
      r.ingresso.Some? && !r.ingresso.value.usado && r.ingresso.value.hashSeguranca != GerarHashSeguranca(sha256, codigoQr)
  {
    match BuscarPorCodigoQr(s, codigoQr)
    case None => ResultadoValidacao(false, None, Some(MotivoNaoEncontrado))
    case Some(ingresso) =>
      if ingresso.usado then
        ResultadoValidacao(false, Some(ingresso), Some(MotivoJaUsado))
      else if GerarHashSeguranca(sha256, codigoQr) != ingresso.hashSeguranca then
        ResultadoValidacao(false, Some(ingresso), Some(MotivoAdulterado))
      else
        ResultadoValidacao(true, Some(ingresso), None)
  }

  /** An unused ticket whose hash was made for a different code than the one
      it is found under is rejected as tampered. */
  lemma CodigoAlteradoDetectado(
    s: seq<Ingresso>, sha256: string -> string, codigoQr: string, original: string)
    requires forall x, y :: sha256(x) == sha256(y) ==> x == y
    requires BuscarPorCodigoQr(s, codigoQr).Some?
    requires !BuscarPorCodigoQr(s, codigoQr).value.usado
    requires BuscarPorCodigoQr(s, codigoQr).value.hashSeguranca == GerarHashSeguranca(sha256, original)
    requires original != codigoQr
    ensures ValidarIngresso(s, sha256, codigoQr).motivo == Some(MotivoAdulterado)
  {
    HashDeterminaCodigo(sha256, original, codigoQr);
  }

  /** The store after `marcarComoUsado(id)` at instant `agora`: only the
      first ticket with that id changes, and only in `usado` and `dataUso`. */
  function MarcadoComoUsado(s: seq<Ingresso>, id: string, agora: int): (r: seq<Ingresso>)
    ensures |r| == |s|
    ensures IndiceDe(s, PorId(id)) == -1 ==> r == s
    ensures forall k :: 0 <= k < |s| && k != IndiceDe(s, PorId(id)) ==> r[k] == s[k]
    ensures var i := IndiceDe(s, PorId(id));
      0 <= i ==> r[i] == s[i].(usado := true, dataUso := Some(agora))
  {
    var i := IndiceDe(s, PorId(id));
    if i == -1 then s else s[i := s[i].(usado := true, dataUso := Some(agora))]
  }

  predicate IdsUnicos(s: seq<Ingresso>)
  {
    forall a, b :: 0 <= a < b < |s| ==> s[a].id != s[b].id
  }

  /** Round trip: a freshly minted ticket whose code occurs nowhere before it
      validates as valid, with itself as the ticket and no reason. */
  lemma ValidarAposEmitir(
    s: seq<Ingresso>, dados: ComprarIngressoDto, tipoIngressoId: string, eventoId: string,
    sementes: seq<Semente>, sha256: string -> string, base64: string -> string, k: nat)
    requires k < |sementes|
    requires var novos := Emitidos(dados, tipoIngressoId, eventoId, sementes, sha256, base64);
      forall j :: 0 <= j < |s| ==> s[j].codigoQr != novos[k].codigoQr
    requires var novos := Emitidos(dados, tipoIngressoId, eventoId, sementes, sha256, base64);
      forall j :: 0 <= j < k ==> novos[j].codigoQr != novos[k].codigoQr
    ensures var novos := Emitidos(dados, tipoIngressoId, eventoId, sementes, sha256, base64);
      ValidarIngresso(s + novos, sha256, novos[k].codigoQr) == ResultadoValidacao(true, Some(novos[k]), None)
  {
    var novos := Emitidos(dados, tipoIngressoId, eventoId, sementes, sha256, base64);
    var loja := s + novos;
    var c := novos[k].codigoQr;
    forall j | 0 <= j < |s| + k ensures !PorCodigo(c)(loja[j]) {
      if j < |s| {
        assert loja[j] == s[j];
      } else {
        assert loja[j] == novos[j - |s|];
      }
    }
    assert loja[|s| + k] == novos[k];
    PrimeiroIndice(loja, PorCodigo(c), |s| + k);
  }

  /** Marking the validated ticket used makes a second validation of the same
      code report it as already used (ids are unique, as `uuidv4` makes them). */
  lemma SegundaValidacaoRejeitada(s: seq<Ingresso>, sha256: string -> string, codigoQr: string, agora: int)
    requires IdsUnicos(s)
    requires ValidarIngresso(s, sha256, codigoQr).valido
    ensures var t := ValidarIngresso(s, sha256, codigoQr).ingresso.value;
      ValidarIngresso(MarcadoComoUsado(s, t.id, agora), sha256, codigoQr)
        == ResultadoValidacao(false, Some(t.(usado := true, dataUso := Some(agora))), Some(MotivoJaUsado))
  {
    var t := ValidarIngresso(s, sha256, codigoQr).ingresso.value;
    var i := IndiceDe(s, PorCodigo(codigoQr));
    assert s[i] == t;
    forall k | 0 <= k < i ensures !PorId(t.id)(s[k]) {
      assert s[k].id != s[i].id;
    }
    PrimeiroIndice(s, PorId(t.id), i);
    var s2 := MarcadoComoUsado(s, t.id, agora);
    forall k | 0 <= k < i ensures !PorCodigo(codigoQr)(s2[k]) {
      assert s2[k] == s[k];
    }
    PrimeiroIndice(s2, PorCodigo(codigoQr), i);
  }

  /** `marcarComoUsado` is idempotent on `usado`: a second call changes
      nothing but the `dataUso` stamp of the same ticket. */
  lemma MarcarComoUsadoIdempotente(s: seq<Ingresso>, id: string, a: int, b: int)
    ensures var um := MarcadoComoUsado(s, id, a);
      var dois := MarcadoComoUsado(um, id, b);
      |dois| == |um| && forall k :: 0 <= k < |um| ==> dois[k].usado == um[k].usado && dois[k].id == um[k].id
  {
    var um := MarcadoComoUsado(s, id, a);
    var i := IndiceDe(s, PorId(id));
    if i != -1 {
      forall k | 0 <= k < i ensures !PorId(id)(um[k]) {
        assert um[k] == s[k];
      }
      PrimeiroIndice(um, PorId(id), i);
    } else {
      assert um == s;
    }
  }

  /** For any event, used tickets never outnumber sold ones. */
  lemma UsadosNaoExcedemVendidos(s: seq<Ingresso>, eventoId: string)
    ensures ContarIngressosUsados(s, eventoId) <= ContarIngressosVendidos(s, eventoId)
  {
    FiltrarMonotono(s, UsadoDoEvento(eventoId), DoEvento(eventoId));
  }

  /** Minting for an event raises that event's sold count by exactly the
      number of loop iterations, i.e. `quantidade` when it is positive. */
  lemma EmitirSomaVendidos(
    s: seq<Ingresso>, dados: ComprarIngressoDto, tipoIngressoId: string, eventoId: string,
    sementes: seq<Semente>, sha256: string -> string, base64: string -> string)
    requires |sementes| == Iteracoes(dados.quantidade)
    ensures ContarIngressosVendidos(s + Emitidos(dados, tipoIngressoId, eventoId, sementes, sha256, base64), eventoId)
            == ContarIngressosVendidos(s, eventoId) + Iteracoes(dados.quantidade)
  {
    var novos := Emitidos(dados, tipoIngressoId, eventoId, sementes, sha256, base64);
    FiltrarConcat(s, novos, DoEvento(eventoId));
    FiltrarTudo(novos, DoEvento(eventoId));
  }

  /** Marking a ticket used leaves every event's sold count unchanged. */
  lemma MarcarPreservaVendidos(s: seq<Ingresso>, id: string, agora: int, eventoId: string)
    ensures ContarIngressosVendidos(MarcadoComoUsado(s, id, agora), eventoId) == ContarIngressosVendidos(s, eventoId)
  {
    var i := IndiceDe(s, PorId(id));
    if i != -1 {
      FiltrarAtualizado(s, i, s[i].(usado := true, dataUso := Some(agora)), DoEvento(eventoId));
    }
  }

  /** The module-level `ingressos` array and the static methods that change it. */
  class ModeloIngresso {
    const sha256: string -> string
    const base64: string -> string
    var ingressos: seq<Ingresso>

    constructor (sha256: string -> string, base64: string -> string)
      ensures this.sha256 == sha256 && this.base64 == base64
      ensures ingressos == []
    {
      this.sha256 := sha256;
      this.base64 := base64;
      ingressos := [];
    }

    /** `criarIngresso`: appends one fresh, unused ticket per iteration. */
    method CriarIngresso(dadosCompra: ComprarIngressoDto, tipoIngressoId: string, eventoId: string, sementes: seq<Semente>)
      returns (criados: seq<Ingresso>)
      requires |sementes| == Iteracoes(dadosCompra.quantidade)
      modifies this
      ensures criados == Emitidos(dadosCompra, tipoIngressoId, eventoId, sementes, sha256, base64)
      ensures ingressos == old(ingressos) + criados
      ensures |criados| == Iteracoes(dadosCompra.quantidade)
      ensures forall k :: 0 <= k < |criados| ==>
        && criados[k].id == sementes[k].id
        && criados[k].eventoId == eventoId
        && criados[k].tipoIngressoId == tipoIngressoId
        && criados[k].nomeComprador == dadosCompra.comprador.nome
        && criados[k].emailComprador == dadosCompra.comprador.email
        && criados[k].telefoneComprador == dadosCompra.comprador.telefone
        && !criados[k].usado && criados[k].dataUso.None?
        && criados[k].hashSeguranca == GerarHashSeguranca(sha256, criados[k].codigoQr)
    {
      criados := [];
      var i := 0;
      while i < dadosCompra.quantidade
        invariant 0 <= i <= |sementes|
        invariant |criados| == i
        invariant forall k :: 0 <= k < i ==>
          criados[k] == NovoIngresso(dadosCompra, tipoIngressoId, eventoId, sementes[k], sha256, base64)
        invariant ingressos == old(ingressos) + criados
      {
        var id := sementes[i].id;
        var codigoQr := GerarCodigoQr(base64, id, eventoId, sementes[i].instante);
        var hashSeguranca := GerarHashSeguranca(sha256, codigoQr);
        var novoIngresso := Ingresso(id, codigoQr, eventoId, tipoIngressoId, id,
                                     dadosCompra.comprador.nome, dadosCompra.comprador.email,
                                     dadosCompra.comprador.telefone, false, sementes[i].instante,
                                     None, hashSeguranca);
        ingressos := ingressos + [novoIngresso];
        criados := criados + [novoIngresso];
        i := i + 1;
      }
    }

    /** `marcarComoUsado`: false and no change for an unknown id. */
    method MarcarComoUsado(id: string, agora: int) returns (ok: bool)
      modifies this
      ensures ok <==> exists k :: 0 <= k < |old(ingressos)| && old(ingressos)[k].id == id
      ensures ingressos == MarcadoComoUsado(old(ingressos), id, agora)
    {
      var indice := IndiceDe(ingressos, PorId(id));
      if indice == -1 {
        return false;
      }
      ingressos := ingressos[indice := ingressos[indice].(usado := true, dataUso := Some(agora))];
      return true;
    }

    /** `limparDados`. */
    method LimparDados()
      modifies this
      ensures ingressos == []
    {
      ingressos := [];
    }
  }
}
