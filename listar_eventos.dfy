/** Event listing in the layered implementation
    (backend/src/domain/usecases/listar-eventos-usecase.ts): the source is
    chosen by `organizadorId`, an optional status filter is applied, and a
    repository error becomes an empty failed answer. The repository's
    answers are inputs: `Ok(eventos)` for a list, `Err(mensagem)` for a
    rejected promise. */
module ListarEventos {
  import opened Wrappers
  import opened Colecoes
  import Texto
  import E = Eventos

  /** "" stands for an absent or empty `organizadorId`; an absent request
      is `Requisicao("", None)`. */
  datatype Requisicao = Requisicao(organizadorId: string, status: Option<E.StatusEvento>)

  datatype Resposta = Resposta(eventos: seq<E.PropsEvento>, total: int, sucesso: bool, mensagem: string)

  function ComStatus(status: E.StatusEvento): E.PropsEvento -> bool
  {
    (e: E.PropsEvento) => e.status == status
  }

  function DoOrganizador(organizadorId: string): E.PropsEvento -> bool
  {
    (e: E.PropsEvento) => e.organizadorId == organizadorId
  }

  function DoOrganizadorComStatus(organizadorId: string, status: E.StatusEvento): E.PropsEvento -> bool
  {
    (e: E.PropsEvento) => e.organizadorId == organizadorId && e.status == status
  }

  function MsgEncontrados(n: nat): string
  {
    Texto.Numero(n) + " evento(s) encontrado(s)"
  }

  /** `executar`, given what `listarTodos()` and
      `listarPorOrganizador(req.organizadorId)` answer. */
  function Listar(req: Requisicao, todos: Result<seq<E.PropsEvento>>, doOrganizador: Result<seq<E.PropsEvento>>): (r: Resposta)
    ensures var fonte := if req.organizadorId != "" then doOrganizador else todos;
      && (fonte.Err? ==> r == Resposta([], 0, false, fonte.mensagem))
      && (fonte.Ok? ==>
            && r.sucesso && r.total == |r.eventos| && r.mensagem == MsgEncontrados(|r.eventos|)
            && (req.status.None? ==> r.eventos == fonte.value)
            && (req.status.Some? ==>
                  && (forall k :: 0 <= k < |r.eventos| ==> r.eventos[k].status == req.status.value && r.eventos[k] in fonte.value)
                  && (forall k :: 0 <= k < |fonte.value| && fonte.value[k].status == req.status.value ==> fonte.value[k] in r.eventos)))
    ensures r.total == |r.eventos|
  {
    var fonte := if req.organizadorId != "" then doOrganizador else todos;
    match fonte
    case Err(erro) => Resposta([], 0, false, erro)
    case Ok(eventos) =>
      var filtrados := if req.status.Some? then Filtrar(eventos, ComStatus(req.status.value)) else eventos;
      Resposta(filtrados, |filtrados|, true, MsgEncontrados(|filtrados|))
  }

  /** The filter keeps the source's order: listing the concatenation of two
      answers lists each in turn. */
  lemma ListagemPreservaOrdem(req: Requisicao, a: seq<E.PropsEvento>, b: seq<E.PropsEvento>)
    ensures Listar(req, Ok(a + b), Ok(a + b)).eventos == Listar(req, Ok(a), Ok(a)).eventos + Listar(req, Ok(b), Ok(b)).eventos
  {
    if req.status.Some? {
      FiltrarConcat(a, b, ComStatus(req.status.value));
    }
  }

  /** When `listarPorOrganizador` answers the organizer's share of
      `listarTodos`, filtering by organizer and by status gives the events
      that satisfy both, in the order of the full list. */
  lemma ListagemDoOrganizador(req: Requisicao, todos: seq<E.PropsEvento>)
    requires req.organizadorId != "" && req.status.Some?
    ensures Listar(req, Ok(todos), Ok(Filtrar(todos, DoOrganizador(req.organizadorId)))).eventos
         == Filtrar(todos, DoOrganizadorComStatus(req.organizadorId, req.status.value))
  {
    FiltrarFiltrar(todos, DoOrganizador(req.organizadorId), ComStatus(req.status.value),
                   DoOrganizadorComStatus(req.organizadorId, req.status.value));
  }
}
