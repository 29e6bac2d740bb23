/** Event creation in the layered implementation
    (backend/src/domain/usecases/criar-evento-usecase.ts): its own date
    check, the `Evento` constructor with status `ativo`, and one write. */
module CriarEvento {
  import opened Wrappers
  import E = Eventos
  import R = Repositorios

  datatype Requisicao = Requisicao(
    nome: string,
    data: int,
    local: string,
    capacidadeMaxima: int,
    organizadorId: string,
    descricao: Option<string>)

  datatype Resposta = Resposta(evento: Option<E.PropsEvento>, sucesso: bool, mensagem: string)

  const MsgDataPassada := "A data do evento deve ser futura"
  const MsgCriado := "Evento criado com sucesso"

  /** The `EventoProps` the call builds: no id, status `ativo`. */
  function Dados(req: Requisicao): E.DadosEvento
  {
    E.DadosEvento("", req.nome, req.data, req.local, req.capacidadeMaxima, req.organizadorId,
                  req.descricao, Some(E.Ativo), None, None)
  }

  /** The event `executar` would write at instant `agora`, or the message
      of its refusal. The use-case's own date check only replaces the
      constructor's message: it accepts exactly what the constructor accepts. */
  function Planejar(req: Requisicao, idGerado: string, agora: int): (r: Result<E.PropsEvento>)
    ensures req.data <= agora ==> r == Err(MsgDataPassada)
    ensures req.data > agora ==> r == E.NovoEvento(Dados(req), idGerado, agora)
    ensures r.Ok? <==> E.NovoEvento(Dados(req), idGerado, agora).Ok?
    ensures r.Ok? ==>
      && r.value.id == idGerado && r.value.status == E.Ativo
      && r.value.nome == req.nome && r.value.data == req.data && r.value.local == req.local
      && r.value.capacidadeMaxima == req.capacidadeMaxima && r.value.organizadorId == req.organizadorId
      && r.value.descricao == req.descricao
      && r.value.criadoEm == agora && r.value.atualizadoEm == agora
  {
    if req.data <= agora then Err(MsgDataPassada)
    else E.NovoEvento(Dados(req), idGerado, agora)
  }

  class CriarEventoUseCase {
    const eventoRepository: R.RepositorioEventos

    constructor (eventoRepository: R.RepositorioEventos)
      ensures this.eventoRepository == eventoRepository
    {
      this.eventoRepository := eventoRepository;
    }

    /** `executar`; `falha` is an error the write may report. Every refusal
        answers without an event and writes nothing; a success writes the
        new event once. */
    method Executar(req: Requisicao, idGerado: string, agora: int, falha: Option<string>) returns (resposta: Resposta)
      modifies eventoRepository
      ensures var plano := Planejar(req, idGerado, agora);
        && (plano.Err? ==> resposta == Resposta(None, false, plano.mensagem)
                           && eventoRepository.eventos == old(eventoRepository.eventos))
        && (plano.Ok? && falha.Some? ==> resposta == Resposta(None, false, falha.value)
                                         && eventoRepository.eventos == old(eventoRepository.eventos))
        && (plano.Ok? && falha.None? && idGerado in old(eventoRepository.eventos) ==>
              resposta == Resposta(None, false, R.MsgEventoIdDuplicado)
              && eventoRepository.eventos == old(eventoRepository.eventos))
        && (plano.Ok? && falha.None? && idGerado !in old(eventoRepository.eventos) ==>
              resposta == Resposta(Some(plano.value), true, MsgCriado)
              && eventoRepository.eventos == old(eventoRepository.eventos)[idGerado := plano.value])
      ensures resposta.sucesso <==> resposta.evento.Some?
    {
      if req.data <= agora {
        return Resposta(None, false, MsgDataPassada);
      }
      var evento := E.NovoEvento(Dados(req), idGerado, agora);
      if evento.Err? {
        return Resposta(None, false, evento.mensagem);
      }
      var erro := eventoRepository.Salvar(evento.value, falha);
      if erro.Some? {
        return Resposta(None, false, erro.value);
      }
      resposta := Resposta(Some(evento.value), true, MsgCriado);
    }
  }
}
