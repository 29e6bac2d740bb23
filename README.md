# Ticketing backend — a verified Dafny model

The backend sells tickets for events and checks them at the gate. It does this twice.

- **The in-memory implementation** (`modelos/`, `controladores/`):
  - `ModeloIngresso` mints tickets, each carrying a QR code and a SHA-256 security hash, and validates a presented code.
  - `ModeloEvento` keeps events and their ticket tiers, with an available and a sold counter per tier.
  - `ModeloUsuario` keeps users with unique e-mails.
  - `ControladorIngressos` and `ControladorEventos` run the HTTP handlers' guard chains (400/401/403/404) in front of these stores.
- **The layered implementation** (`domain/`):
  - The entities `Compra`, `Ingresso` (a tier), `Evento` and `Usuario` validate their fields on construction and guard their own transitions.
  - The use-cases buy a ticket, validate it at the gate, create an event and list events. They work over the repository interfaces of `domain/repositories.ts`.

## How the source is modelled

- **Module-level arrays and entity objects.** These are Dafny classes. Their `seq`/`map` fields are reassigned by methods. Every method's `ensures` ties the new state to a pure function of the old state, and the properties are proved about those functions.
- **Early-return chains.** Handlers and use-cases become functions that return the answer of the first failing check, or the planned change. A method then performs the writes in the source's order.
- **Exceptions.** A thrown `Error` is `Err(mensagem)` of `Result`.
- **JavaScript truthiness.** `""` is a missing string and `0` a missing number. A `Partial<…>` update has `Option` fields.
- **Repositories.** They are tables held by four small classes:
  - users, events and tiers are maps keyed by their primary key;
  - purchases are the rows of `compras` in insertion order, with the PRIMARY KEY and UNIQUE constraints of the SQL schema.
- **Nondeterministic inputs.** `uuidv4()`, `Date.now()`, `new Date()`, `Math.random()` and `gerarId()` are parameters: ids, instants (`int`) and a random suffix.
- **Cryptography and encodings.** SHA-256, Base64 and bcrypt are function-valued fields of the classes that use them.

## Module layout

| file | module | models |
|---|---|---|
| wrappers.dfy | Wrappers | `Option`, `Result` |
| colecoes.dfy | Colecoes | `find`, `findIndex`, `filter` on sequences |
| texto.dfy | Texto | `trim()`, `\s`, `String(n)` |
| modelo_ingresso.dfy | ModeloIngressos | backend/src/modelos/ModeloIngresso.ts |
| modelo_evento.dfy | ModeloEventos | backend/src/modelos/ModeloEvento.ts |
| modelo_usuario.dfy | ModeloUsuarios | backend/src/modelos/ModeloUsuario.ts |
| controlador_ingressos.dfy | ControladorIngressos | backend/src/controladores/ControladorIngressos.ts |
| controlador_eventos.dfy | ControladorEventos | backend/src/controladores/ControladorEventos.ts |
| compra.dfy | Compras | backend/src/domain/entities/compra.ts |
| ingresso.dfy | Ingressos | backend/src/domain/entities/ingresso.ts |
| evento.dfy | Eventos | backend/src/domain/entities/evento.ts |
| usuario.dfy | Usuarios | backend/src/domain/entities/usuario.ts |
| repositorios.dfy | Repositorios | backend/src/domain/repositories.ts and the tables behind it |
| comprar_ingresso.dfy | ComprarIngresso | backend/src/domain/usecases/comprar-ingresso-usecase.ts |
| validar_ingresso.dfy | ValidarIngresso | backend/src/domain/usecases/validar-ingresso-usecase.ts |
| criar_evento.dfy | CriarEvento | backend/src/domain/usecases/criar-evento-usecase.ts |
| listar_eventos.dfy | ListarEventos | backend/src/domain/usecases/listar-eventos-usecase.ts |

## Model

| member | source | states |
|---|---|---|
| ModeloIngressos.BuscarPorId | backend/src/modelos/ModeloIngresso.ts:38-40 | absent exactly when no ticket has the id; otherwise the first ticket with it |
| ModeloIngressos.BuscarPorCodigoQr | backend/src/modelos/ModeloIngresso.ts:42-44 | absent exactly when no ticket has the code; otherwise the first ticket with it |
| ModeloIngressos.BuscarPorEvento | backend/src/modelos/ModeloIngresso.ts:46-48 | every returned ticket is stored and belongs to the event; every stored ticket of the event is returned |
| ModeloIngressos.ValidarIngresso | backend/src/modelos/ModeloIngresso.ts:63-85 | the ticket reported is the lookup by code; valid iff found and unused iff no reason; 'não encontrado' iff absent; 'já foi usado' iff found used (decided before the hash); 'Código QR inválido ou adulterado' iff found, unused and the stored hash differs from the recomputed one; valid iff found, unused and the hashes agree |
| ModeloIngressos.CodigoQrRevelaIngresso | backend/src/modelos/ModeloIngresso.ts:87-91 | decoded, a QR code is the ticket id, '-', the event id, '-', then decimal digits; so two tickets whose ids have equal length share a code only if their ids are equal |
| ModeloIngressos.HashDeterminaCodigo | backend/src/modelos/ModeloIngresso.ts:93-96 | with an injective SHA-256, two codes get the same security hash iff they are the same code |
| ModeloIngressos.CodigoAlteradoDetectado | backend/src/modelos/ModeloIngresso.ts:63-96 | an unused ticket whose stored hash was made for a different code than the one presented is rejected as 'Código QR inválido ou adulterado' |
| ModeloIngressos.ContarIngressosVendidos | backend/src/modelos/ModeloIngresso.ts:98-100 | at most the store's size; 0 iff no ticket belongs to the event; the whole store iff every ticket does |
| ModeloIngressos.ContarIngressosUsados | backend/src/modelos/ModeloIngresso.ts:102-104 | at most the store's size; 0 iff no ticket of the event is used; the whole store iff every ticket is a used ticket of the event |
| ModeloIngressos.MarcadoComoUsado | backend/src/modelos/ModeloIngresso.ts:54-61 | an absent id changes nothing; otherwise only the first ticket with the id changes, to used with `dataUso` set |
| ModeloIngressos.ValidarAposEmitir | backend/src/modelos/ModeloIngresso.ts:9-36 | every freshly minted ticket whose code is new validates as valid with no reason (mint-then-validate round trip) |
| ModeloIngressos.SegundaValidacaoRejeitada | backend/src/modelos/ModeloIngresso.ts:54-85 | with unique ids, after a valid ticket is marked used, the same code is rejected as 'já foi usado', reporting the marked ticket |
| ModeloIngressos.MarcarComoUsadoIdempotente | backend/src/modelos/ModeloIngresso.ts:54-61 | marking twice leaves the same `usado` flags and ids as marking once |
| ModeloIngressos.UsadosNaoExcedemVendidos | backend/src/modelos/ModeloIngresso.ts:98-105 | for any event, used tickets never outnumber sold tickets |
| ModeloIngressos.EmitirSomaVendidos | backend/src/modelos/ModeloIngresso.ts:9-36 | minting for an event raises its sold count by exactly the number of loop iterations |
| ModeloIngressos.MarcarPreservaVendidos | backend/src/modelos/ModeloIngresso.ts:54-61 | marking a ticket used does not change any event's sold count |
| ModeloIngressos.ModeloIngresso.constructor | backend/src/modelos/ModeloIngresso.ts:6 | the store starts empty |
| ModeloIngressos.ModeloIngresso.CriarIngresso | backend/src/modelos/ModeloIngresso.ts:9-36 | appends exactly the minted tickets, one per iteration, each unused, with the given event, tier and buyer, and its hash computed from its own code; old tickets untouched |
| ModeloIngressos.ModeloIngresso.MarcarComoUsado | backend/src/modelos/ModeloIngresso.ts:54-61 | answers true iff the id is stored; the store becomes `MarcadoComoUsado` of the old one |
| ModeloIngressos.ModeloIngresso.LimparDados | backend/src/modelos/ModeloIngresso.ts:107-109 | the store is empty afterwards |
| ModeloEventos.BuscarPorId | backend/src/modelos/ModeloEvento.ts:42-49 | absent iff no event has the id; otherwise the first such event with exactly the tiers whose `eventoId` matches |
| ModeloEventos.ListarEventosPorOrganizador | backend/src/modelos/ModeloEvento.ts:58-65 | exactly the organizer's events (as many as the filter keeps), each with its own tiers |
| ModeloEventos.ListarPorOrganizadorPreservaOrdem | backend/src/modelos/ModeloEvento.ts:58-65 | listing distributes over concatenation, so insertion order is kept |
| ModeloEventos.BuscarTipoIngresso | backend/src/modelos/ModeloEvento.ts:101-103 | absent iff no tier has the id; otherwise the first tier with it |
| ModeloEventos.VerificarDisponibilidade | backend/src/modelos/ModeloEvento.ts:113-118 | true iff the tier exists and available minus sold is at least the quantity; false for an unknown tier |
| ModeloEventos.VendaRegistrada | backend/src/modelos/ModeloEvento.ts:105-111 | an absent tier changes nothing; otherwise only that tier's sold count grows by exactly the quantity, with no capacity check |
| ModeloEventos.Mesclado | backend/src/modelos/ModeloEvento.ts:67-88 | only truthy supplied fields overwrite; id, organizer, tiers and creation time never change; the update time is set |
| ModeloEventos.RemoverApagaSoOEvento | backend/src/modelos/ModeloEvento.ts:90-99 | with unique ids, after removal the event is not found and every other event and tier is kept |
| ModeloEventos.ModeloEvento.constructor | backend/src/modelos/ModeloEvento.ts:5-6 | both arrays start empty |
| ModeloEventos.ModeloEvento.CriarEvento | backend/src/modelos/ModeloEvento.ts:9-40 | appends one event and one tier per DTO entry, each with sold count 0 and the new event's id |
| ModeloEventos.ModeloEvento.Atualizar | backend/src/modelos/ModeloEvento.ts:67-88 | null and no change for an absent id; otherwise only that event becomes `Mesclado`; tiers unchanged |
| ModeloEventos.ModeloEvento.Remover | backend/src/modelos/ModeloEvento.ts:90-99 | false and no change for an absent id; otherwise removes that event and exactly the tiers of that event |
| ModeloEventos.ModeloEvento.AtualizarQuantidadeVendida | backend/src/modelos/ModeloEvento.ts:105-111 | true iff the tier exists; the tiers become `VendaRegistrada`; events unchanged |
| ModeloEventos.ModeloEvento.LimparDados | backend/src/modelos/ModeloEvento.ts:121-124 | both arrays are empty afterwards |
| ModeloUsuarios.BuscarPorEmail | backend/src/modelos/ModeloUsuario.ts:34-36 | absent iff no stored user has the e-mail; otherwise the first stored user with it |
| ModeloUsuarios.BuscarPorId | backend/src/modelos/ModeloUsuario.ts:38-40 | absent iff no stored user has the id; otherwise the first stored user with it |
| ModeloUsuarios.ListarTodos | backend/src/modelos/ModeloUsuario.ts:46-48 | the same users, in the same order, without the password |
| ModeloUsuarios.Atualizado | backend/src/modelos/ModeloUsuario.ts:50-67 | every supplied key overwrites, even an empty one; a non-empty new password is stored bcrypt-hashed, an empty one as given; id and creation time kept, update time set |
| ModeloUsuarios.CriadoEncontradoPorEmail | backend/src/modelos/ModeloUsuario.ts:9-36 | after creating a user with a new e-mail, looking that e-mail up finds the new user |
| ModeloUsuarios.CriarPreservaEmailsUnicos | backend/src/modelos/ModeloUsuario.ts:9-31 | creation keeps e-mails unique |
| ModeloUsuarios.AtualizarPodeDuplicarEmail | backend/src/modelos/ModeloUsuario.ts:50-67 | an update that sets another user's e-mail is accepted and breaks uniqueness (concrete two-user instance) |
| ModeloUsuarios.RemovidoNaoEncontrado | backend/src/modelos/ModeloUsuario.ts:69-75 | with unique ids, a removed user is no longer found and the others are listed in the same order |
| ModeloUsuarios.ModeloUsuario.constructor | backend/src/modelos/ModeloUsuario.ts:6 | the store starts empty |
| ModeloUsuarios.ModeloUsuario.CriarUsuario | backend/src/modelos/ModeloUsuario.ts:9-31 | 'Usuário já existe com este email' and no change for a stored e-mail; otherwise appends the new user with the hashed password and keeps e-mails unique |
| ModeloUsuarios.ModeloUsuario.Atualizar | backend/src/modelos/ModeloUsuario.ts:50-67 | null and no change for an absent id; otherwise only that index is replaced by `Atualizado` |
| ModeloUsuarios.ModeloUsuario.Remover | backend/src/modelos/ModeloUsuario.ts:69-75 | false and no change for an absent id; otherwise exactly that user is removed, others kept in order |
| ModeloUsuarios.ModeloUsuario.LimparDados | backend/src/modelos/ModeloUsuario.ts:78-80 | the store is empty afterwards |
| ControladorIngressos.RecusaDaCompra | backend/src/controladores/ControladorIngressos.ts:12-70 | no refusal iff every purchase check passes; refusals are 400 or 404; each check in order gives its own answer: missing event id, tier id or quantity (0 counts as missing) 400, negative quantity 400, missing buyer name or e-mail 400, unknown event 404, unknown tier or a tier of another event 404, not enough tickets 400, event date not in the future 400 |
| ControladorIngressos.CompraPreservaSemExcesso | backend/src/controladores/ControladorIngressos.ts:36-83 | an accepted purchase keeps sold ≤ available on every tier |
| ControladorIngressos.ComprarIngresso | backend/src/controladores/ControladorIngressos.ts:7-102 | a refusal changes no store; otherwise exactly the minted tickets are appended, the tier's sold count grows by the quantity, and `valorTotal = preco × quantidade` |
| ControladorIngressos.DecisaoValidacao | backend/src/controladores/ControladorIngressos.ts:146-196 | 400 for a missing code; 400 with the store's reason when the store rejects; valid (and only then 200) iff a code is given, the store accepts it and the ticket's event is found; 404 'Evento não encontrado' when the store accepts but the event is missing; a valid answer carries 'Ingresso válido - Entrada autorizada', the ticket as found and the event looked up by its id |
| ControladorIngressos.AposValidacao | backend/src/controladores/ControladorIngressos.ts:146-196 | the ticket store changes only on a valid answer, by marking that ticket used |
| ControladorIngressos.SegundaValidacaoRecusada | backend/src/controladores/ControladorIngressos.ts:157-181 | after a successful validation the same code is refused as 'já foi usado' and changes nothing |
| ControladorIngressos.ValidarIngresso | backend/src/controladores/ControladorIngressos.ts:146-196 | the answer is `DecisaoValidacao`; the store becomes `AposValidacao`; the answered ticket is the stored object after marking |
| ControladorIngressos.EstatisticasEvento | backend/src/controladores/ControladorIngressos.ts:233-283 | 401 unauthenticated, 403 for a non-owner; statistics (and only then 200) iff the caller owns an existing event; 404 when the event does not exist; then sold and used are the event's ticket counts (`ContarIngressosVendidos`, `ContarIngressosUsados`), used ≤ sold, available = capacity − sold |
| ControladorEventos.RecusaCriacao | backend/src/controladores/ControladorEventos.ts:6-47 | no refusal iff authenticated, name, date and place given, capacity > 0, at least one tier and the date in the future; each check in order gives its own answer: 401 unauthenticated, 400 missing fields, 400 capacity not positive, 400 no tiers, 400 date not in the future; refusals are 401 or 400 |
| ControladorEventos.CriarEvento | backend/src/controladores/ControladorEventos.ts:6-60 | a refusal stores nothing; otherwise 201, and the stored event is the request's record (name, description, date, place, capacity, tiers) for the caller with the new id and both timestamps set to now; exactly that event and its tiers are appended |
| ControladorEventos.RecusaAlteracao | backend/src/controladores/ControladorEventos.ts:113-140 | no refusal iff authenticated, the event exists and the caller owns it; 401 when unauthenticated, 404 for an unknown event, 403 for a non-owner |
| ControladorEventos.PosseMantidaAposAtualizar | backend/src/controladores/ControladorEventos.ts:113-153 | after the owner updates an event, any other user is still refused with 403 |
| ControladorEventos.AtualizarEvento | backend/src/controladores/ControladorEventos.ts:113-153 | only the owner's request reaches the store, which merges that one event |
| ControladorEventos.RemoverEvento | backend/src/controladores/ControladorEventos.ts:155-199 | only the owner's request reaches the store, which removes the event and its tiers |
| Compras.StatusDeTexto | backend/src/domain/entities/compra.ts:58-60 | accepts exactly the four status literals, each read back as its status |
| Compras.StatusIdaEVolta | backend/src/domain/entities/compra.ts:9 | every status survives writing and reading its literal |
| Compras.ValidarDados | backend/src/domain/entities/compra.ts:29-61 | passes iff all ids are non-empty, quantity and total are positive, code and hash are non-empty and the status is known; quantity ≤ 0 gets its own message |
| Compras.NovaCompra | backend/src/domain/entities/compra.ts:18-61 | fails iff `validarDados` fails, with its message; otherwise copies the fields, defaults id and timestamps |
| Compras.Transicao | backend/src/domain/entities/compra.ts:111-133 | confirm only from pendente, cancel from anything but utilizada, use only from confirmada, each to its target status |
| Compras.Aplicar | backend/src/domain/entities/compra.ts:111-133 | a transition changes only status and update time, and keeps a valid record valid |
| Compras.UtilizadaTerminal | backend/src/domain/entities/compra.ts:111-133 | no run of operations leaves utilizada or succeeds from it |
| Compras.UtilizarNoMaximoUmaVez | backend/src/domain/entities/compra.ts:127-133 | a run of operations uses a purchase at most once |
| Compras.UtilizadaSoAposConfirmada | backend/src/domain/entities/compra.ts:111-133 | reaching utilizada from another status takes exactly one successful use |
| Compras.CancelarIdempotente | backend/src/domain/entities/compra.ts:119-125 | cancelling a cancelled purchase succeeds and changes only the update time |
| Compras.Compra.constructor | backend/src/domain/entities/compra.ts:18-27 | the object holds the accepted record |
| Compras.Compra.Executar | backend/src/domain/entities/compra.ts:111-133 | a refused operation returns its message and changes nothing; an allowed one applies `Aplicar` |
| Compras.Compra.ConfirmarCompra | backend/src/domain/entities/compra.ts:111-117 | succeeds iff pendente, then confirmada; otherwise unchanged |
| Compras.Compra.CancelarCompra | backend/src/domain/entities/compra.ts:119-125 | succeeds iff not utilizada, then cancelada; otherwise unchanged |
| Compras.Compra.UtilizarIngresso | backend/src/domain/entities/compra.ts:127-133 | succeeds iff confirmada, then utilizada; otherwise unchanged |
| Compras.UmUnicoStatus | backend/src/domain/entities/compra.ts:135-149 | exactly one of the four `is*` tests holds |
| Compras.Compra.IsUtilizada | backend/src/domain/entities/compra.ts:135-137 | the test against the literal 'utilizada' holds iff the status is Utilizada |
| Compras.Compra.IsConfirmada | backend/src/domain/entities/compra.ts:139-141 | the test against the literal 'confirmada' holds iff the status is Confirmada |
| Compras.Compra.IsPendente | backend/src/domain/entities/compra.ts:143-145 | the test against the literal 'pendente' holds iff the status is Pendente |
| Compras.Compra.IsCancelada | backend/src/domain/entities/compra.ts:147-149 | the test against the literal 'cancelada' holds iff the status is Cancelada |
| Ingressos.TipoDeTexto | backend/src/domain/entities/ingresso.ts:33-35 | accepts exactly vip, pista and camarote |
| Ingressos.ValidarDados | backend/src/domain/entities/ingresso.ts:27-43 | passes iff the event id is given, the kind is known, and price and quantity are positive |
| Ingressos.NovoIngresso | backend/src/domain/entities/ingresso.ts:17-43 | fails iff `validarDados` fails, with its message; otherwise copies the fields with a positive quantity |
| Ingressos.AtualizarQuantidade | backend/src/domain/entities/ingresso.ts:81-87 | succeeds iff n ≥ 0 and sets the count to exactly n |
| Ingressos.ReduzirQuantidade | backend/src/domain/entities/ingresso.ts:89-98 | succeeds iff 0 < q ≤ available and takes away exactly q |
| Ingressos.AumentarQuantidade | backend/src/domain/entities/ingresso.ts:100-106 | succeeds iff q > 0 and adds exactly q |
| Ingressos.ReduzirEntaoAumentarRestaura | backend/src/domain/entities/ingresso.ts:89-106 | reducing then increasing by q restores the count |
| Ingressos.AumentarEntaoReduzirRestaura | backend/src/domain/entities/ingresso.ts:89-106 | increasing then reducing by q restores the count |
| Ingressos.QuantidadeNuncaNegativa | backend/src/domain/entities/ingresso.ts:81-106 | no run of mutators makes the count negative or changes id, event, kind, price or description |
| Ingressos.Ingresso.constructor | backend/src/domain/entities/ingresso.ts:17-25 | the object holds the accepted record |
| Ingressos.Ingresso.Executar | backend/src/domain/entities/ingresso.ts:81-106 | a refused mutation returns its message and changes nothing |
| Ingressos.Ingresso.AtualizarQuantidade | backend/src/domain/entities/ingresso.ts:81-87 | succeeds iff n ≥ 0; then only the count and update time change |
| Ingressos.Ingresso.ReduzirQuantidade | backend/src/domain/entities/ingresso.ts:89-98 | succeeds iff 0 < q ≤ available; then the count drops by q; otherwise unchanged |
| Ingressos.Ingresso.AumentarQuantidade | backend/src/domain/entities/ingresso.ts:100-106 | succeeds iff q > 0; then the count grows by q; otherwise unchanged |
| Eventos.ValidarCampos | backend/src/domain/entities/evento.ts:28-48 | passes iff trimmed name ≥ 3, date after now, trimmed place ≥ 3, capacity > 0 and organizer given |
| Eventos.NovoEvento | backend/src/domain/entities/evento.ts:17-48 | fails iff validation fails; otherwise copies the fields, status defaults to ativo |
| Eventos.EventoAtualizado | backend/src/domain/entities/evento.ts:94-98 | succeeds iff the merged record validates; then every field, `id`, `descricao` and `criadoEm` included, is the supplied value when one is supplied and the old value otherwise |
| Eventos.EventoPassadoNaoAtualiza | backend/src/domain/entities/evento.ts:94-98 | an event whose date has passed cannot be updated without a new date |
| Eventos.AtualizacaoVazia | backend/src/domain/entities/evento.ts:94-98 | an empty update succeeds iff the event still validates, and then only refreshes the update time |
| Eventos.AtualizarIdempotente | backend/src/domain/entities/evento.ts:94-98 | applying an accepted update again, at no later instant, gives the same record apart from the update time |
| Eventos.CancelarFinalizarIdempotentes | backend/src/domain/entities/evento.ts:100-108 | cancel and finish succeed from any status, are idempotent, the later wins, and touch only status and time |
| Eventos.Evento.constructor | backend/src/domain/entities/evento.ts:17-26 | the object holds the accepted record |
| Eventos.Evento.AtualizarEvento | backend/src/domain/entities/evento.ts:94-98 | assigns the merged record iff it validates; otherwise returns the message and keeps the event |
| Eventos.Evento.CancelarEvento | backend/src/domain/entities/evento.ts:100-103 | status becomes cancelado, unconditionally |
| Eventos.Evento.FinalizarEvento | backend/src/domain/entities/evento.ts:105-108 | status becomes finalizado, unconditionally |
| Usuarios.ValidarEmail | backend/src/domain/entities/usuario.ts:49-52 | an accepted e-mail has no white space, exactly one '@' and at least five characters |
| Usuarios.EmailAceitoCasaPadrao | backend/src/domain/entities/usuario.ts:49-52 | an accepted e-mail has the form A@B.C, with parts free of white space and '@' |
| Usuarios.PadraoAceitoPeloEmail | backend/src/domain/entities/usuario.ts:49-52 | every A@B.C split with such parts is accepted |
| Usuarios.EmailEquivalePadrao | backend/src/domain/entities/usuario.ts:49-52 | the e-mail check accepts exactly the strings matching `^[^\s@]+@[^\s@]+\.[^\s@]+$` |
| Usuarios.ValidarCampos | backend/src/domain/entities/usuario.ts:27-47 | passes iff trimmed name ≥ 3, e-mail matches the pattern, trimmed phone ≥ 10, trimmed document ≥ 8 and type is organizador or participante |
| Usuarios.NovoUsuario | backend/src/domain/entities/usuario.ts:17-47 | fails iff validation fails, with its message; otherwise copies the fields |
| Usuarios.UsuarioAtualizado | backend/src/domain/entities/usuario.ts:98-102 | succeeds iff the merged record validates; the result is valid, and every field (`id`, `telefone`, `documento`, `curso`, `numeroMatricula` and `criadoEm` included) is the supplied value when one is supplied and the old value otherwise |
| Usuarios.AtualizarCamposLivres | backend/src/domain/entities/usuario.ts:98-102 | an update of unchecked fields on a valid user always succeeds |
| Usuarios.UmUnicoPapel | backend/src/domain/entities/usuario.ts:104-110 | a valid user is exactly one of organizer and participant |
| Usuarios.Usuario.constructor | backend/src/domain/entities/usuario.ts:17-25 | the object holds the accepted record and is valid |
| Usuarios.Usuario.AtualizarDados | backend/src/domain/entities/usuario.ts:98-102 | assigns the merged record iff it validates, otherwise unchanged; validity is preserved |
| Repositorios.BuscarPorCodigoQR | backend/src/data/repositories/compra-repository.ts:61-80 | absent iff no row has the code; otherwise a row with it, the only one when keys are unique |
| Repositorios.InserirCompra | backend/src/data/repositories/compra-repository.ts:8-38 | refused iff the id or the code is already present; otherwise appends the row and keeps keys unique |
| Repositorios.AtualizarCompra | backend/src/data/repositories/compra-repository.ts:120-144 | rewrites the five updated columns of the rows with that id, keeps every other row and every key |
| Repositorios.AtualizarIngresso | backend/src/data/repositories/ingresso-repository.ts:76-100 | rewrites only that tier's row, keeps the others; the row written takes the given `tipo`, `preco`, `quantidadeDisponivel`, `descricao` and `atualizadoEm`, and keeps the stored `id`, `eventoId` and `criadoEm` |
| Repositorios.InserirEvento | backend/src/data/repositories/evento-repository.ts:8-36 | refused iff the id is present; otherwise adds exactly that event and keeps the others |
| Repositorios.RepositorioEventos.Salvar | backend/src/domain/repositories.ts:7 | a reported failure or a duplicate id writes nothing; otherwise the table becomes `InserirEvento` |
| Repositorios.RepositorioIngressos.Atualizar | backend/src/domain/repositories.ts:19 | a reported failure writes nothing; otherwise the table becomes `AtualizarIngresso` |
| Repositorios.RepositorioCompras.Salvar | backend/src/domain/repositories.ts:34 | a reported failure or a key clash writes nothing; otherwise the row is appended |
| Repositorios.RepositorioCompras.Atualizar | backend/src/domain/repositories.ts:39 | a reported failure writes nothing; otherwise the table becomes `AtualizarCompra` |
| ComprarIngresso.Planejar | backend/src/domain/usecases/comprar-ingresso-usecase.ts:25-95 | refusals in order (user, event, not active, tier, 'Apenas n ingresso(s) disponível(is)' when available < quantity); quantity ≤ 0 fails; past the availability check, a refusal is the `Compra` constructor's own message; success iff all checks and the constructor pass; then a confirmada purchase with `valorTotal = preco × quantidade` and the tier reduced by exactly the quantity, never below 0 |
| ComprarIngresso.Vender | backend/src/domain/usecases/comprar-ingresso-usecase.ts:73-95 | once the tier holds enough tickets: success iff the quantity and the price are positive, the ids are given and the hash is non-empty; otherwise the `Compra` constructor's message for the built data; then a confirmada purchase with `valorTotal = preco × quantidade` and the tier reduced by exactly the quantity |
| ComprarIngresso.CodigoQRIdentificaEvento | backend/src/domain/usecases/comprar-ingresso-usecase.ts:116-120 | a purchase code is 'QR_', the event id, '_' and more; codes for events whose ids have equal length coincide only if the event ids are equal |
| ComprarIngresso.HashRevelaCodigo | backend/src/domain/usecases/comprar-ingresso-usecase.ts:122-126 | decoded, a purchase hash starts with the purchase code and '_'; hashes for codes of equal length coincide only if the codes are equal |
| ComprarIngresso.DadosDaCompraAceitos | backend/src/domain/usecases/comprar-ingresso-usecase.ts:73-92 | the `Compra` constructor accepts the data the use-case builds iff the three ids are given, the quantity and the total are positive and the hash is non-empty; the generated code and the status literal never fail |
| ComprarIngresso.TipoDeOutroEventoAceito | backend/src/domain/usecases/comprar-ingresso-usecase.ts:56-63 | the tier's own event is never checked: moving it to another event changes neither outcome nor purchase |
| ComprarIngresso.CompraRecemFeitaValida | backend/src/domain/usecases/comprar-ingresso-usecase.ts:74-99 | a purchase just written is found by its code and lets its holder in at the gate (when Base64 never shortens its input) |
| ComprarIngresso.ComprarIngressoUseCase.Executar | backend/src/domain/usecases/comprar-ingresso-usecase.ts:25-114 | a refusal writes nothing; the purchase is written before the tier; a failed purchase write writes nothing; a failed tier write keeps the purchase, with no compensation; success iff both writes succeed; every failure has no purchase |
| ValidarIngresso.HashValido | backend/src/domain/usecases/validar-ingresso-usecase.ts:128-132 | the hash passes iff it has at least 11 characters; the separate emptiness test never changes the outcome |
| ValidarIngresso.Validar | backend/src/domain/usecases/validar-ingresso-usecase.ts:28-132 | unknown code, pendente or cancelada, utilizada (valid, already used), hash of ≤ 10 characters, missing event and cancelled event each give their answer; success iff confirmada, hash longer than 10, and event present and not cancelled (finalizado passes), answering the purchase as utilizada |
| ValidarIngresso.SegundaValidacaoJaUtilizada | backend/src/domain/usecases/validar-ingresso-usecase.ts:55-115 | after a success the same code is answered 'já foi utilizado' with the written purchase, and writes nothing |
| ValidarIngresso.UtilizadaNaoEntraMais | backend/src/domain/usecases/validar-ingresso-usecase.ts:55-63 | once the code leads to a used purchase, no later call succeeds |
| ValidarIngresso.NoMaximoUmaEntrada | backend/src/domain/usecases/validar-ingresso-usecase.ts:28-115 | any run of calls with the same code succeeds at most once |
| ValidarIngresso.ValidarIngressoUseCase.Executar | backend/src/domain/usecases/validar-ingresso-usecase.ts:28-126 | a refusal writes nothing; a success writes the used purchase once; a failed write answers without a purchase and writes nothing |
| CriarEvento.Planejar | backend/src/domain/usecases/criar-evento-usecase.ts:24-46 | date ≤ now gives 'A data do evento deve ser futura'; otherwise the `Evento` constructor decides; the use-case accepts exactly what the constructor accepts; an accepted event is ativo with the request's fields |
| CriarEvento.CriarEventoUseCase.Executar | backend/src/domain/usecases/criar-evento-usecase.ts:24-64 | every failure answers without an event and writes nothing; a success writes the event exactly once |
| ListarEventos.Listar | backend/src/domain/usecases/listar-eventos-usecase.ts:21-51 | the source is the organizer's list iff an organizer is given; a source error gives [], 0 and failure; otherwise total = number returned; with a status every returned event has it and every matching event is returned |
| ListarEventos.ListagemPreservaOrdem | backend/src/domain/usecases/listar-eventos-usecase.ts:32-34 | the status filter keeps the source's order |
| ListarEventos.ListagemDoOrganizador | backend/src/domain/usecases/listar-eventos-usecase.ts:25-34 | organizer listing plus status filter gives exactly the events matching both, in the order of all events |

## Left out

- SHA-256, Base64, bcrypt and JSON Web Tokens are not computed. SHA-256, Base64 and bcrypt are abstract function-valued fields. As a result, "the stored password differs from the plaintext" cannot be stated.
- ComprarIngresso.CompraRecemFeitaValida: assumes that Base64 never returns a shorter string than its input. This holds for the real encoding, which is not modelled.
- `uuidv4()`, `Date.now()`, `new Date()`, `Math.random()` and `gerarId()` are parameters. Several clock reads within one call are taken as one instant.
- Minted codes are not proved distinct, because they come from `uuidv4()` and the clock. The round-trip lemmas take distinctness as a hypothesis.
- Dates are integer instants. ISO date parsing, `Invalid Date`, `NaN` and non-integer numbers are not modelled. Prices are integers.
- The percentages of `estatisticasEvento` are not modelled, because they are floating point.
- The in-memory queries `buscarPorComprador`, `listarEventos` and `verificarSenha` are not modelled. Neither are the handlers `listarIngressosComprador`, `buscarIngresso`, `listarEventos`, `buscarEvento` and `listarEventosOrganizador`. They are not modelled.
- The `catch` blocks that answer 500 in the controllers are not modelled. A request body without a `comprador` object is also not modelled: it would raise a TypeError and answer 500.
- A missing `capacidadeMaxima` passes the controller's `<= 0` check, because `undefined <= 0` is false. The model takes it as a number.
- A `Partial` update key supplied explicitly as `undefined` is not modelled.
- The entity constructors require an accepted record. The throwing path is modelled by `NovaCompra`, `NovoIngresso`, `NovoEvento` and `NovoUsuario`.
- JavaScript strings are UTF-16 code units, while Dafny `char` is a Unicode scalar value. Lengths differ only outside the Basic Multilingual Plane.
- The in-memory `criarEvento` pushes the event before its tiers and shares the tier array by reference. The model builds the final state directly, which is the same.
- The SQLite repositories rebuild entities through their constructors on every read, so a row that no longer validates is reported as an error. Examples are a past event, or a tier with no tickets left. The model's repositories return the stored record instead.
- Repository read errors are not modelled. Write errors are modelled as the `falha` parameters, and so is the listing's source error.
- The error texts for SQL constraint violations follow SQLite's wording. They are not part of the repository's code.
- Async interleaving is not modelled: each call is one atomic step. Two concurrent purchases could both pass the availability check.
- The HTTP glue, the JWT middleware, the frontend and the Cucumber steps are not modelled.
