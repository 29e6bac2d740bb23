/** The user entity of the layered implementation
    (backend/src/domain/entities/usuario.ts): field validation, including the
    e-mail pattern `^[^\s@]+@[^\s@]+\.[^\s@]+$`, the validated partial update
    and the two role tests. */
module Usuarios {
  import opened Wrappers
  import opened Colecoes
  import Texto

  /** A character the pattern's class `[^\s@]` accepts. */
  predicate CaractereDeEmail(c: char)
  {
    !Texto.EhEspaco(c) && c != '@'
  }

  predicate SoCaracteresDeEmail(s: string)
  {
    forall k :: 0 <= k < |s| ==> CaractereDeEmail(s[k])
  }

  function EhArroba(): char -> bool
  {
    (c: char) => c == '@'
  }

  /** What the pattern accepts, stated on positions: an '@' at i and a '.'
      at j split the address into three non-empty runs of `[^\s@]`. */
  ghost predicate CasaPadraoEmail(e: string)
  {
    exists i, j :: 0 < i && i + 1 < j < |e| - 1 && e[i] == '@' && e[j] == '.'
      && SoCaracteresDeEmail(e[..i]) && SoCaracteresDeEmail(e[i + 1..j]) && SoCaracteresDeEmail(e[j + 1..])
  }

  /** The domain part: no white space or '@', and a '.' that is neither its
      first nor its last character. */
  predicate DominioValido(d: string)
  {
    SoCaracteresDeEmail(d) && exists j :: 0 < j < |d| - 1 && d[j] == '.'
  }

  /** `validarEmail`, as a scan: split at the first '@', then check both sides.
      An accepted address has no white space, exactly one '@', and at least
      five characters (`a@b.c`). */
  function ValidarEmail(email: string): (r: bool)
    ensures r ==> forall k :: 0 <= k < |email| ==> !Texto.EhEspaco(email[k])
    ensures r ==> exists k :: 0 <= k < |email| && email[k] == '@'
    ensures r ==> forall a, b :: 0 <= a < b < |email| && email[a] == '@' ==> email[b] != '@'
    ensures r ==> |email| >= 5
  {
    var i := IndiceDe(email, EhArroba());
    if i > 0 && SoCaracteresDeEmail(email[..i]) && DominioValido(email[i + 1..]) then
      forall k | 0 <= k < |email| && k != i ensures CaractereDeEmail(email[k]) {
        if k < i {
          assert email[k] == email[..i][k];
        } else {
          assert email[k] == email[i + 1..][k - i - 1];
        }
      }
      assert EhArroba()(email[i]);
      true
    else
      false
  }

  /** Whatever the scan accepts, the pattern matches. */
  lemma EmailAceitoCasaPadrao(e: string)
    requires ValidarEmail(e)
    ensures CasaPadraoEmail(e)
  {
    var i := IndiceDe(e, EhArroba());
    var d := e[i + 1..];
    var jd :| 0 < jd < |d| - 1 && d[jd] == '.';
    var j := i + 1 + jd;
    assert e[i + 1..j] == d[..jd];
    assert e[j + 1..] == d[jd + 1..];
    assert SoCaracteresDeEmail(e[i + 1..j]);
    assert SoCaracteresDeEmail(e[j + 1..]);
  }

  /** Whatever the pattern matches, the scan accepts: the '@' of the match
      is the first one, and the rest is a valid domain part. */
  lemma PadraoAceitoPeloEmail(e: string, a: nat, j: nat)
    requires 0 < a && a + 1 < j < |e| - 1 && e[a] == '@' && e[j] == '.'
    requires SoCaracteresDeEmail(e[..a]) && SoCaracteresDeEmail(e[a + 1..j]) && SoCaracteresDeEmail(e[j + 1..])
    ensures ValidarEmail(e)
  {
    forall k | 0 <= k < a ensures !EhArroba()(e[k]) {
      assert e[k] == e[..a][k];
    }
    PrimeiroIndice(e, EhArroba(), a);
    var d := e[a + 1..];
    forall k | 0 <= k < |d| ensures CaractereDeEmail(d[k]) {
      if k < j - a - 1 {
        assert d[k] == e[a + 1..j][k];
      } else if k > j - a - 1 {
        assert d[k] == e[j + 1..][k - (j - a)];
      }
    }
    assert d[j - a - 1] == '.';
  }

  /** The scan accepts exactly the addresses the pattern matches. */
  lemma EmailEquivalePadrao(e: string)
    ensures ValidarEmail(e) <==> CasaPadraoEmail(e)
  {
    if ValidarEmail(e) {
      EmailAceitoCasaPadrao(e);
    }
    if CasaPadraoEmail(e) {
      var a: nat, j: nat :| 0 < a && a + 1 < j < |e| - 1 && e[a] == '@' && e[j] == '.'
        && SoCaracteresDeEmail(e[..a]) && SoCaracteresDeEmail(e[a + 1..j]) && SoCaracteresDeEmail(e[j + 1..]);
      PadraoAceitoPeloEmail(e, a, j);
    }
  }

  /** What the constructor receives ("" is a missing string). */
  datatype DadosUsuario = DadosUsuario(
    id: string,
    nomeCompleto: string,
    email: string,
    telefone: string,
    documento: string,
    curso: Option<string>,
    numeroMatricula: Option<string>,
    tipo: string,
    criadoEm: Option<int>,
    atualizadoEm: Option<int>)

  datatype PropsUsuario = PropsUsuario(
    id: string,
    nomeCompleto: string,
    email: string,
    telefone: string,
    documento: string,
    curso: Option<string>,
    numeroMatricula: Option<string>,
    tipo: string,
    criadoEm: int,
    atualizadoEm: int)

  /** `Partial<UsuarioProps>`: Some for every key the caller supplied. */
  datatype AtualizacaoUsuario = AtualizacaoUsuario(
    id: Option<string>,
    nomeCompleto: Option<string>,
    email: Option<string>,
    telefone: Option<string>,
    documento: Option<string>,
    curso: Option<string>,
    numeroMatricula: Option<string>,
    tipo: Option<string>,
    criadoEm: Option<int>)

  /** `validarDados` on the five checked fields: the first failure, or None. */
  function ValidarCampos(nomeCompleto: string, email: string, telefone: string, documento: string, tipo: string): (r: Option<string>)
    ensures r.None? <==> && |Texto.Trim(nomeCompleto)| >= 3 && CasaPadraoEmail(email)
                         && |Texto.Trim(telefone)| >= 10 && |Texto.Trim(documento)| >= 8
                         && (tipo == "organizador" || tipo == "participante")
    ensures |Texto.Trim(nomeCompleto)| >= 3 && !CasaPadraoEmail(email) ==> r == Some("Email inválido")
  {
    EmailEquivalePadrao(email);
    if nomeCompleto == "" || |Texto.Trim(nomeCompleto)| < 3 then Some("Nome completo deve ter pelo menos 3 caracteres")
    else if email == "" || !ValidarEmail(email) then Some("Email inválido")
    else if telefone == "" || |Texto.Trim(telefone)| < 10 then Some("Telefone deve ter pelo menos 10 caracteres")
    else if documento == "" || |Texto.Trim(documento)| < 8 then Some("Documento deve ter pelo menos 8 caracteres")
    else if tipo != "organizador" && tipo != "participante" then Some("Tipo de usuário inválido")
    else None
  }

  function ValidarProps(p: PropsUsuario): Option<string>
  {
    ValidarCampos(p.nomeCompleto, p.email, p.telefone, p.documento, p.tipo)
  }

  predicate UsuarioValido(p: PropsUsuario)
  {
    ValidarProps(p).None?
  }

  /** The constructor; `idGerado` and `agora` stand for `gerarId()` and `new Date()`. */
  function NovoUsuario(d: DadosUsuario, idGerado: string, agora: int): (r: Result<PropsUsuario>)
    ensures r.Err? <==> ValidarCampos(d.nomeCompleto, d.email, d.telefone, d.documento, d.tipo).Some?
    ensures r.Err? ==> Some(r.mensagem) == ValidarCampos(d.nomeCompleto, d.email, d.telefone, d.documento, d.tipo)
    ensures r.Ok? ==>
      && UsuarioValido(r.value)
      && r.value.id == (if d.id != "" then d.id else idGerado)
      && r.value.nomeCompleto == d.nomeCompleto && r.value.email == d.email
      && r.value.telefone == d.telefone && r.value.documento == d.documento
      && r.value.curso == d.curso && r.value.numeroMatricula == d.numeroMatricula && r.value.tipo == d.tipo
      && r.value.criadoEm == d.criadoEm.GetOr(agora) && r.value.atualizadoEm == d.atualizadoEm.GetOr(agora)
  {
    match ValidarCampos(d.nomeCompleto, d.email, d.telefone, d.documento, d.tipo)
    case Some(erro) => Err(erro)
    case None =>
      Ok(PropsUsuario(if d.id != "" then d.id else idGerado, d.nomeCompleto, d.email, d.telefone, d.documento,
                      d.curso, d.numeroMatricula, d.tipo, d.criadoEm.GetOr(agora), d.atualizadoEm.GetOr(agora)))
  }

  /** `{ ...this.props, ...dadosAtualizacao, atualizadoEm: new Date() }`. */
  function Mesclar(p: PropsUsuario, u: AtualizacaoUsuario, agora: int): PropsUsuario
  {
    PropsUsuario(u.id.GetOr(p.id), u.nomeCompleto.GetOr(p.nomeCompleto), u.email.GetOr(p.email),
                 u.telefone.GetOr(p.telefone), u.documento.GetOr(p.documento),
                 if u.curso.Some? then u.curso else p.curso,
                 if u.numeroMatricula.Some? then u.numeroMatricula else p.numeroMatricula,
                 u.tipo.GetOr(p.tipo), u.criadoEm.GetOr(p.criadoEm), agora)
  }

  /** `atualizarDados`: the merged record if it still validates, else the
      validation error (and the user is kept). */
  function UsuarioAtualizado(p: PropsUsuario, u: AtualizacaoUsuario, agora: int): (r: Result<PropsUsuario>)
    ensures r.Ok? <==> UsuarioValido(Mesclar(p, u, agora))
    ensures r.Ok? ==> UsuarioValido(r.value) && r.value.atualizadoEm == agora
    ensures r.Ok? ==>
      && r.value.email == (if u.email.Some? then u.email.value else p.email)
      && r.value.tipo == (if u.tipo.Some? then u.tipo.value else p.tipo)
      && r.value.nomeCompleto == (if u.nomeCompleto.Some? then u.nomeCompleto.value else p.nomeCompleto)
      && r.value.telefone == (if u.telefone.Some? then u.telefone.value else p.telefone)
      && r.value.documento == (if u.documento.Some? then u.documento.value else p.documento)
      && r.value.curso == (if u.curso.Some? then u.curso else p.curso)
      && r.value.numeroMatricula == (if u.numeroMatricula.Some? then u.numeroMatricula else p.numeroMatricula)
      && r.value.id == (if u.id.Some? then u.id.value else p.id)
      && r.value.criadoEm == (if u.criadoEm.Some? then u.criadoEm.value else p.criadoEm)
  {
    var novosDados := Mesclar(p, u, agora);
    match ValidarProps(novosDados)
    case Some(erro) => Err(erro)
    case None => Ok(novosDados)
  }

  /** An update supplying only fields outside the five checked ones always
      succeeds on a valid user. */
  lemma AtualizarCamposLivres(p: PropsUsuario, u: AtualizacaoUsuario, agora: int)
    requires UsuarioValido(p)
    requires u.nomeCompleto.None? && u.email.None? && u.telefone.None? && u.documento.None? && u.tipo.None?
    ensures UsuarioAtualizado(p, u, agora).Ok?
  {
    assert ValidarProps(Mesclar(p, u, agora)) == ValidarProps(p);
  }

  predicate IsOrganizador(p: PropsUsuario)
  {
    p.tipo == "organizador"
  }

  predicate IsParticipante(p: PropsUsuario)
  {
    p.tipo == "participante"
  }

  /** A valid user is an organizer or a participant, never both. */
  lemma UmUnicoPapel(p: PropsUsuario)
    requires UsuarioValido(p)
    ensures IsOrganizador(p) != IsParticipante(p)
  {
  }

  /** The entity object; `atualizarDados` reassigns `props`. */
  class Usuario {
    var props: PropsUsuario

    predicate Valido()
      reads this
    {
      UsuarioValido(props)
    }

    /** Only an accepted record is constructed; the refused inputs are the
        `Err` cases of `NovoUsuario`. */
    constructor (dados: DadosUsuario, idGerado: string, agora: int)
      requires NovoUsuario(dados, idGerado, agora).Ok?
      ensures props == NovoUsuario(dados, idGerado, agora).value && Valido()
    {
      props := NovoUsuario(dados, idGerado, agora).value;
    }

    /** `atualizarDados`: on a validation error nothing changes, so a valid
        user stays valid either way. */
    method AtualizarDados(dadosAtualizacao: AtualizacaoUsuario, agora: int) returns (erro: Option<string>)
      modifies this
      ensures erro.None? <==> UsuarioAtualizado(old(props), dadosAtualizacao, agora).Ok?
      ensures erro.None? ==> props == UsuarioAtualizado(old(props), dadosAtualizacao, agora).value
      ensures erro.Some? ==> props == old(props)
      ensures old(Valido()) ==> Valido()
    {
      var r := UsuarioAtualizado(props, dadosAtualizacao, agora);
      if r.Err? {
        return Some(r.mensagem);
      }
      props := r.value;
      return None;
    }

    predicate IsOrganizador()
      reads this
    {
      props.tipo == "organizador"
    }

    predicate IsParticipante()
      reads this
    {
      props.tipo == "participante"
    }
  }
}
