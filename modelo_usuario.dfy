/** The in-memory user store of the first implementation
    (backend/src/modelos/ModeloUsuario.ts). bcrypt is a function of the
    password and a salt, both supplied by the caller; ids and instants are
    parameters. */
module ModeloUsuarios {
  import opened Wrappers
  import opened Colecoes

  datatype TipoUsuario = Organizador | Comprador

  datatype Usuario = Usuario(
    id: string,
    nome: string,
    email: string,
    telefone: Option<string>,
    senha: string,
    tipoUsuario: TipoUsuario,
    criadoEm: int,
    atualizadoEm: int)

  /** `Omit<Usuario, 'senha'>`. */
  datatype UsuarioPublico = UsuarioPublico(
    id: string,
    nome: string,
    email: string,
    telefone: Option<string>,
    tipoUsuario: TipoUsuario,
    criadoEm: int,
    atualizadoEm: int)

  datatype CriarUsuarioDto = CriarUsuarioDto(
    nome: string,
    email: string,
    telefone: Option<string>,
    senha: string,
    tipoUsuario: TipoUsuario)

  /** `Partial<CriarUsuarioDto>`: Some for every key the caller supplied. */
  datatype AtualizacaoUsuario = AtualizacaoUsuario(
    nome: Option<string>,
    email: Option<string>,
    telefone: Option<string>,
    senha: Option<string>,
    tipoUsuario: Option<TipoUsuario>)

  function PorEmail(email: string): Usuario -> bool
  {
    (u: Usuario) => u.email == email
  }

  function PorId(id: string): Usuario -> bool
  {
    (u: Usuario) => u.id == id
  }

  /** `buscarPorEmail`: the first user with that e-mail, or None. */
  function BuscarPorEmail(s: seq<Usuario>, email: string): (r: Option<Usuario>)
    ensures r.None? <==> forall k :: 0 <= k < |s| ==> s[k].email != email
    ensures r.Some? ==> r.value.email == email && r.value in s
    ensures r.Some? ==> r.value == s[IndiceDe(s, PorEmail(email))]
  {
    Encontrar(s, PorEmail(email))
  }

  /** `buscarPorId`: the first user with that id, or None. */
  function BuscarPorId(s: seq<Usuario>, id: string): (r: Option<Usuario>)
    ensures r.None? <==> forall k :: 0 <= k < |s| ==> s[k].id != id
    ensures r.Some? ==> r.value.id == id && r.value in s
    ensures r.Some? ==> r.value == s[IndiceDe(s, PorId(id))]
  {
    Encontrar(s, PorId(id))
  }

  function SemSenha(u: Usuario): UsuarioPublico
  {
    UsuarioPublico(u.id, u.nome, u.email, u.telefone, u.tipoUsuario, u.criadoEm, u.atualizadoEm)
  }

  /** `listarTodos`: the same users, in the same order, without `senha`. */
  function ListarTodos(s: seq<Usuario>): (r: seq<UsuarioPublico>)
    ensures |r| == |s|
    ensures forall k :: 0 <= k < |s| ==>
      && r[k].id == s[k].id && r[k].nome == s[k].nome && r[k].email == s[k].email
      && r[k].telefone == s[k].telefone && r[k].tipoUsuario == s[k].tipoUsuario
      && r[k].criadoEm == s[k].criadoEm && r[k].atualizadoEm == s[k].atualizadoEm
  {
    seq(|s|, k requires 0 <= k < |s| => SemSenha(s[k]))
  }

  /** The user `criarUsuario` stores. */
  function NovoUsuario(dados: CriarUsuarioDto, bcrypt: (string, string) -> string, id: string, sal: string, agora: int): Usuario
  {
    Usuario(id, dados.nome, dados.email, dados.telefone, bcrypt(dados.senha, sal), dados.tipoUsuario, agora, agora)
  }

  /** The record `atualizar` stores: every supplied key overrides (even an
      empty one), the stamp is refreshed, and a non-empty new password is
      stored hashed while an empty one is stored as given. */
  function Atualizado(u: Usuario, d: AtualizacaoUsuario, bcrypt: (string, string) -> string, sal: string, agora: int): (r: Usuario)
    ensures r.id == u.id && r.criadoEm == u.criadoEm && r.atualizadoEm == agora
    ensures r.nome == d.nome.GetOr(u.nome) && r.email == d.email.GetOr(u.email)
    ensures r.tipoUsuario == d.tipoUsuario.GetOr(u.tipoUsuario)
    ensures r.telefone == (if d.telefone.Some? then d.telefone else u.telefone)
    ensures d.senha.None? ==> r.senha == u.senha
    ensures d.senha == Some("") ==> r.senha == ""
    ensures d.senha.Some? && d.senha.value != "" ==> r.senha == bcrypt(d.senha.value, sal)
  {
    var mesclado := Usuario(u.id, d.nome.GetOr(u.nome), d.email.GetOr(u.email),
                            if d.telefone.Some? then d.telefone else u.telefone,
                            d.senha.GetOr(u.senha), d.tipoUsuario.GetOr(u.tipoUsuario), u.criadoEm, agora);
    if d.senha.Some? && d.senha.value != "" then mesclado.(senha := bcrypt(d.senha.value, sal)) else mesclado
  }

  predicate EmailsUnicos(s: seq<Usuario>)
  {
    forall a, b :: 0 <= a < b < |s| ==> s[a].email != s[b].email
  }

  /** A user created with a fresh e-mail is then found by that e-mail. */
  lemma CriadoEncontradoPorEmail(s: seq<Usuario>, novo: Usuario)
    requires BuscarPorEmail(s, novo.email).None?
    ensures BuscarPorEmail(s + [novo], novo.email) == Some(novo)
  {
    PrimeiroIndice(s + [novo], PorEmail(novo.email), |s|);
  }

  /** Creation keeps e-mails unique, since it refuses a stored e-mail. */
  lemma CriarPreservaEmailsUnicos(s: seq<Usuario>, novo: Usuario)
    requires EmailsUnicos(s)
    requires BuscarPorEmail(s, novo.email).None?
    ensures EmailsUnicos(s + [novo])
  {
    var t := s + [novo];
    forall a, b | 0 <= a < b < |t| ensures t[a].email != t[b].email {
      if b == |s| {
        assert t[a] == s[a];
      } else {
        assert t[a] == s[a] && t[b] == s[b];
      }
    }
  }

  /** `atualizar` does not recheck e-mail uniqueness: an update can give a
      second user an e-mail already in use. */
  lemma AtualizarPodeDuplicarEmail(bcrypt: (string, string) -> string)
    ensures var a := Usuario("1", "Ana", "a@x.com", None, "h", Comprador, 0, 0);
      var b := Usuario("2", "Bia", "b@x.com", None, "h", Comprador, 0, 0);
      var d := AtualizacaoUsuario(None, Some("a@x.com"), None, None, None);
      EmailsUnicos([a, b]) && !EmailsUnicos([a, Atualizado(b, d, bcrypt, "", 1)])
  {
    var a := Usuario("1", "Ana", "a@x.com", None, "h", Comprador, 0, 0);
    var b := Usuario("2", "Bia", "b@x.com", None, "h", Comprador, 0, 0);
    var d := AtualizacaoUsuario(None, Some("a@x.com"), None, None, None);
    assert a.email[0] != b.email[0];
    var b2 := Atualizado(b, d, bcrypt, "", 1);
    assert [a, b2][0].email == [a, b2][1].email;
  }

  predicate IdsUnicos(s: seq<Usuario>)
  {
    forall a, b :: 0 <= a < b < |s| ==> s[a].id != s[b].id
  }

  /** After `remover(id)` on a store with unique ids, the user is gone and
      the others keep their order. */
  lemma RemovidoNaoEncontrado(s: seq<Usuario>, i: nat)
    requires IdsUnicos(s) && i < |s|
    ensures BuscarPorId(s[..i] + s[i + 1..], s[i].id).None?
    ensures ListarTodos(s[..i] + s[i + 1..]) == ListarTodos(s)[..i] + ListarTodos(s)[i + 1..]
  {
    var r := s[..i] + s[i + 1..];
    forall k | 0 <= k < |r| ensures r[k].id != s[i].id {
      if k < i {
        assert r[k] == s[k];
      } else {
        assert r[k] == s[k + 1];
      }
    }
  }

  /** The module-level `usuarios` array and the static methods that change it. */
  class ModeloUsuario {
    const bcrypt: (string, string) -> string
    var usuarios: seq<Usuario>

    constructor (bcrypt: (string, string) -> string)
      ensures this.bcrypt == bcrypt && usuarios == []
    {
      this.bcrypt := bcrypt;
      usuarios := [];
    }

    /** `criarUsuario`: refuses a stored e-mail and changes nothing;
        otherwise appends the new user with the password hashed. */
    method CriarUsuario(dadosUsuario: CriarUsuarioDto, id: string, sal: string, agora: int) returns (r: Result<Usuario>)
      modifies this
      ensures BuscarPorEmail(old(usuarios), dadosUsuario.email).Some? ==>
        r == Err("Usuário já existe com este email") && usuarios == old(usuarios)
      ensures BuscarPorEmail(old(usuarios), dadosUsuario.email).None? ==>
        && r == Ok(NovoUsuario(dadosUsuario, bcrypt, id, sal, agora))
        && r.value.senha == bcrypt(dadosUsuario.senha, sal)
        && usuarios == old(usuarios) + [r.value]
      ensures old(EmailsUnicos(usuarios)) ==> EmailsUnicos(usuarios)
    {
      if BuscarPorEmail(usuarios, dadosUsuario.email).Some? {
        return Err("Usuário já existe com este email");
      }
      var senhaCriptografada := bcrypt(dadosUsuario.senha, sal);
      var novoUsuario := Usuario(id, dadosUsuario.nome, dadosUsuario.email, dadosUsuario.telefone,
                                 senhaCriptografada, dadosUsuario.tipoUsuario, agora, agora);
      if EmailsUnicos(usuarios) {
        CriarPreservaEmailsUnicos(usuarios, novoUsuario);
      }
      usuarios := usuarios + [novoUsuario];
      return Ok(novoUsuario);
    }

    /** `atualizar`: None for an unknown id; otherwise only the first user
        with that id is replaced, by `Atualizado(...)`. */
    method Atualizar(id: string, dadosAtualizacao: AtualizacaoUsuario, sal: string, agora: int) returns (r: Option<Usuario>)
      modifies this
      ensures var i := IndiceDe(old(usuarios), PorId(id));
        && (i == -1 ==> r.None? && usuarios == old(usuarios))
        && (i != -1 ==>
              && r == Some(Atualizado(old(usuarios)[i], dadosAtualizacao, bcrypt, sal, agora))
              && usuarios == old(usuarios)[i := r.value])
    {
      var indiceUsuario := IndiceDe(usuarios, PorId(id));
      if indiceUsuario == -1 {
        return None;
      }
      var usuario := usuarios[indiceUsuario];
      var usuarioAtualizado := Usuario(usuario.id, dadosAtualizacao.nome.GetOr(usuario.nome),
                                       dadosAtualizacao.email.GetOr(usuario.email),
                                       if dadosAtualizacao.telefone.Some? then dadosAtualizacao.telefone else usuario.telefone,
                                       dadosAtualizacao.senha.GetOr(usuario.senha),
                                       dadosAtualizacao.tipoUsuario.GetOr(usuario.tipoUsuario), usuario.criadoEm, agora);
      if dadosAtualizacao.senha.Some? && dadosAtualizacao.senha.value != "" {
        usuarioAtualizado := usuarioAtualizado.(senha := bcrypt(dadosAtualizacao.senha.value, sal));
      }
      usuarios := usuarios[indiceUsuario := usuarioAtualizado];
      return Some(usuarioAtualizado);
    }

    /** `remover`: false for an unknown id; otherwise exactly that user is
        spliced out. */
    method Remover(id: string) returns (removido: bool)
      modifies this
      ensures var i := IndiceDe(old(usuarios), PorId(id));
        && (removido <==> i != -1)
        && (i == -1 ==> usuarios == old(usuarios))
        && (i != -1 ==> usuarios == old(usuarios)[..i] + old(usuarios)[i + 1..])
    {
      var indiceUsuario := IndiceDe(usuarios, PorId(id));
      if indiceUsuario == -1 {
        return false;
      }
      usuarios := usuarios[..indiceUsuario] + usuarios[indiceUsuario + 1..];
      return true;
    }

    /** `limparDados`. */
    method LimparDados()
      modifies this
      ensures usuarios == []
    {
      usuarios := [];
    }
  }
}
