/**
 * The mock authentication of `useAuth`: one `user` slot, overwritten by
 * `login` (a lookup in a fixed table of two demo users), `register` and
 * `logout`; `isAuthenticated` is whether the slot is filled. The fresh id
 * `register` takes from the clock is a parameter here.
 */
module UseAuth {
  import opened Options

  datatype Tipo = Colaborador | Gestor | Admin

  /** `User`, with the optional `senha`; `created_at` is not used by this hook. */
  datatype User = User(id: string, nome: string, cpf: string, cargo: string, email: string, tipo: Tipo, senha: Option<string>)

  /** `mockUsers`. */
  const MockUsers: seq<User> := [
    User("1", "João Silva", "123.456.789-00", "Desenvolvedor", "joao@publievo.com", Colaborador, Some("123456")),
    User("2", "Maria Santos", "987.654.321-00", "Gerente", "maria@publievo.com", Gestor, Some("admin123"))
  ]

  predicate Combina(u: User, email: string, senha: string) {
    u.email == email && u.senha == Some(senha)
  }

  /** The position of the first user matching both e-mail and password, `|us|` when none does. */
  function PrimeiroIndice(us: seq<User>, email: string, senha: string): (k: nat)
    ensures k <= |us|
    ensures forall j :: 0 <= j < k ==> !Combina(us[j], email, senha)
    ensures k < |us| ==> Combina(us[k], email, senha)
  {
    if us == [] then 0
    else if Combina(us[0], email, senha) then 0
    else 1 + PrimeiroIndice(us[1..], email, senha)
  }

  /** `const { senha: _, ...userWithoutPassword } = foundUser`. */
  function SemSenha(u: User): (r: User)
    ensures r.senha == None
    ensures r == u.(senha := None)
  {
    User(u.id, u.nome, u.cpf, u.cargo, u.email, u.tipo, None)
  }

  /** The user `login` would store: the first mock user matching both fields, without password. */
  function Autenticar(email: string, senha: string): (r: Option<User>)
    ensures r.None? <==> forall u :: u in MockUsers ==> !Combina(u, email, senha)
    ensures r.Some? ==> exists i ::
      && 0 <= i < |MockUsers|
      && Combina(MockUsers[i], email, senha)
      && (forall j :: 0 <= j < i ==> !Combina(MockUsers[j], email, senha))
      && r.value == SemSenha(MockUsers[i])
  {
    var k := PrimeiroIndice(MockUsers, email, senha);
    if k < |MockUsers| then Some(SemSenha(MockUsers[k])) else None
  }

  lemma LoginJoao()
    ensures Autenticar("joao@publievo.com", "123456") ==
      Some(User("1", "João Silva", "123.456.789-00", "Desenvolvedor", "joao@publievo.com", Colaborador, None))
  {
    assert Combina(MockUsers[0], "joao@publievo.com", "123456");
  }

  /** The demo accounts have distinct e-mails, so an e-mail of the table opens only its own
      account, and only with that account's password. */
  lemma LoginDoUsuario(i: nat, senha: string)
    requires i < |MockUsers|
    ensures Autenticar(MockUsers[i].email, senha)
      == if MockUsers[i].senha == Some(senha) then Some(SemSenha(MockUsers[i])) else None
  {
    var email := MockUsers[i].email;
    assert MockUsers[0].email != MockUsers[1].email;
    if MockUsers[i].senha == Some(senha) {
      assert Combina(MockUsers[i], email, senha);
    } else {
      assert forall u :: u in MockUsers ==> !Combina(u, email, senha);
    }
  }

  /** One user's password does not open another user's account. */
  lemma LoginSenhaDeOutro(i: nat, j: nat)
    requires i < |MockUsers| && j < |MockUsers| && i != j
    ensures MockUsers[j].senha.Some?
    ensures Autenticar(MockUsers[i].email, MockUsers[j].senha.value) == None
  {
    LoginDoUsuario(i, MockUsers[j].senha.value);
  }

  /** `userData` of `register`: every `User` field but the id, and a password. */
  datatype DadosRegistro = DadosRegistro(nome: string, cpf: string, cargo: string, email: string, tipo: Tipo, senha: string)

  /** `newUser` as written: `{ ...userData, id }` copies `senha` along with the other fields,
      and the later `delete` removes it only from `userData`. */
  function NovoUsuarioAsWritten(dados: DadosRegistro, idNovo: string): User {
    User(idNovo, dados.nome, dados.cpf, dados.cargo, dados.email, dados.tipo, Some(dados.senha))
  }

  /** The stored user keeps the password that was typed, whatever it is, so it is not the
      password-free user `login` stores. */
  lemma RegistroGuardaSenha(dados: DadosRegistro, idNovo: string)
    ensures NovoUsuarioAsWritten(dados, idNovo).senha == Some(dados.senha)
    ensures NovoUsuarioAsWritten(dados, idNovo) != SemSenha(NovoUsuarioAsWritten(dados, idNovo))
  {
  }

  /** `newUser` as intended: the data and the fresh id, and no password, like a logged-in user. */
  function NovoUsuario(dados: DadosRegistro, idNovo: string): (u: User)
    ensures u.id == idNovo && u.nome == dados.nome && u.cpf == dados.cpf && u.cargo == dados.cargo
    ensures u.email == dados.email && u.tipo == dados.tipo
    ensures u.senha == None
    ensures u == SemSenha(NovoUsuarioAsWritten(dados, idNovo))
  {
    User(idNovo, dados.nome, dados.cpf, dados.cargo, dados.email, dados.tipo, None)
  }

  /** `AuthProvider`'s state. */
  class AuthProvider {
    var user: Option<User>

    /** The slot never holds a password. */
    predicate Valid()
      reads this
    {
      user.Some? ==> user.value.senha == None
    }

    constructor ()
      ensures Valid() && user == None
    {
      user := None;
    }

    /** `isAuthenticated: !!user`. */
    function IsAuthenticated(): (b: bool)
      reads this
      ensures b <==> user.Some?
    {
      user.Some?
    }

    /** `login`: succeeds exactly when a mock user has both that e-mail and that password, and
        then stores the first such user without the password; on failure nothing changes. */
    method Login(email: string, senha: string) returns (ok: bool)
      requires Valid()
      modifies this
      ensures Valid()
      ensures ok <==> exists u :: u in MockUsers && Combina(u, email, senha)
      ensures ok ==> user == Autenticar(email, senha) && IsAuthenticated()
      ensures !ok ==> user == old(user) && IsAuthenticated() == old(IsAuthenticated())
    {
      var encontrado := Autenticar(email, senha);
      if encontrado.Some? {
        user := encontrado;
        return true;
      }
      return false;
    }

    /** `register`: always succeeds and stores the new user, in its corrected form without
        the typed password (`NovoUsuario`; as written the source keeps it). */
    method Register(dados: DadosRegistro, idNovo: string) returns (ok: bool)
      requires Valid()
      modifies this
      ensures Valid()
      ensures ok && user == Some(NovoUsuario(dados, idNovo))
      ensures IsAuthenticated()
    {
      user := Some(NovoUsuario(dados, idNovo));
      return true;
    }

    /** `logout`. */
    method Logout()
      requires Valid()
      modifies this
      ensures Valid() && user == None
      ensures !IsAuthenticated()
    {
      user := None;
    }
  }
}
