/**
 * The profile store of the application provider: a list of registered users kept under the
 * "usuarios" storage key, the active session kept under the "usuario" key, and the session
 * held in memory together with the logged-in flag.
 */
module UserStore {
  import opened Common

  /** A user as the session sees it: a stored record without its password. */
  datatype Profile = Profile(
    id: string,
    nome: string,
    idade: int,
    username: string,
    avatar: Option<string>,
    dificuldade: Option<Difficulty>,
    modoJogo: Option<Mode>,
    pontuacao: Option<int>,
    nivel: Option<int>)

  /** A record of the "usuarios" list. */
  datatype UserRecord = UserRecord(profile: Profile, password: string)

  /** The fields the application ever passes to `atualizarUsuario`; None means absent. */
  datatype Patch = Patch(
    avatar: Option<string>,
    dificuldade: Option<Difficulty>,
    modoJogo: Option<Mode>,
    pontuacao: Option<int>,
    nivel: Option<int>)

  /** The object spread `{ ...p, ...patch }`. */
  function Merge(p: Profile, patch: Patch): (r: Profile)
    ensures r.id == p.id && r.nome == p.nome && r.idade == p.idade && r.username == p.username
    ensures patch.avatar.Some? ==> r.avatar == patch.avatar
    ensures patch.avatar.None? ==> r.avatar == p.avatar
    ensures patch.dificuldade.Some? ==> r.dificuldade == patch.dificuldade
    ensures patch.dificuldade.None? ==> r.dificuldade == p.dificuldade
    ensures patch.modoJogo.Some? ==> r.modoJogo == patch.modoJogo
    ensures patch.modoJogo.None? ==> r.modoJogo == p.modoJogo
    ensures patch.pontuacao.Some? ==> r.pontuacao == patch.pontuacao
    ensures patch.pontuacao.None? ==> r.pontuacao == p.pontuacao
    ensures patch.nivel.Some? ==> r.nivel == patch.nivel
    ensures patch.nivel.None? ==> r.nivel == p.nivel
  {
    p.(avatar := if patch.avatar.Some? then patch.avatar else p.avatar,
       dificuldade := if patch.dificuldade.Some? then patch.dificuldade else p.dificuldade,
       modoJogo := if patch.modoJogo.Some? then patch.modoJogo else p.modoJogo,
       pontuacao := if patch.pontuacao.Some? then patch.pontuacao else p.pontuacao,
       nivel := if patch.nivel.Some? then patch.nivel else p.nivel)
  }

  /** Applying the same patch twice is the same as applying it once. */
  lemma MergeIdempotent(p: Profile, patch: Patch)
    ensures Merge(Merge(p, patch), patch) == Merge(p, patch)
  {
  }

  /** The record `{ id, nome, idade, username, password }` built by `registrar`. */
  function NewRecord(id: string, nome: string, idade: int, username: string, password: string): UserRecord
  {
    UserRecord(Profile(id, nome, idade, username, None, None, None, None, None), password)
  }

  predicate Matches(u: UserRecord, username: string, password: string)
  {
    u.profile.username == username && u.password == password
  }

  /** `usuarios.find(u => u.username === username && u.password === password)`. */
  function FindCredentials(l: seq<UserRecord>, username: string, password: string): (r: Option<nat>)
    ensures r.None? <==> forall i :: 0 <= i < |l| ==> !Matches(l[i], username, password)
    ensures r.Some? ==> r.value < |l| && Matches(l[r.value], username, password)
    ensures r.Some? ==> forall i :: 0 <= i < r.value ==> !Matches(l[i], username, password)
    decreases |l|
  {
    if l == [] then None
    else if Matches(l[0], username, password) then Some(0)
    else
      match FindCredentials(l[1..], username, password)
      case None => None
      case Some(k) => Some(k + 1)
  }

  /** `usuarios.some(u => u.username === username)`. */
  predicate UsernameTaken(l: seq<UserRecord>, username: string)
  {
    exists i :: 0 <= i < |l| && l[i].profile.username == username
  }

  /** No two records of the list share a username. */
  predicate UniqueUsernames(l: seq<UserRecord>)
  {
    forall i, j :: 0 <= i < j < |l| ==> l[i].profile.username != l[j].profile.username
  }

  /**
   * The list `registrar` stores: None when the username is already taken in a readable
   * list; otherwise the readable list, or an empty one when it is absent or unreadable,
   * with the new record appended.
   */
  function RegisterInto(stored: Stored<seq<UserRecord>>, rec: UserRecord): Option<seq<UserRecord>>
  {
    match stored
    case Present(l) => if UsernameTaken(l, rec.profile.username) then None else Some(l + [rec])
    case _ => Some([rec])
  }

  /** Registration keeps the stored usernames unique, and only ever appends. */
  lemma RegisterKeepsUnique(stored: Stored<seq<UserRecord>>, rec: UserRecord)
    requires stored.Present? ==> UniqueUsernames(stored.value)
    ensures RegisterInto(stored, rec).Some? ==> UniqueUsernames(RegisterInto(stored, rec).value)
    ensures stored.Present? && RegisterInto(stored, rec).Some? ==>
      RegisterInto(stored, rec).value == stored.value + [rec]
  {
    if stored.Present? && RegisterInto(stored, rec).Some? {
      var l := stored.value;
      var r := l + [rec];
      forall i, j | 0 <= i < j < |r| ensures r[i].profile.username != r[j].profile.username {
        if j == |l| {
          assert r[i] == l[i];
        }
      }
    }
  }

  /** Once a registration succeeded, a second one with the same username fails. */
  lemma RegisterTwiceFails(stored: Stored<seq<UserRecord>>, rec: UserRecord, other: UserRecord)
    requires RegisterInto(stored, rec).Some?
    requires other.profile.username == rec.profile.username
    ensures RegisterInto(Present(RegisterInto(stored, rec).value), other).None?
  {
    var l := RegisterInto(stored, rec).value;
    assert l[|l| - 1] == rec;
  }

  /** Logging in with the credentials just registered finds the new record, the last one. */
  lemma RegisterThenLogin(stored: Stored<seq<UserRecord>>, rec: UserRecord)
    requires RegisterInto(stored, rec).Some?
    ensures var l := RegisterInto(stored, rec).value;
      FindCredentials(l, rec.profile.username, rec.password) == Some(|l| - 1) && l[|l| - 1] == rec
  {
    var l := RegisterInto(stored, rec).value;
    assert l[|l| - 1] == rec;
  }

  /** `usuarios.findIndex(u => u.id === id)`, None standing for -1. */
  function FirstWithId(l: seq<UserRecord>, id: string): (r: Option<nat>)
    ensures r.None? <==> forall i :: 0 <= i < |l| ==> l[i].profile.id != id
    ensures r.Some? ==> r.value < |l| && l[r.value].profile.id == id
    ensures r.Some? ==> forall i :: 0 <= i < r.value ==> l[i].profile.id != id
    decreases |l|
  {
    if l == [] then None
    else if l[0].profile.id == id then Some(0)
    else
      match FirstWithId(l[1..], id)
      case None => None
      case Some(k) => Some(k + 1)
  }

  /** `usuarios[index] = { ...usuarios[index], ...dados }` at the index `FirstWithId` finds. */
  function UpdateById(l: seq<UserRecord>, id: string, patch: Patch): (r: seq<UserRecord>)
    ensures FirstWithId(l, id).None? ==> r == l
    ensures FirstWithId(l, id).Some? ==>
      var k := FirstWithId(l, id).value;
      r == l[k := l[k].(profile := Merge(l[k].profile, patch))]
    decreases |l|
  {
    if l == [] then []
    else if l[0].profile.id == id then [l[0].(profile := Merge(l[0].profile, patch))] + l[1..]
    else
      var tail := UpdateById(l[1..], id, patch);
      assert l == [l[0]] + l[1..];
      [l[0]] + tail
  }

  /** An update never changes usernames or passwords, so it keeps them unique. */
  lemma UpdateKeepsUnique(l: seq<UserRecord>, id: string, patch: Patch)
    requires UniqueUsernames(l)
    ensures UniqueUsernames(UpdateById(l, id, patch))
    ensures forall i :: 0 <= i < |l| ==>
      UpdateById(l, id, patch)[i].profile.username == l[i].profile.username &&
      UpdateById(l, id, patch)[i].password == l[i].password
  {
  }

  /** No two records of the list share an id. */
  predicate UniqueIds(l: seq<UserRecord>)
  {
    forall i, j :: 0 <= i < j < |l| ==> l[i].profile.id != l[j].profile.id
  }

  /** No record of a readable list has this id. */
  predicate IdFree(stored: Stored<seq<UserRecord>>, id: string)
  {
    stored.Present? ==> forall i :: 0 <= i < |stored.value| ==> stored.value[i].profile.id != id
  }

  /** The profile `findIndex` reaches for this id in a readable list. */
  function RecordOf(stored: Stored<seq<UserRecord>>, id: string): (r: Option<Profile>)
    ensures r.Some? <==> stored.Present? && exists i :: 0 <= i < |stored.value| && stored.value[i].profile.id == id
    ensures r.Some? ==> r.value.id == id
  {
    if stored.Present? && FirstWithId(stored.value, id).Some?
    then Some(stored.value[FirstWithId(stored.value, id).value].profile)
    else None
  }

  /**
   * The session agrees with the stored list: ids in a readable list are unique, and the
   * session, when there is one, is the record with its id.
   */
  predicate InSync(usuario: Option<Profile>, usuarios: Stored<seq<UserRecord>>)
  {
    usuarios.Present? ==>
      UniqueIds(usuarios.value) && (usuario.Some? ==> RecordOf(usuarios, usuario.value.id) == usuario)
  }

  /** With unique ids, the record found for an id is the one that has it. */
  lemma FirstWithUniqueId(l: seq<UserRecord>, k: nat)
    requires UniqueIds(l) && k < |l|
    ensures FirstWithId(l, l[k].profile.id) == Some(k)
  {
  }

  /** Logging in to a record of a list with unique ids puts the session in sync. */
  lemma LoginSyncs(l: seq<UserRecord>, k: nat)
    requires UniqueIds(l) && k < |l|
    ensures InSync(Some(l[k].profile), Present(l))
  {
    FirstWithUniqueId(l, k);
  }

  /** A registration with a fresh id keeps ids unique and puts the new session in sync. */
  lemma RegisterSyncs(stored: Stored<seq<UserRecord>>, rec: UserRecord)
    requires stored.Present? ==> UniqueIds(stored.value)
    requires IdFree(stored, rec.profile.id) && RegisterInto(stored, rec).Some?
    ensures InSync(Some(rec.profile), Present(RegisterInto(stored, rec).value))
  {
    var l := RegisterInto(stored, rec).value;
    assert l[|l| - 1] == rec;
    forall i, j | 0 <= i < j < |l| ensures l[i].profile.id != l[j].profile.id {
      if stored.Present? {
        assert l == stored.value + [rec];
        if j < |stored.value| {
          assert l[i] == stored.value[i] && l[j] == stored.value[j];
        } else {
          assert l[i] == stored.value[i];
        }
      }
    }
    LoginSyncs(l, |l| - 1);
  }

  /** An update leaves every id where it was. */
  lemma UpdateKeepsIds(l: seq<UserRecord>, id: string, patch: Patch)
    ensures |UpdateById(l, id, patch)| == |l|
    ensures forall i :: 0 <= i < |l| ==> UpdateById(l, id, patch)[i].profile.id == l[i].profile.id
  {
  }

  /** Merging a patch into the session and into its record keeps the two in sync. */
  lemma UpdateSyncs(u: Profile, usuarios: Stored<seq<UserRecord>>, patch: Patch)
    requires InSync(Some(u), usuarios)
    ensures InSync(Some(Merge(u, patch)),
      if usuarios.Present? then Present(UpdateById(usuarios.value, u.id, patch)) else usuarios)
  {
    if usuarios.Present? {
      var l := usuarios.value;
      var k := FirstWithId(l, u.id).value;
      var l2 := UpdateById(l, u.id, patch);
      UpdateKeepsIds(l, u.id, patch);
      assert UniqueIds(l2) by {
        forall i, j | 0 <= i < j < |l2| ensures l2[i].profile.id != l2[j].profile.id {
          assert l2[i].profile.id == l[i].profile.id && l2[j].profile.id == l[j].profile.id;
        }
      }
      assert l2[k].profile.id == u.id;
      FirstWithUniqueId(l2, k);
    }
  }

  class Store {
    /** The "usuarios" storage key. */
    var usuarios: Stored<seq<UserRecord>>
    /** The "usuario" storage key. */
    var usuarioSalvo: Stored<Profile>
    /** The session in memory. */
    var usuario: Option<Profile>
    var estaLogado: bool

    /** The logged-in flag tracks the session, and a session in memory is also stored. */
    predicate Valid()
      reads this
    {
      (estaLogado <==> usuario.Some?) &&
      (usuario.Some? ==> usuarioSalvo == Present(usuario.value))
    }

    /** The session agrees with its record in the stored list. */
    predicate Synced()
      reads this
    {
      InSync(usuario, usuarios)
    }

    /** The provider before its first effect: storage as found, no session. */
    constructor (usuarios0: Stored<seq<UserRecord>>, usuarioSalvo0: Stored<Profile>)
      ensures Valid()
      ensures usuarios == usuarios0 && usuarioSalvo == usuarioSalvo0
      ensures usuario.None? && !estaLogado
    {
      usuarios := usuarios0;
      usuarioSalvo := usuarioSalvo0;
      usuario := None;
      estaLogado := false;
    }

    /** The mount effect: a readable stored session is restored, an unreadable one removed. */
    method CarregarSessao()
      requires Valid()
      modifies this
      ensures Valid()
      ensures usuarios == old(usuarios)
      ensures old(usuarioSalvo).Present? ==>
        usuario == Some(old(usuarioSalvo).value) && estaLogado && usuarioSalvo == old(usuarioSalvo)
      ensures old(usuarioSalvo).Corrupt? ==>
        usuarioSalvo == Absent && usuario == old(usuario) && estaLogado == old(estaLogado)
      ensures old(usuarioSalvo).Absent? ==>
        usuarioSalvo == Absent && usuario == old(usuario) && estaLogado == old(estaLogado)
    {
      match usuarioSalvo
      case Present(p) =>
        usuario := Some(p);
        estaLogado := true;
      case Corrupt =>
        usuarioSalvo := Absent;
      case Absent =>
    }

    /**
     * `login`: succeeds exactly when a readable list holds a record with this username and
     * password; the session becomes the first such record without its password.
     */
    method Login(username: string, password: string) returns (ok: bool)
      requires Valid()
      modifies this
      ensures Valid() && LoginDone(username, password, ok)
      ensures old(Synced()) ==> Synced()
    {
      ok := false;
      if usuarios.Present? {
        var found := FindCredentials(usuarios.value, username, password);
        if found.Some? {
          var p := usuarios.value[found.value].profile;
          usuario := Some(p);
          estaLogado := true;
          usuarioSalvo := Present(p);
          ok := true;
          if old(Synced()) {
            LoginSyncs(usuarios.value, found.value);
          }
        }
      }
    }

    /** The store after `login` with these credentials returned `ok`. */
    twostate predicate LoginDone(username: string, password: string, ok: bool)
      reads this
    {
      && usuarios == old(usuarios)
      && (ok <==> (usuarios.Present? &&
           exists i :: 0 <= i < |usuarios.value| && Matches(usuarios.value[i], username, password)))
      && (ok ==>
           var k := FindCredentials(usuarios.value, username, password).value;
           usuario == Some(usuarios.value[k].profile) && estaLogado &&
           usuarioSalvo == Present(usuarios.value[k].profile))
      && (!ok ==>
           usuario == old(usuario) && estaLogado == old(estaLogado) && usuarioSalvo == old(usuarioSalvo))
    }

    /**
     * `registrar`: fails and changes nothing when a readable list already holds the
     * username; otherwise stores the list of `RegisterInto` and logs the new user in.
     */
    method Registrar(nome: string, idade: int, username: string, password: string, id: string)
      returns (ok: bool)
      requires Valid()
      modifies this
      ensures Valid() && RegisterDone(nome, idade, username, password, id, ok)
      ensures old(Synced()) && (ok ==> IdFree(old(usuarios), id)) ==> Synced()
    {
      var rec := NewRecord(id, nome, idade, username, password);
      var list := RegisterInto(usuarios, rec);
      if list.None? {
        return false;
      }
      usuarios := Present(list.value);
      usuario := Some(rec.profile);
      estaLogado := true;
      usuarioSalvo := Present(rec.profile);
      ok := true;
      if old(Synced()) && IdFree(old(usuarios), id) {
        RegisterSyncs(old(usuarios), rec);
      }
    }

    /** The store after `registrar` with these details returned `ok`. */
    twostate predicate RegisterDone(nome: string, idade: int, username: string, password: string,
                                    id: string, ok: bool)
      reads this
    {
      && (ok <==> !(old(usuarios).Present? && UsernameTaken(old(usuarios).value, username)))
      && (!ok ==> (usuarios == old(usuarios) && usuario == old(usuario) &&
           estaLogado == old(estaLogado) && usuarioSalvo == old(usuarioSalvo)))
      && (ok ==>
           var rec := NewRecord(id, nome, idade, username, password);
           usuarios == Present(RegisterInto(old(usuarios), rec).value) &&
           usuario == Some(rec.profile) && estaLogado && usuarioSalvo == Present(rec.profile))
    }

    /** `logout`: clears the session and its storage key; the user list stays. */
    method Logout()
      modifies this
      ensures Valid()
      ensures usuario.None? && !estaLogado && usuarioSalvo == Absent
      ensures usuarios == old(usuarios)
      ensures old(Synced()) ==> Synced()
    {
      usuario := None;
      estaLogado := false;
      usuarioSalvo := Absent;
    }

    /**
     * `atualizarUsuario`: without a session nothing happens; otherwise the patch is merged
     * into the session, its storage key, and the first readable record with the session's id.
     */
    method AtualizarUsuario(patch: Patch)
      requires Valid()
      modifies this
      ensures Valid() && Updated(patch)
      ensures old(usuario).None? ==> unchanged(this)
      ensures old(Synced()) ==> Synced()
    {
      if usuario.Some? {
        var atualizado := Merge(usuario.value, patch);
        var id := usuario.value.id;
        usuario := Some(atualizado);
        usuarioSalvo := Present(atualizado);
        if usuarios.Present? {
          usuarios := Present(UpdateById(usuarios.value, id, patch));
        }
        if old(Synced()) {
          UpdateSyncs(old(usuario).value, old(usuarios), patch);
        }
      }
    }

    /** The store after `atualizarUsuario(patch)`. */
    twostate predicate Updated(patch: Patch)
      reads this
    {
      && estaLogado == old(estaLogado)
      && (old(usuario).None? ==>
           usuario == old(usuario) && usuarioSalvo == old(usuarioSalvo) && usuarios == old(usuarios))
      && (old(usuario).Some? ==>
           usuario == Some(Merge(old(usuario).value, patch)) && usuarioSalvo == Present(usuario.value) &&
           usuarios == (if old(usuarios).Present?
                        then Present(UpdateById(old(usuarios).value, old(usuario).value.id, patch))
                        else old(usuarios)))
    }
  }
}
