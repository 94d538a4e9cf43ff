/** app/endpoints/chat.py: a second signup/login/profile router over the
    same user table. Signup records the initial weight as the first log;
    the profile update overwrites given fields and logs a given current
    weight. Timestamps (`datetime.utcnow()`) are the parameter `now`. */
module ChatApi {
  import opened Wrappers
  import opened Records
  import opened Db

  /** The signup body with the questionnaire fields the handler reads. */
  datatype SignupBody = SignupBody(
    username: string,
    password: string,
    nome: Option<string>,
    objetivo: Option<string>,
    heightCm: Option<real>,
    initialWeight: Option<real>)

  datatype LoginBody = LoginBody(username: string, password: string)

  /** `UserUpdate` of this router. */
  datatype ProfileUpdate = ProfileUpdate(
    nome: Option<string>,
    objetivo: Option<string>,
    heightCm: Option<real>,
    currentWeight: Option<real>)

  const UserExists := HttpError(400, "Usuário já existe")
  const BadCredentials := HttpError(401, "Usuário ou senha inválidos")

  /** The document signup stores; it has no `id` key, and its weight list
      holds the initial weight when one was given. */
  function NewUser(data: SignupBody, hashed: string, now: int): (u: UserRecord)
    ensures u.refeicoes == Present([])
    ensures data.initialWeight.Some? ==> u.weightLogs == Present([Log(data.initialWeight.value, now)])
    ensures data.initialWeight.None? ==> u.weightLogs == Present([])
    ensures u.username == data.username && u.password == hashed && u.id.Absent?
    ensures u.nome == Present(data.nome) && u.objetivo == Present(data.objetivo)
    ensures u.heightCm == Present(data.heightCm) && u.initialWeight == Present(data.initialWeight)
    ensures u.chatHistory.Absent?
  {
    UserRecord(
      Absent, data.username, hashed,
      Present(data.nome), Present(data.heightCm), Present(data.initialWeight),
      Present(data.objetivo),
      Present(if data.initialWeight.Some? then [Log(data.initialWeight.value, now)] else []),
      Present([]), Absent)
  }

  /** `signup`: 400 for a known username, otherwise the new document is stored. */
  method Signup(table: UserTable, data: SignupBody, hash: string -> string, now: int)
    returns (r: Result<string, HttpError>)
    modifies table
    ensures Lookup(old(table.docs), data.username).Some? ==>
              r == Failure(UserExists) && table.docs == old(table.docs)
    ensures Lookup(old(table.docs), data.username).None? ==>
              r.Success? && table.docs == old(table.docs) + [NewUser(data, hash(data.password), now)]
  {
    var existing := table.Find(data.username);
    if existing.Some? {
      return Failure(UserExists);
    }
    table.Save(NewUser(data, hash(data.password), now));
    r := Success("Usuário criado com sucesso");
  }

  /** `login`: 401 unless the user exists and the password verifies; the
      token carries the username only. */
  function Login(docs: seq<UserRecord>, data: LoginBody, verify: (string, string) -> bool)
    : (r: Result<TokenClaims, HttpError>)
    ensures r.Failure? <==>
              Lookup(docs, data.username).None?
              || !verify(data.password, Lookup(docs, data.username).value.password)
    ensures r.Failure? ==> r.error == BadCredentials
    ensures r.Success? ==> r == Success(TokenClaims(data.username, None))
  {
    match Lookup(docs, data.username)
    case None => Failure(BadCredentials)
    case Some(user) =>
      if !verify(data.password, user.password) then Failure(BadCredentials)
      else Success(TokenClaims(user.username, None))
  }

  /** The edits of `update_profile`: each given field overwritten, and a
      given current weight appended to the weight list (created if missing). */
  function ApplyUpdate(u: UserRecord, upd: ProfileUpdate, now: int): (r: UserRecord)
  {
    var withFields := u.(
      nome := if upd.nome.Some? then Present(upd.nome) else u.nome,
      objetivo := if upd.objetivo.Some? then Present(upd.objetivo) else u.objetivo,
      heightCm := if upd.heightCm.Some? then Present(upd.heightCm) else u.heightCm);
    if upd.currentWeight.Some? then
      withFields.(weightLogs := Present(GetList(u.weightLogs) + [Log(upd.currentWeight.value, now)]))
    else withFields
  }

  /** Each given field is overwritten with its value and each missing one
      kept; the update never touches username, password, id, initial weight,
      meals or chat history; a current weight adds exactly one log at the
      end and keeps the earlier ones. */
  lemma UpdateFacts(u: UserRecord, upd: ProfileUpdate, now: int)
    ensures var r := ApplyUpdate(u, upd, now);
            && r.username == u.username && r.password == u.password && r.id == u.id
            && r.initialWeight == u.initialWeight && r.refeicoes == u.refeicoes
            && r.chatHistory == u.chatHistory
            && r.nome == (if upd.nome.Some? then Present(upd.nome) else u.nome)
            && r.objetivo == (if upd.objetivo.Some? then Present(upd.objetivo) else u.objetivo)
            && r.heightCm == (if upd.heightCm.Some? then Present(upd.heightCm) else u.heightCm)
            && (upd.currentWeight.None? ==> r.weightLogs == u.weightLogs)
            && (upd.currentWeight.Some? ==>
                  && |GetList(r.weightLogs)| == |GetList(u.weightLogs)| + 1
                  && GetList(r.weightLogs)[..|GetList(u.weightLogs)|] == GetList(u.weightLogs)
                  && GetList(r.weightLogs)[|GetList(u.weightLogs)|] == Log(upd.currentWeight.value, now))
  {
  }

  /** `update_profile`: reload the caller's document, edit it, store it and
      answer with it. A caller with no document makes the handler fail on
      `None`, a 500. */
  method UpdateProfile(table: UserTable, current: UserRecord, upd: ProfileUpdate, now: int)
    returns (r: Result<UserRecord, HttpError>)
    modifies table
    ensures Lookup(old(table.docs), current.username).None? ==>
              r == Failure(InternalError) && table.docs == old(table.docs)
    ensures Lookup(old(table.docs), current.username).Some? ==>
              var edited := ApplyUpdate(Lookup(old(table.docs), current.username).value, upd, now);
              r == Success(edited) && table.docs == Upsert(old(table.docs), edited)
  {
    var usuario := table.Find(current.username);
    if usuario.None? {
      return Failure(InternalError);
    }
    var edited := ApplyUpdate(usuario.value, upd, now);
    table.Save(edited);
    r := Success(edited);
  }
}
