/** app/endpoints/user.py: signup, login and profile update against the
    user table. Password hashing and checking are the functions `hash` and
    `verify` the caller passes in. */
module UserApi {
  import opened Wrappers
  import opened Records
  import opened Db

  /** `UserSignup`. */
  datatype SignupBody = SignupBody(
    username: string,
    password: string,
    nome: Option<string>,
    heightCm: Option<real>,
    initialWeight: Option<real>,
    objetivo: Option<string>)

  datatype LoginBody = LoginBody(username: string, password: string)

  /** `UserUpdate`: the profile fields a PATCH may carry. */
  datatype ProfileUpdate = ProfileUpdate(
    nome: Option<string>,
    heightCm: Option<real>,
    initialWeight: Option<real>,
    objetivo: Option<string>)

  /** One entry of `payload.dict(exclude_none=True)`. */
  datatype FieldUpdate =
    | SetNome(nome: string)
    | SetHeightCm(heightCm: real)
    | SetInitialWeight(initialWeight: real)
    | SetObjetivo(objetivo: string)

  /** `Field(..., min_length=6)` on the password. */
  const MinPasswordLength := 6

  const UserExists := HttpError(400, "Usuário já existe")
  const BadCredentials := HttpError(401, "Credenciais inválidas")

  /** The document signup stores: a fresh id, the hashed password, the
      submitted profile and empty weight and meal lists. */
  function NewUser(data: SignupBody, hashed: string, newId: string): (u: UserRecord)
  {
    UserRecord(
      Present(newId), data.username, hashed,
      Present(data.nome), Present(data.heightCm), Present(data.initialWeight),
      Present(data.objetivo), Present([]), Present([]), Absent)
  }

  /** `signup`: a short password fails validation, a known username is a
      400, otherwise the new document is stored. */
  method Signup(table: UserTable, data: SignupBody, hash: string -> string, newId: string)
    returns (r: Result<string, HttpError>)
    modifies table
    ensures |data.password| < MinPasswordLength ==>
              r == Failure(ValidationError) && table.docs == old(table.docs)
    ensures |data.password| >= MinPasswordLength && Lookup(old(table.docs), data.username).Some? ==>
              r == Failure(UserExists) && table.docs == old(table.docs)
    ensures |data.password| >= MinPasswordLength && Lookup(old(table.docs), data.username).None? ==>
              r.Success? && table.docs == old(table.docs) + [NewUser(data, hash(data.password), newId)]
  {
    if |data.password| < MinPasswordLength {
      return Failure(ValidationError);
    }
    var existing := table.Find(data.username);
    if existing.Some? {
      return Failure(UserExists);
    }
    var hashed := hash(data.password);
    table.Save(NewUser(data, hashed, newId));
    r := Success("Usuário criado com sucesso");
  }

  /** `login`: 401 unless the user exists and the password verifies against
      the stored hash; the token's subject is the username. */
  function Login(docs: seq<UserRecord>, data: LoginBody, verify: (string, string) -> bool)
    : (r: Result<TokenClaims, HttpError>)
    ensures r.Failure? <==>
              Lookup(docs, data.username).None?
              || !verify(data.password, Lookup(docs, data.username).value.password)
    ensures r.Failure? ==> r.error == BadCredentials
    ensures r.Success? ==> r.value.sub == data.username
                           && r.value.nome == Get(Lookup(docs, data.username).value.nome)
  {
    match Lookup(docs, data.username)
    case None => Failure(BadCredentials)
    case Some(user) =>
      if !verify(data.password, user.password) then Failure(BadCredentials)
      else Success(TokenClaims(user.username, Get(user.nome)))
  }

  /** A user who has just signed up can log in with the same password exactly
      when the hash checks, and the token names them. */
  lemma SignupThenLogin(docs: seq<UserRecord>, data: SignupBody, hash: string -> string,
                        verify: (string, string) -> bool, newId: string)
    requires Lookup(docs, data.username).None?
    ensures var after := Upsert(docs, NewUser(data, hash(data.password), newId));
            Login(after, LoginBody(data.username, data.password), verify)
              == if verify(data.password, hash(data.password))
                 then Success(TokenClaims(data.username, data.nome))
                 else Failure(BadCredentials)
  {
    LookupAfterUpsert(docs, NewUser(data, hash(data.password), newId));
  }

  /** `payload.dict(exclude_none=True)`, in field order. */
  function ExcludeNone(p: ProfileUpdate): (r: seq<FieldUpdate>)
  {
    (if p.nome.Some? then [SetNome(p.nome.value)] else [])
    + (if p.heightCm.Some? then [SetHeightCm(p.heightCm.value)] else [])
    + (if p.initialWeight.Some? then [SetInitialWeight(p.initialWeight.value)] else [])
    + (if p.objetivo.Some? then [SetObjetivo(p.objetivo.value)] else [])
  }

  /** One key of `current_user.update(updates)`. */
  function ApplyField(u: UserRecord, f: FieldUpdate): UserRecord {
    match f
    case SetNome(v) => u.(nome := Present(Some(v)))
    case SetHeightCm(v) => u.(heightCm := Present(Some(v)))
    case SetInitialWeight(v) => u.(initialWeight := Present(Some(v)))
    case SetObjetivo(v) => u.(objetivo := Present(Some(v)))
  }

  /** `current_user.update(updates)`, key by key. */
  function ApplyAll(u: UserRecord, fs: seq<FieldUpdate>): UserRecord
    decreases |fs|
  {
    if fs == [] then u else ApplyAll(ApplyField(u, fs[0]), fs[1..])
  }

  /** The updates name exactly the fields the payload sets, with its values. */
  lemma ExcludeNoneExact(p: ProfileUpdate)
    ensures (exists v :: SetNome(v) in ExcludeNone(p)) <==> p.nome.Some?
    ensures (exists v :: SetHeightCm(v) in ExcludeNone(p)) <==> p.heightCm.Some?
    ensures (exists v :: SetInitialWeight(v) in ExcludeNone(p)) <==> p.initialWeight.Some?
    ensures (exists v :: SetObjetivo(v) in ExcludeNone(p)) <==> p.objetivo.Some?
    ensures forall f :: f in ExcludeNone(p) ==>
              match f
              case SetNome(v) => p.nome == Some(v)
              case SetHeightCm(v) => p.heightCm == Some(v)
              case SetInitialWeight(v) => p.initialWeight == Some(v)
              case SetObjetivo(v) => p.objetivo == Some(v)
  {
    var a := if p.nome.Some? then [SetNome(p.nome.value)] else [];
    var b := if p.heightCm.Some? then [SetHeightCm(p.heightCm.value)] else [];
    var c := if p.initialWeight.Some? then [SetInitialWeight(p.initialWeight.value)] else [];
    var d := if p.objetivo.Some? then [SetObjetivo(p.objetivo.value)] else [];
    assert ExcludeNone(p) == a + b + c + d;
    forall f | f in ExcludeNone(p) ensures f in a || f in b || f in c || f in d {
    }
    if p.nome.Some? { assert a[0] in ExcludeNone(p); }
    if p.heightCm.Some? { assert b[0] in ExcludeNone(p); }
    if p.initialWeight.Some? { assert c[0] in ExcludeNone(p); }
    if p.objetivo.Some? { assert d[0] in ExcludeNone(p); }
  }

  /** The update overwrites exactly the fields the payload sets and leaves
      every other key of the document, username and password included, as it was. */
  lemma UpdateOverwritesOnlyGiven(u: UserRecord, p: ProfileUpdate)
    ensures var r := ApplyAll(u, ExcludeNone(p));
            && r.nome == (if p.nome.Some? then Present(p.nome) else u.nome)
            && r.heightCm == (if p.heightCm.Some? then Present(p.heightCm) else u.heightCm)
            && r.initialWeight == (if p.initialWeight.Some? then Present(p.initialWeight) else u.initialWeight)
            && r.objetivo == (if p.objetivo.Some? then Present(p.objetivo) else u.objetivo)
            && r.(nome := u.nome, heightCm := u.heightCm,
                  initialWeight := u.initialWeight, objetivo := u.objetivo) == u
  {
    var a := if p.nome.Some? then [SetNome(p.nome.value)] else [];
    var b := if p.heightCm.Some? then [SetHeightCm(p.heightCm.value)] else [];
    var c := if p.initialWeight.Some? then [SetInitialWeight(p.initialWeight.value)] else [];
    var d := if p.objetivo.Some? then [SetObjetivo(p.objetivo.value)] else [];
    ApplyAllConcat(u, a, b + c + d);
    ApplyAllConcat(ApplyAll(u, a), b, c + d);
    ApplyAllConcat(ApplyAll(ApplyAll(u, a), b), c, d);
    assert ExcludeNone(p) == a + (b + (c + d));
  }

  lemma {:induction false} ApplyAllConcat(u: UserRecord, xs: seq<FieldUpdate>, ys: seq<FieldUpdate>)
    ensures ApplyAll(u, xs + ys) == ApplyAll(ApplyAll(u, xs), ys)
    decreases |xs|
  {
    if xs == [] {
      assert xs + ys == ys;
    } else {
      assert (xs + ys)[1..] == xs[1..] + ys;
      ApplyAllConcat(ApplyField(u, xs[0]), xs[1..], ys);
    }
  }

  /** `update_profile`: apply the non-None fields to the caller's document,
      store it, and answer with the updates applied. */
  method UpdateProfile(table: UserTable, current: UserRecord, payload: ProfileUpdate)
    returns (r: seq<FieldUpdate>)
    modifies table
    ensures r == ExcludeNone(payload)
    ensures table.docs == Upsert(old(table.docs), ApplyAll(current, r))
  {
    var updates := ExcludeNone(payload);
    var updated := ApplyAll(current, updates);
    table.Save(updated);
    r := updates;
  }
}
