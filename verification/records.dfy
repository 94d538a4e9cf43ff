/** The documents the backend keeps in its TinyDB user table, as typed
    records. A Python dict key that may be missing is an `Entry`; a key
    that may hold `None` holds an `Option`. */
module Records {
  import opened Wrappers

  /** A dict key: missing, or present with a value. */
  datatype Entry<T> = Absent | Present(value: T)

  /** `d.get(k)`: the stored value, or `None` when the key is missing. */
  function Get<T>(e: Entry<Option<T>>): (r: Option<T>)
    ensures e.Absent? ==> r.None?
    ensures e.Present? ==> r == e.value
  {
    match e
    case Absent => None
    case Present(v) => v
  }

  /** `d.get(k, []) or []`: the stored list, or the empty list when the key is missing. */
  function GetList<T>(e: Entry<seq<T>>): (r: seq<T>)
    ensures e.Absent? ==> r == []
    ensures e.Present? ==> r == e.value
  {
    match e
    case Absent => []
    case Present(v) => v
  }

  /** `dict.update` for one key: the newer entry wins when it is present. */
  function Over<T>(old_: Entry<T>, new_: Entry<T>): (r: Entry<T>)
    ensures new_.Present? ==> r == new_
    ensures new_.Absent? ==> r == old_
  {
    if new_.Present? then new_ else old_
  }

  /** One weight measurement: `{"weight": ..., "recorded_at": ...}`,
      the timestamp in microseconds. */
  datatype Log = Log(weight: real, recordedAt: int)

  /** One chat message as stored by the chat-history endpoint. */
  datatype ChatMessage = ChatMessage(
    role: string,
    text: string,
    msgType: Option<string>,
    imageUrl: Option<string>,
    createdAt: string)

  /** One row of the meal table: who saved it, the analysis text, the image
      name and the save time. */
  datatype Meal = Meal(usuario: string, analise: string, imagemNome: Option<string>, data: int)

  /** A user document. `username` and `password` are written by every
      endpoint that stores a user; all other keys may be missing. */
  datatype UserRecord = UserRecord(
    id: Entry<string>,
    username: string,
    password: string,
    nome: Entry<Option<string>>,
    heightCm: Entry<Option<real>>,
    initialWeight: Entry<Option<real>>,
    objetivo: Entry<Option<string>>,
    weightLogs: Entry<seq<Log>>,
    refeicoes: Entry<seq<Meal>>,
    chatHistory: Entry<seq<ChatMessage>>)

  /** `rec` holds every key that `u` holds, with `u`'s value. */
  predicate Includes(rec: UserRecord, u: UserRecord) {
    && rec.username == u.username
    && rec.password == u.password
    && (u.id.Present? ==> rec.id == u.id)
    && (u.nome.Present? ==> rec.nome == u.nome)
    && (u.heightCm.Present? ==> rec.heightCm == u.heightCm)
    && (u.initialWeight.Present? ==> rec.initialWeight == u.initialWeight)
    && (u.objetivo.Present? ==> rec.objetivo == u.objetivo)
    && (u.weightLogs.Present? ==> rec.weightLogs == u.weightLogs)
    && (u.refeicoes.Present? ==> rec.refeicoes == u.refeicoes)
    && (u.chatHistory.Present? ==> rec.chatHistory == u.chatHistory)
  }

  /** TinyDB's update of a stored document `d` with the fields of `u`
      (`d.update(u)`): every key of `u` overwrites, every other key of `d` stays. */
  function Merge(d: UserRecord, u: UserRecord): (r: UserRecord)
    ensures Includes(r, u)
    ensures u.id.Absent? ==> r.id == d.id
    ensures u.nome.Absent? ==> r.nome == d.nome
    ensures u.heightCm.Absent? ==> r.heightCm == d.heightCm
    ensures u.initialWeight.Absent? ==> r.initialWeight == d.initialWeight
    ensures u.objetivo.Absent? ==> r.objetivo == d.objetivo
    ensures u.weightLogs.Absent? ==> r.weightLogs == d.weightLogs
    ensures u.refeicoes.Absent? ==> r.refeicoes == d.refeicoes
    ensures u.chatHistory.Absent? ==> r.chatHistory == d.chatHistory
  {
    UserRecord(
      Over(d.id, u.id), u.username, u.password,
      Over(d.nome, u.nome), Over(d.heightCm, u.heightCm),
      Over(d.initialWeight, u.initialWeight), Over(d.objetivo, u.objetivo),
      Over(d.weightLogs, u.weightLogs), Over(d.refeicoes, u.refeicoes),
      Over(d.chatHistory, u.chatHistory))
  }

  /** Merging the same fields a second time changes nothing. */
  lemma MergeIdempotent(d: UserRecord, u: UserRecord)
    ensures Merge(Merge(d, u), u) == Merge(d, u)
  {
  }

  /** A document that already holds every key of `u` with `u`'s values is
      left as it is by merging `u`. */
  lemma MergeIncluded(d: UserRecord, u: UserRecord)
    requires Includes(d, u)
    ensures Merge(d, u) == d
  {
  }

  /** The claims a login puts into its access token (`sub`, and `nome`
      where the endpoint adds it). Token signing is not modelled. */
  datatype TokenClaims = TokenClaims(sub: string, nome: Option<string>)

  /** An HTTP error response: status code and `detail`. */
  datatype HttpError = HttpError(status: int, detail: string)

  /** Request body validation failure (FastAPI's 422). */
  const ValidationError := HttpError(422, "Unprocessable Entity")

  /** An exception the endpoint does not catch (FastAPI's 500). */
  const InternalError := HttpError(500, "Internal Server Error")
}
