/** The request `confirmar` sends to the document service on "SIM" and what
    it makes of the reply (app.py:200-253). The HTTP call and the base64
    decoder are outside the model: they are given as functions. */
module DocumentRequest {
  import opened Text
  import opened UserData

  /** A value as `r.json()` decodes it (numbers as integers). */
  datatype Json =
    | JNull
    | JBool(b: bool)
    | JNum(n: int)
    | JStr(s: string)
    | JArray(items: seq<Json>)
    | JObject(fields: map<string, Json>)

  /** Python truthiness of a decoded value, as `if not data.get("ok")` reads it. */
  predicate Truthy(j: Json): (b: bool)
    ensures !b <==> j in {JNull, JBool(false), JNum(0), JStr(""), JArray([]), JObject(map[])}
  {
    match j
    case JNull => false
    case JBool(b) => b
    case JNum(n) => n != 0
    case JStr(s) => s != ""
    case JArray(items) => items != []
    case JObject(fields) => fields != map[]
  }

  /** `data.get(k, default)` on a decoded object. */
  function Field(fields: map<string, Json>, k: string, default: Json): Json
  {
    if k in fields then fields[k] else default
  }

  /** One of the objects "med1", "med2", "med3" of the request body. */
  datatype MedEntry = MedEntry(dose: Value, caixas: Value, posologia: Value)

  /** The request body: the shared token, the patient and always three
      medication objects. */
  datatype Payload = Payload(token: string, paciente: Value, med1: MedEntry, med2: MedEntry, med3: MedEntry)

  function Med(p: Payload, i: Slot): MedEntry
  {
    if i == 1 then p.med1 else if i == 2 then p.med2 else p.med3
  }

  function EntryField(e: MedEntry, f: Field): Value
  {
    match f
    case Dose => e.dose
    case Caixas => e.caixas
    case Posologia => e.posologia
  }

  /** The value a slot field of the request carries. */
  function PayloadField(p: Payload, i: Slot, f: Field): Value
  {
    EntryField(Med(p, i), f)
  }

  function EntryOf(ud: UserData, i: Slot): MedEntry
  {
    MedEntry(Get(ud, MedKey(Dose, i), Str("")), Get(ud, MedKey(Caixas, i), Str("")), Get(ud, MedKey(Posologia, i), Str("")))
  }

  /** The payload built from `user_data` (app.py:201-219): a stored key is
      sent as stored, a missing key as the empty string. */
  function BuildPayload(token: string, ud: UserData): (p: Payload)
    ensures p.token == token
    ensures PACIENTE_KEY in ud ==> p.paciente == ud[PACIENTE_KEY]
    ensures PACIENTE_KEY !in ud ==> p.paciente == Str("")
    ensures forall i: Slot, f: Field :: MedKey(f, i) in ud ==> PayloadField(p, i, f) == ud[MedKey(f, i)]
    ensures forall i: Slot, f: Field :: MedKey(f, i) !in ud ==> PayloadField(p, i, f) == Str("")
  {
    Payload(token, Get(ud, PACIENTE_KEY, Str("")), EntryOf(ud, 1), EntryOf(ud, 2), EntryOf(ud, 3))
  }

  /** What `requests.post(...)` followed by `r.json()` gives: an exception
      (network error, timeout, a body that is not JSON) or a decoded value. */
  datatype PostOutcome = PostRaised(detail: string) | PostReturned(data: Json)

  /** The external collaborators of `confirmar`: the shared token, the
      document service and the base64 decoder (None when it raises). */
  datatype Backend = Backend(token: string, post: Payload -> PostOutcome, decode: string -> Option<seq<bv8>>)

  /** How a request that was sent ends. */
  datatype Outcome =
    | CallFailed(detail: string)                   // app.py:226-230
    | ServiceError(data: Json)                     // app.py:232-235
    | DecodeFailed                                 // app.py:242-245
    | Delivered(content: seq<bv8>, filename: Json) // app.py:247-253
    | Crashed                                      // `data.get` on a non-object raises outside the try

  const DEFAULT_FILENAME: string := "receita.pdf"

  /** The reply handling of `confirmar` (app.py:223-253). */
  function Resolve(reply: PostOutcome, decode: string -> Option<seq<bv8>>): (o: Outcome)
    ensures o.CallFailed? <==> reply.PostRaised?
    ensures o.Crashed? <==> reply.PostReturned? && !reply.data.JObject?
    ensures o.ServiceError? <==>
      reply.PostReturned? && reply.data.JObject? && !Truthy(Field(reply.data.fields, "ok", JNull))
    ensures o.ServiceError? ==> o.data == reply.data
    ensures o.Delivered? ==>
      && reply.PostReturned? && reply.data.JObject?
      && Truthy(Field(reply.data.fields, "ok", JNull))
      && Field(reply.data.fields, "base64", JStr("")).JStr?
      && decode(Field(reply.data.fields, "base64", JStr("")).s) == Some(o.content)
      && o.filename == Field(reply.data.fields, "filename", JStr(DEFAULT_FILENAME))
    ensures reply.PostReturned? && reply.data.JObject? && Truthy(Field(reply.data.fields, "ok", JNull)) ==>
      var b64 := Field(reply.data.fields, "base64", JStr(""));
      (o.Delivered? <==> b64.JStr? && decode(b64.s).Some?) && (o.DecodeFailed? <==> !o.Delivered?)
  {
    match reply
    case PostRaised(detail) => CallFailed(detail)
    case PostReturned(data) =>
      if !data.JObject? then Crashed
      else if !Truthy(Field(data.fields, "ok", JNull)) then ServiceError(data)
      else
        var b64 := Field(data.fields, "base64", JStr(""));
        var filename := Field(data.fields, "filename", JStr(DEFAULT_FILENAME));
        // b64decode raises a TypeError on anything that is not a string
        var bytes := if b64.JStr? then decode(b64.s) else None;
        match bytes
        case None => DecodeFailed
        case Some(content) => Delivered(content, filename)
  }
}
