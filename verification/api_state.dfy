/**
 The request-status record of app/types/api-state.ts: a four-valued status
 together with an optional message and an optional payload, changed only
 through the state modifier. The modifier always overwrites the status but
 overwrites the message and the payload only with JavaScript-truthy
 arguments, so an absent or falsy argument leaves the previous value in
 place.
 */
module ApiState {

  import opened Options
  import opened JsValue

  /** The `State` union type: exactly four statuses. */
  datatype Status = Success | Failed | Loading | Idle

  /** The string literal that stands for each status in the `State` union
      of app/types/api-state.ts. */
  function StatusName(s: Status): string {
    match s
    case Success => "success"
    case Failed => "failed"
    case Loading => "loading"
    case Idle => "idle"
  }

  /** Reads a status literal; any other string is not a `State`. */
  function ParseStatus(t: string): (r: Option<Status>)
    ensures r.Some? ==> StatusName(r.value) == t
  {
    if t == "success" then Some(Success)
    else if t == "failed" then Some(Failed)
    else if t == "loading" then Some(Loading)
    else if t == "idle" then Some(Idle)
    else None
  }

  /** The four literals are distinct and each reads back as its status, so
      the union type is in one-to-one correspondence with `Status`. */
  lemma StatusNameRoundTrip(s: Status)
    ensures ParseStatus(StatusName(s)) == Some(s)
  {
  }

  /** The `APIState` record. An absent `message` is `None`; an absent `data`
      is `Undefined`. */
  datatype APIState = APIState(status: Status, message: Option<string>, data: JsValue)

  /** A `message?: string` argument is truthy when it is present and not the
      empty string. */
  predicate MessageTruthy(m: Option<string>) {
    m.Some? && m.value != ""
  }

  /** `useStateModifier(state, newState, newMessage, newData)`. */
  function UseStateModifier(st: APIState, newState: Status, newMessage: Option<string>, newData: JsValue): (r: APIState)
    ensures r.status == newState
    ensures r.message == (if MessageTruthy(newMessage) then newMessage else st.message)
    ensures r.data == (if Truthy(newData) then newData else st.data)
  {
    var message := if MessageTruthy(newMessage) then newMessage else st.message;
    var data := if Truthy(newData) then newData else st.data;
    APIState(newState, message, data)
  }

  /** Applying the same arguments twice is the same as applying them once. */
  lemma ModifierIdempotent(st: APIState, s: Status, m: Option<string>, d: JsValue)
    ensures UseStateModifier(UseStateModifier(st, s, m, d), s, m, d) == UseStateModifier(st, s, m, d)
  {
  }

  /** The later of two truthy-gated arguments wins; a falsy later argument
      defers to the earlier one. */
  function LaterMessage(first: Option<string>, second: Option<string>): Option<string> {
    if MessageTruthy(second) then second else first
  }

  function LaterData(first: JsValue, second: JsValue): JsValue {
    if Truthy(second) then second else first
  }

  /** Two consecutive updates collapse into one: the final status is the
      second one, and each of message and data is the later truthy argument,
      if any. */
  lemma ModifierCompose(st: APIState, s1: Status, m1: Option<string>, d1: JsValue,
                        s2: Status, m2: Option<string>, d2: JsValue)
    ensures UseStateModifier(UseStateModifier(st, s1, m1, d1), s2, m2, d2)
         == UseStateModifier(st, s2, LaterMessage(m1, m2), LaterData(d1, d2))
  {
  }

  /** Updating with no message and no payload changes only the status. */
  lemma StatusOnlyUpdate(st: APIState, s: Status)
    ensures UseStateModifier(st, s, None, Undefined) == st.(status := s)
  {
  }

  /** Falsy-but-meaningful arguments are ignored: an empty message or a payload
      of 0, "", false or null leaves the previous message and payload in place. */
  lemma FalsyArgumentsKeepOld(st: APIState, s: Status, d: JsValue)
    requires d in {Undefined, Null, Bool(false), Int(0), Str("")}
    ensures UseStateModifier(st, s, Some(""), d) == st.(status := s)
  {
  }

  /** An empty array or object payload is truthy and therefore is stored. */
  lemma EmptyContainerPayloadStored(st: APIState, s: Status, m: Option<string>)
    ensures UseStateModifier(st, s, m, Arr([])).data == Arr([])
    ensures UseStateModifier(st, s, m, Obj([])).data == Obj([])
  {
  }

  /** The usual request cycle: marking the request as loading with
      "Thinking..." and then as successful with a non-empty message and a
      truthy payload ends with exactly that message and payload, whatever
      the record held before. */
  lemma LoadingThenSuccess(st: APIState, m: string, d: JsValue)
    requires m != "" && Truthy(d)
    ensures var after := UseStateModifier(UseStateModifier(st, Loading, Some("Thinking..."), Undefined), Success, Some(m), d);
            after == APIState(Success, Some(m), d)
  {
  }

  /** The loading step itself keeps any earlier payload: only the status and
      the message change. */
  lemma LoadingKeepsPayload(st: APIState)
    ensures UseStateModifier(st, Loading, Some("Thinking..."), Undefined)
         == APIState(Loading, Some("Thinking..."), st.data)
  {
  }
}
