/** Values shared by every component: identifiers, sessions and transport events. */
module Domain {

  datatype Option<+T> = None | Some(value: T)

  datatype Result<+T, +E> = Ok(value: T) | Err(error: E)

  type AgentId = nat
  type BindingId = nat

  /** One remote conversation under one durable binding. */
  datatype SessionRef = SessionRef(binding: BindingId, remote: string)

  datatype PermissionRequest =
    PermissionRequest(session: SessionRef, requestId: string, prompt: string, options: seq<string>)

  datatype PermissionOutcome = Selected(option: string) | Cancelled

  datatype TransportEvent =
    | TurnStarted(session: SessionRef)
    | AgentTextDelta(session: SessionRef, text: string)
    | AgentMessageCompleted(session: SessionRef)
    | ToolCallStarted(session: SessionRef, tool: string, title: string)
    | ToolCallFinished(session: SessionRef, tool: string)
    | PermissionRequested(request: PermissionRequest)
    | TransportDisconnected(agent: AgentId, reason: string)
    | TurnCompleted(session: SessionRef)
    | TurnFailed(session: SessionRef, reason: string)
    | UsageReported(session: SessionRef, used: nat, window: nat)
    | SessionLost(session: SessionRef)

  /** The steps of giving a Room session up, and which of them storage went along with: the binding
      stored as lost, the activation as failed, the permissions decided, the row marked. */
  datatype Steps = Steps(lost: bool, failed: bool, decided: bool, marked: bool) {
    predicate All() {
      lost && failed && decided && marked
    }
  }

  /** The session an event is addressed to; only a disconnect has none. */
  function EventSession(event: TransportEvent): Option<SessionRef> {
    match event
    case PermissionRequested(request) => Some(request.session)
    case TransportDisconnected(_, _) => None
    case _ => Some(event.session)
  }

  /** The elements of `xs` that satisfy `keep`, in order. */
  function Filter<T>(keep: T -> bool, xs: seq<T>): (ys: seq<T>)
    ensures forall y :: y in ys ==> y in xs && keep(y)
  {
    if xs == [] then []
    else if keep(xs[0]) then [xs[0]] + Filter(keep, xs[1..])
    else Filter(keep, xs[1..])
  }

  lemma {:induction false} FilterAppend<T>(keep: T -> bool, xs: seq<T>, ys: seq<T>)
    ensures Filter(keep, xs + ys) == Filter(keep, xs) + Filter(keep, ys)
  {
    if xs == [] {
      assert xs + ys == ys;
    } else {
      assert (xs + ys)[1..] == xs[1..] + ys;
      FilterAppend(keep, xs[1..], ys);
    }
  }

  // ---- White space, as the Unicode property White_Space lists it ----

  predicate IsWhitespace(c: char) {
    || '\U{0009}' <= c <= '\U{000D}' || c == ' ' || c == '\U{0085}' || c == '\U{00A0}' || c == '\U{1680}'
    || '\U{2000}' <= c <= '\U{200A}' || c == '\U{2028}' || c == '\U{2029}' || c == '\U{202F}' || c == '\U{205F}'
    || c == '\U{3000}'
  }

  /** Nothing is left of the text when it is trimmed. */
  predicate Blank(text: string) {
    forall i :: 0 <= i < |text| ==> IsWhitespace(text[i])
  }
}
