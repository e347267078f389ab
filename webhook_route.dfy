/**
 * `POST /api/stripe/webhook`: rejects requests without a signature or with one the
 * provider's verifier refuses, notes the verified event by its type, and acknowledges it.
 * The verifier is an opaque function of the raw body, the signature and the secret.
 */
module WebhookRoute {
  import opened Wrappers
  import opened JsValue

  /** The fields of a verified event the handler reads. */
  datatype Event = Event(
    eventType: string,
    objectId: string,
    metadata: Option<map<string, string>>,
    amountTotal: Json,
    paymentStatus: Json)

  /** What the handler logs for an event. */
  datatype Note =
    | PaymentRecord(scanId: Option<string>, businessName: Option<string>, ownerName: Option<string>,
                    email: Option<string>, amount: Json, paymentStatus: Json)
    | IntentSucceeded(id: string)
    | IntentFailed(id: string)
    | Unhandled(eventType: string)

  /** The response, and the note logged for a verified event (if any). */
  datatype Outcome = Outcome(status: int, body: Json, note: Option<Note>)

  const PlaceholderSecret := "whsec_placeholder_until_real_webhook"

  /** `process.env.STRIPE_WEBHOOK_SECRET || 'whsec_placeholder_until_real_webhook'` */
  function Secret(env: Option<string>): (s: string)
    ensures env.Some? && env.value != "" ==> s == env.value
    ensures env.None? || env.value == "" ==> s == PlaceholderSecret
  {
    if env.Some? && env.value != "" then env.value else PlaceholderSecret
  }

  function ErrorBody(error: string): Json {
    Obj(map["error" := Str(error)])
  }

  const HandlerFailed := "Webhook handler failed"
  const InvalidSignature := "Invalid signature"

  const Received: Json := Obj(map["received" := Bool(true)])

  function Lookup(m: map<string, string>, key: string): Option<string> {
    if key in m then Some(m[key]) else None
  }

  /** The event types the handler recognises. */
  const HandledTypes := {"checkout.session.completed", "payment_intent.succeeded", "payment_intent.payment_failed"}

  /**
   * The `switch (event.type)`: what each kind of event logs. Nothing is logged only for a
   * completed checkout without metadata; any other type is noted as unhandled.
   */
  function NoteFor(event: Event): (r: Option<Note>)
    ensures r.None? <==> event.eventType == "checkout.session.completed" && event.metadata.None?
    ensures r.Some? && r.value.Unhandled? <==> event.eventType !in HandledTypes
    ensures r.Some? && r.value.Unhandled? ==> r.value.eventType == event.eventType
    ensures r.Some? && (r.value.IntentSucceeded? || r.value.IntentFailed?) ==> r.value.id == event.objectId
  {
    if event.eventType == "checkout.session.completed" then
      if event.metadata.Some? then
        var m := event.metadata.value;
        Some(PaymentRecord(Lookup(m, "scanId"), Lookup(m, "businessName"), Lookup(m, "ownerName"),
          Lookup(m, "email"), event.amountTotal, event.paymentStatus))
      else None
    else if event.eventType == "payment_intent.succeeded" then Some(IntentSucceeded(event.objectId))
    else if event.eventType == "payment_intent.payment_failed" then Some(IntentFailed(event.objectId))
    else Some(Unhandled(event.eventType))
  }

  /**
   * The handler. `body` is the raw body or the read error's message; `signature` is the
   * `stripe-signature` header (`None` when absent); `verify` yields the event or `None`
   * when it throws.
   */
  function Post(body: Result<string, string>, signature: Option<string>, secretEnv: Option<string>,
                verify: (string, string, string) -> Option<Event>): (r: Outcome)
    ensures r.status in {200, 400, 500}
    ensures r.status == 200 ==> r.body == Received
    ensures r.status != 200 ==> r.body.Obj? && r.body.fields.Keys == {"error"} && r.note.None?
    ensures body.Failure? ==> r == Outcome(500, ErrorBody(HandlerFailed), None)
    ensures (body.Success? && signature.Some? && signature.value != ""
      && verify(body.value, signature.value, Secret(secretEnv)).None?) ==>
        r == Outcome(400, ErrorBody(InvalidSignature), None)
    ensures (body.Success? && signature.Some? && signature.value != ""
      && verify(body.value, signature.value, Secret(secretEnv)).Some?) ==>
        r.note == NoteFor(verify(body.value, signature.value, Secret(secretEnv)).value)
  {
    if body.Failure? then Outcome(500, ErrorBody(HandlerFailed), None)
    else if signature.None? || signature.value == "" then Outcome(400, ErrorBody("No signature provided"), None)
    else
      match verify(body.value, signature.value, Secret(secretEnv))
      case None => Outcome(400, ErrorBody(InvalidSignature), None)
      case Some(event) => Outcome(200, Received, NoteFor(event))
  }

  /** A request without a signature is refused before the verifier is consulted. */
  lemma NoSignatureRefused(raw: string, secretEnv: Option<string>, verify: (string, string, string) -> Option<Event>)
    ensures Post(Success(raw), None, secretEnv, verify) == Outcome(400, ErrorBody("No signature provided"), None)
    ensures Post(Success(raw), Some(""), secretEnv, verify) == Outcome(400, ErrorBody("No signature provided"), None)
  {
  }

  /**
   * The handler answers 200, and so logs something, exactly for a body the verifier
   * accepted under the configured secret.
   */
  lemma NoteOnlyForVerifiedEvents(body: Result<string, string>, signature: Option<string>, secretEnv: Option<string>,
                                  verify: (string, string, string) -> Option<Event>)
    ensures var out := Post(body, signature, secretEnv, verify);
      out.status == 200 <==>
        body.Success? && signature.Some? && signature.value != ""
        && verify(body.value, signature.value, Secret(secretEnv)).Some?
  {
  }

  /** A payment record is logged exactly for a completed checkout session that carries metadata. */
  lemma PaymentRecordOnlyForCompletedCheckout(event: Event)
    ensures NoteFor(event).Some? && NoteFor(event).value.PaymentRecord? <==>
      event.eventType == "checkout.session.completed" && event.metadata.Some?
    ensures event.eventType == "checkout.session.completed" && event.metadata.Some? ==>
      NoteFor(event).value.scanId == Lookup(event.metadata.value, "scanId")
      && NoteFor(event).value.email == Lookup(event.metadata.value, "email")
    ensures event.eventType != "checkout.session.completed" ==> NoteFor(event).Some?
  {
  }
}
