/** The WhatsApp webhook route: the subscription handshake on GET, and on
    POST the recognition of a message event, the extraction of its text, the
    relay to the flow controller and the forwarding of its reply.

    The flow controller's answer and the outcome of the outbound send are
    inputs, so the handler is a total function from (configuration, request,
    relay outcome, send outcome) to (response, effects issued). */
module Webhook {
  import opened Wrappers
  import opened Http
  import opened WhatsAppIds

  const DefaultFlowControllerUrl: string := "http://localhost:5000/process_message"
  const DefaultVerifyToken: string := "seu_token_secreto"
  const BusinessAccount: string := "whatsapp_business_account"

  const EventReceived: string := "EVENT_RECEIVED"
  const EventReceivedWithError: string := "EVENT_RECEIVED_WITH_ERROR"
  const EventReceivedUnprocessed: string := "EVENT_RECEIVED_UNPROCESSED"
  const Forbidden: string := "Forbidden"

  /** The flow controller's URL and the verification token. */
  datatype Config = Config(flowControllerUrl: string, verifyToken: string)

  /** Configuration from the two environment variables; an unset or empty
      variable falls back to the built-in default. */
  function ConfigFromEnv(url: Option<string>, token: Option<string>): (c: Config)
    ensures Truthy(url) ==> c.flowControllerUrl == url.value
    ensures !Truthy(url) ==> c.flowControllerUrl == DefaultFlowControllerUrl
    ensures Truthy(token) ==> c.verifyToken == token.value
    ensures !Truthy(token) ==> c.verifyToken == DefaultVerifyToken
    ensures c.flowControllerUrl != "" && c.verifyToken != ""
  {
    Config(OrElse(url, DefaultFlowControllerUrl), OrElse(token, DefaultVerifyToken))
  }

  // ---------------------------------------------------------------------
  // Inbound payload: only the fields the handler reads. An absent or null
  // field is None; an absent array is the empty sequence.

  datatype ReplyChoice = ReplyChoice(id: Option<string>, title: Option<string>)
  datatype Interactive = Interactive(kind: Option<string>, buttonReply: Option<ReplyChoice>,
                                     listReply: Option<ReplyChoice>)
  datatype TextPart = TextPart(body: Option<string>)
  datatype MessageEntry = MessageEntry(from: Option<string>, kind: Option<string>,
                                       text: Option<TextPart>, interactive: Option<Interactive>,
                                       status: Option<string>)
  datatype ChangeValue = ChangeValue(messages: seq<MessageEntry>)
  datatype Change = Change(value: Option<ChangeValue>)
  datatype Entry = Entry(changes: seq<Change>)
  datatype Envelope = Envelope(objectKind: Option<string>, entry: seq<Entry>)

  datatype Request = Request(verb: string, query: Query, body: Option<Envelope>)

  /** What the flow controller call produced: the fetch rejected, the reply
      was not ok, the ok reply's body was not valid JSON or was JSON `null`
      (reading `response_message` then throws), or it parsed to a value whose
      `response_message` is a string or absent (any other JSON value, such as
      a number or an array, reads as absent). */
  datatype RelayOutcome = FetchFailed | NotOk(status: int) | OkMalformed
                        | OkReply(responseMessage: Option<string>)

  /** Whether `sendMessageToWhatsApp` resolved or rejected. */
  datatype SendOutcome = Delivered | SendFailed

  /** The two outbound calls the handler can make. */
  datatype Effect = Relay(url: string, senderId: string, message: string)
                  | Send(recipient: string, text: string)

  datatype Body = Text(text: string) | Challenge(value: Option<QueryValue>)

  datatype Response = Response(status: int, body: Body, allow: seq<string>)

  /** Either the handler wrote a response, or a `TypeError` escaped it. */
  datatype Outcome = Responded(response: Response) | Threw

  datatype Handled = Handled(outcome: Outcome, effects: seq<Effect>)

  function Ack(text: string): Outcome {
    Responded(Response(200, Text(text), []))
  }

  // ---------------------------------------------------------------------
  // Verification handshake

  /** The handshake check on the three `hub.*` query parameters. */
  predicate Verified(cfg: Config, q: Query) {
    && Lookup(q, "hub.mode") == Some(Single("subscribe"))
    && Lookup(q, "hub.verify_token") == Some(Single(cfg.verifyToken))
  }

  function HandleVerification(cfg: Config, q: Query): (r: Response)
    ensures r.status == 200 <==> Verified(cfg, q)
    ensures r.status == 200 ==> r.body == Challenge(Lookup(q, "hub.challenge"))
    ensures r.status != 200 ==> r.status == 403 && r.body == Text(Forbidden)
    ensures r.allow == []
  {
    var mode := Lookup(q, "hub.mode");
    var token := Lookup(q, "hub.verify_token");
    var challenge := Lookup(q, "hub.challenge");
    if mode == Some(Single("subscribe")) && token == Some(Single(cfg.verifyToken)) then
      Response(200, Challenge(challenge), [])
    else
      Response(403, Text(Forbidden), [])
  }

  // ---------------------------------------------------------------------
  // Envelope recognition and text extraction

  /** `body.entry[0].changes[0].value.messages[0]`, when the whole path exists. */
  function FirstMessage(body: Option<Envelope>): (m: Option<MessageEntry>)
    ensures m.Some? <==>
      && body.Some? && |body.value.entry| > 0
      && |body.value.entry[0].changes| > 0
      && body.value.entry[0].changes[0].value.Some?
      && |body.value.entry[0].changes[0].value.value.messages| > 0
    ensures m.Some? ==> m.value == body.value.entry[0].changes[0].value.value.messages[0]
  {
    match body
    case None => None
    case Some(env) =>
      if |env.entry| == 0 || |env.entry[0].changes| == 0 then None
      else match env.entry[0].changes[0].value
        case None => None
        case Some(v) => if |v.messages| == 0 then None else Some(v.messages[0])
  }

  /** The envelope test of the POST branch. */
  predicate Recognised(body: Option<Envelope>) {
    body.Some? && body.value.objectKind == Some(BusinessAccount) && FirstMessage(body).Some?
  }

  /** `choice?.id || ''`. */
  function ChoiceId(choice: Option<ReplyChoice>): (id: string)
    ensures choice.Some? && choice.value.id.Some? ==> id == choice.value.id.value
    ensures choice.None? || choice.value.id.None? ==> id == ""
  {
    if choice.Some? then OrElse(choice.value.id, "") else ""
  }

  /** The text of a message: None for a message type the handler does not
      support; for `text`, the body; for `interactive`, the id of the button
      or list choice, or "" for any other interactive subtype. */
  function ExtractText(m: MessageEntry): (t: Option<string>)
    ensures t.None? <==> m.kind != Some("text") && m.kind != Some("interactive")
    ensures m.kind == Some("text") ==> t == Some(if m.text.Some? then OrElse(m.text.value.body, "") else "")
    ensures m.kind == Some("interactive") && m.interactive.Some?
            && m.interactive.value.kind == Some("button_reply") ==>
      t == Some(ChoiceId(m.interactive.value.buttonReply))
    ensures m.kind == Some("interactive") && m.interactive.Some?
            && m.interactive.value.kind == Some("list_reply") ==>
      t == Some(ChoiceId(m.interactive.value.listReply))
    ensures m.kind == Some("interactive")
            && !(m.interactive.Some? && m.interactive.value.kind in {Some("button_reply"), Some("list_reply")}) ==>
      t == Some("")
    ensures t.Some? && t.value != "" ==>
      || (m.kind == Some("text") && m.text.Some? && m.text.value.body == Some(t.value))
      || (m.kind == Some("interactive") && m.interactive.Some? &&
           ((m.interactive.value.kind == Some("button_reply") && m.interactive.value.buttonReply.Some?
             && m.interactive.value.buttonReply.value.id == Some(t.value)) ||
            (m.interactive.value.kind == Some("list_reply") && m.interactive.value.listReply.Some?
             && m.interactive.value.listReply.value.id == Some(t.value))))
  {
    if m.kind == Some("text") then
      Some(if m.text.Some? then OrElse(m.text.value.body, "") else "")
    else if m.kind == Some("interactive") then
      if m.interactive.Some? && m.interactive.value.kind == Some("button_reply") then
        Some(ChoiceId(m.interactive.value.buttonReply))
      else if m.interactive.Some? && m.interactive.value.kind == Some("list_reply") then
        Some(ChoiceId(m.interactive.value.listReply))
      else
        Some("")
    else
      None
  }

  /** A recognised event carrying a supported message with non-empty text
      that is not a status notification: the only kind that is relayed. */
  predicate Deliverable(body: Option<Envelope>) {
    && Recognised(body)
    && var m := FirstMessage(body).value;
    && ExtractText(m).Some? && ExtractText(m).value != "" && !Truthy(m.status)
  }

  // ---------------------------------------------------------------------
  // The handler

  function HandleEvent(cfg: Config, body: Option<Envelope>, relay: RelayOutcome,
                       send: SendOutcome): (h: Handled)
    // every path acknowledges with 200, except a deliverable message without a sender
    ensures h.outcome.Responded? ==>
      && h.outcome.response.status == 200
      && h.outcome.response.body in {Text(EventReceived), Text(EventReceivedWithError),
                                     Text(EventReceivedUnprocessed)}
    ensures !Recognised(body) ==> h == Handled(Ack(EventReceivedUnprocessed), [])
    ensures Recognised(body) ==> h.outcome != Ack(EventReceivedUnprocessed)
    // a handler exception happens exactly for a deliverable message without `from`
    ensures h.outcome.Threw? <==> Deliverable(body) && FirstMessage(body).value.from.None?
    // effects: at most one relay, issued first, optionally followed by one send
    ensures |h.effects| <= 2
    ensures forall i :: 0 <= i < |h.effects| ==> (h.effects[i].Relay? <==> i == 0)
    ensures h.effects != [] <==> Deliverable(body) && FirstMessage(body).value.from.Some?
    ensures h.effects != [] ==>
      var m := FirstMessage(body).value;
      h.effects[0] == Relay(cfg.flowControllerUrl, NormalizeSender(m.from.value), ExtractText(m).value)
    // a send happens exactly after an ok relay whose reply carries a message
    ensures |h.effects| == 2 <==> h.effects != [] && relay.OkReply? && Truthy(relay.responseMessage)
    ensures |h.effects| == 2 ==>
      h.effects[1] == Send(h.effects[0].senderId, relay.responseMessage.value)
    // the error acknowledgment means the relay failed or the send failed
    ensures h.outcome == Ack(EventReceivedWithError) <==>
      h.effects != [] && (!relay.OkReply? || (|h.effects| == 2 && send == SendFailed))
  {
    if !Recognised(body) then
      Handled(Ack(EventReceivedUnprocessed), [])
    else
      var m := FirstMessage(body).value;
      match ExtractText(m)
      case None => Handled(Ack(EventReceived), [])
      case Some(text) =>
        if text == "" || Truthy(m.status) then
          Handled(Ack(EventReceived), [])
        else if m.from.None? then
          Handled(Threw, [])
        else
          var sender := NormalizeSender(m.from.value);
          var relayed := Relay(cfg.flowControllerUrl, sender, text);
          match relay
          case OkReply(reply) =>
            if Truthy(reply) then
              Handled(if send == Delivered then Ack(EventReceived) else Ack(EventReceivedWithError),
                      [relayed, Send(sender, reply.value)])
            else
              Handled(Ack(EventReceived), [relayed])
          case _ => Handled(Ack(EventReceivedWithError), [relayed])
  }

  function Handle(cfg: Config, req: Request, relay: RelayOutcome, send: SendOutcome): (h: Handled)
    ensures req.verb == "GET" ==>
      h == Handled(Responded(HandleVerification(cfg, req.query)), [])
    ensures req.verb == "POST" ==> h == HandleEvent(cfg, req.body, relay, send)
    ensures req.verb != "GET" && req.verb != "POST" ==>
      && h.effects == []
      && h.outcome.Responded?
      && h.outcome.response.status == 405
      && h.outcome.response.allow == ["GET", "POST"]
    ensures h.outcome.Responded? && h.outcome.response.status == 405 ==>
      req.verb != "GET" && req.verb != "POST"
  {
    if req.verb == "GET" then
      Handled(Responded(HandleVerification(cfg, req.query)), [])
    else if req.verb == "POST" then
      HandleEvent(cfg, req.body, relay, send)
    else
      Handled(Responded(Response(405, Text("Method " + req.verb + " Not Allowed"), ["GET", "POST"])), [])
  }

  // ---------------------------------------------------------------------
  // Properties of the POST branch

  /** A message type other than `text` and `interactive` is acknowledged
      as received, not as unprocessed, and nothing is called. */
  lemma UnsupportedTypeIsAcknowledged(cfg: Config, body: Option<Envelope>, relay: RelayOutcome,
                                      send: SendOutcome)
    requires Recognised(body)
    requires FirstMessage(body).value.kind !in {Some("text"), Some("interactive")}
    ensures HandleEvent(cfg, body, relay, send) == Handled(Ack(EventReceived), [])
  {
  }

  /** Empty extracted text, or a truthy `status` on the message, is
      acknowledged as received and nothing is called. */
  lemma EmptyOrStatusIsAcknowledged(cfg: Config, body: Option<Envelope>, relay: RelayOutcome,
                                    send: SendOutcome)
    requires Recognised(body)
    requires ExtractText(FirstMessage(body).value).Some?
    requires ExtractText(FirstMessage(body).value).value == "" || Truthy(FirstMessage(body).value.status)
    ensures HandleEvent(cfg, body, relay, send) == Handled(Ack(EventReceived), [])
  {
  }

  /** An interactive reply is relayed by its id; its title never matters. */
  lemma ChoiceTitleIsIgnored(m: MessageEntry, i: Interactive, b: Option<string>, l: Option<string>)
    requires m.interactive == Some(i)
    ensures ExtractText(m) == ExtractText(m.(interactive := Some(i.(
              buttonReply := if i.buttonReply.Some? then Some(i.buttonReply.value.(title := b)) else None,
              listReply := if i.listReply.Some? then Some(i.listReply.value.(title := l)) else None))))
  {
  }

  /** A button or list choice with a non-empty id is relayed with that id
      as the message, from the normalised sender. */
  lemma ChoiceIdIsRelayed(cfg: Config, body: Option<Envelope>, relay: RelayOutcome, send: SendOutcome,
                          id: string)
    requires Recognised(body) && id != ""
    requires var m := FirstMessage(body).value;
      && m.kind == Some("interactive") && m.interactive.Some? && m.from.Some? && !Truthy(m.status)
      && var i := m.interactive.value;
      || (i.kind == Some("button_reply") && i.buttonReply.Some? && i.buttonReply.value.id == Some(id))
      || (i.kind == Some("list_reply") && i.listReply.Some? && i.listReply.value.id == Some(id))
    ensures var m := FirstMessage(body).value;
      var h := HandleEvent(cfg, body, relay, send);
      h.effects != [] && h.effects[0] == Relay(cfg.flowControllerUrl, NormalizeSender(m.from.value), id)
  {
  }

  /** A failed relay (rejected fetch, non-ok status, unreadable reply) is
      acknowledged with the error marker and nothing is sent. */
  lemma FailedRelayNeverSends(cfg: Config, body: Option<Envelope>, relay: RelayOutcome,
                              send: SendOutcome)
    requires Deliverable(body) && FirstMessage(body).value.from.Some?
    requires !relay.OkReply?
    ensures var h := HandleEvent(cfg, body, relay, send);
      && h.outcome == Ack(EventReceivedWithError)
      && |h.effects| == 1 && h.effects[0].Relay?
  {
  }

  /** An ok relay with a non-empty reply sends it once to the normalised
      sender; the acknowledgment reflects whether the send succeeded. An
      ok relay without a reply sends nothing and is acknowledged. */
  lemma OkRelayOutcomes(cfg: Config, body: Option<Envelope>, reply: Option<string>,
                        send: SendOutcome)
    requires Deliverable(body) && FirstMessage(body).value.from.Some?
    ensures var h := HandleEvent(cfg, body, OkReply(reply), send);
      var sender := NormalizeSender(FirstMessage(body).value.from.value);
      if Truthy(reply) then
        && h.effects[1..] == [Send(sender, reply.value)]
        && h.outcome == Ack(if send == Delivered then EventReceived else EventReceivedWithError)
      else
        h.effects[1..] == [] && h.outcome == Ack(EventReceived)
  {
  }

  // ---------------------------------------------------------------------
  // End-to-end scenarios

  function TextEvent(from: string, text: string): Envelope {
    Envelope(Some(BusinessAccount), [Entry([Change(Some(ChangeValue([
      MessageEntry(Some(from), Some("text"), Some(TextPart(Some(text))), None, None)])))])])
  }

  /** A text message from a bare number is relayed with the canonical
      address and the unchanged text, and the reply is sent back to that
      address. */
  lemma TextMessageIsRelayedAndAnswered(cfg: Config, from: string, text: string, reply: string)
    requires '@' !in from && text != "" && reply != ""
    ensures Handle(cfg, Request("POST", map[], Some(TextEvent(from, text))), OkReply(Some(reply)), Delivered)
      == Handled(Ack(EventReceived), [Relay(cfg.flowControllerUrl, from + JidSuffix, text),
                                      Send(from + JidSuffix, reply)])
  {
    var body := Some(TextEvent(from, text));
    var m := MessageEntry(Some(from), Some("text"), Some(TextPart(Some(text))), None, None);
    assert FirstMessage(body) == Some(m);
    assert ExtractText(m) == Some(text);
  }

  /** The same, for the number and texts of a concrete exchange. */
  lemma TextMessageExample(cfg: Config)
    ensures Handle(cfg, Request("POST", map[], Some(TextEvent("5511999999999", "Olá"))),
                   OkReply(Some("Oi!")), Delivered)
      == Handled(Ack(EventReceived), [Relay(cfg.flowControllerUrl, "5511999999999@s.whatsapp.net", "Olá"),
                                      Send("5511999999999@s.whatsapp.net", "Oi!")])
  {
    var number := "5511999999999";
    assert number + JidSuffix == "5511999999999@s.whatsapp.net";
    assert '@' !in number by {
      assert forall i :: 0 <= i < |number| ==> IsDigit(number[i]);
    }
    TextMessageIsRelayedAndAnswered(cfg, number, "Olá", "Oi!");
  }

  /** A 500 from the flow controller gives the error acknowledgment and no send. */
  lemma ServerErrorIsAcknowledged(cfg: Config)
    ensures var h := Handle(cfg, Request("POST", map[], Some(TextEvent("5511999999999", "Olá"))),
                            NotOk(500), Delivered);
      h.outcome == Ack(EventReceivedWithError) && |h.effects| == 1
  {
  }

  /** The handshake with the right token echoes the challenge. */
  lemma HandshakeEchoesChallenge(cfg: Config)
    ensures var q := map["hub.mode" := Single("subscribe"), "hub.verify_token" := Single(cfg.verifyToken),
                         "hub.challenge" := Single("xyz123")];
      Handle(cfg, Request("GET", q, None), FetchFailed, Delivered)
        == Handled(Responded(Response(200, Challenge(Some(Single("xyz123"))), [])), [])
  {
  }
}
