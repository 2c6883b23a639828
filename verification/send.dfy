/** The send route: a POST with a phone number and a message builds the
    recipient's WhatsApp address and reports a simulated send. */
module SendEndpoint {
  import opened Wrappers
  import opened Http
  import opened WhatsAppIds

  const MissingFieldsError: string := "Número e mensagem são obrigatórios."
  const SimulatedSendMessage: string := "Envio simulado com sucesso."

  /** `number` and `message` of the JSON body; absent or null is None. */
  datatype SendRequest = SendRequest(verb: string, number: Option<string>, message: Option<string>)

  /** The JSON bodies the route answers with. */
  datatype SendBody = Outcome(success: bool, detail: string) | MethodError(error: string)

  /** The response, together with the address the simulated send used,
      when one was built. */
  datatype SendResponse = SendResponse(status: int, body: SendBody, allow: seq<string>,
                                       jid: Option<string>)

  function Handle(req: SendRequest): (r: SendResponse)
    ensures req.verb != "POST" <==> r.status == 405
    ensures r.status == 405 ==> r.allow == ["POST"] && r.body.MethodError? && r.jid.None?
    ensures req.verb == "POST" && !(Truthy(req.number) && Truthy(req.message)) ==>
      r == SendResponse(400, Outcome(false, MissingFieldsError), [], None)
    ensures req.verb == "POST" && Truthy(req.number) && Truthy(req.message) ==>
      && r.status == 200 && r.body == Outcome(true, SimulatedSendMessage)
      && r.jid == Some(SendJid(req.number.value))
    ensures r.jid.Some? ==>
      && AllDigits(r.jid.value[..|r.jid.value| - |JidSuffix|])
      && r.jid.value[|r.jid.value| - |JidSuffix|..] == JidSuffix
  {
    if req.verb == "POST" then
      if !Truthy(req.number) || !Truthy(req.message) then
        SendResponse(400, Outcome(false, MissingFieldsError), [], None)
      else
        SendResponse(200, Outcome(true, SimulatedSendMessage), [], Some(SendJid(req.number.value)))
    else
      SendResponse(405, MethodError("Método " + req.verb + " não permitido"), ["POST"], None)
  }

  /** Separators between the parts of a number do not change the address:
      `a + sep + b` and `a + b` reach the same recipient when `sep` holds no
      digit. */
  lemma SeparatorsDoNotChangeAddress(a: string, sep: string, b: string)
    requires forall i :: 0 <= i < |sep| ==> !IsDigit(sep[i])
    ensures SendJid(a + sep + b) == SendJid(a + b)
  {
    DigitsOnlyConcat(a + sep, b);
    DigitsOnlyConcat(a, sep);
    DigitsOnlyConcat(a, b);
  }
}
