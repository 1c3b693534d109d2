/**
 * The `handleError` of `VagasService`, `CursosService` and `InscricoesService`.
 * The three bodies are the same text, so the classifier is defined once here:
 * `Message` states its decision table, `HandleError` follows the source.
 * It differs from the `UsuarioService` variant in three ways: the 400 branch
 * needs a truthy body, 401/404/500 have fixed texts, and its defaults are shorter.
 */
module ResourceServices {
  import opened JsValues
  import opened HttpErrors

  const DefaultMessage := "Ocorreu um erro desconhecido!"
  const BadRequestMessage := "Erro 400: Solicitação inválida."
  const UnauthorizedMessage := "Não autorizado."
  const NotFoundMessage := "Recurso não encontrado."
  const ServerErrorMessage := "Erro interno do servidor."

  /** The body-driven precedence of a 400 whose body is truthy. */
  function BadRequestText(body: ErrorBody): string {
    if HasValidationErrors(body) then ValidationText(body.errors.value)
    else if HasBodyMessage(body) then body.message.value
    else if body.Text? && |body.text| < 200 then body.text
    else BadRequestMessage
  }

  /** The message a failed call on vagas, cursos or inscrições is re-thrown with. */
  function Message(e: HttpErrorResponse): (r: string)
    // The body is consulted only for a client event or a 400 with a truthy body.
    ensures r in {DefaultMessage, BadRequestMessage, UnauthorizedMessage, NotFoundMessage, ServerErrorMessage, e.message}
            || e.body.ClientEvent? || (e.status == 400 && BodyTruthy(e.body))
  {
    if e.body.ClientEvent? then ClientPrefix + e.body.eventMessage
    else if e.status == 400 && BodyTruthy(e.body) then BadRequestText(e.body)
    else if e.status == 401 then UnauthorizedMessage
    else if e.status == 404 then NotFoundMessage
    else if e.status == 500 then ServerErrorMessage
    else if e.message != "" then e.message
    else DefaultMessage
  }

  /** The handler as written in each of the three services. */
  method HandleError(e: HttpErrorResponse) returns (err: ClientError)
    ensures err == Error(Message(e))
  {
    var errorMessage := DefaultMessage;
    if e.body.ClientEvent? {
      errorMessage := ClientPrefix + e.body.eventMessage;
    } else {
      if e.status == 400 && BodyTruthy(e.body) {
        if HasValidationErrors(e.body) {
          var messages := CollectFieldMessages(e.body.errors.value);
          assert messages == FieldTexts(e.body.errors.value);
          errorMessage := ValidationPrefix + Join(messages, " ");
        } else if HasBodyMessage(e.body) {
          errorMessage := e.body.message.value;
        } else if e.body.Text? && |e.body.text| < 200 {
          errorMessage := e.body.text;
        } else {
          errorMessage := BadRequestMessage;
        }
      } else if e.status == 401 {
        errorMessage := UnauthorizedMessage;
      } else if e.status == 404 {
        errorMessage := NotFoundMessage;
      } else if e.status == 500 {
        errorMessage := ServerErrorMessage;
      } else if e.message != "" {
        errorMessage := e.message;
      }
    }
    err := Error(errorMessage);
  }

  /** A client-side event wins over every status. */
  lemma ClientEventWins(e: HttpErrorResponse, m: string)
    requires e.body == ClientEvent(m)
    ensures Message(e) == ClientPrefix + m
  {
  }

  /** Status 400 with a body: validation errors, then a body message, then a short string, then the generic text. */
  lemma BadRequestPrecedence(e: HttpErrorResponse)
    requires e.status == 400 && !e.body.ClientEvent? && BodyTruthy(e.body)
    ensures HasValidationErrors(e.body) ==> Message(e) == ValidationText(e.body.errors.value)
    ensures !HasValidationErrors(e.body) && HasBodyMessage(e.body) ==> Message(e) == e.body.message.value
    ensures e.body.Text? && |e.body.text| < 200 ==> Message(e) == e.body.text
    ensures (e.body.Text? && |e.body.text| >= 200)
        || (e.body.Obj? && !HasValidationErrors(e.body) && !HasBodyMessage(e.body))
        ==> Message(e) == BadRequestMessage
  {
  }

  /** An empty `errors` object still takes the validation branch: the bare prefix. */
  lemma EmptyErrorsObject(m: Option<string>, httpMessage: string)
    ensures Message(HttpErrorResponse(400, Obj(Some([]), m), httpMessage)) == ValidationPrefix
  {
    EmptyValidationText();
  }

  /** A 400 with no body, or the empty string, skips the 400 branch entirely. */
  lemma EmptyBadRequestFallsThrough(e: HttpErrorResponse)
    requires e.status == 400 && (e.body == Null || e.body == Text(""))
    ensures Message(e) == if e.message != "" then e.message else DefaultMessage
  {
  }

  /** 401, 404 and 500 have fixed texts, whatever the body says. */
  lemma FixedStatusTexts(e: HttpErrorResponse)
    requires !e.body.ClientEvent?
    ensures e.status == 401 ==> Message(e) == UnauthorizedMessage
    ensures e.status == 404 ==> Message(e) == NotFoundMessage
    ensures e.status == 500 ==> Message(e) == ServerErrorMessage
  {
  }

  /** When nothing matches, the HTTP message is used, else the default. */
  lemma OtherStatusFallback(e: HttpErrorResponse)
    requires !e.body.ClientEvent? && e.status !in {400, 401, 404, 500}
    ensures Message(e) == if e.message != "" then e.message else DefaultMessage
  {
  }

  /** Unlike the `UsuarioService` variant, this one never yields an empty message. */
  lemma MessageNeverEmpty(e: HttpErrorResponse)
    ensures Message(e) != ""
  {
  }
}
