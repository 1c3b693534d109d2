/**
 * `UsuarioService.handleError`: the error-message classifier behind the
 * login and registration calls. `Message` states its decision table;
 * `HandleError` follows the source branch by branch and is proved to agree.
 */
module UsuarioService {
  import opened HttpErrors

  const DefaultMessage := "Ocorreu um erro desconhecido ao processar a sua solicitação!"
  const BadRequestMessage := "Erro 400: Solicitação inválida. Verifique os dados enviados."
  const UnauthorizedMessage := "Credenciais inválidas ou não autorizado."
  const ServerErrorMessage := "Erro interno do servidor. Por favor, tente novamente mais tarde."

  /** The body-driven precedence of status 400: errors, message, short string, generic text. */
  function BadRequestText(body: ErrorBody): string {
    if HasValidationErrors(body) then ValidationText(body.errors.value)
    else if HasBodyMessage(body) then body.message.value
    else if body.Text? && |body.text| < 200 then body.text
    else BadRequestMessage
  }

  /** The message the user is shown for a failed login or registration call. */
  function Message(e: HttpErrorResponse): (r: string)
    // The body is consulted only for a client event or statuses 400, 401 and 500.
    ensures r in {DefaultMessage, BadRequestMessage, UnauthorizedMessage, ServerErrorMessage, e.message}
            || e.body.ClientEvent? || e.status in {400, 401, 500}
  {
    if e.body.ClientEvent? then ClientPrefix + e.body.eventMessage
    else if e.status == 400 then BadRequestText(e.body)
    else if e.status == 401 then (if HasBodyMessage(e.body) then e.body.message.value else UnauthorizedMessage)
    else if e.status == 500 then (if HasBodyMessage(e.body) then e.body.message.value else ServerErrorMessage)
    else if e.message != "" then e.message
    else DefaultMessage
  }

  /** The handler as written: a mutable message, refined branch by branch; one error out. */
  method HandleError(e: HttpErrorResponse) returns (err: ClientError)
    ensures err == Error(Message(e))
  {
    var errorMessage := DefaultMessage;
    if e.body.ClientEvent? {
      errorMessage := ClientPrefix + e.body.eventMessage;
    } else {
      if e.status == 400 {
        if BodyTruthy(e.body) && HasValidationErrors(e.body) {
          var messages := CollectFieldMessages(e.body.errors.value);
          assert messages == FieldTexts(e.body.errors.value);
          errorMessage := ValidationPrefix + Join(messages, " ");
        } else if BodyTruthy(e.body) && HasBodyMessage(e.body) {
          errorMessage := e.body.message.value;
        } else if e.body.Text? && |e.body.text| < 200 {
          errorMessage := e.body.text;
        } else {
          errorMessage := BadRequestMessage;
        }
      } else if e.status == 401 && BodyTruthy(e.body) && HasBodyMessage(e.body) {
        errorMessage := e.body.message.value;
      } else if e.status == 401 {
        errorMessage := UnauthorizedMessage;
      } else if e.status == 500 && BodyTruthy(e.body) && HasBodyMessage(e.body) {
        errorMessage := e.body.message.value;
      } else if e.status == 500 {
        errorMessage := ServerErrorMessage;
      } else if e.message != "" {
        errorMessage := e.message;
      }
    }
    err := Error(errorMessage);
  }

  /** A client-side event wins over every status. */
  lemma ClientEventWins(e: HttpErrorResponse, m: string)
    requires e.body == ClientEvent(m)
    ensures Message(e) == ClientPrefix + m
  {
  }

  /** Status 400: validation errors, then a body message, then a short string, then the generic text. */
  lemma BadRequestPrecedence(e: HttpErrorResponse)
    requires e.status == 400 && !e.body.ClientEvent?
    ensures HasValidationErrors(e.body) ==> Message(e) == ValidationText(e.body.errors.value)
    ensures !HasValidationErrors(e.body) && HasBodyMessage(e.body) ==> Message(e) == e.body.message.value
    ensures e.body.Text? && |e.body.text| < 200 ==> Message(e) == e.body.text
    ensures e.body.Null? || (e.body.Text? && |e.body.text| >= 200)
        || (e.body.Obj? && !HasValidationErrors(e.body) && !HasBodyMessage(e.body))
        ==> Message(e) == BadRequestMessage
  {
  }

  /** A 400 without a body still takes the 400 branch. */
  lemma NullBadRequest(m: string)
    ensures Message(HttpErrorResponse(400, Null, m)) == BadRequestMessage
  {
  }

  /** A 400 string body of 200 characters or more is never shown verbatim. */
  lemma LongTextNeverVerbatim(e: HttpErrorResponse)
    requires e.status == 400 && e.body.Text? && |e.body.text| >= 200
    ensures Message(e) == BadRequestMessage && Message(e) != e.body.text
  {
    assert |BadRequestMessage| < 200;
  }

  /** 401 and 500 prefer the body's message and otherwise use their own text. */
  lemma UnauthorizedAndServerError(e: HttpErrorResponse)
    requires !e.body.ClientEvent?
    ensures e.status == 401 ==> Message(e) == if HasBodyMessage(e.body) then e.body.message.value else UnauthorizedMessage
    ensures e.status == 500 ==> Message(e) == if HasBodyMessage(e.body) then e.body.message.value else ServerErrorMessage
  {
  }

  /** Any other status, 404 included, falls back to the HTTP message, then the default. */
  lemma OtherStatusFallback(e: HttpErrorResponse)
    requires !e.body.ClientEvent? && e.status !in {400, 401, 500}
    ensures Message(e) == if e.message != "" then e.message else DefaultMessage
  {
  }

  /** The only way to show an empty message: a 400 whose body is the empty string. */
  lemma EmptyMessageIff(e: HttpErrorResponse)
    ensures Message(e) == "" <==> e.status == 400 && e.body == Text("")
  {
  }
}
