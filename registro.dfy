/**
 * `RegistroComponent`: the registration form's rules, the password-match
 * group validator (which also edits the `confirmarSenha` control's errors),
 * and `onSubmit` with its two callbacks.
 *
 * Angular keeps the errors of every control; only `confirmarSenha`'s errors
 * can differ from what its own validators say (the group validator overwrites
 * them), so the component keeps those as a field and recomputes the others
 * from the values.
 */
module Registro {
  import opened JsValues
  import opened FormValidators
  import HttpErrors
  import UsuarioService

  /** The value of `registroForm`. */
  datatype RegistroValue = RegistroValue(
    nome: string, email: string, bairroResidencia: string, senha: string,
    confirmarSenha: string, perfil: Option<string>, telefone: string)

  /** A JSON value of the request body. */
  datatype JsonValue = JStr(s: string) | JNull

  const MismatchKey := "mismatch"
  const RequiredKey := "required"
  const RegisterFailedMessage := "Erro ao registrar usuário."

  /** The form as `ngOnInit` builds it. */
  const InitialValue := RegistroValue("", "", "", "", "", None, "")

  /** The own validators of every control but `confirmarSenha` pass. */
  predicate OtherControlsValid(v: RegistroValue, isEmailShaped: string -> bool) {
    var nome, email, bairro := Some(v.nome), Some(v.email), Some(v.bairroResidencia);
    var senha, telefone := Some(v.senha), Some(v.telefone);
    Required(nome) && MinLength(nome, 3) && MaxLength(nome, 100)
    && Required(email) && (IsEmptyInput(email) || isEmailShaped(v.email)) && MaxLength(email, 100)
    && Required(bairro) && MaxLength(bairro, 100)
    && Required(senha) && MinLength(senha, 6) && MaxLength(senha, 100)
    && Required(v.perfil)
    && MaxLength(telefone, 20)
  }

  /** What `Validators.required` leaves on `confirmarSenha`. */
  function ConfirmOwnErrors(confirmarSenha: string): set<string> {
    if confirmarSenha == "" then {RequiredKey} else {}
  }

  /** The registration rules: every field constraint and matching passwords. */
  predicate FormValid(v: RegistroValue, isEmailShaped: string -> bool) {
    OtherControlsValid(v, isEmailShaped) && v.confirmarSenha != "" && v.senha == v.confirmarSenha
  }

  /** The field constraints, one by one. */
  lemma FormValidIff(v: RegistroValue, isEmailShaped: string -> bool)
    ensures FormValid(v, isEmailShaped)
        <==> 3 <= |v.nome| <= 100
             && v.email != "" && isEmailShaped(v.email) && |v.email| <= 100
             && v.bairroResidencia != "" && |v.bairroResidencia| <= 100
             && 6 <= |v.senha| <= 100
             && v.confirmarSenha != ""
             && v.perfil.Some? && v.perfil.value != ""
             && |v.telefone| <= 20
             && v.senha == v.confirmarSenha
  {
    RequiredWithin(Some(v.nome), 3, 100);
    RequiredWithin(Some(v.senha), 6, 100);
  }

  /** `confirmarSenha`'s errors after `passwordMatchValidator`. */
  function MatchErrors(senha: string, confirmarSenha: string, errors: set<string>): set<string> {
    if senha != confirmarSenha then {MismatchKey}
    else if MismatchKey in errors then {}
    else errors
  }

  /**
   * What the control errors can be between validations: a mismatch is the
   * only error while the passwords differ; otherwise at most `required`, and
   * only on an empty confirmation.
   */
  predicate ControlsConsistent(v: RegistroValue, confirmErrors: set<string>, groupMismatch: bool) {
    groupMismatch == (v.senha != v.confirmarSenha)
    && (v.senha != v.confirmarSenha ==> confirmErrors == {MismatchKey})
    && (v.senha == v.confirmarSenha ==>
          confirmErrors <= {RequiredKey} && (RequiredKey in confirmErrors ==> v.confirmarSenha == ""))
  }

  /** `registroForm.invalid`: some control has errors, or the group does. */
  predicate FormInvalid(v: RegistroValue, confirmErrors: set<string>, groupMismatch: bool,
                        isEmailShaped: string -> bool) {
    !OtherControlsValid(v, isEmailShaped) || confirmErrors != {} || groupMismatch
  }

  /** Angular's verdict agrees with the registration rules. */
  lemma InvalidIffRulesBroken(v: RegistroValue, confirmErrors: set<string>, groupMismatch: bool,
                              isEmailShaped: string -> bool)
    requires ControlsConsistent(v, confirmErrors, groupMismatch)
    ensures FormInvalid(v, confirmErrors, groupMismatch, isEmailShaped) <==> !FormValid(v, isEmailShaped)
  {
    if v.senha == v.confirmarSenha && confirmErrors != {} {
      assert RequiredKey in confirmErrors;
    }
  }

  /** The body sent to the API: the form value with `confirmarSenha` removed. */
  function FormJson(v: RegistroValue): map<string, JsonValue> {
    map["nome" := JStr(v.nome), "email" := JStr(v.email), "bairroResidencia" := JStr(v.bairroResidencia),
        "senha" := JStr(v.senha), "confirmarSenha" := JStr(v.confirmarSenha),
        "perfil" := (if v.perfil.Some? then JStr(v.perfil.value) else JNull),
        "telefone" := JStr(v.telefone)]
  }

  function ApiPayload(v: RegistroValue): map<string, JsonValue> {
    FormJson(v) - {"confirmarSenha"}
  }

  /** Exactly `confirmarSenha` is stripped; every other field goes out unchanged. */
  lemma PayloadStripsOnlyConfirmacao(v: RegistroValue)
    ensures "confirmarSenha" in FormJson(v) && "confirmarSenha" !in ApiPayload(v)
    ensures ApiPayload(v).Keys == FormJson(v).Keys - {"confirmarSenha"}
    ensures forall k :: k in ApiPayload(v) ==> ApiPayload(v)[k] == FormJson(v)[k]
    ensures ApiPayload(v).Keys == {"nome", "email", "bairroResidencia", "senha", "perfil", "telefone"}
  {
  }

  /** What the `error` callback of `registrarUsuario` receives: an `Error`, which has no `error` property. */
  datatype Thrown = Thrown(message: string, error: Option<HttpErrors.ErrorBody>)

  /** The `Error` a handler re-throws, as the callback sees it. */
  function AsThrown(err: HttpErrors.ClientError): Thrown {
    Thrown(err.message, None)
  }

  /** `errorResponse.error?.message`. */
  function NestedMessage(t: Thrown): Option<string> {
    if t.error.None? then None
    else if t.error.value.Obj? then t.error.value.message
    else if t.error.value.ClientEvent? then Some(t.error.value.eventMessage)
    else None
  }

  /** The toast text of the `error` callback as written. */
  function ErrorDetailAsWritten(t: Thrown): (r: string)
    ensures r != ""
    ensures r != RegisterFailedMessage ==> NestedMessage(t) == Some(r)
  {
    var m := NestedMessage(t);
    if Truthy(m) then m.value else RegisterFailedMessage
  }

  /** The toast text the callback evidently means: the re-thrown error's message. */
  function ErrorDetail(err: HttpErrors.ClientError): (r: string)
    ensures r != ""
    ensures r == err.message || (err.message == "" && r == RegisterFailedMessage)
  {
    if err.message != "" then err.message else RegisterFailedMessage
  }

  /** As written, the server's reason never reaches the user: the toast is always the generic text. */
  lemma ErrorDetailAsWrittenIsGeneric(h: HttpErrors.HttpErrorResponse)
    ensures ErrorDetailAsWritten(AsThrown(HttpErrors.Error(UsuarioService.Message(h)))) == RegisterFailedMessage
  {
  }

  /** An e-mail already in use: the handler builds the reason, the toast drops it. */
  lemma EmailInUseIsLost()
    ensures var h := HttpErrors.HttpErrorResponse(400, HttpErrors.Obj(None, Some("E-mail já cadastrado.")), "Bad Request");
            UsuarioService.Message(h) == "E-mail já cadastrado."
            && ErrorDetailAsWritten(AsThrown(HttpErrors.Error(UsuarioService.Message(h)))) != UsuarioService.Message(h)
  {
  }

  /** Corrected: the toast shows the handler's message, and the generic text only when that message is empty. */
  lemma ErrorDetailShowsReason(h: HttpErrors.HttpErrorResponse)
    ensures UsuarioService.Message(h) != "" ==> ErrorDetail(HttpErrors.Error(UsuarioService.Message(h))) == UsuarioService.Message(h)
    ensures ErrorDetail(HttpErrors.Error(UsuarioService.Message(h))) == RegisterFailedMessage
        <==> UsuarioService.Message(h) == RegisterFailedMessage || (h.status == 400 && h.body == HttpErrors.Text(""))
  {
    UsuarioService.EmptyMessageIff(h);
  }

  class RegistroComponent {
    var value: RegistroValue
    var confirmarSenhaErrors: set<string>
    var groupMismatch: bool
    var submitted: bool
    var isLoading: bool

    ghost predicate Valid()
      reads this
    {
      ControlsConsistent(value, confirmarSenhaErrors, groupMismatch)
    }

    /** The form of `ngOnInit`, validated once as Angular does on creation. */
    constructor()
      ensures Valid()
      ensures value == InitialValue && confirmarSenhaErrors == {RequiredKey} && !groupMismatch
      ensures !submitted && !isLoading
    {
      value := InitialValue;
      confirmarSenhaErrors := ConfirmOwnErrors("");
      groupMismatch := false;
      submitted := false;
      isLoading := false;
    }

    /** `passwordMatchValidator`: flags and reports a mismatch, or lifts a stale one. */
    method PasswordMatchValidator() returns (result: Option<set<string>>)
      modifies this`confirmarSenhaErrors
      ensures result == if value.senha != value.confirmarSenha then Some({MismatchKey}) else None
      ensures confirmarSenhaErrors == MatchErrors(value.senha, value.confirmarSenha, old(confirmarSenhaErrors))
    {
      if value.senha != value.confirmarSenha {
        confirmarSenhaErrors := {MismatchKey};
        return Some({MismatchKey});
      } else if MismatchKey in confirmarSenhaErrors {
        confirmarSenhaErrors := {};
      }
      return None;
    }

    /**
     * The user edits the form: a changed `confirmarSenha` re-runs its own
     * validator, then the group validator runs.
     */
    method Edit(v: RegistroValue)
      requires Valid()
      modifies this`value, this`confirmarSenhaErrors, this`groupMismatch
      ensures Valid() && value == v
      ensures confirmarSenhaErrors == MatchErrors(v.senha, v.confirmarSenha,
                if v.confirmarSenha != old(value.confirmarSenha) then ConfirmOwnErrors(v.confirmarSenha)
                else old(confirmarSenhaErrors))
    {
      if v.confirmarSenha != value.confirmarSenha {
        confirmarSenhaErrors := ConfirmOwnErrors(v.confirmarSenha);
      }
      value := v;
      var result := PasswordMatchValidator();
      groupMismatch := result.Some?;
    }

    /** `onSubmit`: always marks the attempt; sends the stripped value only when the form is valid. */
    method OnSubmit(isEmailShaped: string -> bool) returns (payload: Option<map<string, JsonValue>>)
      requires Valid()
      modifies this`submitted, this`isLoading
      ensures submitted
      ensures payload.Some? <==> FormValid(value, isEmailShaped)
      ensures if payload.Some? then isLoading && payload.value == ApiPayload(value)
              else isLoading == old(isLoading)
    {
      submitted := true;
      InvalidIffRulesBroken(value, confirmarSenhaErrors, groupMismatch, isEmailShaped);
      if FormInvalid(value, confirmarSenhaErrors, groupMismatch, isEmailShaped) {
        return None;
      }
      isLoading := true;
      payload := Some(ApiPayload(value));
    }

    /** `next` of `registrarUsuario`. */
    method OnRegistroSuccess()
      modifies this`isLoading
      ensures !isLoading
    {
      isLoading := false;
    }

    /** `error` of `registrarUsuario`: loading ends; returns the toast text (corrected). */
    method OnRegistroError(err: HttpErrors.ClientError) returns (detail: string)
      modifies this`isLoading
      ensures !isLoading
      ensures detail == ErrorDetail(err)
    {
      isLoading := false;
      detail := ErrorDetail(err);
    }
  }
}
