# plataforma-oportunidades-ui — a Dafny model of its client-side logic

The portal is an Angular front end over a REST API for job postings (vagas),
courses (cursos) and enrolments (inscrições). This project models the parts of
it that decide something on the client:

- **`AuthService`** (`auth_service.dfy`, module `Auth`). The session is held in
  three `localStorage` keys (`plataforma-auth-token`, `plataforma-auth-user`,
  `plataforma-auth-token-expiration`) plus the in-memory current user. The class
  `AuthService` has the store as a `map<string, string>` field and
  `currentUser` as an `Option`. It covers the constructor's restore, the
  callbacks of `login`, `setSession`, `logout`, `getToken`, `currentUserValue`
  and `isAuthenticated`. Pure functions on the store (`WithSession`,
  `WithoutSession`, `RestoredUser`, `Authenticated`) state what each method
  leaves behind. The lemmas beside them prove the round trip, the idempotent
  logout and the strict expiry boundary.
- **The error-message classifiers** (`handleError`). `UsuarioService` has its
  own variant (`usuario_service.dfy`). `VagasService`, `CursosService` and
  `InscricoesService` share the same code (only their comments differ), so it is defined
  once (`resource_services.dfy`). Each variant has a decision-table function
  `Message` and a method `HandleError` that follows the source branch by
  branch, and the method is proved equal to the table. The ModelState
  validation text (`http_errors.dfy`) is built by a loop, as in the source. A
  lemma proves that every validation message appears verbatim in that text.
- **`InscricoesService.getInscricoes`** (`inscricoes_service.dfy`): which query
  parameters are appended, and in what order.
- **`CursosListComponent`** (`cursos_list.dfy`): the course list's loading
  state, the enrolment modal and the create-course modal as a class. It also
  has both forms' validity rules and the tag colour `getSeverityForModalidade`.
- **`RegistroComponent`** (`registro.dfy`): the registration form's rules, and
  the password-match group validator together with its edits to the
  `confirmarSenha` control's errors. `onSubmit` is modelled with the payload it
  sends, which is the form value without `confirmarSenha`. A lemma proves that
  Angular's `invalid` verdict, which comes from per-control errors, agrees with
  the stated rules.

Each HTTP call is split in two. The method that issues it returns the request
body it would send. The `next` and `error` callbacks are separate methods that
take the answer as a parameter. The clock (`now`, in epoch milliseconds), date
parsing (`parseDate`) and Angular's e-mail pattern (`isEmailShaped`) are
parameters.

The session code is permissive in three ways, and the model keeps them:
- The constructor restores the stored user without looking at the expiry.
- `isAuthenticated` returns false for an expired token but does not log out.
  It logs out only when parsing the expiry throws (its `catch` branch). A
  JavaScript `Date` does not throw on bad input, so an unparseable expiry is
  modelled as a separate `InvalidDate` outcome that simply yields false.
- `getToken` hands out the stored token even after it has expired.

## Model

| member | source | states |
|---|---|---|
| `Auth.AuthService.constructor` | src/app/auth/auth.service.ts:22-32 | The store is taken as it is. The current user is the stored user when the user key holds a non-empty text, and none otherwise. The expiry is not consulted. |
| `Auth.AuthService.SetSession` | src/app/auth/auth.service.ts:65-73 | The token, serialized user and expiration keys are written verbatim. No other key and not the current user changes. |
| `Auth.AuthService.OnLoginReply` | src/app/auth/auth.service.ts:39-63 | A response with token, usuario and expiration all present commits the session and sets the current user to `response.usuario`. Otherwise it fails with 'Resposta de login inválida.'. An upstream error is passed through unchanged. On both failure paths the store and the current user are unchanged. |
| `Auth.AuthService.Logout` | src/app/auth/auth.service.ts:75-81 | Exactly the three session keys are removed, and the current user becomes none. |
| `Auth.AuthService.CurrentUserValue` | src/app/auth/auth.service.ts:34-37 | The getter answers the in-memory user and reads no other field, so the store is not consulted and an expired session's user is still returned. |
| `Auth.AuthService.GetToken` | src/app/auth/auth.service.ts:83-85 | There is a token exactly when the token key is stored, and it is the stored text; only the store is read, so the expiry plays no part. |
| `Auth.AuthService.IsAuthenticated` | src/app/auth/auth.service.ts:87-105 | The answer is `Authenticated` of the prior store. State is unchanged, except that an expiry whose parsing throws logs the user out. |
| `Auth.SessionRoundTrip` | src/app/auth/auth.service.ts:65-85 | After setSession, getToken gives the token and the expiration key gives the expiration. A restart restores the user. Every other key keeps its value. |
| `Auth.LogoutIdempotent` | src/app/auth/auth.service.ts:75-79 | Logging out twice leaves the same store as logging out once. |
| `Auth.LoggedOutIsAnonymous` | src/app/auth/auth.service.ts:75-93 | After logout there is no token and no user to restore, and the user is not authenticated at any time under any parser. Other keys are kept. |
| `Auth.MissingEntryNotAuthenticated` | src/app/auth/auth.service.ts:87-93 | A missing or empty token or expiration is never authenticated. |
| `Auth.ExpiryIsStrict` | src/app/auth/auth.service.ts:95-104 | With both entries present, the user is authenticated iff the expiry parses to an instant strictly after now. An expiry equal to now, an invalid date or a throwing parse all give false. |
| `Auth.AuthenticatedAfterLogin` | src/app/auth/auth.service.ts:65-99 | Right after storing a session, the user is authenticated iff the server's expiration parses to an instant later than now. |
| `Auth.ExpiredSessionStillRestored` | src/app/auth/auth.service.ts:27-99 | For an expired session, a restart still restores the user and getToken still returns the token, while isAuthenticated says false. |
| `Auth.SessionLifecycle` | src/app/auth/auth.service.ts:39-105 | Through the class API: after a complete login the token is handed out, and a restart restores the user. After logging out twice there is no token and no authentication. |
| `HttpErrors.CollectFieldMessages` | src/app/services/usuario.service.ts:61-70 | The `for...in` loop pushes one text per field: its messages joined by a space, in order. |
| `HttpErrors.JoinKeepsPart` | src/app/services/usuario.service.ts:67-70 | `join(sep)` keeps every part verbatim, at a computed offset. |
| `HttpErrors.ValidationTextKeepsMessage` | src/app/services/usuario.service.ts:61-70 | Every message of every field appears verbatim in 'Erro de validação: …'. |
| `HttpErrors.EmptyValidationText` | src/app/services/curso.service.ts:59-67 | An empty `errors` object gives the bare prefix 'Erro de validação: '. |
| `UsuarioService.HandleError` | src/app/services/usuario.service.ts:44-108 | The branch-by-branch handler re-throws exactly one error, whose message is the decision table `Message`. |
| `UsuarioService.Message` | src/app/services/usuario.service.ts:44-108 | The message is one of the fixed texts or the response's own `message`, unless the error is a client event or its status is 400, 401 or 500: only then does the body contribute. |
| `UsuarioService.ClientEventWins` | src/app/services/usuario.service.ts:48-50 | A client-side `ErrorEvent` gives 'Erro de cliente: ' + its message, whatever the status. |
| `UsuarioService.BadRequestPrecedence` | src/app/services/usuario.service.ts:59-82 | For 400 the order is: validation errors, then the body message, then a string under 200 characters, then the generic 400 text. |
| `UsuarioService.NullBadRequest` | src/app/services/usuario.service.ts:59-81 | A 400 with no body still takes the 400 branch and gives the generic 400 text. |
| `UsuarioService.LongTextNeverVerbatim` | src/app/services/usuario.service.ts:74-81 | A 400 string body of 200 characters or more is replaced by the generic text. |
| `UsuarioService.UnauthorizedAndServerError` | src/app/services/usuario.service.ts:83-94 | 401 and 500 give the body's message if present, and otherwise their own fixed texts. |
| `UsuarioService.OtherStatusFallback` | src/app/services/usuario.service.ts:95-97 | Every other status, 404 included, gives `error.message` if non-empty and otherwise the default text. |
| `UsuarioService.EmptyMessageIff` | src/app/services/usuario.service.ts:44-97 | The message is empty iff the status is 400 and the body is the empty string. |
| `ResourceServices.HandleError` | src/app/services/vaga.service.ts:52-93 | The handler shared by the three services re-throws exactly one error, whose message is the decision table `Message`. |
| `ResourceServices.Message` | src/app/services/vaga.service.ts:52-93 | The message is one of the fixed texts or the response's own `message`, unless the error is a client event or a 400 with a truthy body: 401, 404 and 500 ignore the body entirely. |
| `ResourceServices.ClientEventWins` | src/app/services/curso.service.ts:51-52 | A client-side `ErrorEvent` gives 'Erro de cliente: ' + its message. |
| `ResourceServices.BadRequestPrecedence` | src/app/services/vaga.service.ts:61-81 | For 400 with a body the order is: errors, then message, then a string under 200 characters, then 'Erro 400: Solicitação inválida.'. |
| `ResourceServices.EmptyErrorsObject` | src/app/services/curso.service.ts:58-67 | An empty `errors` object still takes the validation branch, giving the bare prefix. |
| `ResourceServices.EmptyBadRequestFallsThrough` | src/app/services/inscricoes.service.ts:82-111 | A 400 with a null or empty body skips the 400 branch and falls through to `error.message` or the default. |
| `ResourceServices.FixedStatusTexts` | src/app/services/curso.service.ts:78-83 | 401, 404 and 500 map to fixed texts whatever the body. |
| `ResourceServices.OtherStatusFallback` | src/app/services/inscricoes.service.ts:109-111 | When no status matches, the result is `error.message` if non-empty, otherwise 'Ocorreu um erro desconhecido!'. |
| `ResourceServices.MessageNeverEmpty` | src/app/services/vaga.service.ts:52-93 | This variant never re-throws an empty message. |
| `InscricoesService.GetInscricoesParams` | src/app/services/inscricoes.service.ts:22-38 | With no filters there are no parameters. A parameter (n, v) is present iff filter n is set to the non-empty value v. Parameters come in the order usuarioId, vagaId, cursoId. |
| `FormValidators.RequiredWithin` | src/app/pages/registro/registro.component.ts:64-71 | `required` + `minLength(lo)` + `maxLength(hi)` accept exactly a value whose length lies in [lo, hi]. |
| `CursosList.InscricaoFormValidIff` | src/app/pages/cursos/cursos-list/cursos-list.component.ts:83-85 | The enrolment form is valid iff `usuarioId` is present with at least 3 characters. |
| `CursosList.CriarCursoFormValidIff` | src/app/pages/cursos/cursos-list/cursos-list.component.ts:87-100 | The create form is valid iff all of these hold: `nome` has 5 to 150 characters; `instituicao` has at most 100 and `cargaHoraria` at most 50; `dataInicio` is set. |
| `CursosList.ToLower` | src/app/pages/cursos/cursos-list/cursos-list.component.ts:223 | `toLowerCase` keeps the length and lower-cases each character. |
| `CursosList.ToLowerIdempotent` | src/app/pages/cursos/cursos-list/cursos-list.component.ts:223 | Lower-casing twice is the same as lower-casing once. |
| `CursosList.SeverityCaseInsensitive` | src/app/pages/cursos/cursos-list/cursos-list.component.ts:221-233 | The tag colour depends only on the lower-cased modality. |
| `CursosList.Severity` | src/app/pages/cursos/cursos-list/cursos-list.component.ts:221-233 | The colour is one of 'success', 'info', 'warning', 'secondary'; it is 'secondary' exactly when the modality is present, non-empty and lower-cases to none of 'online', 'presencial', 'híbrido'. |
| `CursosList.SeverityTable` | src/app/pages/cursos/cursos-list/cursos-list.component.ts:221-233 | An absent or empty modality gives 'info'. 'success' and 'warning' each come from exactly one lower-cased modality; 'info' also comes from 'presencial'. Everything else gives 'secondary'. |
| `CursosList.SeverityOnline` | src/app/pages/cursos/cursos-list/cursos-list.component.ts:72-77 | 'Online' gives 'success'. |
| `CursosList.SeverityPresencial` | src/app/pages/cursos/cursos-list/cursos-list.component.ts:72-77 | 'Presencial' gives 'info'. |
| `CursosList.SeverityHibrido` | src/app/pages/cursos/cursos-list/cursos-list.component.ts:72-77 | 'Híbrido' gives 'warning'. |
| `CursosList.SeverityOutro` | src/app/pages/cursos/cursos-list/cursos-list.component.ts:72-77 | 'Outro' gives 'secondary'. |
| `CursosList.CursosListComponent.constructor` | src/app/pages/cursos/cursos-list/cursos-list.component.ts:49-101 | Initial state: loading, no courses, no error, both modals closed, no course selected, and the forms at their initial values. |
| `CursosList.CursosListComponent.CarregarCursos` | src/app/pages/cursos/cursos-list/cursos-list.component.ts:103-105 | Before the request: loading, with the error cleared. |
| `CursosList.CursosListComponent.OnCursosLoaded` | src/app/pages/cursos/cursos-list/cursos-list.component.ts:107-110 | On success the list becomes the data and loading ends. |
| `CursosList.CursosListComponent.OnCursosLoadFailed` | src/app/pages/cursos/cursos-list/cursos-list.component.ts:111-115 | On error the message becomes `err.message`, or the fallback when that is empty. Loading ends and the list is kept. |
| `CursosList.CursosListComponent.AbrirModalInscricaoCurso` | src/app/pages/cursos/cursos-list/cursos-list.component.ts:120-124 | The course is selected, the form is reset to null and the modal is shown. |
| `CursosList.CursosListComponent.FecharModalInscricaoCurso` | src/app/pages/cursos/cursos-list/cursos-list.component.ts:126-130 | The modal is hidden, no course is selected and submission is cleared. |
| `CursosList.CursosListComponent.OnSubmitInscricaoCurso` | src/app/pages/cursos/cursos-list/cursos-list.component.ts:132-150 | With an invalid form or no course, nothing is sent and the flag is unchanged. Otherwise submitting becomes true and exactly {usuarioId, vagaId: null, cursoId, status: 'Inscrito'} is sent. |
| `CursosList.CursosListComponent.OnInscricaoCreated` | src/app/pages/cursos/cursos-list/cursos-list.component.ts:152-159 | Success closes the modal: no course is selected and submission ends. |
| `CursosList.CursosListComponent.OnInscricaoFailed` | src/app/pages/cursos/cursos-list/cursos-list.component.ts:160-168 | Error clears only the submitting flag. |
| `CursosList.CursosListComponent.AbrirModalCriarCurso` | src/app/pages/cursos/cursos-list/cursos-list.component.ts:173-176 | The create form is reset and the modal is shown. |
| `CursosList.CursosListComponent.FecharModalCriarCurso` | src/app/pages/cursos/cursos-list/cursos-list.component.ts:178-181 | The modal is hidden and submission is cleared. |
| `CursosList.CursosListComponent.OnSubmitCriarCurso` | src/app/pages/cursos/cursos-list/cursos-list.component.ts:183-198 | An invalid form sends nothing. A valid one sets submitting and sends the form value. |
| `CursosList.CursosListComponent.OnCursoCreated` | src/app/pages/cursos/cursos-list/cursos-list.component.ts:199-208 | Success closes the modal and reloads the list (loading, error cleared). |
| `CursosList.CursosListComponent.OnCursoCreateFailed` | src/app/pages/cursos/cursos-list/cursos-list.component.ts:209-216 | Error clears the submitting flag and keeps the modal open. |
| `CursosList.EnrolmentRound` | src/app/pages/cursos/cursos-list/cursos-list.component.ts:120-168 | An enrolment from opening the modal: the exact payload is sent iff the user id has at least 3 characters. Success closes the modal. Failure keeps it open on the same course. |
| `Registro.FormValidIff` | src/app/pages/registro/registro.component.ts:62-98 | The registration rules, one field at a time, plus matching passwords. |
| `Registro.InvalidIffRulesBroken` | src/app/pages/registro/registro.component.ts:62-111 | When the control errors are in a reachable state, Angular's `invalid` holds exactly when the registration rules are broken. |
| `Registro.PayloadStripsOnlyConfirmacao` | src/app/pages/registro/registro.component.ts:131-133 | The payload is the form value with exactly `confirmarSenha` removed, and every other field is kept unchanged. |
| `Registro.ErrorDetailAsWrittenIsGeneric` | src/app/pages/registro/registro.component.ts:147-154 | As written, the error toast is always 'Erro ao registrar usuário.', whatever the server said. |
| `Registro.ErrorDetailAsWritten` | src/app/pages/registro/registro.component.ts:147-154 | The toast as written is never empty, and any text other than 'Erro ao registrar usuário.' is the thrown value's nested `error.message`. |
| `Registro.ErrorDetail` | src/app/pages/registro/registro.component.ts:147-154 | Corrected toast: never empty; it is the re-thrown error's message, or the generic text only when that message is empty. |
| `Registro.EmailInUseIsLost` | src/app/pages/registro/registro.component.ts:147-154 | A concrete 400 whose message the handler passes on, but which the toast drops. |
| `Registro.ErrorDetailShowsReason` | src/app/pages/registro/registro.component.ts:147-154 | Corrected toast: it shows the handler's message whenever that message is non-empty. |
| `Registro.RegistroComponent.constructor` | src/app/pages/registro/registro.component.ts:61-98 | The initial form, validated as Angular does on creation: `confirmarSenha` is required and there is no mismatch. |
| `Registro.RegistroComponent.PasswordMatchValidator` | src/app/pages/registro/registro.component.ts:101-112 | It returns {mismatch} iff the passwords differ, and then marks `confirmarSenha` with exactly the mismatch error. On a match it clears all of that control's errors if one was a mismatch. |
| `Registro.RegistroComponent.Edit` | src/app/pages/registro/registro.component.ts:62-111 | A form edit re-runs `confirmarSenha`'s own validator if it changed, then the group validator. It keeps the control errors consistent. |
| `Registro.RegistroComponent.OnSubmit` | src/app/pages/registro/registro.component.ts:118-135 | `submitted` is always set. Something is sent iff the rules hold. The payload is the stripped value, with loading set; when nothing is sent, loading is unchanged. |
| `Registro.RegistroComponent.OnRegistroSuccess` | src/app/pages/registro/registro.component.ts:136-137 | Loading ends. |
| `Registro.RegistroComponent.OnRegistroError` | src/app/pages/registro/registro.component.ts:147-154 | Loading ends, and the toast shows the error's message (corrected). |

## Findings

| source | as written | input that shows it | evidently intended | confidence | as-written member | corrected member |
|---|---|---|---|---|---|---|
| src/app/pages/registro/registro.component.ts:147-154 | The error toast reads `errorResponse.error?.message`. `registrarUsuario` passes failures through `UsuarioService.handleError`, which re-throws a plain `Error`. An `Error` has no `error` property, so the toast always falls back to 'Erro ao registrar usuário.'. | A 400 whose body is `{message: 'E-mail já cadastrado.'}`: the handler's message is 'E-mail já cadastrado.', but the toast shows the generic text. | Show `errorResponse.message`, as the course list does with `err.message`. | not executed; high (follows from the two files) | `Registro.ErrorDetailAsWrittenIsGeneric` | `Registro.ErrorDetailShowsReason` |

## Left out

- HTTP transport, `HttpClient`, the rxjs `pipe`/`tap`/`catchError` plumbing and URL building are not modelled. Each call is a method that returns the request body, plus callbacks that take the answer.
- The other service operations (`getVagas`, `criarCurso`, `deletarInscricao`, …) only forward to `HttpClient`. They are modelled only through their shared error handler.
- The `BehaviorSubject` broadcast of the current user is not modelled; `currentUser` is a plain field.
- Router navigation on logout and after registration, and the 2-second `setTimeout`, are not modelled.
- PrimeNG toasts, `markAsTouched`/`markAllAsTouched` and `console.error` are not modelled. The one toast text kept is the registration error's, because of the finding above.
- Date parsing and the clock are parameters: `new Date(expiration)` becomes `parseDate`, and `Date.now` becomes `now`.
- `JSON.stringify`/`JSON.parse` of the user: the user is identified with its (non-empty) JSON text. A corrupted stored user, on which `JSON.parse` would throw in the constructor, is not modelled.
- Angular's `Validators.email` pattern is the parameter `isEmailShaped`.
- The `errors` object is given as a sequence already in `for...in` order. A non-array field value, on which `join` would throw, is not modelled.
- `toLowerCase` is modelled for ASCII and the Latin-1 capitals only. String lengths count characters, not UTF-16 code units.
- `Registro.RegistroComponent.PasswordMatchValidator`: the `control.get(...)` null guards are not modelled, because both controls always exist in this form. For the same reason, other controls' errors are computed from their values and not stored.
- The course-creation success toast, which uses `cursoCriado.nome`, is not modelled.
- `login.component.ts`, the routes and their guard, layout and bootstrapping files, and the vagas list page are not part of this model.
- `auth.service.ts` has no observer subscription or disposal, no route guard and no expiry-driven logout, so none is modelled.
