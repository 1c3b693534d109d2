/**
 * `CursosListComponent`: loading the course list, the enrolment modal, the
 * create-course modal, their form rules and the modality tag colour. Each HTTP
 * call is split into the method that issues it (returning what is sent) and
 * the `next`/`error` callbacks, which take the answer as a parameter.
 */
module CursosList {
  import opened JsValues
  import opened FormValidators
  import HttpErrors

  /** The `Curso` record the list shows. */
  datatype Curso = Curso(
    id: string, nome: string, instituicao: Option<string>, cargaHoraria: Option<string>,
    modalidade: Option<string>, dataInicio: string,
    focadoEmSustentabilidade: Option<bool>, impactoComunitario: Option<string>)

  /** The value of `criarCursoForm`; `dataInicio` is the calendar's instant. */
  datatype CriarCursoValue = CriarCursoValue(
    nome: Option<string>, instituicao: Option<string>, cargaHoraria: Option<string>,
    modalidade: Option<string>, dataInicio: Option<int>)

  /** The enrolment sent to `criarInscricao`. */
  datatype InscricaoPayload = InscricaoPayload(
    usuarioId: string, vagaId: Option<string>, cursoId: string, status: string)

  const LoadFailedMessage := "Não foi possível carregar os cursos."
  const InscritoStatus := "Inscrito"

  /** `inscricaoCursoForm` is valid: `usuarioId` required, at least 3 characters. */
  predicate InscricaoFormValid(usuarioId: Option<string>) {
    Required(usuarioId) && MinLength(usuarioId, 3)
  }

  /** `criarCursoForm` is valid. */
  predicate CriarCursoFormValid(v: CriarCursoValue) {
    Required(v.nome) && MinLength(v.nome, 5) && MaxLength(v.nome, 150)
    && MaxLength(v.instituicao, 100) && MaxLength(v.cargaHoraria, 50)
    && v.dataInicio.Some?
  }

  /** The empty create form, as `reset()` leaves it. */
  const EmptyCriarCurso := CriarCursoValue(None, None, None, None, None)

  /** The enrolment form accepts exactly an id of three characters or more. */
  lemma InscricaoFormValidIff(usuarioId: Option<string>)
    ensures InscricaoFormValid(usuarioId) <==> usuarioId.Some? && |usuarioId.value| >= 3
  {
  }

  /** The create form accepts exactly these values. */
  lemma CriarCursoFormValidIff(v: CriarCursoValue)
    ensures CriarCursoFormValid(v)
        <==> v.nome.Some? && 5 <= |v.nome.value| <= 150
             && (v.instituicao.None? || |v.instituicao.value| <= 100)
             && (v.cargaHoraria.None? || |v.cargaHoraria.value| <= 50)
             && v.dataInicio.Some?
  {
    RequiredWithin(v.nome, 5, 150);
  }

  /** `toLowerCase` on one character: ASCII and the Latin-1 capitals. */
  function LowerChar(c: char): char {
    if 'A' <= c <= 'Z' || ('À' <= c <= 'Þ' && c != '×') then (c as int + 32) as char
    else c
  }

  /** `toLowerCase`, character by character. */
  function ToLower(s: string): (r: string)
    ensures |r| == |s|
    ensures forall i :: 0 <= i < |s| ==> r[i] == LowerChar(s[i])
    decreases |s|
  {
    if s == [] then [] else [LowerChar(s[0])] + ToLower(s[1..])
  }

  /** Lower-casing twice changes nothing more. */
  lemma ToLowerIdempotent(s: string)
    ensures ToLower(ToLower(s)) == ToLower(s)
  {
  }

  /** `getSeverityForModalidade`. */
  function Severity(modalidade: Option<string>): (r: string)
    ensures r in {"success", "info", "warning", "secondary"}
    ensures r == "secondary"
        <==> Truthy(modalidade) && ToLower(modalidade.value) !in {"online", "presencial", "híbrido"}
  {
    if !Truthy(modalidade) then "info"
    else
      var m := ToLower(modalidade.value);
      if m == "online" then "success"
      else if m == "presencial" then "info"
      else if m == "híbrido" then "warning"
      else "secondary"
  }

  /** The tag colour depends only on the lower-cased modality. */
  lemma SeverityCaseInsensitive(s: string)
    ensures Severity(Some(s)) == Severity(Some(ToLower(s)))
  {
    ToLowerIdempotent(s);
  }

  /** Exactly four colours, each chosen by its own modality. */
  lemma SeverityTable(modalidade: Option<string>)
    ensures Severity(modalidade) in {"success", "info", "warning", "secondary"}
    ensures !Truthy(modalidade) ==> Severity(modalidade) == "info"
    ensures Truthy(modalidade) ==>
      (Severity(modalidade) == "success" <==> ToLower(modalidade.value) == "online")
      && (Severity(modalidade) == "warning" <==> ToLower(modalidade.value) == "híbrido")
      && (Severity(modalidade) == "info" <==> ToLower(modalidade.value) == "presencial")
  {
  }

  /** The four modalities the create form offers, one colour each. */
  lemma SeverityOnline()
    ensures Severity(Some("Online")) == "success"
  {
    assert ToLower("Online") == "online";
  }

  lemma SeverityPresencial()
    ensures Severity(Some("Presencial")) == "info"
  {
    assert ToLower("Presencial") == "presencial";
  }

  lemma SeverityHibrido()
    ensures Severity(Some("Híbrido")) == "warning"
  {
    assert ToLower("Híbrido") == "híbrido";
  }

  lemma SeverityOutro()
    ensures Severity(Some("Outro")) == "secondary"
  {
    assert ToLower("Outro") == "outro";
  }

  class CursosListComponent {
    var cursos: seq<Curso>
    var isLoading: bool
    var errorMessage: Option<string>

    var displayInscricaoCursoModal: bool
    var inscricaoUsuarioId: Option<string>
    var selectedCursoId: Option<string>
    var isSubmittingInscricaoCurso: bool

    var displayCriarCursoModal: bool
    var criarCurso: CriarCursoValue
    var isSubmittingCriarCurso: bool

    /** The field initialisers and the forms `ngOnInit` builds. */
    constructor()
      ensures cursos == [] && isLoading && errorMessage == None
      ensures !displayInscricaoCursoModal && inscricaoUsuarioId == Some("")
      ensures selectedCursoId == None && !isSubmittingInscricaoCurso
      ensures !displayCriarCursoModal && !isSubmittingCriarCurso
      ensures criarCurso == CriarCursoValue(Some(""), Some(""), Some(""), None, None)
    {
      cursos := [];
      isLoading := true;
      errorMessage := None;
      displayInscricaoCursoModal := false;
      inscricaoUsuarioId := Some("");
      selectedCursoId := None;
      isSubmittingInscricaoCurso := false;
      displayCriarCursoModal := false;
      criarCurso := CriarCursoValue(Some(""), Some(""), Some(""), None, None);
      isSubmittingCriarCurso := false;
    }

    /** `carregarCursos` up to the request: loading, no error. */
    method CarregarCursos()
      modifies this`isLoading, this`errorMessage
      ensures isLoading && errorMessage == None
    {
      isLoading := true;
      errorMessage := None;
    }

    /** `next` of `getCursos`. */
    method OnCursosLoaded(data: seq<Curso>)
      modifies this`cursos, this`isLoading
      ensures cursos == data && !isLoading
    {
      cursos := data;
      isLoading := false;
    }

    /** `error` of `getCursos`: the error's message, or a fallback; the list is kept. */
    method OnCursosLoadFailed(err: HttpErrors.ClientError)
      modifies this`errorMessage, this`isLoading
      ensures errorMessage == Some(if err.message != "" then err.message else LoadFailedMessage)
      ensures !isLoading
    {
      errorMessage := Some(if err.message != "" then err.message else LoadFailedMessage);
      isLoading := false;
    }

    /** `abrirModalInscricaoCurso`: remember the course, clear the form, show the modal. */
    method AbrirModalInscricaoCurso(cursoId: string)
      modifies this`selectedCursoId, this`inscricaoUsuarioId, this`displayInscricaoCursoModal
      ensures selectedCursoId == Some(cursoId) && inscricaoUsuarioId == None
      ensures displayInscricaoCursoModal
    {
      selectedCursoId := Some(cursoId);
      inscricaoUsuarioId := None;
      displayInscricaoCursoModal := true;
    }

    /** `fecharModalInscricaoCurso`. */
    method FecharModalInscricaoCurso()
      modifies this`displayInscricaoCursoModal, this`selectedCursoId, this`isSubmittingInscricaoCurso
      ensures !displayInscricaoCursoModal && selectedCursoId == None && !isSubmittingInscricaoCurso
    {
      displayInscricaoCursoModal := false;
      selectedCursoId := None;
      isSubmittingInscricaoCurso := false;
    }

    /** `onSubmitInscricaoCurso`: sends the enrolment only for a valid form and a chosen course. */
    method OnSubmitInscricaoCurso() returns (sent: Option<InscricaoPayload>)
      modifies this`isSubmittingInscricaoCurso
      ensures if InscricaoFormValid(inscricaoUsuarioId) && Truthy(selectedCursoId) then
                isSubmittingInscricaoCurso
                && sent == Some(InscricaoPayload(inscricaoUsuarioId.value, None, selectedCursoId.value, InscritoStatus))
              else
                sent == None && isSubmittingInscricaoCurso == old(isSubmittingInscricaoCurso)
    {
      if !InscricaoFormValid(inscricaoUsuarioId) || !Truthy(selectedCursoId) {
        return None;
      }
      isSubmittingInscricaoCurso := true;
      sent := Some(InscricaoPayload(inscricaoUsuarioId.value, None, selectedCursoId.value, InscritoStatus));
    }

    /** `next` of `criarInscricao`: close the modal. */
    method OnInscricaoCreated()
      modifies this`displayInscricaoCursoModal, this`selectedCursoId, this`isSubmittingInscricaoCurso
      ensures !displayInscricaoCursoModal && selectedCursoId == None && !isSubmittingInscricaoCurso
    {
      FecharModalInscricaoCurso();
    }

    /** `error` of `criarInscricao`: only the submitting flag drops. */
    method OnInscricaoFailed()
      modifies this`isSubmittingInscricaoCurso
      ensures !isSubmittingInscricaoCurso
    {
      isSubmittingInscricaoCurso := false;
    }

    /** `abrirModalCriarCurso`. */
    method AbrirModalCriarCurso()
      modifies this`criarCurso, this`displayCriarCursoModal
      ensures criarCurso == EmptyCriarCurso && displayCriarCursoModal
    {
      criarCurso := EmptyCriarCurso;
      displayCriarCursoModal := true;
    }

    /** `fecharModalCriarCurso`. */
    method FecharModalCriarCurso()
      modifies this`displayCriarCursoModal, this`isSubmittingCriarCurso
      ensures !displayCriarCursoModal && !isSubmittingCriarCurso
    {
      displayCriarCursoModal := false;
      isSubmittingCriarCurso := false;
    }

    /** `onSubmitCriarCurso`: sends the form value only when the form is valid. */
    method OnSubmitCriarCurso() returns (sent: Option<CriarCursoValue>)
      modifies this`isSubmittingCriarCurso
      ensures if CriarCursoFormValid(criarCurso) then isSubmittingCriarCurso && sent == Some(criarCurso)
              else sent == None && isSubmittingCriarCurso == old(isSubmittingCriarCurso)
    {
      if !CriarCursoFormValid(criarCurso) {
        return None;
      }
      isSubmittingCriarCurso := true;
      sent := Some(criarCurso);
    }

    /** `next` of `criarCurso`: close the modal and reload the list. */
    method OnCursoCreated()
      modifies this`displayCriarCursoModal, this`isSubmittingCriarCurso, this`isLoading, this`errorMessage
      ensures !displayCriarCursoModal && !isSubmittingCriarCurso
      ensures isLoading && errorMessage == None
    {
      FecharModalCriarCurso();
      CarregarCursos();
    }

    /** `error` of `criarCurso`: the modal stays open. */
    method OnCursoCreateFailed()
      modifies this`isSubmittingCriarCurso
      ensures !isSubmittingCriarCurso
    {
      isSubmittingCriarCurso := false;
    }
  }

  /**
   * An enrolment end to end: open the modal for a course, type the user id,
   * submit; the exact payload goes out, and success closes the modal while
   * failure leaves it open on the same course.
   */
  method EnrolmentRound(cursoId: string, usuarioId: string, succeeds: bool)
    returns (sent: Option<InscricaoPayload>, modalOpen: bool, selected: Option<string>, submitting: bool)
    requires cursoId != ""
    ensures |usuarioId| >= 3 ==> sent == Some(InscricaoPayload(usuarioId, None, cursoId, InscritoStatus))
    ensures |usuarioId| < 3 ==> sent == None && modalOpen && selected == Some(cursoId)
    ensures sent.Some? && succeeds ==> !modalOpen && selected == None && !submitting
    ensures sent.Some? && !succeeds ==> modalOpen && selected == Some(cursoId) && !submitting
  {
    var page := new CursosListComponent();
    page.AbrirModalInscricaoCurso(cursoId);
    page.inscricaoUsuarioId := Some(usuarioId);
    InscricaoFormValidIff(page.inscricaoUsuarioId);
    sent := page.OnSubmitInscricaoCurso();
    if sent.Some? {
      if succeeds {
        page.OnInscricaoCreated();
      } else {
        page.OnInscricaoFailed();
      }
    }
    modalOpen := page.displayInscricaoCursoModal;
    selected := page.selectedCursoId;
    submitting := page.isSubmittingInscricaoCurso;
  }
}
