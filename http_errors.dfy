/**
 * The shape of a failed HTTP call as the services' `handleError` methods see
 * it (Angular's `HttpErrorResponse`), the error they re-throw, and the
 * formatting of ASP.NET Core ModelState validation errors that every variant
 * of `handleError` shares.
 */
module HttpErrors {
  import opened JsValues

  /** One entry of a ModelState `errors` object: a field and its messages. */
  datatype FieldErrors = FieldErrors(field: string, messages: seq<string>)

  /**
   * `HttpErrorResponse.error`: the response body, or the client-side event.
   * `errors` is the ModelState object in the order `for...in` visits it.
   */
  datatype ErrorBody =
    | ClientEvent(eventMessage: string)
    | Obj(errors: Option<seq<FieldErrors>>, message: Option<string>)
    | Text(text: string)
    | Null

  /** The parts of an `HttpErrorResponse` the handlers read. */
  datatype HttpErrorResponse = HttpErrorResponse(status: int, body: ErrorBody, message: string)

  /** The `Error` object a handler re-throws; components read its `message`. */
  datatype ClientError = Error(message: string)

  const ClientPrefix := "Erro de cliente: "
  const ValidationPrefix := "Erro de validação: "

  /** `error.error` is truthy. */
  predicate BodyTruthy(b: ErrorBody) {
    match b
    case Null => false
    case Text(s) => s != ""
    case _ => true
  }

  /** `error.error.errors` is truthy: any object, even an empty one. */
  predicate HasValidationErrors(b: ErrorBody) {
    b.Obj? && b.errors.Some?
  }

  /** `error.error.message` is truthy; a string body has no `message`. */
  predicate HasBodyMessage(b: ErrorBody) {
    b.Obj? && Truthy(b.message)
  }

  /** `Array.prototype.join(sep)` on an array of strings. */
  function Join(parts: seq<string>, sep: string): string
    decreases |parts|
  {
    if |parts| == 0 then ""
    else if |parts| == 1 then parts[0]
    else parts[0] + sep + Join(parts[1..], sep)
  }

  /** Where the `k`-th part starts inside `Join(parts, sep)`. */
  function JoinOffset(parts: seq<string>, sep: string, k: nat): nat
    requires k <= |parts|
    decreases k
  {
    if k == 0 then 0 else |parts[0]| + |sep| + JoinOffset(parts[1..], sep, k - 1)
  }

  /** `needle` occurs in `hay` at position `p`. */
  predicate OccursAt(needle: string, hay: string, p: nat) {
    p + |needle| <= |hay| && hay[p..p + |needle|] == needle
  }

  /** Every part survives the join verbatim, at its offset. */
  lemma {:induction false} JoinKeepsPart(parts: seq<string>, sep: string, k: nat)
    requires k < |parts|
    ensures OccursAt(parts[k], Join(parts, sep), JoinOffset(parts, sep, k))
  {
    if |parts| == 1 {
    } else if k == 0 {
      var j := Join(parts, sep);
      assert j == parts[0] + (sep + Join(parts[1..], sep));
      assert j[..|parts[0]|] == parts[0];
    } else {
      JoinKeepsPart(parts[1..], sep, k - 1);
      var head := parts[0] + sep;
      var rest := Join(parts[1..], sep);
      var o := JoinOffset(parts[1..], sep, k - 1);
      assert Join(parts, sep) == head + rest;
      assert (head + rest)[|head| + o..|head| + o + |parts[k]|] == rest[o..o + |parts[k]|];
    }
  }

  /** Occurrence is transitive: a piece of a piece is a piece of the whole. */
  lemma OccursWithin(a: string, b: string, c: string, p: nat, q: nat)
    requires OccursAt(a, b, p) && OccursAt(b, c, q)
    ensures OccursAt(a, c, q + p)
  {
    forall i | 0 <= i < |a|
      ensures c[q + p..q + p + |a|][i] == a[i]
    {
      assert c[q + p + i] == c[q..q + |b|][p + i] == b[p + i] == b[p..p + |a|][i];
    }
  }

  /** One text per field: its messages joined by a space (the `push` in the loop). */
  function FieldTexts(errors: seq<FieldErrors>): seq<string> {
    seq(|errors|, i requires 0 <= i < |errors| => Join(errors[i].messages, " "))
  }

  /** The message of the validation branch. */
  function ValidationText(errors: seq<FieldErrors>): string {
    ValidationPrefix + Join(FieldTexts(errors), " ")
  }

  /**
   * The `for...in` loop of every `handleError`: push each field's messages,
   * joined by a space, in iteration order.
   */
  method CollectFieldMessages(errors: seq<FieldErrors>) returns (messages: seq<string>)
    ensures |messages| == |errors|
    ensures forall i :: 0 <= i < |errors| ==> messages[i] == Join(errors[i].messages, " ")
  {
    messages := [];
    var i := 0;
    while i < |errors|
      invariant 0 <= i <= |errors|
      invariant |messages| == i
      invariant forall k :: 0 <= k < i ==> messages[k] == Join(errors[k].messages, " ")
    {
      messages := messages + [Join(errors[i].messages, " ")];
      i := i + 1;
    }
  }

  /** An empty `errors` object yields the bare prefix. */
  lemma EmptyValidationText()
    ensures ValidationText([]) == ValidationPrefix
  {
  }

  /** No validation message is lost: each one appears verbatim in the text. */
  lemma ValidationTextKeepsMessage(errors: seq<FieldErrors>, f: nat, j: nat)
    requires f < |errors| && j < |errors[f].messages|
    ensures exists p: nat :: OccursAt(errors[f].messages[j], ValidationText(errors), p)
  {
    var texts := FieldTexts(errors);
    var m := errors[f].messages[j];
    JoinKeepsPart(errors[f].messages, " ", j);
    var p1 := JoinOffset(errors[f].messages, " ", j);
    JoinKeepsPart(texts, " ", f);
    var p2 := JoinOffset(texts, " ", f);
    OccursWithin(m, texts[f], Join(texts, " "), p1, p2);
    var whole := ValidationText(errors);
    assert OccursAt(Join(texts, " "), whole, |ValidationPrefix|) by {
      assert whole[|ValidationPrefix|..] == Join(texts, " ");
    }
    OccursWithin(m, Join(texts, " "), whole, p2 + p1, |ValidationPrefix|);
  }
}
