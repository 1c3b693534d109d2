/**
 * The three built-in Angular validators the forms use, over a control value
 * that is a string or null. A validator "passes" when it reports no error.
 */
module FormValidators {
  import opened JsValues

  /** Angular's notion of an empty input: null or the empty string. */
  predicate IsEmptyInput(v: Option<string>) {
    v.None? || v.value == ""
  }

  /** `Validators.required`. */
  predicate Required(v: Option<string>) {
    !IsEmptyInput(v)
  }

  /** `Validators.minLength(n)`: an empty input is left to `required`. */
  predicate MinLength(v: Option<string>, n: nat) {
    IsEmptyInput(v) || |v.value| >= n
  }

  /** `Validators.maxLength(n)`: only a value with a length can fail. */
  predicate MaxLength(v: Option<string>, n: nat) {
    v.None? || |v.value| <= n
  }

  /** The usual triple `required, minLength(lo), maxLength(hi)` is a length window. */
  lemma RequiredWithin(v: Option<string>, lo: nat, hi: nat)
    requires lo > 0
    ensures Required(v) && MinLength(v, lo) && MaxLength(v, hi)
        <==> v.Some? && lo <= |v.value| <= hi
  {
  }
}
