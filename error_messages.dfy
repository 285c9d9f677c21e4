/**
 * The application's error-code table: the `ErrorMessages` enum, whose constants each carry a
 * fixed integer code given to the constant's constructor and read back by `getErrorCode`.
 */
module ErrorMessages {
  import opened Wrappers

  /** One constructor per enum constant, in declaration order. */
  datatype ErrorMessage =
    | NotFound
    | RequestedCurrencyIsNotValid
    | CoindeskApiServiceFailed
    | UserInputForCurrencyIsNull
    | CoindeskApiJsonIsNotValidAsMentionInDocumentation
    | ResponseBodyOfApiIsEmpty

  /** The constants in declaration order, as the enum's `values()` lists them. */
  const Values: seq<ErrorMessage> := [
    NotFound,
    RequestedCurrencyIsNotValid,
    CoindeskApiServiceFailed,
    UserInputForCurrencyIsNull,
    CoindeskApiJsonIsNotValidAsMentionInDocumentation,
    ResponseBodyOfApiIsEmpty
  ]

  /**
   * `getErrorCode`: the code each constant was constructed with. A datatype value cannot be
   * updated, so the code of a constant is the same at every call.
   */
  function ErrorCode(e: ErrorMessage): (code: int)
    ensures code == 404 <==> e == NotFound
    ensures e != NotFound ==> 5 <= code <= 9
  {
    match e
    case NotFound => 404
    case RequestedCurrencyIsNotValid => 5
    case CoindeskApiServiceFailed => 6
    case UserInputForCurrencyIsNull => 7
    case CoindeskApiJsonIsNotValidAsMentionInDocumentation => 8
    case ResponseBodyOfApiIsEmpty => 9
  }

  /** `name()`: the identifier the constant is declared with (also what `toString` prints). */
  function Name(e: ErrorMessage): (n: string)
    ensures |n| >= 9 && 'A' <= n[0] <= 'Z' && 'A' <= n[|n| - 1] <= 'Z'
  {
    match e
    case NotFound => "NOT_FOUND"
    case RequestedCurrencyIsNotValid => "REQUESTED_CURRENCY_IS_NOT_VALID"
    case CoindeskApiServiceFailed => "COINDESK_API_SERVICE_FAILED"
    case UserInputForCurrencyIsNull => "USER_INPUT_FOR_CURRENCY_IS_NULL"
    case CoindeskApiJsonIsNotValidAsMentionInDocumentation =>
      // the longest name, written in two halves
      "COINDESK_API_JSON_IS_NOT_VALID" + "_AS_MENTION_IN_DOCUMENTATION"
    case ResponseBodyOfApiIsEmpty => "RESPONSE_BODY_OF_API_IS_EMPTY"
  }

  /** Upper-case letters and underscores only, as Java's constant naming convention asks. */
  predicate UpperIdent(n: string)
  {
    forall i :: 0 <= i < |n| ==> 'A' <= n[i] <= 'Z' || n[i] == '_'
  }

  /** Every name is an upper-case identifier. */
  lemma NameIsUpperIdent(e: ErrorMessage)
    ensures UpperIdent(Name(e))
  {
    match e
    case CoindeskApiJsonIsNotValidAsMentionInDocumentation =>
      var front, back := "COINDESK_API_JSON_IS_NOT_VALID", "_AS_MENTION_IN_DOCUMENTATION";
      assert UpperIdent(front) && UpperIdent(back) by { UpperWords(); }
      assert Name(e) == front + back;
    case _ =>
      UpperWords();
  }

  /** The spelled-out names, with the longest one in its two halves. */
  lemma UpperWords()
    ensures UpperIdent("NOT_FOUND")
    ensures UpperIdent("REQUESTED_CURRENCY_IS_NOT_VALID")
    ensures UpperIdent("COINDESK_API_SERVICE_FAILED")
    ensures UpperIdent("USER_INPUT_FOR_CURRENCY_IS_NULL")
    ensures UpperIdent("COINDESK_API_JSON_IS_NOT_VALID")
    ensures UpperIdent("_AS_MENTION_IN_DOCUMENTATION")
    ensures UpperIdent("RESPONSE_BODY_OF_API_IS_EMPTY")
  {
  }

  /** `ordinal()`: the constant's position in declaration order. */
  function Ordinal(e: ErrorMessage): (i: nat)
    ensures i < |Values| && Values[i] == e
  {
    match e
    case NotFound => 0
    case RequestedCurrencyIsNotValid => 1
    case CoindeskApiServiceFailed => 2
    case UserInputForCurrencyIsNull => 3
    case CoindeskApiJsonIsNotValidAsMentionInDocumentation => 4
    case ResponseBodyOfApiIsEmpty => 5
  }

  /** The first constant at or after position `i` of `Values` that satisfies `p`. */
  function FirstFrom(p: ErrorMessage -> bool, i: nat): (r: Option<ErrorMessage>)
    requires i <= |Values|
    ensures r.Some? ==> p(r.value)
    ensures r.None? <==> forall j :: i <= j < |Values| ==> !p(Values[j])
    decreases |Values| - i
  {
    if i == |Values| then None
    else if p(Values[i]) then Some(Values[i])
    else FirstFrom(p, i + 1)
  }

  /** `valueOf(String)`: the constant declared with `name`; None where Java throws IllegalArgumentException. */
  function ValueOf(name: string): (r: Option<ErrorMessage>)
    ensures r.Some? ==> Name(r.value) == name
    ensures r.None? <==> forall e :: Name(e) != name
  {
    var r := FirstFrom(e => Name(e) == name, 0);
    assert r.None? ==> forall e :: Name(e) != name by {
      if r.None? {
        forall e ensures Name(e) != name {
          assert Values[Ordinal(e)] == e;
        }
      }
    }
    r
  }

  /** The constant whose `getErrorCode` is `code`, if any: the inverse of `ErrorCode`. */
  function WithCode(code: int): (r: Option<ErrorMessage>)
    ensures r.Some? ==> ErrorCode(r.value) == code
    ensures r.None? <==> forall e :: ErrorCode(e) != code
  {
    var r := FirstFrom(e => ErrorCode(e) == code, 0);
    assert r.None? ==> forall e :: ErrorCode(e) != code by {
      if r.None? {
        forall e ensures ErrorCode(e) != code {
          assert Values[Ordinal(e)] == e;
        }
      }
    }
    r
  }

  /** NOT_FOUND carries 404, the HTTP status both fetches compare the response code against. */
  lemma NotFoundIs404()
    ensures ErrorCode(NotFound) == 404
  {
  }

  /** After NOT_FOUND, the constants carry 5, 6, 7, 8 and 9 in declaration order. */
  lemma CodesInDeclarationOrder()
    ensures |Values| == 6
    ensures ErrorCode(Values[0]) == 404
    ensures forall i :: 1 <= i < |Values| ==> ErrorCode(Values[i]) == 4 + i
  {
  }

  /** Every constant is listed exactly once. */
  lemma ValuesDistinct()
    ensures forall i, j :: 0 <= i < j < |Values| ==> Values[i] != Values[j]
  {
  }

  /** The six codes are pairwise distinct: `getErrorCode` is injective, so WithCode inverts it. */
  lemma WithCodeInvertsErrorCode(e: ErrorMessage)
    ensures WithCode(ErrorCode(e)) == Some(e)
  {
    var r := WithCode(ErrorCode(e));
    assert r.Some? by {
      assert !(forall e' :: ErrorCode(e') != ErrorCode(e));
    }
  }

  /** Distinct constants have distinct codes. */
  lemma ErrorCodeInjective(a: ErrorMessage, b: ErrorMessage)
    ensures ErrorCode(a) == ErrorCode(b) ==> a == b
  {
  }

  /** `valueOf(name())` is the identity: names are pairwise distinct. */
  lemma ValueOfInvertsName(e: ErrorMessage)
    ensures ValueOf(Name(e)) == Some(e)
  {
    var r := ValueOf(Name(e));
    assert r.Some? by {
      assert !(forall e' :: Name(e') != Name(e));
    }
    NameInjective(r.value, e);
  }

  /** No two constants share a name: the names differ in length or in their first letter. */
  lemma NameInjective(a: ErrorMessage, b: ErrorMessage)
    ensures Name(a) == Name(b) ==> a == b
  {
    if Name(a) == Name(b) {
      assert |Name(a)| == |Name(b)|;
      assert Name(a)[0] == Name(b)[0];
    }
  }
}
