/** The category form's validation rule: a name of 2 to 50 characters.
    The schema chains three length checks; every failing check reports its
    message, in chain order, and the form shows the first one. */
module CategorySchema {
  import opened Common

  const RequiredMessage := "Category name is required"
  const TooShortMessage := "Category name must be at least 2 characters"
  const TooLongMessage := "Category name must be less than 50 characters"

  const MinLength := 2
  const MaxLength := 50

  /** The messages of all failing checks, in the order the schema lists them. */
  function Issues(name: string): (issues: seq<string>)
    ensures issues == [] <==> MinLength <= |name| <= MaxLength
    ensures |name| == 0 ==> issues == [RequiredMessage, TooShortMessage]
    ensures |name| == 1 ==> issues == [TooShortMessage]
    ensures |name| > MaxLength ==> issues == [TooLongMessage]
  {
    (if |name| < 1 then [RequiredMessage] else [])
    + (if |name| < 2 then [TooShortMessage] else [])
    + (if |name| > 50 then [TooLongMessage] else [])
  }

  /** The field error the form displays, if any. */
  function FirstError(name: string): (e: Option<string>)
    ensures e == None <==> MinLength <= |name| <= MaxLength
    ensures name == "" ==> e == Some(RequiredMessage)
    ensures |name| == 1 ==> e == Some(TooShortMessage)
    ensures |name| > MaxLength ==> e == Some(TooLongMessage)
  {
    var issues := Issues(name);
    if issues == [] then None else Some(issues[0])
  }

  /** Validation looks at the length of the name and nothing else. */
  lemma OnlyLengthMatters(a: string, b: string)
    requires |a| == |b|
    ensures Issues(a) == Issues(b) && FirstError(a) == FirstError(b)
  {
  }
}
