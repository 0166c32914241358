/** The zod field checks the request schemas are built from. Each check
    returns the issues it finds, in the order zod reports them; an empty
    list means the field passes. */
module Schema {
  import opened Http

  /** `key` is present and holds a string of at least `min` characters. */
  predicate HasString(fields: map<string, Json>, key: string, min: nat)
  {
    key in fields && fields[key].JString? && |fields[key].s| >= min
  }

  /** The issues of `key: z.string().min(min)`. */
  function RequiredString(fields: map<string, Json>, key: string, min: nat): (issues: seq<Issue>)
    ensures issues == [] <==> HasString(fields, key, min)
    ensures |issues| <= 1
    ensures forall i :: 0 <= i < |issues| ==> issues[i].path == [key]
  {
    if key !in fields then [Issue([key], Required)]
    else match fields[key]
      case JOther => [Issue([key], ExpectedString)]
      case JString(s) => if |s| < min then [Issue([key], TooShort(min))] else []
  }

  /** The issues of `key: z.string().min(min).optional()`: an absent key passes. */
  function OptionalString(fields: map<string, Json>, key: string, min: nat): (issues: seq<Issue>)
    ensures issues == [] <==> (key in fields ==> HasString(fields, key, min))
    ensures forall i :: 0 <= i < |issues| ==> issues[i].path == [key]
  {
    if key !in fields then [] else RequiredString(fields, key, min)
  }

  /** The issues of `key: z.string().email()`, with the format check itself
      given as `isEmail`. */
  function EmailString(fields: map<string, Json>, key: string, isEmail: string -> bool): (issues: seq<Issue>)
    ensures issues == [] <==> HasString(fields, key, 0) && isEmail(fields[key].s)
    ensures |issues| <= 1
    ensures forall i :: 0 <= i < |issues| ==> issues[i].path == [key]
  {
    if key !in fields then [Issue([key], Required)]
    else match fields[key]
      case JOther => [Issue([key], ExpectedString)]
      case JString(s) => if isEmail(s) then [] else [Issue([key], InvalidEmail)]
  }

  /** What `z.object(...)` reports for a body that is not an object. */
  const NotAnObjectIssues: seq<Issue> := [Issue([], ExpectedObject)]
}
