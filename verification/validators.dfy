/**
  The Mongoose validators that the Meal and Recipe schemas declare, each applied
  to one path:
  - `required` fails on a missing value, and on a string also on the empty string;
  - `min`, `maxlength` and `enum` let a missing value pass;
  - a path reports only its first failing validator, and `required` always runs first.
  A failed save reports every failing path in one `ValidationError` message.
*/
module Validators {
  import opened Js

  /** One failing path of a document: which path, and the message of its first failing validator. */
  datatype FieldError<P> = FieldError(path: P, message: string)

  /** The `trim` setter on an optional string. */
  function TrimmedOpt(v: Option<string>): (r: Option<string>)
    ensures r.Some? <==> v.Some?
    ensures v.Some? ==> |r.value| <= |v.value|
    ensures v.Some? ==> (r.value == "" <==> forall k :: 0 <= k < |v.value| ==> IsWhitespace(v.value[k]))
    ensures v.Some? ==> r == Some(Trim(v.value))
  {
    if v.Some? then Some(Trim(v.value)) else None
  }

  /** `required` on a String path. */
  function RequiredText(v: Option<string>, message: string): Option<string>
  {
    if TruthyString(v) then None else Some(message)
  }

  /** `required` then `min` on a Number path. */
  function RequiredAtLeast(v: Option<real>, least: real, requiredMessage: string, minMessage: string): Option<string>
  {
    if v.None? then Some(requiredMessage)
    else if v.value < least then Some(minMessage)
    else None
  }

  /** `min` alone on a Number path. */
  function AtLeast(v: Option<real>, least: real, message: string): Option<string>
  {
    if v.Some? && v.value < least then Some(message) else None
  }

  /** `maxlength` on a String path. */
  function MaxLength(v: Option<string>, most: nat, message: string): Option<string>
  {
    if v.Some? && |v.value| > most then Some(message) else None
  }

  /**
    A custom `v.length > 0` validator on an array path. `required` never fails
    on an array path, because a missing array defaults to the empty one.
  */
  function NonEmptyList(v: seq<string>, message: string): Option<string>
  {
    if |v| > 0 then None else Some(message)
  }

  /** The default message of a failed `enum` validator. */
  function EnumMessage(value: string, path: string): string
  {
    "`" + value + "` is not a valid enum value for path `" + path + "`."
  }

  /** `enum` on a String path. */
  function OneOf(v: Option<string>, values: seq<string>, path: string): Option<string>
  {
    if v.Some? && v.value !in values then Some(EnumMessage(v.value, path)) else None
  }

  /** The first failure of two validators declared on one path. */
  function FirstOf(first: Option<string>, second: Option<string>): Option<string>
  {
    if first.Some? then first else second
  }

  /** The error list entry of one path: empty when its validators pass. */
  function At<P>(path: P, failure: Option<string>): seq<FieldError<P>>
  {
    if failure.Some? then [FieldError(path, failure.value)] else []
  }

  /** `items` separated by ", ". */
  function JoinComma(items: seq<string>): string
    decreases |items|
  {
    if items == [] then ""
    else if |items| == 1 then items[0]
    else items[0] + ", " + JoinComma(items[1..])
  }

  /** The message of a `ValidationError`: `<Model> validation failed: ` then one "path: message" item per failing path. */
  function ValidationMessage(model: string, items: seq<string>): string
  {
    model + " validation failed: " + JoinComma(items)
  }
}
