/**
 * The slice of JavaScript value semantics that the error constructors rely on:
 * optional values (a key that is absent or `undefined`), truthiness as used by
 * `||`, template-literal interpolation, exceptions, and the options bag that
 * every constructor receives and reshapes before calling its parent.
 */
module Js {

  /** A possibly-undefined value: `None` is a key that is absent or holds `undefined`. */
  datatype Option<+T> = None | Some(value: T) {

    /** Destructuring with a default (`{ name = myName }`): the default replaces `undefined` only. */
    function GetOr(default: T): T {
      match this
      case Some(v) => v
      case None => default
    }
  }

  /** Exceptions the modelled code can raise. */
  datatype Exception = TypeError

  /** The outcome of evaluating JavaScript code: a value, or an exception it threw. */
  datatype Result<+T> = Ok(value: T) | Throws(error: Exception)

  /** A value the constructors pass along without ever inspecting it (a `cause`, an unknown option). */
  datatype HostValue = HostValue(ref: nat)

  /** `s` used as the left operand of `||` is truthy: defined and not the empty string. */
  predicate IsTruthyString(s: Option<string>) {
    s.Some? && s.value != ""
  }

  /** A numeric `status` is truthy: defined and not 0. */
  predicate IsTruthyNumber(n: Option<int>) {
    n.Some? && n.value != 0
  }

  /** `left || right` over strings: the left operand when truthy, else the right one. */
  function OrElse(left: Option<string>, right: string): (r: string)
    ensures IsTruthyString(left) ==> r == left.value
    ensures !IsTruthyString(left) ==> r == right
  {
    if IsTruthyString(left) then left.value else right
  }

  /** `${s}` inside a template literal: an undefined value prints as "undefined". */
  function Interpolate(s: Option<string>): string {
    match s
    case Some(v) => v
    case None => "undefined"
  }

  /**
   * The options bag handed to an error constructor. Each known key is `None`
   * when the caller left it out (or set it to `undefined`); `others` holds every
   * further key the caller supplied, which the constructors forward untouched.
   * A known key never appears in `others`: each JavaScript key has one value.
   */
  datatype ErrorOptions = ErrorOptions(
    name: Option<string>,
    message: Option<string>,
    status: Option<int>,
    code: Option<string>,
    cause: Option<HostValue>,
    service: Option<string>,
    issue: Option<string>,
    target: Option<string>,
    resource: Option<string>,
    others: map<string, HostValue>)

  /** `{}`: what a constructor called without an argument destructures. */
  const NoOptions := ErrorOptions(None, None, None, None, None, None, None, None, None, map[])
}
