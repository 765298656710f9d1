/**
 * `NotFoundError`: a resource or entity cannot be found. `name` and `code`
 * get defaults, a falsy message is replaced by the not-found template, and
 * everything reaches the base record. The template `generateNotFoundMessage`
 * is not part of this model and is a parameter.
 */
module NotFound {
  import opened Js
  import Common

  const TypeName := "NotFoundError"
  const ParentName := Common.TypeName
  const DefaultCode := "ENOENT"

  /**
   * The constructor up to `super(...)`. The template sees the options without
   * `name` and `code`; a code the caller gave is forwarded as it is.
   */
  method SuperArgs(options: ErrorOptions, generateNotFoundMessage: ErrorOptions -> string)
    returns (args: ErrorOptions)
    ensures args.name == Some(options.name.GetOr(TypeName))
    ensures args.code == Some(options.code.GetOr(DefaultCode))
    ensures IsTruthyString(options.message) ==> args.message == options.message
    ensures !IsTruthyString(options.message) ==>
              args.message == Some(generateNotFoundMessage(options.(name := None, code := None)))
    ensures args.(name := options.name, code := options.code, message := options.message) == options
  {
    var name := options.name.GetOr(TypeName);
    var code := options.code.GetOr(DefaultCode);
    var rest := options.(name := None, code := None);
    rest := rest.(message := Some(OrElse(rest.message, generateNotFoundMessage(rest))));
    args := rest.(name := Some(name), code := Some(code));
  }

  /** `new NotFoundError(options)`: an explicit truthy status wins over the mapped one. */
  method New(options: ErrorOptions, generateNotFoundMessage: ErrorOptions -> string,
             mapErrorToHttpStatus: Option<string> -> int, mapHttpStatusToName: int -> string)
    returns (error: Common.CommonError)
    ensures fresh(error)
    ensures error.name == Some(options.name.GetOr(TypeName))
    ensures error.code == Some(options.code.GetOr(DefaultCode))
    ensures IsTruthyString(options.message) ==> error.message == options.message
    ensures !IsTruthyString(options.message) ==>
              error.message == Some(generateNotFoundMessage(options.(name := None, code := None)))
    ensures IsTruthyNumber(options.status) ==> error.status == options.status.value
    ensures !IsTruthyNumber(options.status) ==> error.status == mapErrorToHttpStatus(error.name)
    ensures error.statusName == mapHttpStatusToName(error.status)
    ensures error.cause == options.cause
  {
    var args := SuperArgs(options, generateNotFoundMessage);
    error := new Common.CommonError(args, mapErrorToHttpStatus, mapHttpStatusToName);
  }
}
