/**
 * The base error record. Its constructor hands the message and the remaining
 * options to the host `Error`, then assigns `name`, `code`, `status` and
 * `statusName` in that order. The status mapper and the status-name mapper
 * live in modules that are not part of this model, so they are parameters.
 */
module Common {
  import opened Js

  const TypeName := "CommonError"

  class CommonError {
    /** What the host `Error` received: the message and every option except `name`. */
    var message: Option<string>
    var hostOptions: ErrorOptions
    /** The host `Error` keeps the `cause` option as its own `cause`. */
    var cause: Option<HostValue>

    var name: Option<string>
    var code: Option<string>
    var status: int
    var statusName: string

    constructor (options: ErrorOptions,
                 mapErrorToHttpStatus: Option<string> -> int,
                 mapHttpStatusToName: int -> string)
      ensures name == options.name
      ensures code == options.code
      ensures message == options.message
      ensures hostOptions == options.(name := None, message := None)
      ensures cause == options.cause
      ensures IsTruthyNumber(options.status) ==> status == options.status.value
      ensures !IsTruthyNumber(options.status) ==> status == mapErrorToHttpStatus(options.name)
      ensures statusName == mapHttpStatusToName(status)
    {
      // { name, message, ...options } = options; super(message, options)
      var rest := options.(name := None, message := None);
      message := options.message;
      hostOptions := rest;
      cause := rest.cause;
      new;

      this.name := options.name;
      this.code := rest.code;

      this.status := if IsTruthyNumber(rest.status) then rest.status.value else mapErrorToHttpStatus(this.name);
      this.statusName := mapHttpStatusToName(this.status);
    }
  }
}
