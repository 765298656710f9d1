/**
 * `ExternalServiceError`: an error with a remote service. Its constructor
 * merges the caller's `defaults` over `{ service: '' }`, generates a message
 * unless the caller gave a truthy one, and forwards `name` and `service` to
 * the base record. Whether a parameter appears in the message is decided by
 * `includeParameterInMessage`, which is not part of this model and is a parameter.
 */
module ExternalService {
  import opened Js
  import Common

  const TypeName := "ExternalServiceError"
  const ParentName := Common.TypeName
  const DefaultService := ""

  /** A `defaults` object: a present key maps to its value (`None` for an explicit `undefined`). */
  type Defaults = map<string, Option<string>>

  /** The verdict of `includeParameterInMessage(name, options) === true`. */
  type Inclusion = (string, ErrorOptions) -> bool

  /** `Object.assign({}, { service: '' }, defaults)`: the caller's keys win, one by one. */
  function MergeDefaults(callerDefaults: Defaults): (merged: Defaults)
    ensures merged.Keys == callerDefaults.Keys + {"service"}
    ensures forall k :: k in callerDefaults ==> merged[k] == callerDefaults[k]
    ensures "service" !in callerDefaults ==> merged["service"] == Some(DefaultService)
  {
    map["service" := Some(DefaultService)] + callerDefaults
  }

  /** `defaults.service`: undefined when the key is missing. */
  function DefaultsService(defaults: Defaults): Option<string> {
    if "service" in defaults then defaults["service"] else None
  }

  /** The service the message names: the option when it is included, else the default. */
  function ChosenService(options: ErrorOptions, defaults: Defaults, includeParameter: Inclusion): Option<string> {
    if includeParameter("service", options) then options.service else DefaultsService(defaults)
  }

  /** The service followed by one space, or nothing when the service is empty. */
  function ServicePrefix(service: string): (prefix: string)
    ensures service == "" ==> prefix == ""
    ensures service != "" ==> |prefix| == |service| + 1 && prefix[..|service|] == service && prefix[|service|] == ' '
  {
    if |service| > 0 then service + " " else service
  }

  /**
   * `generateMessage(errorType, options, defaults)`. Reading `.length` of an
   * undefined service throws, which happens only when the service is not
   * included and `defaults.service` is undefined.
   */
  function GenerateMessage(errorType: Option<string>, options: ErrorOptions, defaults: Defaults,
                           includeParameter: Inclusion): (r: Result<string>)
    ensures r.Throws? <==> ChosenService(options, defaults, includeParameter).None?
    ensures r.Ok? && includeParameter("issue", options) ==>
              r.value == "The remote " + ServicePrefix(ChosenService(options, defaults, includeParameter).value)
                         + "service " + Interpolate(options.issue) + "."
    ensures r.Ok? && !includeParameter("issue", options) ==>
              r.value == "There was " + OrElse(errorType, "an") + " error with the remote "
                         + ServicePrefix(ChosenService(options, defaults, includeParameter).value) + "service."
  {
    var issue := options.issue;
    var showIssue := includeParameter("issue", options);
    var service := if includeParameter("service", options) then options.service else DefaultsService(defaults);
    match service
    case None => Throws(TypeError)
    case Some(s) =>
      var svc := if |s| > 0 then s + " " else s;
      if showIssue then
        Ok("The remote " + svc + "service " + Interpolate(issue) + ".")
      else
        Ok("There was " + OrElse(errorType, "an") + " error with the remote " + svc + "service.")
  }

  /** Every generated message is truthy, so a second construction keeps it. */
  lemma GeneratedMessageIsTruthy(errorType: Option<string>, options: ErrorOptions, defaults: Defaults,
                                 includeParameter: Inclusion)
    requires GenerateMessage(errorType, options, defaults, includeParameter).Ok?
    ensures IsTruthyString(Some(GenerateMessage(errorType, options, defaults, includeParameter).value))
  {
  }

  /**
   * An empty service leaves no gap: the sentence reads "remote service" with a
   * single space, and the default `errorType` reads "an".
   */
  lemma EmptyServiceHasNoDoubleSpace(options: ErrorOptions, includeParameter: Inclusion)
    requires includeParameter("service", options) && options.service == Some("")
    requires !includeParameter("issue", options)
    ensures GenerateMessage(None, options, MergeDefaults(map[]), includeParameter)
              == Ok("There was an error with the remote service.")
  {
    var m := GenerateMessage(None, options, MergeDefaults(map[]), includeParameter);
    assert m.value == "There was " + "an" + " error with the remote " + "" + "service.";
    IssueLessOpening();
    assert "There was an error with the remote " + "" == "There was an error with the remote ";
    assert "There was an error with the remote " + "service." == "There was an error with the remote service.";
  }

  /**
   * With a named service and no issue, the service sits between "remote" and
   * "service" (the constructor's doc example places it elsewhere).
   */
  lemma NamedServiceExample(options: ErrorOptions, includeParameter: Inclusion)
    requires includeParameter("service", options) && options.service == Some("Foo API")
    requires !includeParameter("issue", options)
    ensures GenerateMessage(None, options, MergeDefaults(map[]), includeParameter)
              == Ok("There was an error with the remote Foo API service.")
  {
    var m := GenerateMessage(None, options, MergeDefaults(map[]), includeParameter);
    assert ServicePrefix("Foo API") == "Foo API ";
    assert m.value == "There was " + "an" + " error with the remote " + "Foo API " + "service.";
    IssueLessOpening();
    assert "There was an error with the remote " + "Foo API " == "There was an error with the remote Foo API ";
    assert "There was an error with the remote Foo API " + "service."
      == "There was an error with the remote Foo API service.";
  }

  /**
   * With a named service and an issue, the service also comes before "service"
   * (the constructor's doc example places it after).
   */
  lemma NamedServiceWithIssueExample(options: ErrorOptions, includeParameter: Inclusion)
    requires includeParameter("service", options) && options.service == Some("Foo API")
    requires includeParameter("issue", options) && options.issue == Some("is not responding")
    ensures GenerateMessage(None, options, MergeDefaults(map[]), includeParameter)
              == Ok("The remote Foo API service is not responding.")
  {
    var m := GenerateMessage(None, options, MergeDefaults(map[]), includeParameter);
    assert ServicePrefix("Foo API") == "Foo API ";
    assert m.value == "The remote " + "Foo API " + "service " + "is not responding" + ".";
    assert "The remote " + "Foo API " == "The remote Foo API ";
    assert "The remote Foo API " + "service " == "The remote Foo API service ";
    assert "The remote Foo API service " + "is not responding" == "The remote Foo API service is not responding";
    assert "The remote Foo API service is not responding" + "." == "The remote Foo API service is not responding.";
  }

  /** The opening words of the sentence without an issue, with the default `errorType`. */
  lemma IssueLessOpening()
    ensures "There was " + "an" + " error with the remote " == "There was an error with the remote "
  {
  }

  /**
   * The constructor up to `super(...)`: the options it hands to the base record.
   * It throws only when it must generate a message and the generator throws.
   */
  method SuperArgs(options: ErrorOptions, callerDefaults: Defaults, includeParameter: Inclusion)
    returns (r: Result<ErrorOptions>)
    ensures r.Ok? ==> r.value.name == Some(options.name.GetOr(TypeName))
    ensures r.Ok? ==> r.value.service == Some(options.service.GetOr(DefaultService))
    ensures IsTruthyString(options.message) ==> r.Ok? && r.value.message == options.message
    ensures !IsTruthyString(options.message) ==>
              var generated := GenerateMessage(None, options.(name := None, service := Some(options.service.GetOr(DefaultService))),
                                               MergeDefaults(callerDefaults), includeParameter);
              (r.Throws? <==> generated.Throws?) && (r.Ok? ==> r.value.message == Some(generated.value))
    ensures r.Ok? ==> r.value.(name := options.name, service := options.service, message := options.message) == options
  {
    var defaults := MergeDefaults(callerDefaults);
    var name := options.name.GetOr(TypeName);
    var service := options.service.GetOr(DefaultService);
    var rest := options.(name := None, service := None);
    if !IsTruthyString(rest.message) {
      var generated := GenerateMessage(None, rest.(service := Some(service)), defaults, includeParameter);
      if generated.Throws? {
        return Throws(generated.error);
      }
      rest := rest.(message := Some(generated.value));
    }
    r := Ok(rest.(name := Some(name), service := Some(service)));
  }

  /** `new ExternalServiceError(options, defaults)`: the base record built from the forwarded options. */
  method New(options: ErrorOptions, callerDefaults: Defaults, includeParameter: Inclusion,
             mapErrorToHttpStatus: Option<string> -> int, mapHttpStatusToName: int -> string)
    returns (r: Result<Common.CommonError>)
    ensures r.Ok? ==> fresh(r.value)
    ensures r.Ok? ==> r.value.name == Some(options.name.GetOr(TypeName))
    ensures IsTruthyString(options.message) ==> r.Ok? && r.value.message == options.message
    ensures !IsTruthyString(options.message) ==>
              var generated := GenerateMessage(None, options.(name := None, service := Some(options.service.GetOr(DefaultService))),
                                               MergeDefaults(callerDefaults), includeParameter);
              (r.Throws? <==> generated.Throws?) && (r.Ok? ==> r.value.message == Some(generated.value))
    ensures r.Ok? ==> r.value.code == options.code && r.value.cause == options.cause
    ensures r.Ok? && IsTruthyNumber(options.status) ==> r.value.status == options.status.value
    ensures r.Ok? && !IsTruthyNumber(options.status) ==> r.value.status == mapErrorToHttpStatus(r.value.name)
    ensures r.Ok? ==> r.value.statusName == mapHttpStatusToName(r.value.status)
  {
    var args := SuperArgs(options, callerDefaults, includeParameter);
    match args
    case Throws(e) =>
      r := Throws(e);
    case Ok(a) =>
      var error := new Common.CommonError(a, mapErrorToHttpStatus, mapHttpStatusToName);
      r := Ok(error);
  }
}
