/**
 * `NotImplementedError`: the requested operation is not implemented. The
 * constructor fills in a message naming the `target` unless the caller gave a
 * truthy one, and forwards everything to the base record.
 */
module NotImplemented {
  import opened Js
  import Common

  const TypeName := "NotImplementedError"
  const ParentName := Common.TypeName

  const GenericMessage := "Action not currently implemented."
  const TargetSuffix := "' is not currently implemented."

  /** `generateMessage({ target })`: a fixed sentence without a target, else one quoting it. */
  function GenerateMessage(options: ErrorOptions): (message: string)
    ensures options.target.None? ==> message == GenericMessage
    ensures options.target.Some? ==> message == "'" + options.target.value + TargetSuffix
  {
    match options.target
    case None => GenericMessage
    case Some(target) => "'" + target + TargetSuffix
  }

  /** A targeted message can never be mistaken for the generic one. */
  lemma MessageRevealsTarget(a: ErrorOptions, b: ErrorOptions)
    requires GenerateMessage(a) == GenerateMessage(b)
    ensures a.target == b.target
  {
    var m := GenerateMessage(a);
    if a.target.Some? && b.target.Some? {
      var ta, tb := a.target.value, b.target.value;
      assert |ta| == |tb| by {
        assert |m| == |ta| + 1 + |TargetSuffix| == |tb| + 1 + |TargetSuffix|;
      }
      forall i | 0 <= i < |ta| ensures ta[i] == tb[i] {
        assert m[i + 1] == ta[i];
        assert m[i + 1] == tb[i];
      }
      assert ta == tb;
    } else if a.target.Some? || b.target.Some? {
      // one message opens with a quote, the other is the generic sentence
      MessageOpening(a);
      MessageOpening(b);
      assert false;
    }
  }

  /** A message naming a target opens with a quote; the generic one does not. */
  lemma MessageOpening(options: ErrorOptions)
    ensures |GenerateMessage(options)| > 0
    ensures GenerateMessage(options)[0] == '\'' <==> options.target.Some?
  {
  }

  /** The generated message is never empty, so it is always truthy. */
  lemma GeneratedMessageIsTruthy(options: ErrorOptions)
    ensures IsTruthyString(Some(GenerateMessage(options)))
  {
  }

  /**
   * The constructor up to `super(...)`: `name` defaults, `message` is the
   * caller's when truthy and generated otherwise, nothing else changes.
   */
  method SuperArgs(options: ErrorOptions) returns (args: ErrorOptions)
    ensures args.name == Some(options.name.GetOr(TypeName))
    ensures IsTruthyString(options.message) ==> args.message == options.message
    ensures !IsTruthyString(options.message) ==> args.message == Some(GenerateMessage(options))
    ensures args.(name := options.name, message := options.message) == options
  {
    var name := options.name.GetOr(TypeName);
    var rest := options.(name := None);
    rest := rest.(message := Some(OrElse(rest.message, GenerateMessage(rest))));
    args := rest.(name := Some(name));
  }

  /** `new NotImplementedError(options)`. */
  method New(options: ErrorOptions, mapErrorToHttpStatus: Option<string> -> int,
             mapHttpStatusToName: int -> string)
    returns (error: Common.CommonError)
    ensures fresh(error)
    ensures error.name == Some(options.name.GetOr(TypeName))
    ensures IsTruthyString(options.message) ==> error.message == options.message
    ensures !IsTruthyString(options.message) ==> error.message == Some(GenerateMessage(options))
    ensures IsTruthyNumber(options.status) ==> error.status == options.status.value
    ensures !IsTruthyNumber(options.status) ==> error.status == mapErrorToHttpStatus(error.name)
    ensures error.statusName == mapHttpStatusToName(error.status)
    ensures error.code == options.code && error.cause == options.cause
  {
    var args := SuperArgs(options);
    error := new Common.CommonError(args, mapErrorToHttpStatus, mapHttpStatusToName);
  }
}
