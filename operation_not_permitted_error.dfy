/**
 * `OperationNotPermittedError`: the user may not perform an operation. The
 * constructor defaults `name` and `issue`, hands the issue to the auth message
 * template (`generateAuthMessage`, not part of this model, a parameter), and
 * forwards the options without `issue` to its parent `AuthError`, which is
 * not part of this model either.
 */
module OperationNotPermitted {
  import opened Js

  const TypeName := "OperationNotPermittedError"
  const ParentName := "AuthError"
  const DefaultIssue := "is not permitted"

  /**
   * The constructor up to `super(...)`: the options handed to `AuthError`.
   * The issue is consumed: the template sees it, the parent does not.
   */
  method SuperArgs(options: ErrorOptions, generateAuthMessage: ErrorOptions -> string)
    returns (args: ErrorOptions)
    ensures args.name == Some(options.name.GetOr(TypeName))
    ensures args.issue == None
    ensures IsTruthyString(options.message) ==> args.message == options.message
    ensures !IsTruthyString(options.message) ==>
              args.message == Some(generateAuthMessage(
                                options.(name := None, issue := Some(options.issue.GetOr(DefaultIssue)))))
    ensures args.(name := options.name, issue := options.issue, message := options.message) == options
  {
    var name := options.name.GetOr(TypeName);
    var issue := options.issue.GetOr(DefaultIssue);
    var rest := options.(name := None, issue := None);
    rest := rest.(message := Some(OrElse(rest.message, generateAuthMessage(rest.(issue := Some(issue))))));
    args := rest.(name := Some(name));
  }
}
