/**
 * `NoAccessFileError`: the user may not access a file. The constructor drops
 * the caller's message, fills in `resource` from `describeFile` (not part of
 * this model, a parameter) unless the caller gave a truthy one, and forwards
 * `name` and `status` to its parent `NoAccessError`, which is not part of this
 * model either.
 */
module NoAccessFile {
  import opened Js

  const TypeName := "NoAccessFileError"
  const ParentName := "NoAccessError"

  /**
   * The constructor up to `super(...)`: the options handed to `NoAccessError`.
   * `describeFile` sees the options without `name`, `message` and `status`.
   */
  method SuperArgs(options: ErrorOptions, describeFile: ErrorOptions -> string)
    returns (args: ErrorOptions)
    ensures args.name == Some(options.name.GetOr(TypeName))
    ensures args.message == None
    ensures args.status == options.status
    ensures IsTruthyString(options.resource) ==> args.resource == options.resource
    ensures !IsTruthyString(options.resource) ==>
              args.resource == Some(describeFile(options.(name := None, message := None, status := None)))
    ensures args.(name := options.name, message := options.message, resource := options.resource) == options
  {
    var name := options.name.GetOr(TypeName);
    var status := options.status;
    var rest := options.(name := None, message := None, status := None);
    var resource := describeFile(rest);
    rest := rest.(resource := Some(OrElse(rest.resource, resource)));
    args := rest.(name := Some(name), status := status);
  }
}
