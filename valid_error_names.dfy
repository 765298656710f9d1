/**
 * `validErrorNames`: a table with one `true` entry per exported error name.
 * The package's export names are the input; a fixed list of exports that are
 * not errors is filtered out before the table is built.
 */
module ValidErrorNames {

  const NonErrorExports: seq<string> := ["mapErrorsToHTTPStatus"]

  /** `exportNames.filter((name) => !nonErrorExports.includes(name))`. */
  function ExportedErrors(exportNames: seq<string>): (errors: seq<string>)
    ensures forall n :: n in errors <==> n in exportNames && n !in NonErrorExports
    ensures |errors| <= |exportNames|
  {
    if exportNames == [] then []
    else if exportNames[0] !in NonErrorExports then [exportNames[0]] + ExportedErrors(exportNames[1..])
    else ExportedErrors(exportNames[1..])
  }

  /** The `reduce` that assigns `acc[errorName] = true` for each exported error. */
  method BuildValidErrorNames(exportNames: seq<string>) returns (table: map<string, bool>)
    ensures forall n :: n in table ==> table[n]
    ensures forall n :: n in table <==> n in exportNames && n !in NonErrorExports
    ensures "mapErrorsToHTTPStatus" !in table
  {
    var exportedErrors := ExportedErrors(exportNames);
    table := map[];
    var i := 0;
    while i < |exportedErrors|
      invariant 0 <= i <= |exportedErrors|
      invariant forall n :: n in table ==> table[n]
      invariant forall n :: n in table <==> n in exportedErrors[..i]
    {
      assert exportedErrors[..i + 1] == exportedErrors[..i] + [exportedErrors[i]];
      table := table[exportedErrors[i] := true];
      i := i + 1;
    }
    assert exportedErrors[..i] == exportedErrors;
  }
}
