# Structured errors: construction pipeline

A model, in Dafny, of how the errors of the `standard-error-set` library are built:

- the base record `CommonError`, which keeps `name` and `code` as given, takes a
  truthy `status` override or asks the status mapper, and derives `statusName`
  from the final status;
- the constructors of `ExternalServiceError`, `NotImplementedError`,
  `NotFoundError`, `OperationNotPermittedError` and `NoAccessFileError`. Each one
  defaults its `name` and other keys, keeps a truthy caller message or generates
  one, and reshapes the options bag before it hands it to its parent;
- the two message templates written out in the library: the external-service
  one and the not-implemented one;
- `translateValue`, which sorts a value into function, object with an own
  `toString`, JSON-serialisable object, non-serialisable object, or primitive;
- the `validErrorNames` table built from the package's export names;
- the five `registerParent` calls, as an explicit table of (child, parent)
  pairs.

Modelling choices:

- The options bag is the record `Js.ErrorOptions`. Each known key is an
  `Option`, and `None` stands for a key that is absent or holds `undefined`.
  Every other key the caller passes sits in `others` and is forwarded
  untouched. `others` never holds one of the known keys (`name`, `message`,
  `status`, `code`, `cause`, `service`, `issue`, `target`, `resource`): each
  JavaScript key has one value, held in its own field.
- JavaScript `||` is modelled by `Js.OrElse` and `Js.IsTruthyString`. The
  empty string counts as absent. A `status` is truthy when it is present and
  not 0.
- A destructuring default (`{ name = myName }`) replaces only `undefined`
  (`Js.Option.GetOr`). So a caller's empty `name` is kept.
- Code that may throw returns `Js.Result`.
- Collaborators whose code is not part of this model are function
  parameters. These are `mapErrorToHttpStatus`, `mapHttpStatusToName`,
  `generateNotFoundMessage`, `generateAuthMessage`, `describeFile` and
  `includeParameterInMessage`.
- The constructors mutate the options object in place before calling `super`.
  Each is modelled by a `SuperArgs` method that reassigns a local options
  value in the same steps. The method returns the options handed to the
  parent.
- For the three types whose parent is `CommonError`, a `New` method then
  builds the base record.
- `OperationNotPermittedError` extends `AuthError` and `NoAccessFileError`
  extends `NoAccessError`. Neither parent is part of this model, so for these
  two types the model ends at the forwarded options.
- Each of the five concrete constructors, called without an argument,
  destructures its default `{}` (`Js.NoOptions`).

How the code behaves where a reader might expect otherwise:

- `status` is overridden only by a truthy value, because the code uses `||`.
  A status of 0 therefore falls back to the mapper.
- Nothing in the modelled code checks for cycles or conflicts in
  `registerParent`, or walks up the parents to resolve a status.
- The doc comments of `ExternalServiceError` (src/errors/service/external-service-error.mjs:34-39)
  show messages that the template does not produce. Line 34 says "a remote
  service", where the template says "the remote service". Line 35 puts the
  service name before "remote" ("the Foo API remote service"). Lines 38-39
  put it after "service" ("The remote service Foo API is not responding").
  The template puts it between "remote" and "service".
  `ExternalService.NamedServiceExample` and
  `ExternalService.NamedServiceWithIssueExample` state what the code produces.

## Model

| member | source | states |
|---|---|---|
| `Common.CommonError.constructor` | src/common-error.mjs:23-32 | `name`, `code`, message and `cause` are kept exactly as given; the host error gets every option except `name` and `message`; a truthy `status` is used as it is, otherwise (absent or 0) the status is `mapErrorToHttpStatus(name)`; `statusName` is `mapHttpStatusToName` of the final status |
| `Translate.TypeOf` | src/errors/lib/translate-value.mjs:2 | `typeof` is "function" exactly for functions and "object" exactly for objects and `null` |
| `Translate.TranslateValue` | src/errors/lib/translate-value.mjs:1-22 | it throws exactly for `null`; a function gives "<function>"; an object with an own `toString` gives that method's result and JSON is never tried; without one, the JSON text when serialisation succeeds, else the `toString` result; every other value comes back unchanged |
| `Translate.TranslateValueIdempotent` | src/errors/lib/translate-value.mjs:19-21 | a result that is a primitive translates to itself again |
| `Translate.CompositesBecomeStrings` | src/errors/lib/translate-value.mjs:3-17 | a function, or an object whose `toString` returns a string, always yields a string |
| `Translate.PrimitivesAreNotStringified` | src/errors/lib/translate-value.mjs:19-20 | a number and `undefined` come back as themselves, not as strings |
| `ExternalService.MergeDefaults` | src/errors/service/external-service-error.mjs:42 | the merged defaults have the caller's keys plus `service`; every caller key wins; `service` is '' only when the caller gave none (built-in defaults at line 8) |
| `ExternalService.ServicePrefix` | src/errors/service/external-service-error.mjs:63-65 | an empty service stays empty; a non-empty one is followed by exactly one space |
| `ExternalService.GenerateMessage` | src/errors/service/external-service-error.mjs:54-73 | it throws exactly when the chosen service is undefined; the chosen service is `service` when included, else `defaults.service`; with the issue included the message is "The remote " + service prefix + "service " + issue + "."; otherwise it is "There was " + (errorType or 'an') + " error with the remote " + service prefix + "service." |
| `ExternalService.GeneratedMessageIsTruthy` | src/errors/service/external-service-error.mjs:43-45 | a generated message is never empty |
| `ExternalService.EmptyServiceHasNoDoubleSpace` | src/errors/service/external-service-error.mjs:63-71 | with an empty service and no issue the message is exactly "There was an error with the remote service.", with no double space |
| `ExternalService.NamedServiceExample` | src/errors/service/external-service-error.mjs:34-35 | with service "Foo API" and no issue the code produces "There was an error with the remote Foo API service." |
| `ExternalService.NamedServiceWithIssueExample` | src/errors/service/external-service-error.mjs:38-39 | with service "Foo API" and issue "is not responding" the code produces "The remote Foo API service is not responding." |
| `ExternalService.SuperArgs` | src/errors/service/external-service-error.mjs:41-46 | `name` defaults to 'ExternalServiceError' and `service` to ''; both are forwarded; a truthy message is kept; otherwise the message is generated from the options with `service` filled in and the merged defaults, and a throw from the generator is the constructor's throw; every other option is forwarded unchanged |
| `ExternalService.New` | src/errors/service/external-service-error.mjs:20-47 | construction throws exactly when the message must be generated and the generator throws; the built error has the defaulted name, the kept truthy message or else the generated one, the caller's `code` and `cause`, the truthy `status` or the mapped one, and the status name of that status |
| `NotImplemented.GenerateMessage` | src/not-implemented-error.mjs:37-43 | an undefined target gives 'Action not currently implemented.'; a target t gives "'" + t + "' is not currently implemented." |
| `NotImplemented.MessageOpening` | src/not-implemented-error.mjs:37-43 | the message opens with a quote exactly when a target is given |
| `NotImplemented.MessageRevealsTarget` | src/not-implemented-error.mjs:37-43 | two equal messages come from the same target (or from no target at all) |
| `NotImplemented.GeneratedMessageIsTruthy` | src/not-implemented-error.mjs:28 | the generated message is never empty |
| `NotImplemented.SuperArgs` | src/not-implemented-error.mjs:27-30 | `name` defaults to 'NotImplementedError'; a truthy message wins over the generated one; every other option is forwarded unchanged |
| `NotImplemented.New` | src/not-implemented-error.mjs:15-31 | the built error has the defaulted name, the kept or generated message, the caller's `code` and `cause`, and the status selected by the base record |
| `NotFound.SuperArgs` | src/not-found-error.mjs:27-30 | `name` defaults to 'NotFoundError'; `code` defaults to 'ENOENT', and a caller's code is forwarded unchanged; a truthy message is kept, otherwise it is `generateNotFoundMessage` of the options without `name` and `code`; every other option is forwarded |
| `NotFound.New` | src/not-found-error.mjs:16-31 | the built error has the defaulted name; `code` is 'ENOENT' unless the caller gave one; a truthy message is kept, otherwise it is `generateNotFoundMessage` of the options without `name` and `code` (a caller's `status` is among what the template sees); a truthy `status` such as 400 overrides the mapped status; `statusName` follows the final status; `cause` is kept |
| `OperationNotPermitted.SuperArgs` | src/operation-not-permitted-error.mjs:31-34 | `name` defaults to 'OperationNotPermittedError'; a truthy message wins; otherwise `generateAuthMessage` gets the options with `issue` (default 'is not permitted'); `issue` is not forwarded; everything else is |
| `NoAccessFile.SuperArgs` | src/no-access-file-error.mjs:21-26 | `name` defaults to 'NoAccessFileError'; the caller's message is never forwarded; `status` is forwarded as given, even when undefined; a truthy `resource` is kept, otherwise it is `describeFile` of the options without `name`, `message` and `status` |
| `ValidErrorNames.ExportedErrors` | src/lib/valid-error-names.mjs:3-5 | a name is kept exactly when it is an export name and not in the exclusion list |
| `ValidErrorNames.BuildValidErrorNames` | src/lib/valid-error-names.mjs:7 | every key maps to `true`; the keys are exactly the export names outside the exclusion list; 'mapErrorsToHTTPStatus' is never a key |
| `Registry.RegisteredParents` | src/errors/service/external-service-error.mjs:50 | the registered parents: ExternalServiceError, NotImplementedError (src/not-implemented-error.mjs:33) and NotFoundError (src/not-found-error.mjs:33) under CommonError; OperationNotPermittedError under AuthError (src/operation-not-permitted-error.mjs:37); NoAccessFileError under NoAccessError (src/no-access-file-error.mjs:29) |
| `Registry.RegistrationsAreFunctional` | src/not-found-error.mjs:33 | among the five registrations listed for `Registry.RegisteredParents`, no type is registered under two different parents |
| `Registry.ParentsAreRoots` | src/not-implemented-error.mjs:33 | among the five modelled registrations, no registered parent is itself registered as a child (the parents' own registrations are not in the table) |
| `Registry.ChainsHaveDepthOne` | src/operation-not-permitted-error.mjs:37 | among the five modelled registrations, no chain has two or more steps |
| `Registry.RegistrationsAreAcyclic` | src/no-access-file-error.mjs:29 | following the five modelled registrations one or more steps never leads back to the starting type |

## Left out

- Status resolution and status names: `mapErrorToHttpStatus`, `mapHttpStatusToName` and `registerParent` live in modules that are not part of this model. The two mappers are parameters. How `registerParent` stores pairs, checks them, and walks parents to resolve a status is not modelled.
- Message helpers whose code is not part of this model (`generateNotFoundMessage`, `generateAuthMessage`, `describeFile`, `includeParameterInMessage`) are parameters. For `includeParameterInMessage`, only whether it returns exactly `true` matters.
- `AuthError` and `NoAccessError` are not part of this model, so `OperationNotPermittedError` and `NoAccessFileError` end at the options they forward. `UnavailableError` is not modelled either.
- The host `Error`: string coercion of the message, the stack trace, and the rule that `cause` becomes an own property only when the key is present. The prototype lookups `Object.getPrototypeOf(...).name` are replaced by the literal parent names of the `extends` clauses.
- A key that is absent and a key that holds `undefined` are the same in the model. For example, `NoAccessFileError` forwards `status: undefined` as a present key, and here that is the same as leaving the key out.
- Options are typed. `name`, `message`, `code`, `service`, `issue`, `target` and `resource` are strings or undefined, and `status` is an integer or undefined. Passing a number, `null` or an object for one of them, and the coercion that follows in a template, is outside the model.
- Translate.TranslateValue: numbers are integers (no NaN, -0 or fractions). `JSON.stringify` either returns a string or throws; its `undefined` result for a `toJSON` that returns `undefined` is not modelled. A `toString` that throws is not modelled: neither a user `toString` that throws nor the fallback `value.toString()` on an object that has no `toString` at all (a null prototype) whose serialisation failed.
- ExternalService.SuperArgs: the merged `defaults` are also passed to `super` as a second argument. `CommonError` ignores them, so the model does not carry them.
- Calling a concrete constructor with `null` throws in JavaScript; that call is not modelled (no argument is `{}` for those five).
- Common.CommonError.constructor: its parameter `{ name, message, ...options }` (src/common-error.mjs:24) has no `= {}` default, so `new CommonError()` throws a TypeError just as `null` does. The Dafny constructor always takes an `ErrorOptions`, so that throwing call is not modelled.
- The order of keys in objects is not modelled.
- NotFound.New: the source does not show whether `generateNotFoundMessage` reads `status`. The template receives the whole remaining options bag, `status` included, so the model does not promise that a caller's `status` leaves the generated message unchanged.
- Registry.ParentsAreRoots, Registry.ChainsHaveDepthOne: the table holds only the five registrations of the modelled types. The parents `AuthError` and `NoAccessError` register their own parents in modules that are not part of this model; `NoAccessFileError` is documented as an `AuthError` (src/no-access-file-error.mjs:9) and extends `NoAccessError` (line 20), so `NoAccessError` sits below `AuthError`. So in the whole library `NoAccessFileError` → `NoAccessError` → `AuthError` is a two-step chain, and these two lemmas hold of the modelled table only.
- ValidErrorNames.BuildValidErrorNames: an export named `__proto__` would not become a key of a plain object; such export names are not modelled. The module namespace import becomes a sequence of export names.
- Doc-only `/* globals */` comments and JSDoc prose.
