/**
 * The `registerParent(child, parent)` calls the modelled error types make when
 * their modules load. The parent is the name of the class each one extends.
 * How `registerParent` stores the pairs, and how statuses are resolved from
 * them, is not part of this model: only the registered pairs are.
 */
module Registry {
  import ExternalService
  import NotImplemented
  import NotFound
  import OperationNotPermitted
  import NoAccessFile

  /** The registrations, as (child, parent) pairs. */
  const Registrations: seq<(string, string)> := [
    (ExternalService.TypeName, ExternalService.ParentName),
    (NotImplemented.TypeName, NotImplemented.ParentName),
    (NotFound.TypeName, NotFound.ParentName),
    (OperationNotPermitted.TypeName, OperationNotPermitted.ParentName),
    (NoAccessFile.TypeName, NoAccessFile.ParentName)
  ]

  /** `parent` was registered as the parent of `child`. */
  predicate IsRegisteredParent(child: string, parent: string) {
    (child, parent) in Registrations
  }

  /** Following registrations `steps` times from `from` can end at `to`. */
  ghost predicate Reaches(from: string, to: string, steps: nat)
    decreases steps
  {
    if steps == 0 then from == to
    else exists parent :: IsRegisteredParent(from, parent) && Reaches(parent, to, steps - 1)
  }

  /** The five registrations, with the type names each class publishes as `typeName`. */
  lemma RegisteredParents()
    ensures IsRegisteredParent("ExternalServiceError", "CommonError")
    ensures IsRegisteredParent("NotImplementedError", "CommonError")
    ensures IsRegisteredParent("NotFoundError", "CommonError")
    ensures IsRegisteredParent("OperationNotPermittedError", "AuthError")
    ensures IsRegisteredParent("NoAccessFileError", "NoAccessError")
  {
  }

  /** Each registered type has one parent: the pairs form a function from child to parent. */
  lemma RegistrationsAreFunctional(child: string, p: string, q: string)
    requires IsRegisteredParent(child, p) && IsRegisteredParent(child, q)
    ensures p == q
  {
  }

  /**
   * Among the modelled registrations, no parent is itself registered as a
   * child. The parents register their own parents in modules outside this
   * table, so this holds of the table only.
   */
  lemma ParentsAreRoots(child: string, parent: string, grandparent: string)
    requires IsRegisteredParent(child, parent)
    ensures !IsRegisteredParent(parent, grandparent)
  {
  }

  /** Every chain through the modelled registrations has at most one step. */
  lemma ChainsHaveDepthOne(from: string, to: string, steps: nat)
    requires steps >= 2
    ensures !Reaches(from, to, steps)
  {
    // a second step would start from a registered parent, and those are roots
  }

  /** The modelled registrations are acyclic: no type is its own ancestor. */
  lemma RegistrationsAreAcyclic(name: string, steps: nat)
    requires steps >= 1
    ensures !Reaches(name, name, steps)
  {
    // one step leads from a child to a root, and no child is a root
  }
}
