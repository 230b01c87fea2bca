/**
 * The User side of the identity layer: `UserId`, the UUID-backed identifier, and
 * `UserRepositoryImpl.nextId`, which mints one from an injected generator.
 */
module Users {
  import opened Java
  import opened Entities

  /** A `java.util.UUID`: two 64-bit halves; `UUID.equals` compares both, as datatype equality does. */
  datatype Uuid = Uuid(mostSigBits: bv64, leastSigBits: bv64)

  /** The run-time class name of every `UserId`. */
  const UserIdClass: string := "com.copsboot.backend.users.UserId"

  /** `i` is an object of class `UserId` (a subclass of `AbstractEntityId<UUID>`). */
  predicate IsUserId(i: AbstractEntityId<Uuid>)
  {
    i.runtimeClass == UserIdClass
  }

  /** The constructor `UserId(UUID id)`, which hands its argument to `AbstractEntityId(T id)`. */
  method NewUserId(id: Option<Uuid>) returns (r: Result<AbstractEntityId<Uuid>>)
    ensures r.Ok? <==> id.Some?
    ensures r.Throws? ==> r.exception == NullPointerException
    ensures r.Ok? ==> fresh(r.value) && IsUserId(r.value) && r.value.GetId() == id
  {
    r := AbstractEntityId.New(UserIdClass, id);
  }

  /** The protected constructor `UserId()`, which leaves the identifier unset. */
  method NewUnsetUserId() returns (u: AbstractEntityId<Uuid>)
    ensures fresh(u) && IsUserId(u) && u.GetId() == None
  {
    u := new AbstractEntityId.Unset(UserIdClass);
  }

  /**
   * A `UniqueIdGenerator<T>` as `UserRepositoryImpl` sees it: each call returns some value,
   * possibly null, with no promise of freshness. `returned` logs every value handed out.
   */
  class UniqueIdGenerator<T> {
    ghost var returned: seq<Option<T>>

    constructor ()
      ensures returned == []
    {
      returned := [];
    }

    /** `getNextUniqueId()`: an unconstrained value, appended to the log. */
    method GetNextUniqueId() returns (v: Option<T>)
      modifies this
      ensures returned == old(returned) + [v]
    {
      v :| true;
      returned := returned + [v];
    }
  }

  /** What `nextId` produces from the generator's value `v`: a `UserId` wrapping exactly `v`, or the exception for null. */
  predicate MintedFrom(r: Result<AbstractEntityId<Uuid>>, v: Option<Uuid>)
    reads if r.Ok? then {r.value} else {}
  {
    && (r.Ok? <==> v.Some?)
    && (r.Ok? ==> IsUserId(r.value) && r.value.id == v)
    && (r.Throws? ==> r.exception == NullPointerException)
  }

  /** `UserRepositoryImpl`: the repository extension that mints identifiers before a User is first saved. */
  class UserRepositoryImpl {
    /** The injected generator; `final` in the source, and null if null was injected. */
    const generator: UniqueIdGenerator?<Uuid>

    constructor (generator: UniqueIdGenerator?<Uuid>)
      ensures this.generator == generator
    {
      this.generator := generator;
    }

    /**
     * `nextId()`: calls the generator exactly once and wraps its value in a new `UserId`;
     * with a null generator the call itself throws.
     */
    method NextId() returns (r: Result<AbstractEntityId<Uuid>>)
      modifies generator
      ensures generator == null ==> r == Throws(NullPointerException)
      ensures generator != null ==> |generator.returned| == |old(generator.returned)| + 1
      ensures generator != null ==> generator.returned[..|old(generator.returned)|] == old(generator.returned)
      ensures generator != null ==> MintedFrom(r, generator.returned[|generator.returned| - 1])
      ensures r.Ok? ==> fresh(r.value)
    {
      if generator == null {
        r := Throws(NullPointerException);
      } else {
        var v := generator.GetNextUniqueId();
        r := NewUserId(v);
      }
    }
  }

  /** Two `UserId`s are equal exactly when their UUIDs are, two unset ones counting as equal. */
  lemma UserIdsEqualIffUuidsEqual(a: AbstractEntityId<Uuid>, b: AbstractEntityId<Uuid>)
    requires IsUserId(a) && IsUserId(b)
    ensures a.Equals(IdRef(b)) <==> a.GetId() == b.GetId()
  {
  }

  /** Equality is not scoped by run-time class: a `UserId` equals an identifier of any other subclass wrapping the same value, both ways. */
  lemma UserIdEqualsOtherIdentifierKinds(a: AbstractEntityId<Uuid>, b: AbstractEntityId<Uuid>)
    requires IsUserId(a) && !IsUserId(b) && a.id == b.id
    ensures a.Equals(IdRef(b)) && b.Equals(IdRef(a))
  {
  }

  /** Two identifiers minted by `nextId` are equal exactly when the generator returned equal values for them. */
  lemma MintedIdsEqualIffValuesEqual(r1: Result<AbstractEntityId<Uuid>>, v1: Option<Uuid>,
                                     r2: Result<AbstractEntityId<Uuid>>, v2: Option<Uuid>)
    requires MintedFrom(r1, v1) && MintedFrom(r2, v2) && r1.Ok? && r2.Ok?
    ensures r1.value.Equals(IdRef(r2.value)) <==> v1 == v2
  {
  }

  /**
   * A client scenario of the repository's contracts, not a member of the source: two calls
   * log two generator values, and the two identifiers are equal exactly when those values are.
   */
  method NextIdTwice(repo: UserRepositoryImpl) returns (same: bool)
    modifies repo.generator
    ensures repo.generator == null ==> !same
    ensures repo.generator != null ==> |repo.generator.returned| == |old(repo.generator.returned)| + 2
    ensures repo.generator != null ==> var n := |repo.generator.returned|;
      same <==> repo.generator.returned[n - 2].Some? && repo.generator.returned[n - 2] == repo.generator.returned[n - 1]
  {
    var first := repo.NextId();
    var second := repo.NextId();
    if first.Ok? && second.Ok? {
      same := first.value.Equals(IdRef(second.value));
    } else {
      same := false;
    }
  }
}
