# Identity layer of copsboot-backend, in Dafny

This project models the identity layer of a small Spring Boot backend:

- `AbstractEntityId<T>` wraps one raw identifier value.
- `AbstractEntity<T>` is the base of persisted objects and holds one identifier object.
- `UserId` is the UUID-backed identifier.
- `UserRepositoryImpl.nextId` mints a `UserId` from an injected `UniqueIdGenerator`.

Layout:

- `java.dfy` (module `Java`) holds the Java notions the layer uses. It has nullable values (`Option`), the `NullPointerException` raised by `Objects.requireNonNull` or a null dereference (`Result`), and the foreign hash functions (`Hashing`).
- `entities.dfy` (module `Entities`) holds the two base classes and `Objects.equals`. The argument of Java's `equals(Object o)` is a `Ref<T>`: null, a raw value, an identifier, an entity, or a foreign object. This makes both `this == o` and `instanceof` expressible. Dafny has no subclassing here, so the concrete subclass is kept in a `runtimeClass` constant. No modelled operation reads it. Only `toString`, which is left out, reads the class name, through `MoreObjects.toStringHelper(this)`.
- `users.dfy` (module `Users`) holds `Uuid`, the two `UserId` constructors, the generator and the repository.

Design choices:

- `equals` is a class member function, not a method. It changes nothing, and `Objects.equals` has to dispatch to it; a Dafny function cannot call a method. Each body follows the Java control flow: the `this == o` test, then the `instanceof` test, then `Objects.equals`. Each `ensures` gives the closed form of the result. `Objects.equals` and the two `equals` functions are mutually recursive, and their closed forms rest on one another's contracts.
- The raw type `T` is generic, and its `equals` is value equality. For `java.util.UUID` this is exact: `Uuid` is its two 64-bit halves.
- A Java constructor that calls `Objects.requireNonNull` is modelled as a static method `New`. It returns `Throws(NullPointerException)` for null. Otherwise it returns a fresh object built by the non-throwing constructor `Wrap`.
- The generator is a class whose `GetNextUniqueId` returns an unconstrained value, possibly null. A ghost log `returned` records every value it hands out. The repository's generator field may be null, as in Java, where the constructor does not check it and `nextId` then throws `NullPointerException`.

## Model

| member | source | states |
|---|---|---|
| `Java.RequireNonNull` | src/main/java/com/copsboot/backend/entities/AbstractEntityId.java:18 | `Objects.requireNonNull` throws exactly on null and otherwise returns its argument unchanged |
| `Entities.ObjectsEquals` | src/main/java/com/copsboot/backend/entities/AbstractEntityId.java:38 | `Objects.equals(a, b)`: null equals only null; a non-null value never equals null; otherwise the result is the run-time class's `equals` (value equality for raw values, the identifier's or entity's own `equals` for those) |
| `Entities.AbstractEntityId.Unset` | src/main/java/com/copsboot/backend/entities/AbstractEntityId.java:13-15 | the no-argument constructor leaves the raw value unset |
| `Entities.AbstractEntityId.New` | src/main/java/com/copsboot/backend/entities/AbstractEntityId.java:17-19 | the value constructor throws `NullPointerException` exactly on null; otherwise it yields a fresh identifier whose `getId` is exactly the argument |
| `Entities.AbstractEntityId.GetId` | src/main/java/com/copsboot/backend/entities/AbstractEntityId.java:21-24 | `getId` returns the wrapped field verbatim, None when unset, and changes nothing |
| `Entities.AbstractEntityId.AsString` | src/main/java/com/copsboot/backend/entities/AbstractEntityId.java:26-29 | `asString` throws `NullPointerException` exactly when the value is unset; otherwise it is the raw value's `toString` |
| `Entities.AbstractEntityId.Equals` | src/main/java/com/copsboot/backend/entities/AbstractEntityId.java:31-41 | `equals(o)` holds iff `o` is an identifier of any subclass whose raw field equals this one's, two unset fields counting as equal; false for null, raw values, entities and foreign objects |
| `Entities.IdEqualsIsEquivalence` | src/main/java/com/copsboot/backend/entities/AbstractEntityId.java:32-41 | restricted to identifiers, `equals` is reflexive, symmetric and transitive |
| `Entities.IdEqualsOnlyIdentifiers` | src/main/java/com/copsboot/backend/entities/AbstractEntityId.java:33-40 | an identifier equals nothing that is not an `AbstractEntityId` |
| `Entities.IdAsStringRespectsEquals` | src/main/java/com/copsboot/backend/entities/AbstractEntityId.java:26-29 | equal identifiers yield the same `asString` result, the same text or the same exception, for any foreign `toString` |
| `Entities.AbstractEntityId.HashCode` | src/main/java/com/copsboot/backend/entities/AbstractEntityId.java:43-46 | `hashCode` is `Objects.hash(id)`: the foreign `Objects.hash` applied to the raw value's own hash code, or to null when the value is unset; both foreign functions stay uninterpreted |
| `Entities.IdHashCodeRespectsEquals` | src/main/java/com/copsboot/backend/entities/AbstractEntityId.java:43-46 | `hashCode` is a function of the raw field only, so equal identifiers hash alike for any foreign hash functions |
| `Entities.AbstractEntity.Unset` | src/main/java/com/copsboot/backend/entities/AbstractEntity.java:15-17 | the no-argument constructor leaves the identifier null |
| `Entities.AbstractEntity.New` | src/main/java/com/copsboot/backend/entities/AbstractEntity.java:19-21 | the constructor throws `NullPointerException` exactly on a null identifier; otherwise it yields a fresh entity whose `getId` is exactly that identifier object |
| `Entities.AbstractEntity.GetId` | src/main/java/com/copsboot/backend/entities/AbstractEntity.java:23-26 | `getId` returns the identifier object verbatim, null when unset |
| `Entities.AbstractEntity.Equals` | src/main/java/com/copsboot/backend/entities/AbstractEntity.java:28-38 | `equals` as written holds iff `o` is this very entity, or `o` is an unset identifier while this entity's identifier is null; the compared values are an identifier object and a raw field, which are never equal unless both are null |
| `Entities.EntityEqualsIsIdentity` | src/main/java/com/copsboot/backend/entities/AbstractEntity.java:31-37 | between entities, `equals` as written is reference identity |
| `Entities.EntityEqualsIgnoresIdentifiers` | src/main/java/com/copsboot/backend/entities/AbstractEntity.java:33-35 | two distinct entities holding equal identifiers are unequal as written and equal under the intended test |
| `Entities.EntityEqualsIsNotSymmetric` | src/main/java/com/copsboot/backend/entities/AbstractEntity.java:33-35 | an entity with a null identifier equals an unset identifier, which does not equal the entity back; so some pair of references breaks the symmetry of `Objects.equals` |
| `Entities.EntityHashCodeRespectsEquals` | src/main/java/com/copsboot/backend/entities/AbstractEntity.java:40-43 | whatever an entity equals as written has the entity's hash code |
| `Entities.AbstractEntity.HashCode` | src/main/java/com/copsboot/backend/entities/AbstractEntity.java:40-43 | `hashCode` is `Objects.hash(id)`: the foreign `Objects.hash` applied to the identifier object's own `hashCode`, or to null when the identifier is null |
| `Entities.EntityHashCodeDependsOnlyOnIdentifier` | src/main/java/com/copsboot/backend/entities/AbstractEntity.java:40-43 | two entities whose identifiers are both null, or both wrap the same raw value, have equal hash codes; `hashCode` depends on the identifier field alone |
| `Entities.AbstractEntity.IntendedEquals` | src/main/java/com/copsboot/backend/entities/AbstractEntity.java:33-35 | corrected `equals`: holds iff `o` is this very entity, or `o` is another entity, both entities' identifiers are assigned, and they wrap equal raw values; distinct entities without an identifier are unequal |
| `Entities.IntendedEqualsIsEquivalence` | src/main/java/com/copsboot/backend/entities/AbstractEntity.java:28-38 | restricted to entities, the corrected `equals` is reflexive, symmetric and transitive |
| `Entities.IntendedEqualsFollowsIdentifiers` | src/main/java/com/copsboot/backend/entities/AbstractEntity.java:33-35 | with identifiers assigned, entities are equal under the corrected `equals` iff their identifiers are equal |
| `Entities.IntendedEqualsUnsetIsIdentity` | src/main/java/com/copsboot/backend/entities/AbstractEntity.java:31-35 | when either entity has no identifier, the corrected `equals` is reference identity |
| `Entities.IntendedHashCodeRespectsEquals` | src/main/java/com/copsboot/backend/entities/AbstractEntity.java:40-43 | entities equal under the corrected `equals` have equal hash codes |
| `Users.NewUserId` | src/main/java/com/copsboot/backend/users/UserId.java:12-14 | `UserId(u)` throws `NullPointerException` on null, through the superclass check; otherwise it yields a fresh `UserId` whose `getId` is `u` |
| `Users.NewUnsetUserId` | src/main/java/com/copsboot/backend/users/UserId.java:8-10 | `UserId()` yields a fresh `UserId` whose identifier is unset |
| `Users.UserIdsEqualIffUuidsEqual` | src/main/java/com/copsboot/backend/users/UserId.java:6 | two `UserId`s are equal iff their UUIDs are equal, two unset ones counting as equal |
| `Users.UserIdEqualsOtherIdentifierKinds` | src/main/java/com/copsboot/backend/users/UserId.java:6 | a `UserId` and an identifier of another subclass wrapping the same value are equal both ways; the run-time class does not scope equality |
| `Users.UniqueIdGenerator.GetNextUniqueId` | src/main/java/com/copsboot/backend/users/UserRepositoryImpl.java:8-16 | each generator call returns some value, possibly null, with no freshness promise, and appends it to the log |
| `Users.UserRepositoryImpl.constructor` | src/main/java/com/copsboot/backend/users/UserRepositoryImpl.java:10-12 | the constructor stores the given generator, null included; the field is a constant and never changes afterwards |
| `Users.UserRepositoryImpl.NextId` | src/main/java/com/copsboot/backend/users/UserRepositoryImpl.java:15-17 | `nextId` throws `NullPointerException` when the generator is null; otherwise it calls the generator exactly once and returns a fresh `UserId` whose `getId` is exactly that call's value, or throws `NullPointerException` when the value is null |
| `Users.MintedIdsEqualIffValuesEqual` | src/main/java/com/copsboot/backend/users/UserRepositoryImpl.java:16 | two `nextId` results are equal iff the generator returned equal values for them |
| `Users.NextIdTwice` | src/main/java/com/copsboot/backend/users/UserRepositoryImpl.java:15-17 | a client scenario composing two `nextId` calls, not a member of the source: with a non-null generator they log exactly two generator values, and the two results are equal iff both values are non-null and equal; with a null generator the scenario reports them unequal |

## Left out

- `InMemoryUniqueIdGenerator` calls `UUID.randomUUID()`, a random foreign call. Its uniqueness is only statistical, so the generator promises nothing about freshness.
- Users.UniqueIdGenerator.GetNextUniqueId: a generator call never throws. `UUID.randomUUID()` in `InMemoryUniqueIdGenerator` raises no exception, so no exception from the generator reaches `nextId`.
- The `UniqueIdGenerator` interface is not part of this model. Its shape is taken from its use in `UserRepositoryImpl`.
- `EntityId` and `Entity` are interfaces with no behaviour, and Dafny traits are not used here. The classes carry their members directly.
- `DemoApplication` is Spring Boot start-up and bean wiring. It is left out.
- `UserRepository` (`findByEmailIgnoreCase` and the CRUD operations) is generated by Spring Data. It has no visible logic. The `User` entity is not part of this model.
- The numeric results of `Objects.hash` and `UUID.hashCode`, and the text of `UUID.toString`, come from the JDK. They are function parameters (`Hashing`, `toString`), so they are uninterpreted.
- `toString()` (the Guava `MoreObjects.toStringHelper` debug form) is left out. It is formatting only.
- JPA annotations and `Serializable` are persistence metadata with no behaviour.
- Subclassing is a tag: `UserId` is an `AbstractEntityId<Uuid>` whose `runtimeClass` is the `UserId` class name.
- Entities.ObjectsEquals: a raw identifier value that is itself an `AbstractEntityId` is not modelled. Java generics allow one (`AbstractEntityId<UserId>`), but no class in the repository declares one. Raw values use value equality. Objects outside the identity layer use reference identity.
- Entities.Ref: it fixes one raw type `T`. In Java, `o instanceof AbstractEntityId` also accepts identifiers of other raw types, for which `Objects.equals` on the raw fields then returns false, except that two unset raw fields compare equal (`Objects.equals(null, null)`), so an unset identifier, or an entity with a null identifier, equals an unset identifier of another raw type; the model cannot express such an argument either. `OtherRef` never holds an identifier or an entity: each Java reference has one encoding, and every contract over `Ref<T>` assumes it. `Entities.IdEqualsOnlyIdentifiers` covers foreign objects under that encoding.
- Entities.AbstractEntity: the source's type parameter `T extends EntityId` is modelled as the raw type of an `AbstractEntityId?<T>` field. An entity identifier that implements `EntityId` without extending `AbstractEntityId` is not modelled; no class in the repository declares one.
- Allocation order: in Java the object is allocated before `Objects.requireNonNull` throws. The model checks first, and allocates only on success. The half-built object is unreachable in Java too.
- Concurrency: every operation is sequential.

## Findings

| source | as written | input that shows it | evidently intended | confidence | as-written member | corrected member |
|---|---|---|---|---|---|---|
| src/main/java/com/copsboot/backend/entities/AbstractEntity.java:33-35 | `equals` tests `o instanceof AbstractEntityId` and compares this entity's identifier object with the other identifier's raw field | two distinct entities `e` and `f` both holding identifiers that wrap the same UUID: `e.equals(f)` is false. An entity with no identifier equals an unset identifier, which does not equal it back, so `equals` is not symmetric | `o instanceof AbstractEntity`, and, with both identifiers assigned, `Objects.equals` on them, so that equal identifiers make equal entities; distinct entities without an identifier are equal only by reference identity | high; not executed | `Entities.EntityEqualsIgnoresIdentifiers` | `Entities.AbstractEntity.IntendedEquals` |

`Entities.AbstractEntity.Equals` keeps the behaviour as written, because that is what the repository does. No other member of the model depends on entity equality. The corrected `IntendedEquals` is proved to be an equivalence on entities, to follow identifier equality, to be reference identity for entities without an identifier, and to agree with `hashCode`.
