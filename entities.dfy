/**
 * The shared base classes of the identity layer.
 *
 * `AbstractEntityId<T>` wraps one raw identifier value of type T; `AbstractEntity<T>`
 * holds one such identifier object. Java has one class per concrete identifier or
 * entity kind; here the concrete subclass is recorded in `runtimeClass`, which no
 * modelled operation consults, just as the Java `equals` never looks at it (only the
 * `toString` debug form, which is not modelled, prints the class name).
 *
 * Java's `equals(Object o)` receives an arbitrary reference; `Ref<T>` lists what it
 * can be, so that both `this == o` and `o instanceof AbstractEntityId` are expressible.
 */
module Entities {
  import opened Java

  /**
   * A Java reference as seen by `equals(Object o)` and `Objects.equals`. Each reference has
   * exactly one encoding: `OtherRef` never holds an identifier or an entity (those are always
   * `IdRef` and `EntityRef`), and every contract over `Ref<T>` assumes this.
   */
  datatype Ref<T(==)> =
    | Null
    | RawValue(value: T)                    // a raw identifier value, such as a UUID
    | IdRef(ident: AbstractEntityId<T>)     // an identifier, of any subclass
    | EntityRef(entity: AbstractEntity<T>)  // an entity, of any subclass
    | OtherRef(obj: object)                 // an object of a class outside the identity layer, never an identifier or entity

  /** The reference held in an identifier's `id` field. */
  function RawRef<T(==)>(v: Option<T>): Ref<T>
  {
    match v
    case None => Null
    case Some(x) => RawValue(x)
  }

  /** The reference held in an entity's `id` field. */
  function IdentRef<T(==)>(i: AbstractEntityId?<T>): Ref<T>
  {
    if i == null then Null else IdRef(i)
  }

  /** How many `equals` delegations can start from a reference: an entity delegates to its identifier, an identifier to its raw value. */
  function Rank<T(==)>(r: Ref<T>): nat
  {
    match r
    case IdRef(_) => 1
    case EntityRef(_) => 2
    case _ => 0
  }

  /**
   * `java.util.Objects.equals(a, b)`, that is `(a == b) || (a != null && a.equals(b))`,
   * with `equals` dispatched on the run-time class of `a`. A raw value's `equals` is value
   * equality (`UUID.equals` compares both halves of the UUID); an object outside the
   * identity layer uses `java.lang.Object.equals`, reference identity. Raw values have no
   * identity of their own in this model, so `a == b` on two of them is value equality,
   * which `equals` would have returned anyway.
   */
  function ObjectsEquals<T(==)>(a: Ref<T>, b: Ref<T>): (r: bool)
    reads *
    decreases Rank(a), 1
    ensures a.Null? ==> (r <==> b.Null?)
    ensures !a.Null? && b.Null? ==> !r
    ensures a.RawValue? || a.OtherRef? ==> (r <==> b == a)
    ensures a.IdRef? ==> (r <==> a.ident.Equals(b))
    ensures a.EntityRef? ==> (r <==> a.entity.Equals(b))
  {
    if a.Null? then b.Null?
    else a == b || match a
      case RawValue(v) => b.RawValue? && b.value == v
      case OtherRef(p) => b.OtherRef? && b.obj == p
      case IdRef(i) => i.Equals(b)
      case EntityRef(e) => e.Equals(b)
      case _ => false
  }

  /** Identifier objects with equal raw fields, or both null: what `Objects.equals` decides for two entity identifiers. */
  predicate SameIdentifier<T(==)>(a: AbstractEntityId?<T>, b: AbstractEntityId?<T>)
    reads a, b
  {
    (a == null && b == null) || (a != null && b != null && a.id == b.id)
  }

  /** `AbstractEntityId<T>`: a typed wrapper around one raw identifier value. */
  class AbstractEntityId<T(==)> {
    /** The concrete subclass this object belongs to, such as `UserId`. */
    const runtimeClass: string
    /** The wrapped raw value; None only after the no-argument constructor. */
    var id: Option<T>

    /** The protected no-argument constructor: the identifier is left unset. */
    constructor Unset(runtimeClass: string)
      ensures this.runtimeClass == runtimeClass
      ensures id == None
    {
      this.runtimeClass := runtimeClass;
      id := None;
    }

    /** The value constructor once `Objects.requireNonNull` has let its argument through. */
    constructor Wrap(runtimeClass: string, value: T)
      ensures this.runtimeClass == runtimeClass
      ensures id == Some(value)
    {
      this.runtimeClass := runtimeClass;
      id := Some(value);
    }

    /** The value constructor `AbstractEntityId(T id)`: throws on null, otherwise wraps the argument. */
    static method New(runtimeClass: string, id: Option<T>) returns (r: Result<AbstractEntityId<T>>)
      ensures r.Ok? <==> id.Some?
      ensures r.Throws? ==> r.exception == NullPointerException
      ensures r.Ok? ==> fresh(r.value) && r.value.runtimeClass == runtimeClass && r.value.GetId() == id
    {
      var checked := RequireNonNull(id);
      if checked.Ok? {
        var x := new AbstractEntityId.Wrap(runtimeClass, checked.value);
        r := Ok(x);
      } else {
        r := Throws(checked.exception);
      }
    }

    /** `getId()`: the wrapped raw value, verbatim. */
    function GetId(): (r: Option<T>)
      reads this
      ensures r == id
    {
      id
    }

    /** `asString()`: `id.toString()`, which dereferences the field and so throws when it is unset. */
    function AsString(toString: T -> string): (r: Result<string>)
      reads this
      ensures r.Throws? <==> id.None?
      ensures r.Throws? ==> r.exception == NullPointerException
      ensures id.Some? ==> r == Ok(toString(id.value))
    {
      match id
      case None => Throws(NullPointerException)
      case Some(v) => Ok(toString(v))
    }

    /**
     * `equals(Object o)`: true when `o` is this very object; otherwise, when `o` is an
     * identifier of any subclass, `Objects.equals` on the two raw fields; false for
     * anything else. Its closed form: `o` is an identifier wrapping an equal raw value,
     * two unset identifiers counting as equal.
     */
    function Equals(o: Ref<T>): (r: bool)
      reads *
      decreases 1, 0
      ensures r <==> o.IdRef? && o.ident.id == id
    {
      if o == IdRef(this) then true
      else if o.IdRef? then ObjectsEquals(RawRef(id), RawRef(o.ident.id))
      else false
    }

    /** `hashCode()`: `Objects.hash(id)`, a function of the raw field alone. */
    function HashCode(h: Hashing<T>): (hash: int)
      reads this
      ensures id.None? ==> hash == h.objectsHash(None)
      ensures id.Some? ==> hash == h.objectsHash(Some(h.valueHash(id.value)))
    {
      h.objectsHash(match id case None => None case Some(v) => Some(h.valueHash(v)))
    }
  }

  /** `AbstractEntity<T>`: the base of persisted objects, holding one identifier object whose raw values have type T. */
  class AbstractEntity<T(==)> {
    /** The concrete subclass this object belongs to, such as `User`. */
    const runtimeClass: string
    /** The identifier; null only after the no-argument constructor. */
    var id: AbstractEntityId?<T>

    /** The protected no-argument constructor: the identifier is left unset. */
    constructor Unset(runtimeClass: string)
      ensures this.runtimeClass == runtimeClass
      ensures id == null
    {
      this.runtimeClass := runtimeClass;
      id := null;
    }

    /** The identifier constructor once `Objects.requireNonNull` has let its argument through. */
    constructor Wrap(runtimeClass: string, ident: AbstractEntityId<T>)
      ensures this.runtimeClass == runtimeClass
      ensures id == ident
    {
      this.runtimeClass := runtimeClass;
      id := ident;
    }

    /** The constructor `AbstractEntity(T id)`: throws on null, otherwise holds the given identifier object. */
    static method New(runtimeClass: string, ident: AbstractEntityId?<T>) returns (r: Result<AbstractEntity<T>>)
      ensures r.Ok? <==> ident != null
      ensures r.Throws? ==> r.exception == NullPointerException
      ensures r.Ok? ==> fresh(r.value) && r.value.runtimeClass == runtimeClass && r.value.GetId() == ident
    {
      var checked := RequireNonNull(if ident == null then None else Some(ident));
      if checked.Ok? {
        var e := new AbstractEntity.Wrap(runtimeClass, checked.value);
        r := Ok(e);
      } else {
        r := Throws(checked.exception);
      }
    }

    /** `getId()`: the identifier object, verbatim; null when unset. */
    function GetId(): (r: AbstractEntityId?<T>)
      reads this
      ensures r == id
    {
      id
    }

    /**
     * `equals(Object o)` as written: true when `o` is this very object; otherwise, when `o`
     * is an IDENTIFIER (`o instanceof AbstractEntityId`), `Objects.equals` between this
     * entity's identifier object and that identifier's raw field; false for anything else.
     * An identifier object never equals a raw value, so the closed form is: the same
     * object, or an unset identifier compared from an entity whose identifier is unset.
     */
    function Equals(o: Ref<T>): (r: bool)
      reads *
      decreases 2, 0
      ensures r <==> o == EntityRef(this) || (o.IdRef? && id == null && o.ident.id.None?)
    {
      if o == EntityRef(this) then true
      else if o.IdRef? then ObjectsEquals(IdentRef(id), RawRef(o.ident.id))
      else false
    }

    /**
     * `equals(Object o)` as the design intends it: `o instanceof AbstractEntity`, and when
     * both entities have identifiers, `Objects.equals` on the two identifier objects; two
     * distinct entities without identifiers are equal only if they are the same object.
     * Closed form: `o` is this entity, or an entity whose identifier wraps an equal raw value.
     */
    function IntendedEquals(o: Ref<T>): (r: bool)
      reads *
      ensures r <==> o.EntityRef? && (o.entity == this ||
                       (id != null && o.entity.id != null && id.id == o.entity.id.id))
    {
      if o == EntityRef(this) then true
      else if o.EntityRef? && id != null && o.entity.id != null then ObjectsEquals(IdRef(id), IdRef(o.entity.id))
      else false
    }

    /** `hashCode()`: `Objects.hash(id)`, through the identifier object's own `hashCode()`. */
    function HashCode(h: Hashing<T>): (hash: int)
      reads this, id
      ensures id == null ==> hash == h.objectsHash(None)
      ensures id != null ==> hash == h.objectsHash(Some(id.HashCode(h)))
    {
      h.objectsHash(if id == null then None else Some(id.HashCode(h)))
    }
  }

  // ---------------------------------------------------------------------------
  // Properties of identifier equality and hashing

  /** Restricted to identifiers, `equals` is reflexive, symmetric and transitive. */
  lemma IdEqualsIsEquivalence<T>(a: AbstractEntityId<T>, b: AbstractEntityId<T>, c: AbstractEntityId<T>)
    ensures a.Equals(IdRef(a))
    ensures a.Equals(IdRef(b)) == b.Equals(IdRef(a))
    ensures a.Equals(IdRef(b)) && b.Equals(IdRef(c)) ==> a.Equals(IdRef(c))
  {
  }

  /** An identifier never equals null, a raw value, an entity or a foreign object (an `OtherRef`, never an identity-layer object). */
  lemma IdEqualsOnlyIdentifiers<T>(a: AbstractEntityId<T>, o: Ref<T>)
    requires !o.IdRef?
    ensures !a.Equals(o)
  {
  }

  /** Equal identifiers have equal hash codes, whatever the foreign hash functions are. */
  lemma IdHashCodeRespectsEquals<T>(a: AbstractEntityId<T>, b: AbstractEntityId<T>, h: Hashing<T>)
    requires a.Equals(IdRef(b))
    ensures a.HashCode(h) == b.HashCode(h)
  {
  }

  /** Identifiers that compare equal have the same string form, for any `toString` of the raw value. */
  lemma IdAsStringRespectsEquals<T>(a: AbstractEntityId<T>, b: AbstractEntityId<T>, toString: T -> string)
    requires a.Equals(IdRef(b))
    ensures a.AsString(toString) == b.AsString(toString)
  {
  }

  /** An entity's hash code depends only on its identifier field: null, or the identifier's raw value. */
  lemma EntityHashCodeDependsOnlyOnIdentifier<T>(e: AbstractEntity<T>, f: AbstractEntity<T>, h: Hashing<T>)
    requires SameIdentifier(e.id, f.id)
    ensures e.HashCode(h) == f.HashCode(h)
  {
  }

  // ---------------------------------------------------------------------------
  // Properties of entity equality as written

  /** Between entities, `equals` as written is reference identity: distinct entities differ even when their identifiers are equal. */
  lemma EntityEqualsIsIdentity<T>(e: AbstractEntity<T>, f: AbstractEntity<T>)
    ensures e.Equals(EntityRef(f)) <==> e == f
  {
  }

  /** Two distinct entities holding equal identifiers: unequal as written, equal as intended. */
  lemma EntityEqualsIgnoresIdentifiers<T>(e: AbstractEntity<T>, f: AbstractEntity<T>)
    requires e != f && e.id != null && f.id != null && e.id.Equals(IdRef(f.id))
    ensures !e.Equals(EntityRef(f))
    ensures e.IntendedEquals(EntityRef(f))
  {
  }

  /**
   * An unset entity equals an unset identifier, but not the other way round: `equals` as
   * written is not symmetric, so `Objects.equals` breaks the symmetry that the contract of
   * `java.lang.Object.equals` demands.
   */
  lemma EntityEqualsIsNotSymmetric<T>(e: AbstractEntity<T>, i: AbstractEntityId<T>)
    requires e.id == null && i.id == None
    ensures e.Equals(IdRef(i))
    ensures !i.Equals(EntityRef(e))
    ensures exists a: Ref<T>, b: Ref<T> :: ObjectsEquals(a, b) && !ObjectsEquals(b, a)
  {
    assert ObjectsEquals(EntityRef(e), IdRef(i)) && !ObjectsEquals(IdRef(i), EntityRef(e));
  }

  /** What an entity equals under `equals` as written has the entity's hash code. */
  lemma EntityHashCodeRespectsEquals<T>(e: AbstractEntity<T>, o: Ref<T>, h: Hashing<T>)
    requires e.Equals(o)
    ensures o.IdRef? ==> e.HashCode(h) == o.ident.HashCode(h)
    ensures o.EntityRef? ==> e.HashCode(h) == o.entity.HashCode(h)
  {
  }

  // ---------------------------------------------------------------------------
  // Properties of entity equality as intended

  /** Restricted to entities, the intended `equals` is reflexive, symmetric and transitive. */
  lemma IntendedEqualsIsEquivalence<T>(e: AbstractEntity<T>, f: AbstractEntity<T>, g: AbstractEntity<T>)
    ensures e.IntendedEquals(EntityRef(e))
    ensures e.IntendedEquals(EntityRef(f)) == f.IntendedEquals(EntityRef(e))
    ensures e.IntendedEquals(EntityRef(f)) && f.IntendedEquals(EntityRef(g)) ==> e.IntendedEquals(EntityRef(g))
  {
  }

  /** Under the intended `equals`, entities with identifiers are equal exactly when the identifiers are. */
  lemma IntendedEqualsFollowsIdentifiers<T>(e: AbstractEntity<T>, f: AbstractEntity<T>)
    requires e.id != null && f.id != null
    ensures e.IntendedEquals(EntityRef(f)) <==> e.id.Equals(IdRef(f.id))
  {
  }

  /** Under the intended `equals`, an entity without an identifier equals no entity but itself. */
  lemma IntendedEqualsUnsetIsIdentity<T>(e: AbstractEntity<T>, f: AbstractEntity<T>)
    requires e.id == null || f.id == null
    ensures e.IntendedEquals(EntityRef(f)) <==> e == f
  {
  }

  /** Entities equal under the intended `equals` have equal hash codes. */
  lemma IntendedHashCodeRespectsEquals<T>(e: AbstractEntity<T>, f: AbstractEntity<T>, h: Hashing<T>)
    requires e.IntendedEquals(EntityRef(f))
    ensures e.HashCode(h) == f.HashCode(h)
  {
  }
}
