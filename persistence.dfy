/**
 * The object model the session cache works on: the JDO lifecycle states of a
 * persistent instance, runtime classes, persistent instances (which include
 * the schema objects themselves) and schema-less generic objects.
 */
module Persistence {

  /** The JDO lifecycle states a cached instance can be in. */
  datatype ObjectState =
    | Transient
    | PersistentNew
    | PersistentClean
    | PersistentDirty
    | Hollow
    | PersistentDeleted
    | PersistentNewDeleted

  predicate IsPersistent(s: ObjectState) { !s.Transient? }

  /** Dirty: the instance carries changes that the transaction has not yet written. */
  predicate IsDirty(s: ObjectState)
  {
    s.PersistentNew? || s.PersistentDirty? || s.PersistentDeleted? || s.PersistentNewDeleted?
  }

  /** New: the instance was made persistent in the current transaction. */
  predicate IsNew(s: ObjectState) { s.PersistentNew? || s.PersistentNewDeleted? }

  predicate IsDeleted(s: ObjectState) { s.PersistentDeleted? || s.PersistentNewDeleted? }

  /** A runtime class (`Class<?>`): compared by identity, with its set of super classes. */
  class JavaClass {
    const name: string
    const superClasses: set<JavaClass>
    /** Whether the class is a subclass of the generic-object proxy class. */
    const isGoProxy: bool

    constructor (name: string, superClasses: set<JavaClass>, isGoProxy: bool)
      ensures this.name == name && this.superClasses == superClasses && this.isGoProxy == isGoProxy
    {
      this.name := name;
      this.superClasses := superClasses;
      this.isGoProxy := isGoProxy;
    }

    /** `this.isAssignableFrom(c)`: c is this class or one of its subclasses. */
    predicate IsAssignableFrom(c: JavaClass) { c == this || this in c.superClasses }
  }

  /** Identifier of a database node (the cache keeps one class-to-schema map per node). */
  type NodeId = nat

  /**
   * A persistent instance as the cache sees it. Schema objects are persistent
   * instances too; for them `isSchema` holds and the schema fields are meaningful.
   */
  class PersistentObject {
    var state: ObjectState
    var oid: int
    /** The schema of this instance. */
    var classDef: PersistentObject?
    /** The node the object belongs to. */
    var node: NodeId

    /** Whether this instance is itself a schema (a class definition). */
    const isSchema: bool
    const className: string
    /** The runtime class the schema describes, or null for a schema without one. */
    const javaClass: JavaClass?
    /** The evolved version of this schema, or null for the current version. */
    const nextVersion: PersistentObject?
    /** All super schemata of this schema (the transitive super-class chain). */
    const superSchemata: set<PersistentObject>

    constructor (state: ObjectState, oid: int, classDef: PersistentObject?, node: NodeId,
                 isSchema: bool, className: string, javaClass: JavaClass?,
                 nextVersion: PersistentObject?, superSchemata: set<PersistentObject>)
      ensures this.state == state && this.oid == oid && this.classDef == classDef
      ensures this.node == node && this.isSchema == isSchema && this.className == className
      ensures this.javaClass == javaClass && this.nextVersion == nextVersion
      ensures this.superSchemata == superSchemata
    {
      this.state := state;
      this.oid := oid;
      this.classDef := classDef;
      this.node := node;
      this.isSchema := isSchema;
      this.className := className;
      this.javaClass := javaClass;
      this.nextVersion := nextVersion;
      this.superSchemata := superSchemata;
    }

    /** `hasSuperClass(c)`: c is a super schema of this schema. */
    predicate HasSuperClass(c: PersistentObject) { c in superSchemata }
  }

  /** A schema-less instance, addressed by its oid, with the same lifecycle states. */
  class GenericObject {
    const oid: int
    var state: ObjectState

    constructor (oid: int, state: ObjectState)
      ensures this.oid == oid && this.state == state
    {
      this.oid := oid;
      this.state := state;
    }
  }
}
