/**
 * The per-session object cache: the objects, schemata and generic objects one
 * session knows about, the lists of dirty and deleted instances of the running
 * transaction, and the reconciliation done at rollback and after commit.
 */
module SessionCache {
  import opened Wrappers
  import opened Persistence

  /** The two exceptions the cache raises. */
  datatype CacheError =
    | UnsupportedOperation(message: string)   // re-persisting a deleted instance, iterator removal
    | FatalDataStore(message: string)         // cache-consistency fault

  /** What rollback does to a schema: drop it from the cache, or reload it from the store. */
  datatype SchemaEvent = Removed(schema: PersistentObject) | Refreshed(schema: PersistentObject)

  /** Dirty and new: an instance created in this transaction and never stored. */
  predicate NewDirty(s: ObjectState) { IsDirty(s) && IsNew(s) }

  /** Dirty but not new: a stored instance with unsaved changes. */
  predicate StaleDirty(s: ObjectState) { IsDirty(s) && !IsNew(s) }

  /** The state rollback leaves a dirty-listed instance in (when it is not dropped). */
  function RolledBack(s: ObjectState): (r: ObjectState)
    ensures NewDirty(r) == NewDirty(s)
    ensures r != s ==> StaleDirty(s) && r == Hollow
    ensures !IsDirty(r) || NewDirty(r)
  {
    if StaleDirty(s) then Hollow else s
  }

  function Elems<T>(s: seq<T>): set<T> { set x | x in s }

  ghost function OidsOf(r: set<PersistentObject>): set<int>
    reads r`oid
  {
    set o | o in r :: o.oid
  }

  ghost function NewDirtyOf(r: set<PersistentObject>): set<PersistentObject>
    reads r`state
  {
    set o | o in r && NewDirty(o.state)
  }

  ghost function StaleDirtyOf(r: set<PersistentObject>): set<PersistentObject>
    reads r`state
  {
    set o | o in r && StaleDirty(o.state)
  }

  ghost function DeletedOf(r: set<PersistentObject>): set<PersistentObject>
    reads r`state
  {
    set o | o in r && IsDeleted(o.state)
  }

  /** The runtime classes of the schemata in `r` that belong to node `n`. */
  ghost function ClassesOf(r: set<PersistentObject>, n: NodeId): set<JavaClass?>
    reads r`node
  {
    set s | s in r && s.javaClass != null && s.node == n :: s.javaClass
  }

  /** `m` without the oids of the objects of `s`, removed one after the other. */
  ghost function DropOids<V>(m: map<int, V>, s: seq<PersistentObject>): map<int, V>
    reads s`oid
    decreases |s|
  {
    if s == [] then m else DropOids(m, s[..|s| - 1]) - {s[|s| - 1].oid}
  }

  lemma {:induction false} DropOidsDrops<V>(m: map<int, V>, s: seq<PersistentObject>)
    ensures DropOids(m, s) == m - OidsOf(Elems(s))
    decreases |s|
  {
    if s != [] {
      var init, last := s[..|s| - 1], s[|s| - 1];
      DropOidsDrops(m, init);
      assert Elems(s) == Elems(init) + {last};
      assert OidsOf(Elems(s)) == OidsOf(Elems(init)) + {last.oid};
    }
  }

  /** Per node, the map from runtime class to current schema. */
  type NodeMaps = map<NodeId, map<JavaClass?, PersistentObject>>

  /** `m` without the entry for the runtime class of schema `cs` on its node. */
  function Unregister(m: NodeMaps, cs: PersistentObject): (r: NodeMaps)
    reads cs`node
    ensures r.Keys == m.Keys
  {
    if cs.javaClass != null && cs.node in m then m[cs.node := m[cs.node] - {cs.javaClass}] else m
  }

  /** `m` after unregistering the schemata of `s` one after the other. */
  ghost function UnregisterAll(m: NodeMaps, s: seq<PersistentObject>): NodeMaps
    reads s`node
    decreases |s|
  {
    if s == [] then m else Unregister(UnregisterAll(m, s[..|s| - 1]), s[|s| - 1])
  }

  /** Unregistering a sequence of schemata drops, on every node, exactly their runtime classes. */
  lemma {:induction false} UnregisterAllDrops(m: NodeMaps, s: seq<PersistentObject>)
    ensures UnregisterAll(m, s).Keys == m.Keys
    ensures forall n :: n in m ==> UnregisterAll(m, s)[n] == m[n] - ClassesOf(Elems(s), n)
    decreases |s|
  {
    if s != [] {
      var init, last := s[..|s| - 1], s[|s| - 1];
      UnregisterAllDrops(m, init);
      assert Elems(s) == Elems(init) + {last};
      forall n | n in m
        ensures UnregisterAll(m, s)[n] == m[n] - ClassesOf(Elems(s), n)
      {
        if last.javaClass != null && last.node == n {
          assert ClassesOf(Elems(s), n) == ClassesOf(Elems(init), n) + {last.javaClass};
          assert m[n] - ClassesOf(Elems(init), n) - {last.javaClass} == m[n] - ClassesOf(Elems(s), n);
        } else {
          assert ClassesOf(Elems(s), n) == ClassesOf(Elems(init), n);
        }
      }
    }
  }

  /** Unregistering one more schema continues the fold. */
  lemma UnregisterAllSnoc(m: NodeMaps, s: seq<PersistentObject>, cs: PersistentObject)
    ensures UnregisterAll(m, s + [cs]) == Unregister(UnregisterAll(m, s), cs)
  {
    assert (s + [cs])[..|s|] == s;
  }

  /** The oids of the new dirty instances of `s`. */
  ghost function NewDirtyOids(s: seq<PersistentObject>): (r: set<int>)
    reads s`state, s`oid
    ensures r == OidsOf(NewDirtyOf(Elems(s)))
    decreases |s|
  {
    if s == [] then {}
    else
      var init, last := s[..|s| - 1], s[|s| - 1];
      assert Elems(s) == Elems(init) + {last};
      NewDirtyOids(init) + (if NewDirty(last.state) then {last.oid} else {})
  }

  /** Which instances of `r` are new and dirty, and their oids, did not change between two states. */
  twostate lemma NewDirtyOidsKept(r: set<PersistentObject>)
    requires forall o :: o in r ==> o.oid == old(o.oid) && NewDirty(o.state) == old(NewDirty(o.state))
    ensures OidsOf(NewDirtyOf(r)) == old(OidsOf(NewDirtyOf(r)))
  {
    assert NewDirtyOf(r) == old(NewDirtyOf(r));
  }

  /** The oids of the generic objects of `s` whose state satisfies `p`. */
  ghost function OidsWhere(s: seq<GenericObject>, p: ObjectState -> bool): set<int>
    reads s`state
    decreases |s|
  {
    if s == [] then {} else OidsWhere(s[..|s| - 1], p) + (if p(s[|s| - 1].state) then {s[|s| - 1].oid} else {})
  }

  lemma {:induction false} OidsWhereSelects(s: seq<GenericObject>, p: ObjectState -> bool)
    ensures OidsWhere(s, p) == set g | g in Elems(s) && p(g.state) :: g.oid
    decreases |s|
  {
    if s != [] {
      var init, last := s[..|s| - 1], s[|s| - 1];
      OidsWhereSelects(init, p);
      assert Elems(s) == Elems(init) + {last};
    }
  }

  /** `s` is a current (not evolved) schema for the class called `name`. */
  predicate IsCurrentSchemaNamed(s: PersistentObject, name: string)
  {
    s.nextVersion == null && s.className == name
  }

  function RemovedEvents(s: seq<PersistentObject>): seq<SchemaEvent>
    decreases |s|
  {
    if s == [] then [] else RemovedEvents(s[..|s| - 1]) + [Removed(s[|s| - 1])]
  }

  function RefreshedEvents(s: seq<PersistentObject>): seq<SchemaEvent>
    decreases |s|
  {
    if s == [] then [] else RefreshedEvents(s[..|s| - 1]) + [Refreshed(s[|s| - 1])]
  }

  /** The removal events name the schemata one for one, in order. */
  lemma {:induction false} RemovedEventsAt(s: seq<PersistentObject>)
    ensures |RemovedEvents(s)| == |s|
    ensures forall i :: 0 <= i < |s| ==> RemovedEvents(s)[i] == Removed(s[i])
    decreases |s|
  {
    if s != [] {
      RemovedEventsAt(s[..|s| - 1]);
    }
  }

  /** The reload events name the schemata one for one, in order. */
  lemma {:induction false} RefreshedEventsAt(s: seq<PersistentObject>)
    ensures |RefreshedEvents(s)| == |s|
    ensures forall i :: 0 <= i < |s| ==> RefreshedEvents(s)[i] == Refreshed(s[i])
    decreases |s|
  {
    if s != [] {
      RefreshedEventsAt(s[..|s| - 1]);
    }
  }

  /** Some element of a non-empty set. */
  ghost function Pick<T>(s: set<T>): (x: T)
    requires s != {}
    ensures x in s
  {
    var x :| x in s; x
  }

  /** A key under which `v` is stored in `m`. */
  ghost function KeyOf<K, V>(m: map<K, V>, v: V): (k: K)
    requires v in m.Values
    ensures k in m && m[k] == v
  {
    var k :| k in m && m[k] == v; k
  }

  /** No removal follows a reload in `log`. */
  predicate RemovalsFirst(log: seq<SchemaEvent>)
  {
    forall i, j :: 0 <= i < j < |log| && log[i].Refreshed? ==> log[j].Refreshed?
  }

  /** In the events of a rollback, every removal comes before the first reload, and each schema is named as listed. */
  lemma RemovalsBeforeRefreshes(removed: seq<PersistentObject>, refreshed: seq<PersistentObject>)
    ensures var log := RemovedEvents(removed) + RefreshedEvents(refreshed);
            RemovalsFirst(log) &&
            (forall e :: e in log <==> (e.Removed? && e.schema in removed) || (e.Refreshed? && e.schema in refreshed))
  {
    RemovedEventsAt(removed);
    RefreshedEventsAt(refreshed);
    var log := RemovedEvents(removed) + RefreshedEvents(refreshed);
    var n := |removed|;
    forall e: SchemaEvent | (e.Removed? && e.schema in removed) || (e.Refreshed? && e.schema in refreshed)
      ensures e in log
    {
      if e.Removed? {
        var i :| 0 <= i < n && removed[i] == e.schema;
        assert log[i] == e;
      } else {
        var i :| 0 <= i < |refreshed| && refreshed[i] == e.schema;
        assert log[n + i] == e;
      }
    }
  }

  /** The values of a set in the (unspecified) order an iterator over it yields them. */
  method InSomeOrder<T>(s: set<T>) returns (r: seq<T>)
    ensures Elems(r) == s
  {
    r := [];
    var rest := s;
    while rest != {}
      invariant rest <= s && Elems(r) == s - rest
      decreases rest
    {
      var x :| x in rest;
      assert Elems(r + [x]) == Elems(r) + {x};
      r := r + [x];
      rest := rest - {x};
    }
  }

  class ClientSessionCache {
    /** OID -> cached instance (schema objects included). */
    var objs: map<int, PersistentObject>
    /** OID -> schema. */
    var schemata: map<int, PersistentObject>
    /** Per node: runtime class -> current schema. */
    var nodeSchemata: NodeMaps
    /** Instances reported dirty, in order of notification; may hold duplicates. */
    var dirtyObjects: seq<PersistentObject>
    /** OID -> instance reported deleted. */
    var deletedObjects: map<int, PersistentObject>
    var dirtyGenObjects: seq<GenericObject>
    var genericObjects: map<int, GenericObject>
    /** The schema of schema objects. */
    var metaSchema: PersistentObject
    /** The runtime class of schema objects. */
    const classDefClass: JavaClass
    /** The schema removals and reloads done by rollback, in order. */
    ghost var schemaLog: seq<SchemaEvent>

    /** Every generic object is filed under its own oid. */
    ghost predicate GenericKeysMatch()
      reads this
    {
      forall k :: k in genericObjects ==> genericObjects[k].oid == k
    }

    /**
     * A cache for a new session, holding the two bootstrapped schemata: the
     * schema of all persistent classes and the schema of schema objects.
     */
    constructor (zpc: PersistentObject, meta: PersistentObject, classDefClass: JavaClass)
      ensures schemata == map[zpc.oid := zpc][meta.oid := meta]
      ensures objs == map[] && nodeSchemata == map[] && deletedObjects == map[]
      ensures genericObjects == map[] && dirtyObjects == [] && dirtyGenObjects == []
      ensures metaSchema == meta && this.classDefClass == classDefClass && schemaLog == []
    {
      var boot: map<int, PersistentObject> := map[];
      boot := boot[zpc.oid := zpc];
      objs := map[];
      schemata := boot[meta.oid := meta];
      nodeSchemata := map[];
      dirtyObjects := [];
      deletedObjects := map[];
      dirtyGenObjects := [];
      genericObjects := map[];
      metaSchema := meta;
      this.classDefClass := classDefClass;
      schemaLog := [];
    }

    /** The dirty schemata, split into new ones (to drop) and stored ones (to reload). */
    method DirtySchemata() returns (toRemove: seq<PersistentObject>, toRefresh: seq<PersistentObject>)
      ensures Elems(toRemove) == NewDirtyOf(schemata.Values)
      ensures Elems(toRefresh) == StaleDirtyOf(schemata.Values)
    {
      toRemove, toRefresh := [], [];
      var rest := schemata.Values;
      while rest != {}
        invariant rest <= schemata.Values
        invariant forall s :: s in toRemove <==> s in schemata.Values - rest && NewDirty(s.state)
        invariant forall s :: s in toRefresh <==> s in schemata.Values - rest && StaleDirty(s.state)
        decreases rest
      {
        var cs :| cs in rest;
        if IsDirty(cs.state) {
          if IsNew(cs.state) {
            toRemove := toRemove + [cs];
          } else {
            toRefresh := toRefresh + [cs];
          }
        }
        rest := rest - {cs};
      }
    }

    /** Drop one schema: its oid entry, and its runtime class from its node's map. */
    method RemoveSchema(cs: PersistentObject)
      requires cs.javaClass != null ==> cs.node in nodeSchemata
      modifies this`schemata, this`nodeSchemata, this`schemaLog
      ensures schemata == old(schemata) - {cs.oid}
      ensures nodeSchemata == Unregister(old(nodeSchemata), cs)
      ensures schemaLog == old(schemaLog) + [Removed(cs)]
    {
      schemata := schemata - {cs.oid};
      if cs.javaClass != null {
        nodeSchemata := nodeSchemata[cs.node := nodeSchemata[cs.node] - {cs.javaClass}];
      }
      schemaLog := schemaLog + [Removed(cs)];
    }

    /** Drop the given schemata one after the other. */
    method RemoveSchemata(toRemove: seq<PersistentObject>)
      requires forall s :: s in toRemove && s.javaClass != null ==> s.node in nodeSchemata
      modifies this`schemata, this`nodeSchemata, this`schemaLog
      ensures schemata == old(schemata) - old(OidsOf(Elems(toRemove)))
      ensures nodeSchemata.Keys == old(nodeSchemata).Keys
      ensures forall n :: n in nodeSchemata ==> nodeSchemata[n] == old(nodeSchemata)[n] - old(ClassesOf(Elems(toRemove), n))
      ensures schemaLog == old(schemaLog) + RemovedEvents(toRemove)
    {
      assert DropOids(schemata, toRemove) == schemata - OidsOf(Elems(toRemove)) by {
        DropOidsDrops(schemata, toRemove);
      }
      assert forall n :: n in nodeSchemata ==> UnregisterAll(nodeSchemata, toRemove)[n] == nodeSchemata[n] - ClassesOf(Elems(toRemove), n) by {
        UnregisterAllDrops(nodeSchemata, toRemove);
      }
      var i := 0;
      while i < |toRemove|
        invariant 0 <= i <= |toRemove|
        invariant nodeSchemata.Keys == old(nodeSchemata).Keys
        invariant schemata == old(DropOids(schemata, toRemove[..i]))
        invariant nodeSchemata == old(UnregisterAll(nodeSchemata, toRemove[..i]))
        invariant schemaLog == old(schemaLog) + RemovedEvents(toRemove[..i])
      {
        assert toRemove[..i + 1][..i] == toRemove[..i];
        RemoveSchema(toRemove[i]);
        i := i + 1;
      }
      assert toRemove[..i] == toRemove;
    }

    /**
     * Reload the given schemata from the store. The schema manager is not part
     * of the model: a reloaded schema is clean and the reload is logged.
     */
    method RefreshSchemata(toRefresh: seq<PersistentObject>)
      modifies this`schemaLog, toRefresh`state
      ensures forall s :: s in toRefresh ==> s.state == PersistentClean
      ensures schemaLog == old(schemaLog) + RefreshedEvents(toRefresh)
    {
      var j := 0;
      while j < |toRefresh|
        invariant 0 <= j <= |toRefresh|
        invariant forall s :: s in toRefresh[..j] ==> s.state == PersistentClean
        invariant schemaLog == old(schemaLog) + RefreshedEvents(toRefresh[..j])
      {
        assert toRefresh[..j + 1] == toRefresh[..j] + [toRefresh[j]];
        toRefresh[j].state := PersistentClean;
        schemaLog := schemaLog + [Refreshed(toRefresh[j])];
        j := j + 1;
      }
      assert toRefresh[..j] == toRefresh;
    }

    /**
     * The schema part of rollback: dirty new schemata leave the cache, dirty
     * stored schemata are reloaded from the store, and every removal is done
     * before the first reload.
     */
    method RollbackSchemata()
      requires forall s :: s in schemata.Values && NewDirty(s.state) && s.javaClass != null ==> s.node in nodeSchemata
      modifies this`schemata, this`nodeSchemata, this`schemaLog, schemata.Values`state
      ensures schemata == old(schemata) - old(OidsOf(NewDirtyOf(schemata.Values)))
      ensures nodeSchemata.Keys == old(nodeSchemata).Keys
      ensures forall n :: n in nodeSchemata ==>
                nodeSchemata[n] == old(nodeSchemata)[n] - old(ClassesOf(NewDirtyOf(schemata.Values), n))
      ensures forall s :: s in old(schemata.Values) ==>
                s.state == if old(StaleDirty(s.state)) then PersistentClean else old(s.state)
      ensures |schemaLog| >= |old(schemaLog)| && schemaLog[..|old(schemaLog)|] == old(schemaLog)
      ensures RemovalsFirst(schemaLog[|old(schemaLog)|..])
      ensures forall e :: e in schemaLog[|old(schemaLog)|..] <==>
                (e.Removed? && e.schema in old(NewDirtyOf(schemata.Values))) ||
                (e.Refreshed? && e.schema in old(StaleDirtyOf(schemata.Values)))
    {
      var toRemove, toRefresh := DirtySchemata();
      assert forall s :: s in toRemove ==> s in schemata.Values && NewDirty(s.state) by {
        forall s | s in toRemove
          ensures s in schemata.Values && NewDirty(s.state)
        {
          assert s in Elems(toRemove);
        }
      }
      assert forall s :: s in toRefresh <==> s in schemata.Values && StaleDirty(s.state) by {
        forall s
          ensures s in toRefresh <==> s in schemata.Values && StaleDirty(s.state)
        {
          assert s in toRefresh <==> s in Elems(toRefresh);
        }
      }
      RemoveSchemata(toRemove);
      RefreshSchemata(toRefresh);
      assert schemaLog[|old(schemaLog)|..] == RemovedEvents(toRemove) + RefreshedEvents(toRefresh);
      RemovalsBeforeRefreshes(toRemove, toRefresh);
    }

    /** Rollback of one listed instance: a new one leaves the cache, a stored one turns hollow. */
    method RollbackObject(co: PersistentObject)
      modifies this`objs, co`state
      ensures objs == if NewDirty(old(co.state)) then old(objs) - {co.oid} else old(objs)
      ensures co.state == RolledBack(old(co.state))
    {
      if IsDirty(co.state) { // i.e. not refreshed
        if IsNew(co.state) {
          objs := objs - {co.oid};
        } else {
          co.state := Hollow;
        }
      }
    }

    /** Roll back the instances of `cos` one after the other. */
    method RollbackEach(cos: seq<PersistentObject>)
      modifies this`objs, cos`state
      ensures objs == old(objs) - old(OidsOf(NewDirtyOf(Elems(cos))))
      ensures forall o :: o in cos ==> o.state == RolledBack(old(o.state))
    {
      var i := 0;
      while i < |cos|
        invariant 0 <= i <= |cos|
        invariant objs == old(objs) - old(NewDirtyOids(cos[..i]))
        invariant forall o :: o in cos ==>
                    o.state == if o in cos[..i] then RolledBack(old(o.state)) else old(o.state)
      {
        assert cos[..i + 1][..i] == cos[..i];
        assert cos[..i + 1] == cos[..i] + [cos[i]];
        RollbackObject(cos[i]);
        i := i + 1;
      }
      assert cos[..i] == cos;
    }

    /**
     * The object part of rollback: every instance in the dirty list or the
     * deleted map that is still dirty is dropped from the cache when new and
     * turned hollow otherwise; then both tracking collections are emptied.
     */
    method RollbackObjects()
      modifies this`objs, this`dirtyObjects, this`deletedObjects, dirtyObjects`state, deletedObjects.Values`state
      ensures objs == old(objs) - old(OidsOf(NewDirtyOf(Elems(dirtyObjects) + deletedObjects.Values)))
      ensures forall o :: o in old(Elems(dirtyObjects) + deletedObjects.Values) ==> o.state == RolledBack(old(o.state))
      ensures dirtyObjects == [] && deletedObjects == map[]
    {
      // the dirty list, then the deleted map: one pass over both, back to back
      var dels := InSomeOrder(deletedObjects.Values);
      assert Elems(dirtyObjects + dels) == Elems(dirtyObjects) + deletedObjects.Values;
      RollbackEach(dirtyObjects + dels);
      dirtyObjects := [];
      deletedObjects := map[];
    }

    /** Rollback of one listed generic object: a new one is marked deleted and dropped, another turns hollow. */
    method RollbackGeneric(go: GenericObject)
      modifies this`genericObjects, go`state
      ensures genericObjects == if IsNew(old(go.state)) then old(genericObjects) - {go.oid} else old(genericObjects)
      ensures go.state == if IsNew(old(go.state)) then PersistentNewDeleted else Hollow
    {
      if IsNew(go.state) {
        go.state := PersistentNewDeleted; // prevent further access through existing references
        genericObjects := genericObjects - {go.oid};
      } else {
        go.state := Hollow;
      }
    }

    /** Roll back the listed generic objects one after the other. */
    method RollbackListedGenerics(dirty: seq<GenericObject>)
      requires GenericKeysMatch()
      modifies this`genericObjects, dirty`state
      ensures GenericKeysMatch()
      ensures genericObjects == old(genericObjects) - old(OidsWhere(dirty, IsNew))
      ensures forall g :: g in dirty ==> g.state == if old(IsNew(g.state)) then PersistentNewDeleted else Hollow
    {
      var i := 0;
      while i < |dirty|
        invariant 0 <= i <= |dirty|
        invariant GenericKeysMatch()
        invariant genericObjects == old(genericObjects) - old(OidsWhere(dirty[..i], IsNew))
        invariant forall g :: g in dirty ==>
                    g.state == if g !in dirty[..i] then old(g.state)
                               else if old(IsNew(g.state)) then PersistentNewDeleted else Hollow
      {
        assert dirty[..i + 1][..i] == dirty[..i];
        assert dirty[..i + 1] == dirty[..i] + [dirty[i]];
        RollbackGeneric(dirty[i]);
        i := i + 1;
      }
      assert dirty[..i] == dirty;
    }

    /** Make every cached generic object hollow. */
    method HollowCachedGenerics()
      modifies genericObjects.Values`state
      ensures forall g :: g in genericObjects.Values ==> g.state == Hollow
    {
      var rest := genericObjects.Values;
      while rest != {}
        invariant rest <= genericObjects.Values
        invariant forall g :: g in genericObjects.Values - rest ==> g.state == Hollow
        decreases rest
      {
        var go :| go in rest;
        go.state := Hollow;
        rest := rest - {go};
      }
    }

    /**
     * The generic-object part of rollback: new dirty generic objects are
     * marked deleted and dropped, every other generic object turns hollow.
     */
    method RollbackGenerics()
      requires GenericKeysMatch()
      modifies this`genericObjects, this`dirtyGenObjects, dirtyGenObjects`state, genericObjects.Values`state
      ensures GenericKeysMatch() && dirtyGenObjects == []
      ensures genericObjects == old(genericObjects) - old(OidsWhere(dirtyGenObjects, IsNew))
      ensures forall g :: g in genericObjects.Values ==> g.state == Hollow
      ensures forall g :: g in old(dirtyGenObjects) && old(IsNew(g.state)) ==> g.state == PersistentNewDeleted
      ensures forall g :: g in old(dirtyGenObjects) && !old(IsNew(g.state)) ==> g.state == Hollow
    {
      var dirty := dirtyGenObjects;
      assert forall g :: g in dirty && IsNew(g.state) ==> g.oid in OidsWhere(dirty, IsNew) by {
        OidsWhereSelects(dirty, IsNew);
        forall g | g in dirty && IsNew(g.state)
          ensures g.oid in OidsWhere(dirty, IsNew)
        {
          assert g in Elems(dirty);
        }
      }
      RollbackListedGenerics(dirty);
      forall g | g in dirty && old(IsNew(g.state))
        ensures g !in genericObjects.Values
      {
        if g in genericObjects.Values {
          var k := KeyOf(genericObjects, g);
          assert false;
        }
      }
      HollowCachedGenerics();
      dirtyGenObjects := [];
    }

    /**
     * The schema and instance part of rollback: dirty new schemata leave the
     * cache, dirty stored schemata are reloaded (clean), and then every listed
     * instance not reloaded meanwhile is dropped when new and made hollow otherwise.
     */
    method RollbackCached()
      requires forall s :: s in schemata.Values && NewDirty(s.state) && s.javaClass != null ==> s.node in nodeSchemata
      modifies this`schemata, this`nodeSchemata, this`schemaLog, this`objs, this`dirtyObjects, this`deletedObjects,
               schemata.Values`state, dirtyObjects`state, deletedObjects.Values`state
      ensures schemata == old(schemata) - old(OidsOf(NewDirtyOf(schemata.Values)))
      ensures nodeSchemata.Keys == old(nodeSchemata).Keys
      ensures forall n :: n in nodeSchemata ==>
                nodeSchemata[n] == old(nodeSchemata)[n] - old(ClassesOf(NewDirtyOf(schemata.Values), n))
      ensures |schemaLog| >= |old(schemaLog)| && schemaLog[..|old(schemaLog)|] == old(schemaLog)
      ensures RemovalsFirst(schemaLog[|old(schemaLog)|..])
      ensures objs == old(objs) - old(OidsOf(NewDirtyOf(Elems(dirtyObjects) + deletedObjects.Values)))
      ensures forall o :: o in old(StaleDirtyOf(schemata.Values)) ==> o.state == PersistentClean
      ensures forall o :: o in old(Elems(dirtyObjects) + deletedObjects.Values) && o !in old(StaleDirtyOf(schemata.Values)) ==>
                o.state == RolledBack(old(o.state))
      ensures forall s :: s in old(schemata.Values) && !old(StaleDirty(s.state)) && s !in old(Elems(dirtyObjects) + deletedObjects.Values) ==>
                s.state == old(s.state)
      ensures dirtyObjects == [] && deletedObjects == map[]
    {
      ghost var listed := Elems(dirtyObjects) + deletedObjects.Values;
      RollbackSchemata();
      NewDirtyOidsKept(listed);
      RollbackObjects();
    }

    /**
     * Rollback: reconcile the cache with the store as it was before the
     * transaction began (schemata first, then instances, then generic objects).
     */
    method Rollback()
      requires forall s :: s in schemata.Values && NewDirty(s.state) && s.javaClass != null ==> s.node in nodeSchemata
      requires GenericKeysMatch()
      modifies this`schemata, this`nodeSchemata, this`schemaLog, this`objs, this`dirtyObjects, this`deletedObjects,
               this`genericObjects, this`dirtyGenObjects, schemata.Values`state, dirtyObjects`state,
               deletedObjects.Values`state, dirtyGenObjects`state, genericObjects.Values`state
      ensures schemata == old(schemata) - old(OidsOf(NewDirtyOf(schemata.Values)))
      ensures nodeSchemata.Keys == old(nodeSchemata).Keys
      ensures forall n :: n in nodeSchemata ==>
                nodeSchemata[n] == old(nodeSchemata)[n] - old(ClassesOf(NewDirtyOf(schemata.Values), n))
      ensures |schemaLog| >= |old(schemaLog)| && schemaLog[..|old(schemaLog)|] == old(schemaLog)
      ensures RemovalsFirst(schemaLog[|old(schemaLog)|..])
      ensures objs == old(objs) - old(OidsOf(NewDirtyOf(Elems(dirtyObjects) + deletedObjects.Values)))
      ensures forall o :: o in old(StaleDirtyOf(schemata.Values)) ==> o.state == PersistentClean
      ensures forall o :: o in old(Elems(dirtyObjects) + deletedObjects.Values) && o !in old(StaleDirtyOf(schemata.Values)) ==>
                o.state == RolledBack(old(o.state))
      ensures forall s :: s in old(schemata.Values) && !old(StaleDirty(s.state)) && s !in old(Elems(dirtyObjects) + deletedObjects.Values) ==>
                s.state == old(s.state)
      ensures dirtyObjects == [] && deletedObjects == map[] && dirtyGenObjects == []
      ensures GenericKeysMatch()
      ensures genericObjects == old(genericObjects) - old(OidsWhere(dirtyGenObjects, IsNew))
      ensures forall g :: g in genericObjects.Values ==> g.state == Hollow
      ensures forall g :: g in old(dirtyGenObjects) && old(IsNew(g.state)) ==> g.state == PersistentNewDeleted
      ensures forall g :: g in old(dirtyGenObjects) && !old(IsNew(g.state)) ==> g.state == Hollow
    {
      ghost var newGenerics := OidsWhere(dirtyGenObjects, IsNew);
      RollbackCached();
      assert OidsWhere(dirtyGenObjects, IsNew) == newGenerics;
      RollbackGenerics();
    }

    /**
     * Make a transient instance persistent under `oid`: fails for a deleted
     * instance, does nothing for one already persistent.
     */
    method MarkPersistent(pc: PersistentObject, oid: int, node: NodeId, clsDef: PersistentObject) returns (r: Outcome<CacheError>)
      modifies this`objs, pc`state, pc`oid, pc`classDef, pc`node
      ensures IsDeleted(old(pc.state)) <==> r.Fail?
      ensures r.Fail? ==> r.error.UnsupportedOperation?
      ensures r.Fail? || IsPersistent(old(pc.state)) ==>
                objs == old(objs) && pc.state == old(pc.state) && pc.oid == old(pc.oid) && pc.classDef == old(pc.classDef) &&
                pc.node == old(pc.node)
      ensures !IsPersistent(old(pc.state)) ==>
                objs == old(objs)[oid := pc] && pc.state == PersistentNew && pc.oid == oid && pc.classDef == clsDef &&
                pc.node == clsDef.node
    {
      if IsDeleted(pc.state) {
        return Fail(UnsupportedOperation("Make it persistent again"));
      }
      if IsPersistent(pc.state) {
        return Pass;
      }
      AddToCache(pc, clsDef, oid, PersistentNew);
      r := Pass;
    }

    /** Drop an instance from the cache and make it transient; a fatal fault if it is not cached. */
    method MakeTransient(pc: PersistentObject) returns (r: Outcome<CacheError>)
      modifies this`objs, pc`state
      ensures r.Fail? <==> pc.oid !in old(objs)
      ensures r.Fail? ==> r.error.FatalDataStore? && objs == old(objs) && pc.state == old(pc.state)
      ensures r.Pass? ==> objs == old(objs) - {pc.oid} && pc.state == Transient
    {
      if pc.oid !in objs {
        return Fail(FatalDataStore("Object is not in cache."));
      }
      objs := objs - {pc.oid};
      pc.state := Transient;
      r := Pass;
    }

    /**
     * Initialise `obj` with the given state, the schema's context (the schema
     * and its node) and oid, and cache it under that oid.
     */
    method AddToCache(obj: PersistentObject, classDef: PersistentObject, oid: int, state: ObjectState)
      modifies this`objs, obj`state, obj`oid, obj`classDef, obj`node
      ensures obj.state == state && obj.oid == oid && obj.classDef == classDef && obj.node == classDef.node
      ensures objs == old(objs)[oid := obj]
    {
      obj.state, obj.classDef, obj.oid := state, classDef, oid;
      obj.node := classDef.node;
      objs := objs[obj.oid := obj];
    }

    function FindCoByOid(oid: int): (r: Option<PersistentObject>)
      reads this
      ensures r.Some? <==> oid in objs
      ensures r.Some? ==> r.value == objs[oid] && r.value in objs.Values
    {
      if oid in objs then Some(objs[oid]) else None
    }

    /**
     * The schema for a runtime class on a node: from the node's map, or else
     * the current schema of that class name, which is then entered in the map.
     */
    method GetSchemaForClass(cls: JavaClass?, node: NodeId) returns (r: PersistentObject?)
      requires node in nodeSchemata
      modifies this`nodeSchemata
      ensures cls in old(nodeSchemata[node]) ==> r == old(nodeSchemata[node][cls]) && nodeSchemata == old(nodeSchemata)
      ensures cls !in old(nodeSchemata[node]) && cls == null ==> r == null && nodeSchemata == old(nodeSchemata)
      ensures cls !in old(nodeSchemata[node]) && cls != null ==>
                (r == null <==> forall s :: s in schemata.Values ==> !IsCurrentSchemaNamed(s, cls.name)) &&
                (r != null ==> r in schemata.Values && IsCurrentSchemaNamed(r, cls.name) &&
                               nodeSchemata == old(nodeSchemata)[node := old(nodeSchemata[node])[cls := r]]) &&
                (r == null ==> nodeSchemata == old(nodeSchemata))
    {
      var perNode := nodeSchemata[node];
      if cls in perNode {
        return perNode[cls];
      }
      if cls == null {
        return null;
      }
      // try virtual/generic schemata
      r := GetSchemaByName(cls.name);
      if r != null {
        nodeSchemata := nodeSchemata[node := perNode[cls := r]];
      }
    }

    /** The current schema of the class called `clsName`, or null when there is none. */
    method GetSchemaByName(clsName: string) returns (r: PersistentObject?)
      ensures r == null <==> forall s :: s in schemata.Values ==> !IsCurrentSchemaNamed(s, clsName)
      ensures r != null ==> r in schemata.Values && IsCurrentSchemaNamed(r, clsName)
    {
      var rest := schemata.Values;
      while rest != {}
        invariant rest <= schemata.Values
        invariant forall s :: s in schemata.Values - rest ==> !IsCurrentSchemaNamed(s, clsName)
        decreases rest
      {
        var def :| def in rest;
        if def.nextVersion == null && def.className == clsName {
          return def;
        }
        rest := rest - {def};
      }
      return null;
    }

    function GetSchemaByOid(schemaOid: int): (r: Option<PersistentObject>)
      reads this
      ensures r.Some? <==> schemaOid in schemata
      ensures r.Some? ==> r.value == schemata[schemaOid] && r.value in schemata.Values
    {
      if schemaOid in schemata then Some(schemata[schemaOid]) else None
    }

    /** After commit: drop from the cache every deleted-listed instance whose deletion is confirmed. */
    method PurgeDeletedObjects()
      modifies this`objs
      ensures objs == old(objs) - OidsOf(DeletedOf(deletedObjects.Values))
    {
      var rest := deletedObjects.Values;
      while rest != {}
        invariant rest <= deletedObjects.Values
        invariant objs == old(objs) - OidsOf(DeletedOf(deletedObjects.Values - rest))
        decreases rest
      {
        var co :| co in rest;
        if IsDeleted(co.state) {
          objs := objs - {co.oid};
          // post-delete listeners are notified here
        }
        rest := rest - {co};
        assert DeletedOf(deletedObjects.Values - rest) ==
               DeletedOf(deletedObjects.Values - (rest + {co})) + (if IsDeleted(co.state) then {co} else {});
      }
    }

    /** After commit with retained values: every dirty-listed instance that is not deleted turns clean. */
    method CleanDirtyObjects()
      modifies dirtyObjects`state
      ensures forall o :: o in dirtyObjects ==>
                o.state == if IsDeleted(old(o.state)) then old(o.state) else PersistentClean
    {
      var i := 0;
      while i < |dirtyObjects|
        invariant 0 <= i <= |dirtyObjects|
        invariant forall o :: o in dirtyObjects ==>
                    o.state == if o in dirtyObjects[..i] && !IsDeleted(old(o.state)) then PersistentClean else old(o.state)
      {
        var co := dirtyObjects[i];
        if !IsDeleted(co.state) {
          co.state := PersistentClean;
        }
        assert dirtyObjects[..i + 1] == dirtyObjects[..i] + [co];
        i := i + 1;
      }
      assert dirtyObjects[..i] == dirtyObjects;
    }

    /**
     * After commit without retained values: every cached schema object turns
     * clean and every other cached instance is evicted (hollow). The test is
     * kept as written, `retainValues || isSchema`, although its only caller
     * passes `retainValues == false`.
     */
    method CleanOrEvictCached(retainValues: bool)
      modifies objs.Values`state
      ensures forall o :: o in objs.Values ==>
                o.state == if retainValues || o.isSchema then PersistentClean else Hollow
    {
      var rest := objs.Values;
      while rest != {}
        invariant rest <= objs.Values
        invariant forall o :: o in objs.Values - rest ==>
                    o.state == if retainValues || o.isSchema then PersistentClean else Hollow
        decreases rest
      {
        var co :| co in rest;
        if retainValues || co.isSchema {
          co.state := PersistentClean;
        } else {
          co.state := Hollow; // evict: field values are dropped
        }
        // post-store listeners are notified here
        rest := rest - {co};
      }
    }

    /** After commit, one listed generic object: a deleted one leaves the map, another turns clean. */
    method PostCommitGeneric(go: GenericObject)
      modifies this`genericObjects, go`state
      ensures genericObjects == if IsDeleted(old(go.state)) then old(genericObjects) - {go.oid} else old(genericObjects)
      ensures go.state == if IsDeleted(old(go.state)) then old(go.state) else PersistentClean
    {
      if IsDeleted(go.state) {
        genericObjects := genericObjects - {go.oid};
      } else {
        go.state := PersistentClean;
      }
    }

    /** After commit, the listed generic objects one after the other. */
    method PostCommitListedGenerics(dirty: seq<GenericObject>)
      modifies this`genericObjects, dirty`state
      ensures genericObjects == old(genericObjects) - old(OidsWhere(dirty, IsDeleted))
      ensures forall g :: g in dirty ==> g.state == if old(IsDeleted(g.state)) then old(g.state) else PersistentClean
    {
      var i := 0;
      while i < |dirty|
        invariant 0 <= i <= |dirty|
        invariant genericObjects == old(genericObjects) - old(OidsWhere(dirty[..i], IsDeleted))
        invariant forall g :: g in dirty ==>
                    g.state == if g in dirty[..i] && !old(IsDeleted(g.state)) then PersistentClean else old(g.state)
      {
        assert dirty[..i + 1][..i] == dirty[..i];
        assert dirty[..i + 1] == dirty[..i] + [dirty[i]];
        PostCommitGeneric(dirty[i]);
        i := i + 1;
      }
      assert dirty[..i] == dirty;
    }

    /** After commit, every cached generic object turns hollow unless values are retained. */
    method EvictCachedGenerics(retainValues: bool)
      modifies genericObjects.Values`state
      ensures forall g :: g in genericObjects.Values ==> g.state == if retainValues then old(g.state) else Hollow
    {
      var rest := genericObjects.Values;
      while rest != {}
        invariant rest <= genericObjects.Values
        invariant forall g :: g in genericObjects.Values ==>
                    g.state == if g !in rest && !retainValues then Hollow else old(g.state)
        decreases rest
      {
        var go :| go in rest;
        if !retainValues {
          go.state := Hollow;
        }
        rest := rest - {go};
      }
    }

    /**
     * After commit, generic objects: deleted listed ones leave the map, other
     * listed ones turn clean, and without retained values every generic object
     * left in the map turns hollow.
     */
    method PostCommitGenerics(retainValues: bool)
      modifies this`genericObjects, this`dirtyGenObjects, dirtyGenObjects`state, genericObjects.Values`state
      ensures dirtyGenObjects == []
      ensures genericObjects == old(genericObjects) - old(OidsWhere(dirtyGenObjects, IsDeleted))
      ensures !retainValues ==> forall g :: g in genericObjects.Values ==> g.state == Hollow
      ensures forall g :: g in old(dirtyGenObjects) && (retainValues || g !in genericObjects.Values) ==>
                g.state == if old(IsDeleted(g.state)) then old(g.state) else PersistentClean
      ensures retainValues ==> forall g :: g in old(genericObjects.Values) && g !in old(dirtyGenObjects) ==> g.state == old(g.state)
    {
      var dirty := dirtyGenObjects;
      PostCommitListedGenerics(dirty);
      EvictCachedGenerics(retainValues);
      dirtyGenObjects := [];
    }

    /**
     * After commit, schemata: a deleted schema leaves the cache and its runtime
     * class leaves its node's map; every other schema turns clean.
     */
    method PostCommitSchemata()
      requires forall s :: s in schemata.Values && IsDeleted(s.state) && s.javaClass != null ==> s.node in nodeSchemata
      modifies this`schemata, this`nodeSchemata, schemata.Values`state
      ensures forall k :: k in schemata <==> k in old(schemata) && !old(IsDeleted(schemata[k].state))
      ensures forall k :: k in schemata ==> schemata[k] == old(schemata[k])
      ensures forall s :: s in schemata.Values ==> s.state == PersistentClean
      ensures forall s :: s in old(schemata.Values) && old(IsDeleted(s.state)) ==> s.state == old(s.state)
      ensures nodeSchemata.Keys == old(nodeSchemata).Keys
      ensures forall n :: n in nodeSchemata ==>
                nodeSchemata[n] == old(nodeSchemata)[n] - old(ClassesOf(DeletedOf(schemata.Values), n))
    {
      schemata, nodeSchemata := SettleSchemata(schemata, nodeSchemata);
    }

    /**
     * The instance part of post-commit: confirmed deletions leave the cache;
     * with `retainValues` the listed instances turn clean, without it every
     * cached instance is made clean (schema objects) or evicted (the rest);
     * then the dirty list and the deleted map are emptied.
     */
    method PostCommitCached(retainValues: bool)
      modifies this`objs, this`dirtyObjects, this`deletedObjects, objs.Values`state, dirtyObjects`state
      ensures objs == old(objs) - old(OidsOf(DeletedOf(deletedObjects.Values)))
      ensures retainValues ==> forall o :: o in old(dirtyObjects) ==>
                o.state == if old(IsDeleted(o.state)) then old(o.state) else PersistentClean
      ensures !retainValues ==> forall o :: o in objs.Values ==> o.state == if o.isSchema then PersistentClean else Hollow
      ensures forall s :: s in schemata.Values && IsDeleted(s.state) ==> old(IsDeleted(s.state))
      ensures retainValues ==> forall o :: o in old(objs.Values) && o !in old(dirtyObjects) ==> o.state == old(o.state)
      ensures retainValues ==> forall s :: s in old(schemata.Values) && old(IsDeleted(s.state)) ==> s.state == old(s.state)
      ensures !retainValues ==> forall s :: s in old(schemata.Values) && s !in objs.Values ==> s.state == old(s.state)
      ensures schemata == old(schemata) && nodeSchemata == old(nodeSchemata)
      ensures DeletedOf(schemata.Values) == SchemataGone(old(DeletedOf(schemata.Values)), retainValues)
      ensures dirtyObjects == [] && deletedObjects == map[]
    {
      PurgeDeletedObjects();
      if retainValues {
        CleanDirtyObjects();
      } else {
        // a cache of more than 100000 objects gets a debug message suggesting retainValues
        CleanOrEvictCached(retainValues);
      }
      dirtyObjects := [];
      deletedObjects := map[];
    }

    /**
     * The deleted schemata that the schema pass of post-commit removes: all of
     * them with retained values; otherwise those that the eviction pass did not
     * turn clean because they are no longer cached as instances.
     */
    ghost function SchemataGone(deleted: set<PersistentObject>, retainValues: bool): set<PersistentObject>
      reads this
    {
      set s | s in deleted && (retainValues || s !in objs.Values)
    }

    /**
     * Clean out the cache after a commit: confirmed deletions leave the cache,
     * surviving instances turn clean (with `retainValues`) or are evicted
     * (without it, schema objects excepted), deleted schemata leave the cache,
     * and the transaction's tracking collections are emptied.
     */
    method PostCommit(retainValues: bool)
      requires forall s :: s in schemata.Values && IsDeleted(s.state) && s.javaClass != null ==> s.node in nodeSchemata
      modifies this`objs, this`dirtyObjects, this`deletedObjects, this`genericObjects, this`dirtyGenObjects,
               this`schemata, this`nodeSchemata, objs.Values`state, dirtyObjects`state,
               dirtyGenObjects`state, genericObjects.Values`state, schemata.Values`state
      ensures objs == old(objs) - old(OidsOf(DeletedOf(deletedObjects.Values)))
      ensures retainValues ==> forall o :: o in old(dirtyObjects) && !old(IsDeleted(o.state)) && o !in old(schemata.Values) ==>
                o.state == PersistentClean
      ensures !retainValues ==> forall o :: o in objs.Values && o !in old(schemata.Values) ==>
                o.state == if o.isSchema then PersistentClean else Hollow
      ensures dirtyObjects == [] && deletedObjects == map[] && dirtyGenObjects == []
      ensures forall s :: s in schemata.Values ==> s.state == PersistentClean
      ensures forall k :: k in schemata ==> k in old(schemata) && schemata[k] == old(schemata[k])
      ensures forall k :: k in schemata <==> k in old(schemata) && old(schemata[k]) !in SchemataGone(old(DeletedOf(schemata.Values)), retainValues)
      ensures nodeSchemata.Keys == old(nodeSchemata).Keys
      ensures forall n :: n in nodeSchemata ==>
                nodeSchemata[n] == old(nodeSchemata)[n] - ClassesOf(SchemataGone(old(DeletedOf(schemata.Values)), retainValues), n)
      ensures genericObjects == old(genericObjects) - old(OidsWhere(dirtyGenObjects, IsDeleted))
      ensures !retainValues ==> forall g :: g in genericObjects.Values ==> g.state == Hollow
      ensures retainValues ==> forall o :: o in old(objs.Values) && o !in old(dirtyObjects) && o !in old(schemata.Values) ==>
                o.state == old(o.state)
      ensures forall g :: g in old(dirtyGenObjects) && (retainValues || g !in genericObjects.Values) ==>
                g.state == if old(IsDeleted(g.state)) then old(g.state) else PersistentClean
      ensures retainValues ==> forall g :: g in old(genericObjects.Values) && g !in old(dirtyGenObjects) ==> g.state == old(g.state)
    {
      ghost var deletedGenerics := OidsWhere(dirtyGenObjects, IsDeleted);
      PostCommitCached(retainValues);
      label cached:
      assert OidsWhere(dirtyGenObjects, IsDeleted) == deletedGenerics;
      assert DeletedOf(schemata.Values) == SchemataGone(old(DeletedOf(schemata.Values)), retainValues);
      PostCommitRest(retainValues);
    }

    /** The generic-object and schema parts of post-commit, which follow the instance part. */
    method PostCommitRest(retainValues: bool)
      requires forall s :: s in schemata.Values && IsDeleted(s.state) && s.javaClass != null ==> s.node in nodeSchemata
      modifies this`genericObjects, this`dirtyGenObjects, dirtyGenObjects`state, genericObjects.Values`state,
               this`schemata, this`nodeSchemata, schemata.Values`state
      ensures dirtyGenObjects == []
      ensures genericObjects == old(genericObjects) - old(OidsWhere(dirtyGenObjects, IsDeleted))
      ensures !retainValues ==> forall g :: g in genericObjects.Values ==> g.state == Hollow
      ensures forall g :: g in old(dirtyGenObjects) && (retainValues || g !in genericObjects.Values) ==>
                g.state == if old(IsDeleted(g.state)) then old(g.state) else PersistentClean
      ensures retainValues ==> forall g :: g in old(genericObjects.Values) && g !in old(dirtyGenObjects) ==> g.state == old(g.state)
      ensures forall s :: s in schemata.Values ==> s.state == PersistentClean
      ensures forall k :: k in schemata <==> k in old(schemata) && !old(IsDeleted(schemata[k].state))
      ensures forall k :: k in schemata <==> k in old(schemata) && old(schemata[k]) !in old(DeletedOf(schemata.Values))
      ensures forall k :: k in schemata ==> schemata[k] == old(schemata[k])
      ensures forall s :: s in old(schemata.Values) && old(IsDeleted(s.state)) ==> s.state == old(s.state)
      ensures nodeSchemata.Keys == old(nodeSchemata).Keys
      ensures forall n :: n in nodeSchemata ==>
                nodeSchemata[n] == old(nodeSchemata)[n] - ClassesOf(old(DeletedOf(schemata.Values)), n)
      ensures forall o :: o in objs.Values && o !in old(schemata.Values) ==> o.state == old(o.state)
    {
      PostCommitGenerics(retainValues);
      PostCommitSchemata();
    }

    /** Register a schema: as clean when it was loaded, as new otherwise. */
    method AddSchema(clsDef: PersistentObject, isLoaded: bool, node: NodeId)
      requires clsDef.nextVersion == null && clsDef.javaClass != null ==> node in nodeSchemata
      modifies this`schemata, this`nodeSchemata, this`objs, clsDef`state, clsDef`classDef, clsDef`node
      ensures clsDef.state == if isLoaded then PersistentClean else PersistentNew
      ensures clsDef.classDef == metaSchema && clsDef.node == node
      ensures schemata == old(schemata)[clsDef.oid := clsDef]
      ensures objs == old(objs)[clsDef.oid := clsDef]
      ensures nodeSchemata ==
                if clsDef.nextVersion == null && clsDef.javaClass != null
                then old(nodeSchemata)[node := old(nodeSchemata)[node][clsDef.javaClass := clsDef]]
                else old(nodeSchemata)
    {
      var state := if isLoaded then PersistentClean else PersistentNew;
      clsDef.state, clsDef.classDef := state, metaSchema;
      clsDef.node := node;
      schemata := schemata[clsDef.oid := clsDef];
      if clsDef.nextVersion == null && clsDef.javaClass != null {
        nodeSchemata := nodeSchemata[node := nodeSchemata[node][clsDef.javaClass := clsDef]];
      }
      objs := objs[clsDef.oid := clsDef];
    }

    /** Re-file a node's class map after schema evolution: `oldCls` out, the new schema's class in. */
    method UpdateSchema(newClsDef: PersistentObject, oldCls: JavaClass?)
      requires newClsDef.node in nodeSchemata
      modifies this`nodeSchemata
      ensures var n := newClsDef.node;
              var cleared := old(nodeSchemata)[n] - {oldCls};
              nodeSchemata == old(nodeSchemata)[n := if newClsDef.javaClass != null
                                                     then cleared[newClsDef.javaClass := newClsDef]
                                                     else cleared]
    {
      var node := newClsDef.node;
      // removal may find nothing when the class was stored as null before
      nodeSchemata := nodeSchemata[node := nodeSchemata[node] - {oldCls}];
      if newClsDef.javaClass != null {
        nodeSchemata := nodeSchemata[node := nodeSchemata[node][newClsDef.javaClass := newClsDef]];
      }
    }

    /** Forget every cached instance and schema (the tracking lists are left as they are). */
    method Close()
      modifies this`objs, this`schemata, this`nodeSchemata
      ensures objs == map[] && schemata == map[] && nodeSchemata == map[]
    {
      objs := map[];
      schemata := map[];
      nodeSchemata := map[];
    }

    /** Evict (make hollow) every cached instance that is not dirty. */
    method EvictAll()
      modifies objs.Values`state
      ensures forall o :: o in objs.Values ==> o.state == if IsDirty(old(o.state)) then old(o.state) else Hollow
    {
      var rest := objs.Values;
      while rest != {}
        invariant rest <= objs.Values
        invariant forall o :: o in objs.Values ==>
                    o.state == if o !in rest && !IsDirty(old(o.state)) then Hollow else old(o.state)
        decreases rest
      {
        var co :| co in rest;
        if !IsDirty(co.state) {
          co.state := Hollow;
        }
        rest := rest - {co};
      }
    }

    /** The instance's runtime class is `cls` or, with `subClasses`, a subclass of `cls`. */
    predicate EvictSelects(co: PersistentObject, subClasses: bool, cls: JavaClass)
      reads co`classDef
    {
      co.classDef != null &&
      (co.classDef.javaClass == cls ||
       (subClasses && co.classDef.javaClass != null && cls.IsAssignableFrom(co.classDef.javaClass)))
    }

    /** Evict every cached instance of class `cls` (or of its subclasses) that is not dirty. */
    method EvictAllOfClass(subClasses: bool, cls: JavaClass)
      requires forall o :: o in objs.Values && !IsDirty(o.state) ==>
                 o.classDef != null && (subClasses && o.classDef.javaClass != cls ==> o.classDef.javaClass != null)
      modifies objs.Values`state
      ensures forall o :: o in objs.Values ==>
                o.state == if !IsDirty(old(o.state)) && EvictSelects(o, subClasses, cls) then Hollow else old(o.state)
    {
      var rest := objs.Values;
      while rest != {}
        invariant rest <= objs.Values
        invariant forall o :: o in objs.Values ==>
                    o.state == if o !in rest && !IsDirty(old(o.state)) && EvictSelects(o, subClasses, cls)
                               then Hollow else old(o.state)
        decreases rest
      {
        var co :| co in rest;
        if !IsDirty(co.state) && EvictSelects(co, subClasses, cls) {
          co.state := Hollow;
        }
        rest := rest - {co};
      }
    }

    /** Open a node: its class map starts with the schema of schema objects. */
    method AddNode(node: NodeId)
      modifies this`nodeSchemata
      ensures node in nodeSchemata && nodeSchemata[node] == map[classDefClass := metaSchema]
      ensures forall n :: n != node ==> (n in nodeSchemata <==> n in old(nodeSchemata))
      ensures forall n :: n != node && n in nodeSchemata ==> nodeSchemata[n] == old(nodeSchemata[n])
    {
      var perNode: map<JavaClass?, PersistentObject> := map[];
      perNode := perNode[classDefClass := metaSchema];
      nodeSchemata := nodeSchemata[node := perNode];
    }

    /** Replace the schema of schema objects by its loaded version. */
    method SetRootSchema(def: PersistentObject)
      modifies this`metaSchema
      ensures metaSchema == def
    {
      metaSchema := def;
    }

    /** Record that `pc` was changed; the list is not deduplicated. */
    method NotifyDirty(pc: PersistentObject)
      modifies this`dirtyObjects
      ensures dirtyObjects == old(dirtyObjects) + [pc]
    {
      dirtyObjects := dirtyObjects + [pc];
    }

    /** Record that `pc` was deleted, under its oid. */
    method NotifyDelete(pc: PersistentObject)
      modifies this`deletedObjects
      ensures deletedObjects == old(deletedObjects)[pc.oid := pc]
    {
      deletedObjects := deletedObjects[pc.oid := pc];
    }

    /** Cache a generic object under its oid, and list it as dirty when it is. */
    method AddGeneric(go: GenericObject)
      modifies this`dirtyGenObjects, this`genericObjects
      ensures genericObjects == old(genericObjects)[go.oid := go]
      ensures dirtyGenObjects == if IsDirty(go.state) then old(dirtyGenObjects) + [go] else old(dirtyGenObjects)
      ensures old(GenericKeysMatch()) ==> GenericKeysMatch()
    {
      if IsDirty(go.state) {
        dirtyGenObjects := dirtyGenObjects + [go];
      }
      genericObjects := genericObjects[go.oid := go];
    }

    function GetGeneric(oid: int): (r: Option<GenericObject>)
      reads this
      ensures r.Some? <==> oid in genericObjects
      ensures r.Some? ==> r.value == genericObjects[oid] && r.value in genericObjects.Values
    {
      if oid in genericObjects then Some(genericObjects[oid]) else None
    }

    /** An iterator over the cached instances of `def` in state `state`. */
    method Iterator(def: PersistentObject, subClasses: bool, state: ObjectState) returns (it: CacheIterator)
      ensures fresh(it) && it.cls == def && it.subClasses == subClasses && it.state == state
      ensures Elems(it.values) == objs.Values
      ensures var k := it.FirstSelected(it.values);
              if k < |it.values| then it.next == it.values[k] && it.remaining == it.values[k + 1..]
              else it.next == null && it.remaining == []
      ensures it.next != null ==> it.next in objs.Values && it.Selects(it.next)
      ensures it.next == null ==> forall o :: o in objs.Values ==> !it.Selects(o)
    {
      var order := InSomeOrder(objs.Values);
      it := new CacheIterator(order, def, subClasses, state);
    }
  }

  /**
   * The schema pass after commit, over the schema map `all` and the per-node
   * class maps `nodes`: the entries of deleted schemata are removed and their
   * runtime classes unregistered, every other schema is marked clean.
   */
  method SettleSchemata(all: map<int, PersistentObject>, nodes: NodeMaps)
    returns (kept: map<int, PersistentObject>, nodes': NodeMaps)
    requires forall s :: s in all.Values && IsDeleted(s.state) && s.javaClass != null ==> s.node in nodes
    modifies all.Values`state
    ensures forall k :: k in kept <==> k in all && !old(IsDeleted(all[k].state))
    ensures forall k :: k in kept ==> kept[k] == all[k]
    ensures forall s :: s in kept.Values ==> s.state == PersistentClean
    ensures forall s :: s in all.Values && old(IsDeleted(s.state)) ==> s.state == old(s.state)
    ensures nodes'.Keys == nodes.Keys
    ensures forall n :: n in nodes' ==> nodes'[n] == nodes[n] - old(ClassesOf(DeletedOf(all.Values), n))
  {
    ghost var deleted := DeletedOf(all.Values);
    ghost var gone: seq<PersistentObject> := [];
    kept, nodes' := all, nodes;
    var keys := all.Keys;
    while keys != {}
      invariant keys <= all.Keys
      invariant nodes'.Keys == nodes.Keys
      invariant forall k :: k in all ==> (k in kept <==> k in keys || all[k] !in deleted)
      invariant forall k :: k in kept ==> k in all && kept[k] == all[k]
      invariant forall k :: k in all ==> (IsDeleted(all[k].state) <==> all[k] in deleted)
      invariant forall s :: s in deleted ==> s.state == old(s.state)
      invariant forall k :: k in all && k !in keys && all[k] !in deleted ==> all[k].state == PersistentClean
      invariant forall s :: s in gone ==> s in deleted
      invariant forall k :: k in all && k !in keys && all[k] in deleted ==> all[k] in gone
      invariant nodes' == UnregisterAll(nodes, gone)
      decreases keys
    {
      ghost var some := Pick(keys);
      var k :| k in keys;
      var cs := all[k];
      if IsDeleted(cs.state) {
        kept := kept - {k};
        if cs.javaClass != null {
          nodes' := nodes'[cs.node := nodes'[cs.node] - {cs.javaClass}];
        }
        UnregisterAllSnoc(nodes, gone, cs);
        gone := gone + [cs];
      } else {
        cs.state := PersistentClean;
      }
      keys := keys - {k};
    }
    SchemataSettled(kept, all, deleted, gone);
    UnregisterAllDrops(nodes, gone);
  }

  /**
   * What the schema pass after commit leaves behind, once every key has been
   * visited: the removed schemata are exactly the deleted ones, and every
   * schema still cached is clean.
   */
  lemma SchemataSettled(now: map<int, PersistentObject>, all: map<int, PersistentObject>,
                        deleted: set<PersistentObject>, gone: seq<PersistentObject>)
    requires deleted <= all.Values
    requires forall k :: k in all ==> (k in now <==> all[k] !in deleted)
    requires forall k :: k in now ==> k in all && now[k] == all[k]
    requires forall k :: k in all && all[k] !in deleted ==> all[k].state == PersistentClean
    requires forall s :: s in gone ==> s in deleted
    requires forall k :: k in all && all[k] in deleted ==> all[k] in gone
    ensures Elems(gone) == deleted
    ensures forall s :: s in now.Values ==> s.state == PersistentClean
  {
    forall s | s in deleted
      ensures s in gone
    {
      var k := KeyOf(all, s);
    }
    forall s | s in now.Values
      ensures s.state == PersistentClean
    {
      var k := KeyOf(now, s);
    }
  }

  /**
   * A single-pass iterator over a snapshot of the cached instances that picks
   * those of one schema in one lifecycle state.
   */
  class CacheIterator {
    /** The next instance to return, or null when the iteration is over. */
    var next: PersistentObject?
    /** The instances not yet looked at. */
    var remaining: seq<PersistentObject>
    /** All instances, in iteration order. */
    ghost const values: seq<PersistentObject>
    const cls: PersistentObject
    const subClasses: bool
    const state: ObjectState

    /**
     * The filter the iterator runs, as written: the subclass alternative asks whether `cls` is a
     * super class of `cls` itself and never looks at the candidate's schema.
     */
    predicate Selects(co: PersistentObject)
      reads co`classDef, co`state
    {
      (co.classDef == cls || (subClasses && cls.HasSuperClass(cls))) && co.state == state
    }

    /**
     * The filter evidently intended: an instance of `cls`, or with `subClasses`
     * an instance of a schema that has `cls` among its super schemata, in the
     * requested state.
     */
    predicate SelectsIntended(co: PersistentObject)
      reads co`classDef, co`state
    {
      (co.classDef == cls || (subClasses && co.classDef != null && co.classDef.HasSuperClass(cls))) && co.state == state
    }

    /** Index of the first selected instance in `s`, or `|s|` when there is none. */
    function FirstSelected(s: seq<PersistentObject>): (k: nat)
      reads s`classDef, s`state
      ensures k <= |s|
      ensures k < |s| ==> Selects(s[k])
      ensures forall j :: 0 <= j < k ==> !Selects(s[j])
    {
      if s == [] then 0 else if Selects(s[0]) then 0 else 1 + FirstSelected(s[1..])
    }

    constructor (values: seq<PersistentObject>, cls: PersistentObject, subClasses: bool, state: ObjectState)
      ensures this.values == values && this.cls == cls && this.subClasses == subClasses && this.state == state
      ensures var k := FirstSelected(values);
              if k < |values| then next == values[k] && remaining == values[k + 1..]
              else next == null && remaining == []
    {
      this.values := values;
      this.cls := cls;
      this.subClasses := subClasses;
      this.state := state;
      next := null;
      remaining := values;
      new;
      // find the first object
      var _ := Next();
    }

    function HasNext(): (b: bool)
      reads this
      ensures b <==> next != null
    {
      next != null
    }

    /** Return the current instance and advance to the next selected one. */
    method Next() returns (ret: PersistentObject?)
      modifies this`next, this`remaining
      ensures ret == old(next)
      ensures var k := FirstSelected(old(remaining));
              if k < |old(remaining)| then next == old(remaining)[k] && remaining == old(remaining)[k + 1..]
              else next == null && remaining == []
    {
      ret := next;
      ghost var start := remaining;
      while remaining != []
        invariant |remaining| <= |start| && remaining == start[|start| - |remaining|..]
        invariant FirstSelected(start) == |start| - |remaining| + FirstSelected(remaining)
      {
        var co := remaining[0];
        remaining := remaining[1..];
        if Selects(co) {
          next := co;
          return;
        }
      }
      next := null;
    }

    /** Removal through the iterator is not supported. */
    method Remove() returns (r: Outcome<CacheError>)
      ensures r.Fail? && r.error.UnsupportedOperation?
    {
      r := Fail(UnsupportedOperation("remove"));
    }
  }

  /**
   * The subclass test as written has no effect on an acyclic schema
   * hierarchy: only instances of `cls` itself are selected, and an instance of
   * a sub-schema in the requested state is skipped even with `subClasses`.
   */
  lemma SubclassTestIgnoresCandidate(it: CacheIterator, co: PersistentObject)
    requires it.cls !in it.cls.superSchemata
    ensures it.Selects(co) <==> co.classDef == it.cls && co.state == it.state
    ensures co.classDef != null && co.classDef != it.cls && co.classDef.HasSuperClass(it.cls) ==> !it.Selects(co)
  {
  }

  /**
   * The intended filter agrees with the one as written, which the iterator
   * runs, on instances of `cls` and without `subClasses`; with `subClasses` it
   * also selects every instance of a sub-schema in the requested state.
   */
  lemma IntendedFilterWidens(it: CacheIterator, co: PersistentObject)
    requires it.cls !in it.cls.superSchemata
    ensures it.Selects(co) ==> it.SelectsIntended(co)
    ensures !it.subClasses ==> (it.SelectsIntended(co) <==> it.Selects(co))
    ensures it.subClasses && co.classDef != null && co.classDef.HasSuperClass(it.cls) && co.state == it.state ==> it.SelectsIntended(co)
  {
  }
}
