/**
 * The object cache of the database tools: schemata by oid and by class,
 * objects by oid, and one generic-object proxy per oid, each proxy an
 * instance of a proxy class generated once per schema.
 */
module ToolsCache {
  import opened Wrappers
  import opened Persistence

  datatype CacheError =
    /** An argument the cache does not accept (an unknown schema oid, a class that is not a proxy class). */
    | IllegalState
    /** A reference that is null where the source dereferences it. */
    | NullReference

  /** An instance of a generated proxy class, wrapping one generic object. */
  class GoProxy {
    const cls: JavaClass
    var go: GenericObject?

    constructor (cls: JavaClass)
      ensures this.cls == cls && go == null
    {
      this.cls := cls;
      go := null;
    }

    function GetGenericObject(): (r: GenericObject?)
      reads this
      ensures r == go
    {
      go
    }
  }

  class ObjectCache {
    /** Schemata by runtime class (an identity map, which accepts the null class). */
    var sMapC: map<JavaClass?, PersistentObject>
    /** Schemata by schema oid. */
    var sMapI: map<int, PersistentObject>
    /** Objects by oid. */
    var oMap: map<int, PersistentObject>
    /** Generic-object proxies by object oid. */
    var goMap: map<int, GoProxy>
    /** Generated proxy classes by schema oid. */
    var goClsMap: map<int, JavaClass>

    /**
     * Every generated proxy class is a proxy class and is registered as a class
     * of its schema, and so is the class of every cached proxy.
     */
    ghost predicate Valid()
      reads this
    {
      (forall s :: s in goClsMap ==> goClsMap[s].isGoProxy && goClsMap[s] in sMapC) &&
      (forall o :: o in goMap ==> goMap[o].cls.isGoProxy && goMap[o].cls in sMapC)
    }

    constructor ()
      ensures Valid()
      ensures sMapC == map[] && sMapI == map[] && oMap == map[] && goMap == map[] && goClsMap == map[]
    {
      sMapC := map[];
      sMapI := map[];
      oMap := map[];
      goMap := map[];
      goClsMap := map[];
    }

    /** The schema with oid `clsOid`; an oid never added is an error. */
    method GetSchemaByOid(clsOid: int) returns (r: Result<PersistentObject, CacheError>)
      ensures r.Ok? <==> clsOid in sMapI
      ensures r.Ok? ==> r.value == sMapI[clsOid]
      ensures r.Err? ==> r.error == IllegalState
    {
      if clsOid !in sMapI {
        return Err(IllegalState);
      }
      r := Ok(sMapI[clsOid]);
    }

    /** The schema of class `cls`, or none. */
    method GetSchemaForClass(cls: JavaClass?) returns (r: Option<PersistentObject>)
      ensures r.Some? <==> cls in sMapC
      ensures r.Some? ==> r.value == sMapC[cls]
    {
      r := if cls in sMapC then Some(sMapC[cls]) else None;
    }

    method FindCoByOid(oid: int) returns (r: Option<PersistentObject>)
      ensures r.Some? <==> oid in oMap
      ensures r.Some? ==> r.value == oMap[oid]
    {
      r := if oid in oMap then Some(oMap[oid]) else None;
    }

    /** Cache `obj` under `oid`; the class and state arguments of the source are ignored. */
    method AddToCache(obj: PersistentObject, oid: int)
      modifies this`oMap
      ensures oMap == old(oMap)[oid := obj]
    {
      oMap := oMap[oid := obj];
    }

    /** Register `schemaDef` under its oid and under its runtime class. */
    method AddSchema(sOid: int, schemaDef: PersistentObject)
      requires Valid()
      modifies this`sMapI, this`sMapC
      ensures Valid()
      ensures sMapI == old(sMapI)[sOid := schemaDef]
      ensures sMapC == old(sMapC)[schemaDef.javaClass := schemaDef]
    {
      sMapI := sMapI[sOid := schemaDef];
      sMapC := sMapC[schemaDef.javaClass := schemaDef];
    }

    /**
     * The proxy class of schema `def`: the one generated before for its oid,
     * else a new proxy class named `name`, registered for that oid and as a
     * class of `def`.
     */
    method AddGoClass(name: string, def: PersistentObject) returns (goCls: JavaClass)
      requires Valid()
      modifies this`goClsMap, this`sMapC
      ensures Valid()
      ensures goCls.isGoProxy && def.oid in goClsMap && goClsMap[def.oid] == goCls
      ensures def.oid in old(goClsMap) ==>
                goCls == old(goClsMap[def.oid]) && goClsMap == old(goClsMap) && sMapC == old(sMapC)
      ensures def.oid !in old(goClsMap) ==>
                fresh(goCls) && goCls.name == name &&
                goClsMap == old(goClsMap)[def.oid := goCls] && sMapC == old(sMapC)[goCls := def]
    {
      var sOid := def.oid;
      if sOid in goClsMap {
        goCls := goClsMap[sOid];
      } else {
        goCls := new JavaClass(name, {}, true);
        goClsMap := goClsMap[sOid := goCls];
        sMapC := sMapC[goCls := def];
      }
    }

    method GetClass(soid: int) returns (r: Option<JavaClass>)
      ensures r.Some? <==> soid in goClsMap
      ensures r.Some? ==> r.value == goClsMap[soid]
    {
      r := if soid in goClsMap then Some(goClsMap[soid]) else None;
    }

    /**
     * The proxy of object `oid` of schema `def`: the existing one, else a new
     * instance of the schema's proxy class wrapping a new generic object.
     */
    method FindOrCreateGo(oid: int, def: PersistentObject) returns (gop: GoProxy)
      requires Valid()
      modifies this`goMap, this`goClsMap, this`sMapC
      ensures Valid()
      ensures oid in goMap && goMap[oid] == gop
      ensures gop.cls.isGoProxy && gop.cls in sMapC
      ensures oid in old(goMap) ==>
                gop == old(goMap[oid]) && goMap == old(goMap) &&
                goClsMap == old(goClsMap) && sMapC == old(sMapC)
      ensures oid !in old(goMap) ==>
                fresh(gop) && goMap == old(goMap)[oid := gop] &&
                gop.go != null && fresh(gop.go) && gop.go.oid == oid &&
                def.oid in goClsMap && gop.cls == goClsMap[def.oid]
    {
      if oid in goMap {
        gop := goMap[oid];
      } else {
        var go := new GenericObject(oid, PersistentNew);
        var goCls := AddGoClass(def.className, def);
        assert forall s :: s in goClsMap ==> goClsMap[s].isGoProxy && goClsMap[s] in sMapC;
        gop := new GoProxy(goCls);
        gop.go := go;
        goMap := goMap[oid := gop];
      }
    }

    /**
     * The proxy of object `oid` given its proxy class: a class that is not a
     * proxy class is an error, and so is a class without a schema.
     */
    method FindOrCreateGoForClass(oid: int, cls: JavaClass) returns (r: Result<GoProxy, CacheError>)
      requires Valid()
      modifies this`goMap, this`goClsMap, this`sMapC
      ensures Valid()
      ensures !cls.isGoProxy ==> r == Err(IllegalState) && unchanged(this)
      ensures cls.isGoProxy && cls !in old(sMapC) ==> r == Err(NullReference) && unchanged(this)
      ensures r.Ok? ==> oid in goMap && goMap[oid] == r.value && r.value.cls.isGoProxy
      ensures cls.isGoProxy && cls in old(sMapC) && oid in old(goMap) ==> r == Ok(old(goMap[oid]))
      ensures cls.isGoProxy && cls in old(sMapC) ==> r.Ok?
    {
      if !cls.isGoProxy {
        return Err(IllegalState);
      }
      if cls !in sMapC {
        return Err(NullReference);
      }
      var def := sMapC[cls];
      var gop := FindOrCreateGo(oid, def);
      r := Ok(gop);
    }
  }
}
