# ZooDB session cache, object writer and schema codec in Dafny

This project models the core of ZooDB, an object database for Java, and proves
properties of the model. It covers six parts:

- **`SessionCache`** (`session_cache.dfy`): the per-session client cache.
  - It holds the objects by oid, the schemata by oid, one class-to-schema map per node, the dirty list, the deleted map and the generic objects.
  - It reconciles the cache with the store at rollback and after commit.
  - It also holds the cache iterator.
- **`ObjectAccess`** (`object_access.dfy`): the mediator between the serializer and the page file.
  - It writes one object at a time.
  - When an object overflows onto further pages, it links the object's fragments into a chain in the position index.
  - It unwinds the chain of an object's previous version before writing the object again.
- **`SchemaCodec`** (`serializer.dfy`): the schema-record and user-record codec.
  - The stream is a sequence of tagged tokens (long, int, boolean, string).
  - Writing appends to the stream; reading moves a cursor over it.
- **`ToolsCache`** (`tools_object_cache.dfy`): the object cache of the database tools, with its find-or-create rule for generic-object proxies.
- **`Config`** (`zoo_config.dfy`): the global configuration of file manager, file processor and page size.
- **`Query`** (`query_parameter.dfy`): a compiled query's parameter, whose value slot stores a null argument as a sentinel.

`Persistence` (`persistence.dfy`) holds the object model these parts share:
the lifecycle states, runtime classes, persistent instances (schemata included)
and generic objects. `Wrappers` (`wrappers.dfy`) holds `Option`, `Result` and `Outcome`.

Four properties carry most of the proof work.

- **Rollback** (`ClientSessionCache.Rollback`):
  - New dirty schemata leave the schema map and their node's class map.
  - Every removal is logged before the first reload.
  - A listed instance that is still dirty is dropped when new and made hollow otherwise.
  - The tracking collections end empty.
  - New dirty generic objects are marked deleted and dropped; every other generic object is hollow.
- **After commit** (`ClientSessionCache.PostCommit`):
  - Confirmed deletions leave the cache.
  - Instances are cleaned or evicted.
  - Deleted schemata leave both schema maps, and the remaining schemata are clean. Without `retainValues`, a deleted schema that is still cached as an instance is made clean by the eviction pass, as written, and so stays.
- **Chains** (`WriteChain`, `PagedObjectAccess.StartWriting`):
  - An object written over several pages forms a well-formed fragment chain.
  - Unwinding that chain from its head removes exactly its fragments and leaves the rest of the position index unchanged.
  - `StartWriting` performs that unwinding, then maps the oid to the new head.
- **Codec round trips** (`SchemaRoundTrip`, `UserRoundTrip`):
  - Decoding a written record consumes exactly its tokens.
  - It restores what the decoder reads back.

Four behaviours of the code that a reader might not expect are modelled as written:

- **`NotifyDirty`** appends to a list without deduplicating, so an instance reported twice is listed twice.
- **`deSerializeSchema`** reads the field triples and then discards them (`Serializer.java:59`).
- **`deSerializeUser`** does not read the user id; the caller passes it in.
- **The cache iterator's subclass test** asks whether `cls` has itself as a super schema, not whether the candidate's schema does (`ClientSessionCache.java:425`); the iterator runs that test, and "## Findings" sets it beside the evident intent.

## Model

| member | source | states |
|---|---|---|
| SessionCache.ClientSessionCache.constructor | src/org/zoodb/jdo/internal/client/session/ClientSessionCache.java:78-88 | a new cache holds just the two bootstrapped schemata, under their oids, and no objects |
| SessionCache.RolledBack | src/org/zoodb/jdo/internal/client/session/ClientSessionCache.java:130-137 | the rollback state rule: only a dirty instance that is not new changes, and it becomes hollow; whether an instance is new and dirty is kept |
| SessionCache.ClientSessionCache.DirtySchemata | src/org/zoodb/jdo/internal/client/session/ClientSessionCache.java:104-115 | the schemata to drop are exactly the cached schemata that are dirty and new; those to reload are exactly the dirty ones that are not new |
| SessionCache.ClientSessionCache.RemoveSchema | src/org/zoodb/jdo/internal/client/session/ClientSessionCache.java:116-121 | one schema leaves the oid map, and its runtime class leaves its node's class map |
| SessionCache.ClientSessionCache.RemoveSchemata | src/org/zoodb/jdo/internal/client/session/ClientSessionCache.java:116-121 | the listed schemata's oids leave the schema map; on every node exactly their runtime classes leave the class map; one removal is logged per schema, in order |
| SessionCache.DropOidsDrops | src/org/zoodb/jdo/internal/client/session/ClientSessionCache.java:116-117 | removing the oids of a list one after the other equals removing the set of those oids at once |
| SessionCache.UnregisterAllDrops | src/org/zoodb/jdo/internal/client/session/ClientSessionCache.java:118-120 | unregistering schemata one after the other keeps the set of nodes and drops from each node exactly the runtime classes of the schemata on that node |
| SessionCache.ClientSessionCache.RefreshSchemata | src/org/zoodb/jdo/internal/client/session/ClientSessionCache.java:122-124 | each listed schema is reloaded (clean), and one reload is logged per schema, in order |
| SessionCache.RemovalsBeforeRefreshes | src/org/zoodb/jdo/internal/client/session/ClientSessionCache.java:101-124 | in a removal pass followed by a reload pass, no removal follows a reload, and the log names exactly the dropped and the reloaded schemata |
| SessionCache.ClientSessionCache.RollbackSchemata | src/org/zoodb/jdo/internal/client/session/ClientSessionCache.java:100-124 | new dirty schemata leave the schema map and their node's class map; other dirty schemata become clean; the new log entries put every removal before every reload |
| SessionCache.ClientSessionCache.RollbackObject | src/org/zoodb/jdo/internal/client/session/ClientSessionCache.java:130-137 | a new dirty instance leaves the object map; a dirty instance that is not new becomes hollow; any other instance is untouched |
| SessionCache.ClientSessionCache.RollbackEach | src/org/zoodb/jdo/internal/client/session/ClientSessionCache.java:129-148 | after the pass, exactly the oids of the new dirty listed instances are gone from the object map, and every listed instance is in its rolled-back state |
| SessionCache.ClientSessionCache.RollbackObjects | src/org/zoodb/jdo/internal/client/session/ClientSessionCache.java:129-151 | the instances of the dirty list and of the deleted map are rolled back, and then both collections are empty |
| SessionCache.ClientSessionCache.RollbackGeneric | src/org/zoodb/jdo/internal/client/session/ClientSessionCache.java:154-161 | a new generic object is marked deleted and leaves the generic map; any other becomes hollow |
| SessionCache.ClientSessionCache.RollbackListedGenerics | src/org/zoodb/jdo/internal/client/session/ClientSessionCache.java:154-161 | exactly the oids of the new listed generic objects leave the generic map; each listed object is marked deleted (new) or hollow (other) |
| SessionCache.OidsWhereSelects | src/org/zoodb/jdo/internal/client/session/ClientSessionCache.java:154-158 | the oids dropped by the pass are exactly those of the listed generic objects in the selected state |
| SessionCache.ClientSessionCache.HollowCachedGenerics | src/org/zoodb/jdo/internal/client/session/ClientSessionCache.java:162-164 | every cached generic object becomes hollow |
| SessionCache.ClientSessionCache.RollbackGenerics | src/org/zoodb/jdo/internal/client/session/ClientSessionCache.java:153-165 | new listed generic objects are marked deleted and leave the map; every generic object left in the map is hollow; the dirty generic list is empty |
| SessionCache.ClientSessionCache.RollbackCached | src/org/zoodb/jdo/internal/client/session/ClientSessionCache.java:100-151 | the schema pass followed by the instance pass: new dirty schemata leave both maps with removals logged first; listed instances are rolled back, except those reloaded (clean) by the schema pass; schemata neither stale-dirty nor listed keep their state; both collections end empty |
| SessionCache.ClientSessionCache.Rollback | src/org/zoodb/jdo/internal/client/session/ClientSessionCache.java:95-166 | the whole rollback: schema removals and reloads with removals first; instance rollback; schemata neither stale-dirty nor listed keep their state; new listed generic objects are marked deleted and dropped, other listed ones and every generic object left are hollow; all tracking collections end empty |
| SessionCache.ClientSessionCache.MarkPersistent | src/org/zoodb/jdo/internal/client/session/ClientSessionCache.java:169-181 | fails exactly for a deleted instance; does nothing for one already persistent; otherwise caches it under `oid` as persistent-new, with the schema's node as its context; a failed or repeated call changes nothing |
| SessionCache.ClientSessionCache.MakeTransient | src/org/zoodb/jdo/internal/client/session/ClientSessionCache.java:184-191 | a fatal error exactly when the oid is not cached, with nothing changed; otherwise the entry leaves the map and the instance becomes transient |
| SessionCache.ClientSessionCache.AddToCache | src/org/zoodb/jdo/internal/client/session/ClientSessionCache.java:194-201 | the instance gets the given state, schema, the schema's node and the oid, and is cached under that oid |
| SessionCache.ClientSessionCache.FindCoByOid | src/org/zoodb/jdo/internal/client/session/ClientSessionCache.java:204-207 | finds an instance exactly when the oid is cached, and then it is the cached one |
| SessionCache.ClientSessionCache.GetSchemaForClass | src/org/zoodb/jdo/internal/client/session/ClientSessionCache.java:216-232 | a hit in the node's class map is returned as is; a miss on a null class gives null; any other miss gives the current schema of that class name, or null when none exists, and a found schema is entered in the node's map |
| SessionCache.ClientSessionCache.GetSchemaByName | src/org/zoodb/jdo/internal/client/session/ClientSessionCache.java:234-242 | null exactly when no cached schema is the current version with that class name; otherwise a cached schema that is |
| SessionCache.ClientSessionCache.GetSchemaByOid | src/org/zoodb/jdo/internal/client/session/ClientSessionCache.java:244-247 | finds a schema exactly when the oid is in the schema map, and then it is the mapped one |
| SessionCache.ClientSessionCache.PurgeDeletedObjects | src/org/zoodb/jdo/internal/client/session/ClientSessionCache.java:256-261 | exactly the oids of the deleted-map instances whose state is deleted leave the object map |
| SessionCache.ClientSessionCache.CleanDirtyObjects | src/org/zoodb/jdo/internal/client/session/ClientSessionCache.java:263-268 | every dirty-listed instance that is not deleted becomes clean; deleted ones keep their state |
| SessionCache.ClientSessionCache.CleanOrEvictCached | src/org/zoodb/jdo/internal/client/session/ClientSessionCache.java:274-281 | each cached instance becomes clean when `retainValues` holds or it is a schema, and hollow (evicted) otherwise, as written |
| SessionCache.ClientSessionCache.PostCommitCached | src/org/zoodb/jdo/internal/client/session/ClientSessionCache.java:256-284 | confirmed deletions leave the cache; with `retainValues` the listed live instances become clean and every other instance keeps its state; without it, cached schema objects become clean and other cached instances are evicted, while uncached schemata keep their state; the deleted schemata left afterwards are exactly those the schema pass will remove; the dirty list and deleted map end empty |
| SessionCache.ClientSessionCache.PostCommitGeneric | src/org/zoodb/jdo/internal/client/session/ClientSessionCache.java:287-293 | a deleted generic object leaves the map; any other becomes clean |
| SessionCache.ClientSessionCache.PostCommitListedGenerics | src/org/zoodb/jdo/internal/client/session/ClientSessionCache.java:287-293 | exactly the oids of the deleted listed generic objects leave the map; the other listed ones become clean |
| SessionCache.ClientSessionCache.EvictCachedGenerics | src/org/zoodb/jdo/internal/client/session/ClientSessionCache.java:294-298 | without `retainValues` every cached generic object becomes hollow; with it, none changes |
| SessionCache.ClientSessionCache.PostCommitGenerics | src/org/zoodb/jdo/internal/client/session/ClientSessionCache.java:286-299 | deleted listed generic objects leave the map; other listed ones become clean; without `retainValues` the ones left are hollow; the list ends empty |
| SessionCache.SettleSchemata | src/org/zoodb/jdo/internal/client/session/ClientSessionCache.java:301-314 | a schema stays exactly when it is not deleted, under the same oid; every schema left is clean; deleted schemata keep their state; each node loses exactly the runtime classes of the deleted schemata |
| SessionCache.SchemataSettled | src/org/zoodb/jdo/internal/client/session/ClientSessionCache.java:301-314 | once every key has been visited, the schemata removed are exactly the deleted ones and every schema left is clean |
| SessionCache.ClientSessionCache.PostCommitSchemata | src/org/zoodb/jdo/internal/client/session/ClientSessionCache.java:301-314 | deleted schemata leave the schema map and their runtime classes leave their node's map; all others become clean |
| SessionCache.ClientSessionCache.PostCommitRest | src/org/zoodb/jdo/internal/client/session/ClientSessionCache.java:286-314 | the generic-object pass followed by the schema pass: a schema stays exactly when it is not deleted; survivors are clean, deleted ones keep their state; each node loses exactly the runtime classes of the deleted schemata; instances that are not schemata keep their state; deleted listed generic objects leave the map and the other listed ones become clean; without `retainValues` the generic objects left are hollow, with it the unlisted ones keep their state |
| SessionCache.ClientSessionCache.PostCommit | src/org/zoodb/jdo/internal/client/session/ClientSessionCache.java:253-315 | the whole post-commit: confirmed deletions leave the cache; instances are cleaned or evicted; all tracking collections end empty; a schema stays exactly when it is not in `SchemataGone` (all deleted schemata with `retainValues`, otherwise those deleted and no longer cached as instances) and each node loses exactly their runtime classes; every schema left is clean; deleted listed generic objects leave the map and the other listed ones become clean; without `retainValues` the generic objects left are hollow; with `retainValues`, cached instances and generic objects that were not listed, and are not schemata, keep their state |
| SessionCache.ClientSessionCache.AddSchema | src/org/zoodb/jdo/internal/client/session/ClientSessionCache.java:324-339 | the schema becomes clean (loaded) or new, belongs to `node` and is cached by oid in both maps; it enters the node's class map only when it is the current version and has a runtime class |
| SessionCache.ClientSessionCache.UpdateSchema | src/org/zoodb/jdo/internal/client/session/ClientSessionCache.java:341-348 | on the schema's node, the old class is unmapped and the new schema's class, if any, maps to it; other nodes are unchanged |
| SessionCache.ClientSessionCache.Close | src/org/zoodb/jdo/internal/client/session/ClientSessionCache.java:354-358 | the object map, the schema map and the node maps are empty |
| SessionCache.ClientSessionCache.EvictAll | src/org/zoodb/jdo/internal/client/session/ClientSessionCache.java:361-367 | every cached instance that is not dirty becomes hollow; dirty ones keep their state |
| SessionCache.ClientSessionCache.EvictAllOfClass | src/org/zoodb/jdo/internal/client/session/ClientSessionCache.java:369-376 | a cached instance becomes hollow exactly when it is not dirty and its schema's class is `cls` (or, with `subClasses`, a subclass of it); dirty ones never change |
| SessionCache.ClientSessionCache.AddNode | src/org/zoodb/jdo/internal/client/session/ClientSessionCache.java:378-381 | the node's class map holds just the schema of schema objects; other nodes are unchanged |
| SessionCache.ClientSessionCache.Iterator | src/org/zoodb/jdo/internal/client/session/ClientSessionCache.java:383-386 | the iterator runs over all cached instances with the given schema, flag and state, using the filter as written (`ClientSessionCache.java:425`); it holds the first instance of its order that the filter selects, with the rest of the order still to look at, or is exhausted, in which case the filter selects no cached instance |
| SessionCache.CacheIterator.constructor | src/org/zoodb/jdo/internal/client/session/ClientSessionCache.java:397-405 | the iterator is positioned on the first instance the filter as written (`ClientSessionCache.java:425`) selects, or is exhausted when there is none |
| SessionCache.CacheIterator.FirstSelected | src/org/zoodb/jdo/internal/client/session/ClientSessionCache.java:422-431 | the index of the first instance the filter as written selects: it is selected and none before it is, or it is the length when none is selected |
| SessionCache.CacheIterator.HasNext | src/org/zoodb/jdo/internal/client/session/ClientSessionCache.java:413-415 | true exactly when a next instance is held |
| SessionCache.CacheIterator.Next | src/org/zoodb/jdo/internal/client/session/ClientSessionCache.java:417-434 | returns the held instance and moves on to the first one the filter as written selects among those not yet looked at, or to the end |
| SessionCache.CacheIterator.Remove | src/org/zoodb/jdo/internal/client/session/ClientSessionCache.java:436-439 | always fails as unsupported |
| SessionCache.SubclassTestIgnoresCandidate | src/org/zoodb/jdo/internal/client/session/ClientSessionCache.java:425 | as written, on an acyclic hierarchy the filter selects exactly instances of the schema itself in the state; an instance of a sub-schema is never selected, even with `subClasses` |
| SessionCache.IntendedFilterWidens | src/org/zoodb/jdo/internal/client/session/ClientSessionCache.java:423-425 | the intended filter selects everything the filter as written selects, agrees with it without `subClasses`, and with `subClasses` also selects every instance of a sub-schema in the state |
| SessionCache.ClientSessionCache.SetRootSchema | src/org/zoodb/jdo/internal/client/session/ClientSessionCache.java:452-458 | the schema of schema objects is replaced |
| SessionCache.ClientSessionCache.NotifyDirty | src/org/zoodb/jdo/internal/client/session/ClientSessionCache.java:460-462 | the instance is appended to the dirty list, even when it is listed already |
| SessionCache.ClientSessionCache.NotifyDelete | src/org/zoodb/jdo/internal/client/session/ClientSessionCache.java:468-470 | the instance is filed in the deleted map under its oid |
| SessionCache.ClientSessionCache.AddGeneric | src/org/zoodb/jdo/internal/client/session/ClientSessionCache.java:476-481 | the generic object is cached under its oid and appended to the dirty generic list exactly when it is dirty; the map stays keyed by oid |
| SessionCache.ClientSessionCache.GetGeneric | src/org/zoodb/jdo/internal/client/session/ClientSessionCache.java:487-490 | finds a generic object exactly when the oid is cached, and then it is the cached one |
| ObjectAccess.PagedObjectAccess.constructor | src/org/zoodb/jdo/internal/server/PagedObjectAccess.java:21-28 | no position index yet; current page and offset are -1 |
| ObjectAccess.PagedObjectAccess.StartWriting | src/org/zoodb/jdo/internal/server/PagedObjectAccess.java:30-51 | the head is the file's position at the call; the old chain of the oid, if any, is unwound from the position index (and nothing else is removed); the oid index then maps the oid to the new head |
| ObjectAccess.PagedObjectAccess.RemoveChain | src/org/zoodb/jdo/internal/server/PagedObjectAccess.java:36-47 | the do-while unwinding removes exactly the positions of the chain starting at `pos` |
| ObjectAccess.UnwindStep | src/org/zoodb/jdo/internal/server/PagedObjectAccess.java:43-47 | one step of unwinding: the last fragment leaves the index alone, any other fragment leaves it and unwinding goes on from its link |
| ObjectAccess.StopTest | src/org/zoodb/jdo/internal/server/PagedObjectAccess.java:45-47 | after OR-ing the marker into a link, the loop stops exactly when the link has a zero page half |
| ObjectAccess.UnwindStops | src/org/zoodb/jdo/internal/server/PagedObjectAccess.java:45-47 | the loop stops after the terminal link 0; after a link to page p it goes on to the continuation fragment of p (p is not 0) |
| ObjectAccess.PosOfParts | src/org/zoodb/jdo/internal/server/PagedObjectAccess.java:50 | a position splits back into its page and the low half of its offset |
| ObjectAccess.PositionsDiffer | src/org/zoodb/jdo/internal/server/PagedObjectAccess.java:55-58 | continuation fragments on different pages have different positions, and none shares a head's position unless that head's offset is the marker |
| ObjectAccess.Fragments | src/org/zoodb/jdo/internal/server/PagedObjectAccess.java:53-63 | an object written over n overflow pages has n+1 fragments: the head, then the continuation fragment of each page in order |
| ObjectAccess.WriteChain | src/org/zoodb/jdo/internal/server/PagedObjectAccess.java:53-63 | after start, n overflows and finish: the n+1 fragments are linked in order and only the last has link 0; they form a well-formed chain from the head; unwinding it removes exactly them and restores the rest of the index |
| ObjectAccess.PagedObjectAccess.NotifyOverflow | src/org/zoodb/jdo/internal/server/PagedObjectAccess.java:53-59 | the current fragment is linked to the new page (`page << 32`), which becomes current with the marker as offset |
| ObjectAccess.PagedObjectAccess.FinishObject | src/org/zoodb/jdo/internal/server/PagedObjectAccess.java:61-63 | the current fragment gets the terminal link 0 |
| ObjectAccess.PagedObjectAccess.NewPage | src/org/zoodb/jdo/internal/server/PagedObjectAccess.java:68-72 | the file is at offset 0 of the new page; the position index is installed; the mediator is the overflow callback |
| ObjectAccess.PagedObjectAccess.FinishPage | src/org/zoodb/jdo/internal/server/PagedObjectAccess.java:74-76 | the overflow callback is cleared |
| ObjectAccess.PagedObjectAccess.WriteString | src/org/zoodb/jdo/internal/server/PagedObjectAccess.java:78-81 | the string is handed to the file unchanged; no mediator field changes |
| ObjectAccess.PagedObjectAccess.Close | src/org/zoodb/jdo/internal/server/PagedObjectAccess.java:83-85 | the file is flushed and closed |
| ObjectAccess.PagedObjectAccess.Flush | src/org/zoodb/jdo/internal/server/PagedObjectAccess.java:87-92 | everything written is handed on |
| ObjectAccess.PagedObjectAccess.Write | src/org/zoodb/jdo/internal/server/PagedObjectAccess.java:94-97 | the bytes are handed to the file unchanged |
| ObjectAccess.PagedObjectAccess.WriteBoolean | src/org/zoodb/jdo/internal/server/PagedObjectAccess.java:99-102 | the boolean is handed to the file unchanged |
| ObjectAccess.PagedObjectAccess.WriteByte | src/org/zoodb/jdo/internal/server/PagedObjectAccess.java:104-107 | the byte is handed to the file unchanged |
| ObjectAccess.PagedObjectAccess.WriteChar | src/org/zoodb/jdo/internal/server/PagedObjectAccess.java:109-112 | the char is handed to the file unchanged |
| ObjectAccess.PagedObjectAccess.WriteInt | src/org/zoodb/jdo/internal/server/PagedObjectAccess.java:124-127 | the int is handed to the file unchanged |
| ObjectAccess.PagedObjectAccess.WriteLong | src/org/zoodb/jdo/internal/server/PagedObjectAccess.java:129-132 | the long is handed to the file unchanged |
| ObjectAccess.PagedObjectAccess.WriteShort | src/org/zoodb/jdo/internal/server/PagedObjectAccess.java:134-137 | the short is handed to the file unchanged |
| ObjectAccess.PagedObjectAccess.SkipWrite | src/org/zoodb/jdo/internal/server/PagedObjectAccess.java:144-147 | the skip count is handed to the file unchanged |
| ObjectAccess.PosIndex.RemovePosLongAndCheck | src/org/zoodb/jdo/internal/server/PagedObjectAccess.java:43 | the fragment's entry leaves the index and its link is returned |
| ObjectAccess.OidIndex.InsertLong | src/org/zoodb/jdo/internal/server/PagedObjectAccess.java:50 | the oid maps to the position of (page, offset) |
| SchemaCodec.SerializeSchema | src/org/zoodb/jdo/internal/Serializer.java:7-29 | an invalid oid fails and writes nothing; otherwise the record (oid, class name, super oid, field count, one triple per field) is appended |
| SchemaCodec.WriteFields | src/org/zoodb/jdo/internal/Serializer.java:23-28 | one (name, type name, is-persistent) triple per field, in order |
| SchemaCodec.FieldTokens | src/org/zoodb/jdo/internal/Serializer.java:20-28 | a field list takes exactly three tokens per field |
| SchemaCodec.DeSerializeSchema | src/org/zoodb/jdo/internal/Serializer.java:32-61 | the result and the cursor are those of the schema-record reading: header, non-negative count, that many triples, then a loadable class name |
| SchemaCodec.ReadHeader | src/org/zoodb/jdo/internal/Serializer.java:34-41 | reads oid, class name, super oid and field count, each of its kind, and fails at the first token of the wrong kind or at the end |
| SchemaCodec.ReadFields | src/org/zoodb/jdo/internal/Serializer.java:42-50 | the three columns hold the names, type names and flags of the n triples, in order; a failure reports the first bad token |
| SchemaCodec.ReadField | src/org/zoodb/jdo/internal/Serializer.java:47-49 | reads one (string, string, boolean) triple |
| SchemaCodec.FieldsAt | src/org/zoodb/jdo/internal/Serializer.java:46-50 | reading n triples gives exactly n fields |
| SchemaCodec.FieldsErrorSticks | src/org/zoodb/jdo/internal/Serializer.java:46-50 | once reading the triples fails, reading more of them fails with the same error |
| SchemaCodec.TripleRoundTrip | src/org/zoodb/jdo/internal/Serializer.java:47-49 | reading a written field triple gives the field back and consumes three tokens |
| SchemaCodec.FieldsRoundTrip | src/org/zoodb/jdo/internal/Serializer.java:46-50 | reading the triples of a written field list gives the list back and consumes exactly its tokens, whatever precedes or follows it |
| SchemaCodec.HeaderRoundTrip | src/org/zoodb/jdo/internal/Serializer.java:34-41 | reading a written header gives it back and consumes four tokens |
| SchemaCodec.SchemaRoundTrip | src/org/zoodb/jdo/internal/Serializer.java:32-61 | a written schema record takes 4+3k tokens; reading it back consumes exactly them and gives the class name, oid and super oid when the class is loadable, and fails with that class name otherwise |
| SchemaCodec.SerializeUser | src/org/zoodb/jdo/internal/Serializer.java:64-78 | appends id, the four flags in order, DB name and password CRC |
| SchemaCodec.DeSerializeUser | src/org/zoodb/jdo/internal/Serializer.java:81-99 | the result and the cursor are those of the user-record reading: four flags, name, CRC, with the id and OS name from the caller |
| SchemaCodec.UserRoundTrip | src/org/zoodb/jdo/internal/Serializer.java:81-98 | reading a written user record after its leading id restores the flags, DB name and CRC and consumes exactly the record; the id and OS name are the caller's |
| ToolsCache.ObjectCache.constructor | src/org/zoodb/tools/internal/ObjectCache.java:38-47 | all five maps start empty |
| ToolsCache.ObjectCache.GetSchemaByOid | src/org/zoodb/tools/internal/ObjectCache.java:49-54 | an oid never added is an illegal-state error; otherwise the schema added under it |
| ToolsCache.ObjectCache.GetSchemaForClass | src/org/zoodb/tools/internal/ObjectCache.java:56-58 | the schema registered for the class, or none |
| ToolsCache.ObjectCache.FindCoByOid | src/org/zoodb/tools/internal/ObjectCache.java:60-62 | the object cached under the oid, or none |
| ToolsCache.ObjectCache.AddToCache | src/org/zoodb/tools/internal/ObjectCache.java:64-67 | the object is cached under the oid; the schema and state arguments are ignored |
| ToolsCache.ObjectCache.AddSchema | src/org/zoodb/tools/internal/ObjectCache.java:69-72 | the schema can be found both by its oid and by its runtime class |
| ToolsCache.GoProxy.GetGenericObject | src/org/zoodb/tools/internal/ObjectCache.java:79-85 | the wrapped generic object |
| ToolsCache.ObjectCache.FindOrCreateGo | src/org/zoodb/tools/internal/ObjectCache.java:87-103 | an existing proxy for the oid is returned with nothing changed; otherwise a new proxy of the schema's proxy class wraps a new generic object with that oid and is filed under the oid |
| ToolsCache.ObjectCache.AddGoClass | src/org/zoodb/tools/internal/ObjectCache.java:105-114 | at most one proxy class per schema oid: the known one is reused; otherwise a new proxy class is filed under the oid and registered for the schema |
| ToolsCache.ObjectCache.GetClass | src/org/zoodb/tools/internal/ObjectCache.java:116-118 | the proxy class filed under the schema oid, or none |
| ToolsCache.ObjectCache.FindOrCreateGoForClass | src/org/zoodb/tools/internal/ObjectCache.java:120-126 | a class that is not a proxy class is an illegal-state error with nothing changed; a proxy class with no schema is a null-reference error; otherwise the proxy for the oid, which is the existing one when there is one |
| Config.ZooConfig.constructor | src/org/zoodb/jdo/api/ZooConfig.java:25-27 | the configuration starts at its defaults, with 4096-byte pages |
| Config.ZooConfig.SetDefaults | src/org/zoodb/jdo/api/ZooConfig.java:29-33 | buffered file processor, one-file manager and default page size are restored |
| Config.ZooConfig.SetFileManager | src/org/zoodb/jdo/api/ZooConfig.java:35-42 | the manager name is always stored; the one-file manager selects the buffered processor, the in-memory manager the in-memory processor, any other name keeps the processor; the page size is kept |
| Config.KnownManagersDiffer | src/org/zoodb/jdo/api/ZooConfig.java:12-19 | the two known managers, and their two processors, are different names, so the two selection branches are distinct |
| Config.ZooConfig.GetFileProcessor | src/org/zoodb/jdo/api/ZooConfig.java:44-46 | the selected file processor |
| Config.ZooConfig.GetFileManager | src/org/zoodb/jdo/api/ZooConfig.java:48-50 | the selected file manager |
| Config.ZooConfig.GetFilePageSize | src/org/zoodb/jdo/api/ZooConfig.java:52-54 | the page size last set |
| Config.ZooConfig.SetFilePageSize | src/org/zoodb/jdo/api/ZooConfig.java:60-62 | any page size is stored as given, without validation; nothing else changes |
| Query.QueryParameter.constructor | src/org/zoodb/internal/query/QueryParameter.java:35-38 | type and name as given, no value yet |
| Query.QueryParameter.SetValue | src/org/zoodb/internal/query/QueryParameter.java:40-46 | a non-null argument is stored; null is stored as the null sentinel; nothing else changes |
| Query.QueryParameter.GetValue | src/org/zoodb/internal/query/QueryParameter.java:48-50 | the value last stored |
| Query.QueryParameter.GetName | src/org/zoodb/internal/query/QueryParameter.java:52-54 | the name fixed at construction |
| Query.QueryParameter.GetType | src/org/zoodb/internal/query/QueryParameter.java:56-58 | the type last set |
| Query.QueryParameter.SetType | src/org/zoodb/internal/query/QueryParameter.java:60-62 | the type is replaced; name and value are unchanged |

## Left out

- I/O is not modelled: the page file keeps the values written to it, how many of them have been flushed and an open flag, but not its allocation, seeking or bytes on disk; the free-space manager, listener notification and debug logging in the session cache are left out too.
- Floating point: `writeDouble` and `writeFloat` are pure pass-through writes of floating-point values and are not modelled. The deprecated `debugGetOffset` is not modelled either.
- The position index, OID index and free-space manager (`PagedPosIndex`, `PagedOidIndex`, `FreeSpaceManager`) are not part of this model. They are maps with the contracts the mediator relies on.
  - A position is taken to be `page * 2^32 + (offset mod 2^32)`.
  - `MARK_SECONDARY` is taken to be `0xFFFFFFFF`.
  - Reporting freed pages to the free-space manager is not modelled.
- The page file does not advance its offset on writes and does not raise overflows itself. `NotifyOverflow` is called directly, and an allocated page number is a parameter.
- Java ints and longs are their unsigned values (`Page`, `Long`) in `ObjectAccess`, and `<<`, `|` and `(int)` are written out as arithmetic.
- `SchemaCodec` token payloads are unbounded integers. The 32- and 64-bit widths of the stream primitives are not enforced.
- Tokens are tagged by kind. Reading a token of the wrong kind is therefore an error (`WrongToken`) instead of a reinterpretation of the bytes.
- `Class.forName` is a set of loadable class names, and the decoded class is identified by its name. `System.getProperty("user.name")` is the `nameOS` parameter.
- `Session.assertOid` is the `isValidOid` parameter. The `Node` arguments of the codec are dropped.
- `ZooClassDef` and `ZooPCImpl` are one class, `PersistentObject`, whose `isSchema` flag marks schemata. The provided context is reduced to the `classDef` and `node` fields.
- Reloading a schema from the store (`refreshSchema`) is modelled as making it clean and logging the reload in a ghost log. The schema manager is not part of this model.
- The iteration order over the map values of the session cache is unspecified: loops pick an arbitrary element, and the iterator runs over a snapshot sequence. Concurrent modification of the cache during iteration is not modelled.
- `ToolsCache.ObjectCache.FindOrCreateGo`:
  - `def.newInstance(oid)` is a new generic object in the persistent-new state.
  - `ClassCreator.createClass` is a new proxy class.
  - Reflective instantiation never fails.
- `ToolsCache.ObjectCache.FindOrCreateGoForClass`: `getVersionProxy()` and `getSchemaDef()` are identified with the schema itself. A proxy class without a schema is a `NullReference` error instead of a null dereference error.
- `Config.ZooConfig`: the static fields are the fields of one object, and a null manager name is not modelled.
- `Query.QueryParameter`: values are of a type parameter, a null argument is `None`, and the never-set value is `Unset`.
- SessionCache.ClientSessionCache.Rollback: requires the node of every new dirty schema it drops that has a runtime class to be registered; the source would throw a null dereference error instead.
- SessionCache.ClientSessionCache.RollbackCached: requires the node of every new dirty schema it drops that has a runtime class to be registered; the source would throw a null dereference error instead.
- SessionCache.ClientSessionCache.RollbackSchemata: requires the node of every new dirty schema it drops that has a runtime class to be registered; the source would throw a null dereference error instead.
- SessionCache.ClientSessionCache.RemoveSchemata: requires the node of every listed schema that has a runtime class to be registered; the source would throw a null dereference error instead.
- SessionCache.ClientSessionCache.RemoveSchema: requires the node of the schema, when it has a runtime class, to be registered; the source would throw a null dereference error instead.
- SessionCache.ClientSessionCache.PostCommit: requires the node of every deleted schema that has a runtime class to be registered; the source would throw a null dereference error instead.
- SessionCache.ClientSessionCache.PostCommitRest: requires the node of every deleted schema that has a runtime class to be registered; the source would throw a null dereference error instead.
- SessionCache.ClientSessionCache.PostCommitSchemata: requires the node of every deleted schema that has a runtime class to be registered; the source would throw a null dereference error instead.
- SessionCache.SettleSchemata: the same requirement as `PostCommitSchemata`, over the maps it is given.
- SessionCache.ClientSessionCache.GetSchemaForClass: requires the node to be registered; the source would throw a null dereference error instead.
- SessionCache.ClientSessionCache.GetSchemaForClass: does not model `associateJavaTypes()` on the schema found by name (ClientSessionCache.java:227). The compatibility check it makes, which can fail, is left out, and so is the binding of the runtime class to that schema. A schema's runtime class is fixed in this model, so a schema entered under `cls` here keeps its own runtime class, and removing that schema later does not unregister `cls` from the node's map.
- SessionCache.ClientSessionCache.AddSchema: requires the node to be registered when the schema enters its class map; the source would throw a null dereference error instead.
- SessionCache.ClientSessionCache.UpdateSchema: requires the schema's node to be registered; the source would throw a null dereference error instead.
- SessionCache.ClientSessionCache.EvictAllOfClass: requires every cached instance that is not dirty to have a schema, and with `subClasses` that schema to have a runtime class whenever it is not `cls`; the source would throw a null dereference error instead.
- SessionCache.ClientSessionCache.Rollback: requires every generic object to be filed under its own oid, an invariant `AddGeneric` keeps.
- SessionCache.ClientSessionCache.RollbackGenerics: requires every generic object to be filed under its own oid, an invariant `AddGeneric` keeps.
- SessionCache.ClientSessionCache.RollbackListedGenerics: requires every generic object to be filed under its own oid, an invariant `AddGeneric` keeps.
- SessionCache.ClientSessionCache.PostCommit: states the state of listed, evicted and retained instances only for those outside the schema map; for schemata it states that every one left in the map is clean.
- ObjectAccess.PagedObjectAccess.StartWriting: requires the oid's previous chain to be well formed in the position index; without that the source's loop fails or does not terminate.
- ObjectAccess.PagedObjectAccess.RemoveChain: requires a well-formed chain from `pos`, for the same reason.
- ObjectAccess.PagedObjectAccess.NotifyOverflow: requires a position index to be installed; the source would throw a null dereference error instead.
- ObjectAccess.PagedObjectAccess.FinishObject: requires a position index to be installed; the source would throw a null dereference error instead.
- ObjectAccess.WriteChain: requires the overflow pages to be distinct and non-zero, and the head not to sit at a continuation position; the page allocator, which is not part of this model, provides distinct fresh pages.

## Findings

| source | as written | input that shows it | evidently intended | confidence | as-written member | corrected member |
|---|---|---|---|---|---|---|
| src/org/zoodb/jdo/internal/client/session/ClientSessionCache.java:425 | the subclass alternative of the iterator's filter is `cls.hasSuperClass(cls)`, which never looks at the candidate's schema `defCand` | an iterator over schema A with `subClasses` set, and a cached instance of schema B whose super schemata include A, in the requested state: it is skipped | `defCand.hasSuperClass(cls)`, so that instances of sub-schemata are returned | high, not executed | SessionCache.SubclassTestIgnoresCandidate | SessionCache.IntendedFilterWidens |
