/**
 * The tag-to-object cache behind `GetGameObjectFromTag`
 * (cs_examples/runity.cs, lines 265-329).
 *
 * `objectPool` maps a tag string to the host object last found for it. A
 * lookup trusts a cached object that is still live, asks the scene
 * (`GameObject.FindGameObjectWithTag`) on a miss, caches what it finds and
 * falls back to an all-zero transform when nothing carries the tag. A cached
 * object that has been destroyed sends the lookup down a branch that throws:
 * `LookupTag` models that branch as written, and `RefreshLookup` is the
 * refreshing lookup the surrounding comments describe.
 */
module TagCache {
  import opened Interop
  import opened Payload

  /** Identity of a host object. */
  type ObjId = nat

  /** The scene at the moment of a lookup: the live objects with their
      transforms, and the object the scene's tag query answers for each tag.
      An object that is not live is never found. */
  datatype Registry = Registry(objects: map<ObjId, Transform>, tagged: map<string, ObjId>)

  /** `GameObject.FindGameObjectWithTag`: a live object carrying the tag, or null. */
  function Find(reg: Registry, text: string): (o: Option<ObjId>)
    ensures o.Some? ==> o.value in reg.objects
  {
    if text in reg.tagged && reg.tagged[text] in reg.objects then Some(reg.tagged[text]) else None
  }

  /** The .NET exceptions the lookup can throw. */
  datatype Exception =
    | ArgumentNull   // a null key is passed to the dictionary
    | NullReference  // a member of a null object is read
    | DuplicateKey   // `Dictionary.Add` on a key that is present

  /** The outcome of one lookup: what it returns or throws, the cache after
      it and the number of scene queries it made. */
  datatype Lookup = Lookup(result: Result<GameObject, Exception>, pool: map<string, ObjId>, queries: nat)

  /** The struct returned to native code: the caller's tag pointer and a
      copy of a transform, with no callback bound. */
  function Snapshot(tag: Handle, transform: Transform): GameObject {
    GameObject(tag, transform, NoCallback)
  }

  /** `GetGameObjectFromTag` as written. `text` is the string at `tag`; a
      null `tag` decodes to a null string, which the cache rejects. */
  function LookupTag(pool: map<string, ObjId>, reg: Registry, tag: Handle, text: string): (l: Lookup)
    // a null tag pointer throws before the cache or the scene is consulted
    ensures l.result == Err(ArgumentNull) <==> tag == Zero
    // the scene is asked at most once, and only when the cache cannot answer
    ensures l.queries <= 1
    ensures l.queries == 0 <==> tag == Zero || (text in pool && pool[text] in reg.objects)
    // every answer carries the caller's tag pointer and no callback
    ensures l.result.Ok? ==> l.result.value.tag == tag && l.result.value.getGameObjectByTag == NoCallback
    // the cache only grows, by the looked-up tag, and a throwing lookup leaves it as it was
    ensures forall k :: k in pool ==> k in l.pool && l.pool[k] == pool[k]
    ensures l.pool.Keys <= pool.Keys + {text}
    ensures l.result.Err? ==> l.pool == pool
  {
    if tag == Zero then
      Lookup(Err(ArgumentNull), pool, 0)
    else if text in pool then
      var cached := pool[text];
      if cached !in reg.objects then
        // destroyed: the scene is asked again, then the code reads the
        // transform of what it found and calls Add on the present key
        match Find(reg, text)
        case None => Lookup(Err(NullReference), pool, 1)
        case Some(_) => Lookup(Err(DuplicateKey), pool, 1)
      else
        Lookup(Ok(Snapshot(tag, reg.objects[cached])), pool, 0)
    else
      match Find(reg, text)
      case None => Lookup(Ok(Snapshot(tag, ZeroTransform)), pool, 1)
      case Some(o) => Lookup(Ok(Snapshot(tag, reg.objects[o])), pool[text := o], 1)
  }

  /** A null tag pointer: the lookup throws, with no scene query and the
      cache unchanged. */
  lemma NullTagThrows(pool: map<string, ObjId>, reg: Registry, text: string)
    ensures LookupTag(pool, reg, Zero, text) == Lookup(Err(ArgumentNull), pool, 0)
  {
  }

  /** Cache hit on a live object: no scene query, the cache is unchanged and
      the cached object's current transform is returned. */
  lemma HitLiveUsesCache(pool: map<string, ObjId>, reg: Registry, tag: Handle, text: string)
    requires tag != Zero
    requires text in pool && pool[text] in reg.objects
    ensures LookupTag(pool, reg, tag, text) == Lookup(Ok(Snapshot(tag, reg.objects[pool[text]])), pool, 0)
  {
  }

  /** Cache hit on a destroyed object: the scene is queried again and the
      lookup throws, whatever the query answers; the cache is unchanged. */
  lemma HitDestroyedThrows(pool: map<string, ObjId>, reg: Registry, tag: Handle, text: string)
    requires tag != Zero
    requires text in pool && pool[text] !in reg.objects
    ensures LookupTag(pool, reg, tag, text).result.Err?
    ensures LookupTag(pool, reg, tag, text).result.error == if Find(reg, text).Some? then DuplicateKey else NullReference
    ensures LookupTag(pool, reg, tag, text).pool == pool
    ensures LookupTag(pool, reg, tag, text).queries == 1
  {
  }

  /** Cache miss, tag not found: one query, the all-zero transform
      (rotation w = 0) with the caller's tag, and nothing is cached. */
  lemma MissNotFoundFallsBack(pool: map<string, ObjId>, reg: Registry, tag: Handle, text: string)
    requires tag != Zero
    requires text !in pool && Find(reg, text) == None
    ensures LookupTag(pool, reg, tag, text) == Lookup(Ok(Snapshot(tag, ZeroTransform)), pool, 1)
    ensures LookupTag(pool, reg, tag, text).result.value.transform.rotation.w == 0.0
  {
  }

  /** Cache miss, tag found: one query, the found object is cached under the
      tag and its transform is returned. */
  lemma MissFoundCaches(pool: map<string, ObjId>, reg: Registry, tag: Handle, text: string, o: ObjId)
    requires tag != Zero
    requires text !in pool && Find(reg, text) == Some(o)
    ensures LookupTag(pool, reg, tag, text) == Lookup(Ok(Snapshot(tag, reg.objects[o])), pool[text := o], 1)
  {
  }

  /** A "not found" is not remembered: when the object appears later, the
      next lookup with the same cache finds it and caches it. */
  lemma NotFoundIsRetried(pool: map<string, ObjId>, before: Registry, after: Registry, tag: Handle, text: string, o: ObjId)
    requires tag != Zero
    requires text !in pool && Find(before, text) == None && Find(after, text) == Some(o)
    ensures var first := LookupTag(pool, before, tag, text);
            var second := LookupTag(first.pool, after, tag, text);
            second == Lookup(Ok(Snapshot(tag, after.objects[o])), pool[text := o], 1)
  {
  }

  /** Once found, an object is served from the cache for as long as it
      lives: the next lookup makes no query and returns that object's current
      transform, even when the tag now names another object. */
  lemma FoundIsServedFromCache(pool: map<string, ObjId>, before: Registry, after: Registry, tag: Handle, text: string, o: ObjId)
    requires tag != Zero
    requires text !in pool && Find(before, text) == Some(o) && o in after.objects
    ensures var first := LookupTag(pool, before, tag, text);
            var second := LookupTag(first.pool, after, tag, text);
            second == Lookup(Ok(Snapshot(tag, after.objects[o])), first.pool, 0)
  {
  }

  /** The same tag looked up against a series of scenes, one lookup per scene. */
  function Replay(pool: map<string, ObjId>, scenes: seq<Registry>, tag: Handle, text: string)
    : (r: (seq<Result<GameObject, Exception>>, map<string, ObjId>))
    ensures |r.0| == |scenes|
    // the cache only grows, and only by the looked-up tag
    ensures forall k :: k in pool ==> k in r.1 && r.1[k] == pool[k]
    ensures r.1.Keys <= pool.Keys + {text}
    decreases |scenes|
  {
    if scenes == [] then ([], pool)
    else
      var l := LookupTag(pool, scenes[0], tag, text);
      var rest := Replay(l.pool, scenes[1..], tag, text);
      ([l.result] + rest.0, rest.1)
  }

  /** As written, a cached object that is destroyed poisons its tag: every
      later lookup of that tag throws and the cache never changes, even when
      another live object carries the tag. */
  lemma {:induction false} StaleEntryIsPermanent(pool: map<string, ObjId>, scenes: seq<Registry>, tag: Handle, text: string)
    requires text in pool
    requires forall i :: 0 <= i < |scenes| ==> pool[text] !in scenes[i].objects
    ensures Replay(pool, scenes, tag, text).1 == pool
    ensures forall i :: 0 <= i < |scenes| ==> Replay(pool, scenes, tag, text).0[i].Err?
    decreases |scenes|
  {
    if scenes != [] {
      var l := LookupTag(pool, scenes[0], tag, text);
      assert l.result.Err? && l.pool == pool;
      StaleEntryIsPermanent(pool, scenes[1..], tag, text);
      var rest := Replay(pool, scenes[1..], tag, text);
      forall i | 0 <= i < |scenes| ensures Replay(pool, scenes, tag, text).0[i].Err? {
        if i > 0 {
          assert Replay(pool, scenes, tag, text).0[i] == rest.0[i - 1];
        }
      }
    }
  }

  /** A concrete input: a non-null tag pointer whose string is "Player",
      cached as object 1, which has been destroyed, while object 2 now
      carries the tag. */
  lemma StaleCacheCounterexample()
    ensures var pool := map["Player" := 1];
            var reg := Registry(map[2 := StartTransform], map["Player" := 2]);
            && Find(reg, "Player") == Some(2)
            && LookupTag(pool, reg, 1, "Player").result == Err(DuplicateKey)
  {
  }

  /** What a fresh scene query answers: the found object's transform, or the
      all-zero fallback. */
  function FreshAnswer(reg: Registry, tag: Handle, text: string): GameObject {
    match Find(reg, text)
    case None => Snapshot(tag, ZeroTransform)
    case Some(o) => Snapshot(tag, reg.objects[o])
  }

  /** The lookup with a refreshing stale branch: a destroyed cache entry is
      replaced by what the scene answers now, or dropped when nothing carries
      the tag, so that the next lookup asks again. */
  function RefreshLookup(pool: map<string, ObjId>, reg: Registry, tag: Handle, text: string): (l: Lookup)
    // it throws only for a null tag pointer, as the lookup as written does
    ensures tag == Zero ==> l == Lookup(Err(ArgumentNull), pool, 0)
    ensures tag != Zero ==> l.result.Ok?
    // a live cached object answers; otherwise the answer is a fresh query's
    ensures tag != Zero && text in pool && pool[text] in reg.objects ==>
              l.result.value == Snapshot(tag, reg.objects[pool[text]]) && l.queries == 0
    ensures tag != Zero && !(text in pool && pool[text] in reg.objects) ==>
              l.result.value == FreshAnswer(reg, tag, text) && l.queries == 1
    // afterwards the tag's entry, if any, is live; other tags are untouched
    ensures tag != Zero && text in l.pool ==> l.pool[text] in reg.objects
    ensures forall k :: k != text ==> (k in l.pool <==> k in pool)
    ensures forall k :: k != text && k in pool ==> l.pool[k] == pool[k]
  {
    if tag != Zero && text in pool && pool[text] !in reg.objects then
      match Find(reg, text)
      case None => Lookup(Ok(Snapshot(tag, ZeroTransform)), pool - {text}, 1)
      case Some(o) => Lookup(Ok(Snapshot(tag, reg.objects[o])), pool[text := o], 1)
    else
      LookupTag(pool, reg, tag, text)
  }

  /** The correction changes only the throwing branch: wherever the lookup
      as written does not throw, both give the same outcome. */
  lemma RefreshAgreesWhereLookupSucceeds(pool: map<string, ObjId>, reg: Registry, tag: Handle, text: string)
    requires LookupTag(pool, reg, tag, text).result.Ok?
    ensures RefreshLookup(pool, reg, tag, text) == LookupTag(pool, reg, tag, text)
  {
  }

  /** With the correction a destroyed entry recovers: the next refreshing
      lookup after the object is replaced makes no query and returns the
      replacement. */
  lemma RefreshRecovers(pool: map<string, ObjId>, reg: Registry, tag: Handle, text: string, o: ObjId)
    requires tag != Zero
    requires text in pool && pool[text] !in reg.objects && Find(reg, text) == Some(o)
    ensures var first := RefreshLookup(pool, reg, tag, text);
            && first.result == Ok(Snapshot(tag, reg.objects[o]))
            && first.pool == pool[text := o]
            && RefreshLookup(first.pool, reg, tag, text) == Lookup(first.result, first.pool, 0)
  {
  }

  /** The scene (`UnityEngine.GameObject`'s tag query), with a count of the
      queries it answers. */
  class Scene {
    var registry: Registry
    var queries: nat

    constructor (registry: Registry)
      ensures this.registry == registry && queries == 0
    {
      this.registry := registry;
      queries := 0;
    }

    method FindGameObjectWithTag(text: string) returns (o: Option<ObjId>)
      modifies this`queries
      ensures o == Find(registry, text)
      ensures queries == old(queries) + 1
    {
      o := Find(registry, text);
      queries := queries + 1;
    }
  }
}
