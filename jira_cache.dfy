/** `Project::findJira`: a remote project lookup memoised in the `jira`
    cache store for fifteen minutes. The store is an explicit map from cache
    key to entry; the clock is an explicit `now`. A lookup returns its
    result, the cache afterwards and the identifiers it sent to the remote
    service (empty when the producer did not run). */
module JiraCache {
  import opened Common
  import opened Remote
  import Json

  /** `static::class` of the project model, the prefix of every key. */
  const ModelClass: string := "App\\Models\\Project"

  /** `15 * 60`: how long a lookup is remembered. */
  const Ttl: int := 15 * 60

  datatype Entry = Entry(value: Option<RemoteProject>, expiresAt: int)

  type Store = map<string, Entry>

  datatype Lookup = Lookup(result: Result<Option<RemoteProject>, Error>, cache: Store, requests: seq<string>)

  /** `static::class . ':' . json_encode($attributes)`. */
  function CacheKey(attributes: Attributes): string
  {
    ModelClass + ":" + Json.EncodeAttributes(attributes)
  }

  /** Two lookups share a cache entry exactly when their attribute arrays
      are identical, key order included. */
  lemma CacheKeyInjective(a: Attributes, b: Attributes)
    ensures CacheKey(a) == CacheKey(b) <==> a == b
  {
    var p := ModelClass + ":";
    if CacheKey(a) == CacheKey(b) {
      assert Json.EncodeAttributes(a) == CacheKey(a)[|p|..];
      assert Json.EncodeAttributes(b) == CacheKey(b)[|p|..];
    }
    Json.EncodeInjective(a, b);
  }

  /** The same two attributes listed in the other order are a different
      lookup as far as the cache is concerned. */
  lemma CacheKeyDependsOnOrder(id: Value, key: Value)
    ensures CacheKey([("project_id", id), ("project_key", key)]) != CacheKey([("project_key", key), ("project_id", id)])
  {
    var a := [("project_id", id), ("project_key", key)];
    var b := [("project_key", key), ("project_id", id)];
    assert a[0] != b[0];
    CacheKeyInjective(a, b);
  }

  /** What `remember` answers without running its producer: the value of a
      live entry, provided that value is not null (the cache repository
      treats a stored null like an absent entry). */
  function Remembered(cache: Store, now: int, key: string): Option<RemoteProject>
  {
    if key in cache && now < cache[key].expiresAt then cache[key].value else None
  }

  /** The producer passed to `remember`: the project id when it is set, else
      the project key when it is set, else no project and no remote call.
      Returns the result and the identifiers requested from the service. */
  function Resolve(remote: Service, attributes: Attributes): (r: (Result<Option<RemoteProject>, Error>, seq<string>))
    ensures IsSet(attributes, "project_id") ==>
      r.1 == [ToStr(Element(attributes, "project_id").value)]
    ensures !IsSet(attributes, "project_id") && IsSet(attributes, "project_key") ==>
      r.1 == [ToStr(Element(attributes, "project_key").value)]
    ensures !IsSet(attributes, "project_id") && !IsSet(attributes, "project_key") ==>
      r == (Success(None), [])
    ensures |r.1| == 1 ==>
      (r.0.Success? <==> r.1[0] in remote.projects) &&
      (r.0.Success? ==> r.0.value == Some(remote.projects[r.1[0]]))
  {
    var target :=
      if IsSet(attributes, "project_id") then Some(Element(attributes, "project_id").value)
      else if IsSet(attributes, "project_key") then Some(Element(attributes, "project_key").value)
      else None;
    match target
    case None => (Success(None), [])
    case Some(v) =>
      var idOrKey := ToStr(v);
      match GetProject(remote, idOrKey)
      case Success(p) => (Success(Some(p)), [idOrKey])
      case Failure(e) => (Failure(e), [idOrKey])
  }

  /** `findJira($attributes)`: a remembered answer is returned as it is,
      with no remote call and no change to the cache; otherwise the producer
      runs once, and a successful answer (null included) is stored under the
      lookup's key for `Ttl`, while a failure propagates and stores nothing. */
  function FindJira(cache: Store, now: int, remote: Service, attributes: Attributes): (r: Lookup)
    ensures Remembered(cache, now, CacheKey(attributes)).Some? ==>
      r == Lookup(Success(Remembered(cache, now, CacheKey(attributes))), cache, [])
    ensures Remembered(cache, now, CacheKey(attributes)).None? ==>
      r.result == Resolve(remote, attributes).0 && r.requests == Resolve(remote, attributes).1
    ensures r.result.Failure? ==> r.cache == cache
    ensures Remembered(cache, now, CacheKey(attributes)).None? && r.result.Success? ==>
      r.cache == cache[CacheKey(attributes) := Entry(r.result.value, now + Ttl)]
  {
    var key := CacheKey(attributes);
    match Remembered(cache, now, key)
    case Some(p) => Lookup(Success(Some(p)), cache, [])
    case None =>
      var (result, requests) := Resolve(remote, attributes);
      match result
      case Success(v) => Lookup(result, cache[key := Entry(v, now + Ttl)], requests)
      case Failure(_) => Lookup(result, cache, requests)
  }

  /** A project fetched from the remote service at time `now` is answered
      from the cache, without any remote call, by every lookup with the same
      attributes before `now + Ttl`, whatever the remote service has become
      in between. */
  lemma {:induction false} FoundProjectIsRemembered(cache: Store, now: int, remote: Service, attributes: Attributes, later: int, remote': Service)
    requires Remembered(cache, now, CacheKey(attributes)).None?
    requires FindJira(cache, now, remote, attributes).result.Success?
    requires FindJira(cache, now, remote, attributes).result.value.Some?
    requires now <= later < now + Ttl
    ensures
      var first := FindJira(cache, now, remote, attributes);
      FindJira(first.cache, later, remote', attributes) == Lookup(first.result, first.cache, [])
  {
    var key := CacheKey(attributes);
    var first := FindJira(cache, now, remote, attributes);
    assert first.cache[key] == Entry(first.result.value, now + Ttl);
  }

  /** A lookup that found no project stores a null entry, but that entry
      never answers: every later lookup, live entry or not, is a miss that
      runs the producer again and rewrites the entry. */
  lemma {:induction false} NullIsNotRemembered(cache: Store, now: int, remote: Service, attributes: Attributes, later: int, remote': Service)
    requires FindJira(cache, now, remote, attributes).result == Success(None)
    ensures
      var first := FindJira(cache, now, remote, attributes);
      var key := CacheKey(attributes);
      key in first.cache && first.cache[key] == Entry(None, now + Ttl) &&
      Remembered(first.cache, later, key).None? &&
      FindJira(first.cache, later, remote', attributes) ==
        Lookup(Success(None), first.cache[key := Entry(None, later + Ttl)], [])
  {
    var key := CacheKey(attributes);
    var first := FindJira(cache, now, remote, attributes);
    assert Remembered(cache, now, key).None?;
    assert !IsSet(attributes, "project_id") && !IsSet(attributes, "project_key");
    assert first.cache[key].value == None;
  }

  /** Once an entry has expired the producer runs again. */
  lemma {:induction false} EntryExpires(cache: Store, now: int, remote: Service, attributes: Attributes, later: int, remote': Service)
    requires FindJira(cache, now, remote, attributes).result.Success?
    requires Remembered(cache, now, CacheKey(attributes)).None?
    requires later >= now + Ttl
    ensures
      var first := FindJira(cache, now, remote, attributes);
      FindJira(first.cache, later, remote', attributes).requests == Resolve(remote', attributes).1
  {
    var key := CacheKey(attributes);
    var first := FindJira(cache, now, remote, attributes);
    assert first.cache[key].expiresAt == now + Ttl;
  }

  /** The attribute array `jira()` passes: the local id and key. */
  function ProjectAttributes(jiraId: Value, jiraKey: Value): Attributes
  {
    [("project_id", jiraId), ("project_key", jiraKey)]
  }

  /** For the attributes of `jira()` the id wins whenever it is not null,
      the key is used only when the id is null, and with both null no
      remote call is made and no project is found. */
  lemma ProjectLookupDispatch(remote: Service, jiraId: Value, jiraKey: Value)
    ensures jiraId != Null ==> Resolve(remote, ProjectAttributes(jiraId, jiraKey)).1 == [ToStr(jiraId)]
    ensures jiraId == Null && jiraKey != Null ==> Resolve(remote, ProjectAttributes(jiraId, jiraKey)).1 == [ToStr(jiraKey)]
    ensures jiraId == Null && jiraKey == Null ==> Resolve(remote, ProjectAttributes(jiraId, jiraKey)) == (Success(None), [])
  {
    var a := ProjectAttributes(jiraId, jiraKey);
    assert Element(a, "project_id") == Some(jiraId);
    assert Element(a, "project_key") == Some(jiraKey) by {
      assert a[1..] == [("project_key", jiraKey)];
    }
  }

  /** Projects with different local ids or keys never share a cache entry. */
  lemma ProjectKeysDisambiguate(id1: Value, key1: Value, id2: Value, key2: Value)
    ensures CacheKey(ProjectAttributes(id1, key1)) == CacheKey(ProjectAttributes(id2, key2)) <==> id1 == id2 && key1 == key2
  {
    var a := ProjectAttributes(id1, key1);
    var b := ProjectAttributes(id2, key2);
    CacheKeyInjective(a, b);
    if a == b {
      assert a[0] == b[0] && a[1] == b[1];
    }
  }
}
