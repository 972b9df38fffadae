/**
 * The cache keys the data hooks share. Every resource has a key factory
 * built from one root string; a key is an array whose elements are
 * compared one by one, and invalidating a key refreshes every cached query
 * whose key starts with it. A mutation's success handler invalidates a
 * fixed list of such prefixes.
 */
module QueryKeys {
  import opened JsValues
  import FormInputs

  /** A query key: `readonly [...]` of strings, parameter objects and ids. */
  type Key = seq<Value>

  /** `{ all, lists, list, details, detail }` of one resource. */
  datatype KeyFactory = KeyFactory(root: string)

  /** `all: [root]` */
  function All(f: KeyFactory): (k: Key)
    ensures |k| == 1 && k[0] == Str(f.root)
  {
    [Str(f.root)]
  }

  /** `lists: () => [...all, "list"]` */
  function Lists(f: KeyFactory): (k: Key)
    ensures All(f) < k && |k| == 2 && k[1] == Str("list")
  {
    All(f) + [Str("list")]
  }

  /** `list: (params?) => [...lists(), params]`; no parameters is `Undefined`. */
  function List(f: KeyFactory, params: Value): (k: Key)
    ensures Lists(f) < k && |k| == 3 && k[2] == params
  {
    Lists(f) + [params]
  }

  /** `details: () => [...all, "detail"]` */
  function Details(f: KeyFactory): (k: Key)
    ensures All(f) < k && |k| == 2 && k[1] == Str("detail")
  {
    All(f) + [Str("detail")]
  }

  /** `detail: (id) => [...details(), id]` */
  function Detail(f: KeyFactory, id: Value): (k: Key)
    ensures Details(f) < k && |k| == 3 && k[2] == id
  {
    Details(f) + [id]
  }

  /** The list branch and the detail branch of a factory never meet: no
      list key lies under `details()` and no detail key under `lists()`. */
  lemma ListsAndDetailsAreApart(f: KeyFactory, params: Value, id: Value)
    ensures !(Lists(f) <= Details(f)) && !(Details(f) <= Lists(f))
    ensures !(Details(f) <= List(f, params)) && !(Lists(f) <= Detail(f, id))
  {
    assert Lists(f)[1] != Details(f)[1];
    assert List(f, params)[1] != Details(f)[1];
    assert Detail(f, id)[1] != Lists(f)[1];
  }

  /** Factories with different roots share no key: a key under one
      factory's `all` is under no other's. */
  lemma FactoriesAreApart(f: KeyFactory, g: KeyFactory, k: Key)
    requires f.root != g.root
    requires All(f) <= k
    ensures !(All(g) <= k)
  {
    assert k[0] == Str(f.root);
  }

  /** `invalidateQueries` with each of `prefixes` refreshes the query `key`. */
  predicate Covers(prefixes: seq<Key>, key: Key)
    ensures Covers(prefixes, key) <==> exists p :: p in prefixes && p <= key
  {
    assert (exists p :: p in prefixes && p <= key) ==> exists i :: 0 <= i < |prefixes| && prefixes[i] <= key by {
      if exists p :: p in prefixes && p <= key {
        var p :| p in prefixes && p <= key;
        var i :| 0 <= i < |prefixes| && prefixes[i] == p;
      }
    }
    assert (exists i :: 0 <= i < |prefixes| && prefixes[i] <= key) ==> exists p :: p in prefixes && p <= key by {
      if exists i :: 0 <= i < |prefixes| && prefixes[i] <= key {
        var i :| 0 <= i < |prefixes| && prefixes[i] <= key;
        assert prefixes[i] in prefixes;
      }
    }
    exists i :: 0 <= i < |prefixes| && prefixes[i] <= key
  }

  /** What the success handler of a mutation sees. */
  datatype Mutation = Create | Update(response: Object) | Delete

  /** What `response.data && 'id' in response.data` finds. */
  datatype IdCheck = NoId | HasId(id: Value) | Throws

  /** The id check of an update's success handler: a falsy `data` has no
      id; an object has one when it carries an `id` field; an array never
      does; `in` on any other truthy value throws a TypeError. */
  function ResponseId(response: Object): (r: IdCheck)
    ensures r.HasId? <==> Get(response, "data").Obj? && "id" in Get(response, "data").fields
    ensures r.HasId? ==> r.id == Get(response, "data").fields["id"]
    ensures r.Throws? <==> Truthy(Get(response, "data")) && !Get(response, "data").Obj? && !Get(response, "data").Arr?
  {
    var data := Get(response, "data");
    if !Truthy(data) then NoId
    else if data.Obj? then (if "id" in data.fields then HasId(data.fields["id"]) else NoId)
    else if data.Arr? then NoId
    else Throws
  }

  /** The prefixes a success handler invalidates, in order, and whether it
      throws after them. */
  datatype Effect = Effect(invalidated: seq<Key>, throws: bool)

  /** The detail prefix an update adds, if the response names an id. */
  function UpdatedDetail(f: KeyFactory, m: Mutation): seq<Key> {
    if m.Update? && ResponseId(m.response).HasId? then [Detail(f, ResponseId(m.response).id)] else []
  }

  /** The success handlers of a resource with no parent: every mutation
      refreshes the resource's lists; an update whose response names an id
      also refreshes that one record; nothing else is refreshed. */
  function OwnInvalidation(f: KeyFactory, m: Mutation): (r: Effect)
    ensures r.invalidated == [Lists(f)] + UpdatedDetail(f, m)
    ensures r.throws <==> m.Update? && ResponseId(m.response).Throws?
  {
    match m
    case Create => Effect([Lists(f)], false)
    case Delete => Effect([Lists(f)], false)
    case Update(response) =>
      match ResponseId(response)
      case HasId(id) => Effect([Lists(f), Detail(f, id)], false)
      case NoId => Effect([Lists(f)], false)
      case Throws => Effect([Lists(f)], true)
  }

  /** The success handlers of a resource shown inside a parent page: as
      for a resource of its own, with the parent's `all` refreshed right
      after the lists. */
  function ChildInvalidation(f: KeyFactory, parent: KeyFactory, m: Mutation): (r: Effect)
    ensures r.invalidated == [Lists(f), All(parent)] + UpdatedDetail(f, m)
    ensures r.throws <==> m.Update? && ResponseId(m.response).Throws?
  {
    match m
    case Create => Effect([Lists(f), All(parent)], false)
    case Delete => Effect([Lists(f), All(parent)], false)
    case Update(response) =>
      match ResponseId(response)
      case HasId(id) => Effect([Lists(f), All(parent), Detail(f, id)], false)
      case NoId => Effect([Lists(f), All(parent)], false)
      case Throws => Effect([Lists(f), All(parent)], true)
  }

  /** The query `key` is a record of `f` the mutation `m` names by id. */
  predicate UpdatedRecord(f: KeyFactory, m: Mutation, key: Key) {
    m.Update? && ResponseId(m.response).HasId? && Detail(f, ResponseId(m.response).id) <= key
  }

  lemma CoversSingleton(p: Key, key: Key)
    ensures Covers([p], key) <==> p <= key
  {
    if p <= key {
      assert [p][0] <= key;
    }
  }

  lemma CoversAppend(ps: seq<Key>, qs: seq<Key>, key: Key)
    ensures Covers(ps + qs, key) <==> Covers(ps, key) || Covers(qs, key)
  {
    if Covers(ps + qs, key) {
      var i :| 0 <= i < |ps + qs| && (ps + qs)[i] <= key;
      if i >= |ps| {
        assert qs[i - |ps|] <= key;
      }
    }
    if Covers(ps, key) {
      var i :| 0 <= i < |ps| && ps[i] <= key;
      assert (ps + qs)[i] <= key;
    }
    if Covers(qs, key) {
      var i :| 0 <= i < |qs| && qs[i] <= key;
      assert (ps + qs)[|ps| + i] <= key;
    }
  }

  lemma CoversUpdatedDetail(f: KeyFactory, m: Mutation, key: Key)
    ensures Covers(UpdatedDetail(f, m), key) <==> UpdatedRecord(f, m, key)
  {
    if UpdatedRecord(f, m, key) {
      CoversSingleton(Detail(f, ResponseId(m.response).id), key);
    }
  }

  /** Exactly what a resource's own success handler refreshes: every key
      under its lists, and, after an update naming an id, the keys under
      that record. */
  lemma OwnInvalidationRefreshes(f: KeyFactory, m: Mutation, key: Key)
    ensures Covers(OwnInvalidation(f, m).invalidated, key) <==> Lists(f) <= key || UpdatedRecord(f, m, key)
  {
    CoversAppend([Lists(f)], UpdatedDetail(f, m), key);
    CoversSingleton(Lists(f), key);
    CoversUpdatedDetail(f, m, key);
  }

  /** Exactly what a child resource's success handler refreshes: its
      lists, everything of the parent, and the updated record. */
  lemma ChildInvalidationRefreshes(f: KeyFactory, parent: KeyFactory, m: Mutation, key: Key)
    ensures Covers(ChildInvalidation(f, parent, m).invalidated, key) <==>
      Lists(f) <= key || All(parent) <= key || UpdatedRecord(f, m, key)
  {
    CoversAppend([Lists(f), All(parent)], UpdatedDetail(f, m), key);
    CoversAppend([Lists(f)], [All(parent)], key);
    assert [Lists(f)] + [All(parent)] == [Lists(f), All(parent)];
    CoversSingleton(Lists(f), key);
    CoversSingleton(All(parent), key);
    CoversUpdatedDetail(f, m, key);
  }

  /** Every list query of the resource is refreshed by every mutation,
      whatever its parameters. */
  lemma EveryListIsRefreshed(f: KeyFactory, m: Mutation, params: Value)
    ensures Covers(OwnInvalidation(f, m).invalidated, List(f, params))
  {
    OwnInvalidationRefreshes(f, m, List(f, params));
  }

  /** An update refreshes the detail query of `id` exactly when the
      response's data carries that id; creates and deletes refresh no
      detail query. */
  lemma DetailRefreshedIffNamed(f: KeyFactory, m: Mutation, id: Value)
    ensures Covers(OwnInvalidation(f, m).invalidated, Detail(f, id)) <==>
      m.Update? && ResponseId(m.response) == HasId(id)
  {
    OwnInvalidationRefreshes(f, m, Detail(f, id));
    ListsAndDetailsAreApart(f, Undefined, id);
    if UpdatedRecord(f, m, Detail(f, id)) {
      assert Detail(f, ResponseId(m.response).id)[2] == Detail(f, id)[2];
    }
  }

  /** A child mutation refreshes every query of the parent page. */
  lemma ChildRefreshesParent(f: KeyFactory, parent: KeyFactory, m: Mutation, key: Key)
    requires All(parent) <= key
    ensures Covers(ChildInvalidation(f, parent, m).invalidated, key)
  {
    ChildInvalidationRefreshes(f, parent, m, key);
  }

  /** A resource's own mutations leave every other resource's queries
      alone. */
  lemma OwnInvalidationStaysInside(f: KeyFactory, g: KeyFactory, m: Mutation, key: Key)
    requires f.root != g.root && All(g) <= key
    ensures !Covers(OwnInvalidation(f, m).invalidated, key)
  {
    OwnInvalidationRefreshes(f, m, key);
    assert key[0] == Str(g.root);
  }

  /** `enabled: !!id`: a single-record query runs for a non-empty id. */
  predicate DetailEnabled(id: string) {
    id != ""
  }

  /** On an edit page the record's query runs exactly when the form, once
      submitted, would send an update rather than a create. */
  lemma DetailQueryMatchesSubmitRoute(id: Option<string>)
    ensures DetailEnabled(FormInputs.DetailQueryId(id)) <==> FormInputs.SubmitRoute(true, id).Update?
  {
  }
}
