/** The client cache (internal/concourse/client_cache.go): one Concourse client per Instance, keyed by
    "{namespace}/{name}@{resourceVersion}", with eviction by key prefix under a mutex. */
module ClientCache {
  import opened ApiServer

  /** Which secret keys of the namespace the client needs (CA, password or token). */
  datatype InstanceSpec = InstanceSpec(url: string, secretRefs: set<string>)

  datatype Ident = Ident(namespace: string, name: string, resourceVersion: string)

  datatype Instance = Instance(id: Ident, spec: InstanceSpec)

  /** Secret values by namespace and reference. */
  type Secrets = map<(string, string), string>

  datatype Client = Client(spec: InstanceSpec, credentials: map<string, string>)

  /** BuildHTTPClient and NewConcourseClient: a function of the spec and the secrets it refers to. */
  function BuildClient(namespace: string, spec: InstanceSpec, secrets: Secrets): Option<Client> {
    if forall ref <- spec.secretRefs :: (namespace, ref) in secrets then
      Some(Client(spec, map ref | ref in spec.secretRefs :: secrets[(namespace, ref)]))
    else
      None
  }

  /** The client is what building for this spec gave with the secrets of some time. */
  ghost predicate BuiltFor(snapshots: seq<Secrets>, namespace: string, spec: InstanceSpec, cl: Client) {
    exists n :: 0 <= n < |snapshots| && BuildClient(namespace, spec, snapshots[n]) == Some(cl)
  }

  /** Both snapshots hold every secret that the spec refers to, with the same value. */
  predicate SameSecrets(namespace: string, spec: InstanceSpec, a: Secrets, b: Secrets) {
    forall ref <- spec.secretRefs :: (namespace, ref) in a && (namespace, ref) in b && a[(namespace, ref)] == b[(namespace, ref)]
  }

  /** A client built with the secrets `was` is what building with `now` gives exactly if the secrets that the
      spec refers to are the same. */
  lemma FreshIffSameSecrets(namespace: string, spec: InstanceSpec, was: Secrets, now: Secrets)
    requires BuildClient(namespace, spec, was).Some?
    ensures BuildClient(namespace, spec, now) == BuildClient(namespace, spec, was) <==> SameSecrets(namespace, spec, was, now)
  {
    var a, b := BuildClient(namespace, spec, was), BuildClient(namespace, spec, now);
    if SameSecrets(namespace, spec, was, now) {
      assert b.Some? && a.value.credentials == b.value.credentials;
    }
    if b == a {
      forall ref <- spec.secretRefs ensures was[(namespace, ref)] == now[(namespace, ref)] {
        assert a.value.credentials[ref] == b.value.credentials[ref];
      }
    }
  }

  // ----- Keys -----

  function Prefix(id: Ident): string {
    id.namespace + "/" + id.name + "@"
  }

  function CacheKey(id: Ident): string {
    Prefix(id) + id.resourceVersion
  }

  predicate HasPrefix(k: string, prefix: string) {
    |k| >= |prefix| && k[..|prefix|] == prefix
  }

  predicate SameInstance(i: Ident, j: Ident) {
    i.namespace == j.namespace && i.name == j.name
  }

  /** Kubernetes names are made of letters, digits, '-' and '.'; only these two exclusions matter. */
  predicate ValidIdent(id: Ident) {
    '/' !in id.namespace && '@' !in id.name
  }

  /** A separator that is in neither part splits a string in one way only. */
  lemma SplitOnce(a: string, x: string, b: string, y: string, c: char)
    requires c !in a && c !in b && a + [c] + x == b + [c] + y
    ensures a == b && x == y
  {
    var s := a + [c] + x;
    assert s[|a|] == c && s[|b|] == c;
    assert forall n :: 0 <= n < |a| ==> s[n] == a[n];
    assert forall n :: 0 <= n < |b| ==> s[n] == b[n];
    assert |a| == |b|;
    assert a == s[..|a|] && b == s[..|b|];
    assert x == s[|a| + 1..] && y == s[|b| + 1..];
  }

  lemma Regroup(namespace: string, name: string, rest: string)
    ensures namespace + "/" + name + "@" + rest == namespace + ['/'] + (name + ['@'] + rest)
  {}

  /** A key can be taken apart in one way only. */
  lemma KeySplits(i: Ident, j: Ident, rest: string)
    requires ValidIdent(i) && ValidIdent(j) && CacheKey(i) == Prefix(j) + rest
    ensures SameInstance(i, j) && i.resourceVersion == rest
  {
    Regroup(i.namespace, i.name, i.resourceVersion);
    Regroup(j.namespace, j.name, rest);
    SplitOnce(i.namespace, i.name + ['@'] + i.resourceVersion, j.namespace, j.name + ['@'] + rest, '/');
    SplitOnce(i.name, i.resourceVersion, j.name, rest, '@');
  }

  /** Prefix exactness: a key carries the prefix of an Instance exactly when it is a key of it. */
  lemma PrefixIsExact(i: Ident, j: Ident)
    requires ValidIdent(i) && ValidIdent(j)
    ensures HasPrefix(CacheKey(i), Prefix(j)) <==> SameInstance(i, j)
  {
    var k := CacheKey(i);
    if HasPrefix(k, Prefix(j)) {
      assert k == Prefix(j) + k[|Prefix(j)|..];
      KeySplits(i, j, k[|Prefix(j)|..]);
    }
  }

  lemma KeyIsInjective(i: Ident, j: Ident)
    requires ValidIdent(i) && ValidIdent(j) && CacheKey(i) == CacheKey(j)
    ensures i == j
  {
    KeySplits(i, j, j.resourceVersion);
  }

  /** The exclusions are needed: with a '/' in the namespace two Instances share their keys. */
  lemma SlashCollides()
    ensures exists i, j :: !SameInstance(i, j) && CacheKey(i) == CacheKey(j)
  {
    var i, j := Ident("a/b", "c", "1"), Ident("a", "b/c", "1");
    assert CacheKey(i) == "a/b/c@1" == CacheKey(j);
    assert !SameInstance(i, j);
  }

  // ----- The store -----

  type Store = map<string, Client>

  function Evicted(store: Store, id: Ident): Store {
    map k | k in store && !HasPrefix(k, Prefix(id)) :: store[k]
  }

  function WithClient(store: Store, id: Ident, cl: Client): Store {
    Evicted(store, id)[CacheKey(id) := cl]
  }

  class Cache {
    var store: Store

    constructor ()
      ensures store == map[]
    {
      store := map[];
    }

    method Get(instance: Instance) returns (cl: Option<Client>)
      ensures cl == if CacheKey(instance.id) in store then Some(store[CacheKey(instance.id)]) else None
    {
      var key := CacheKey(instance.id);
      cl := if key in store then Some(store[key]) else None;
    }

    /** Deletes keys while iterating over them, in any order. */
    method Evict(instance: Instance)
      modifies this
      ensures store == Evicted(old(store), instance.id)
    {
      var prefix := Prefix(instance.id);
      var rest := store.Keys;
      while rest != {}
        invariant rest <= old(store).Keys
        invariant forall k :: k in store <==> k in old(store) && (k in rest || !HasPrefix(k, prefix))
        invariant forall k <- store :: k in old(store) && store[k] == old(store)[k]
        decreases |rest|
      {
        var k :| k in rest;
        rest := rest - {k};
        if HasPrefix(k, prefix) {
          store := store - {k};
        }
      }
    }

    method Set(instance: Instance, cl: Client)
      modifies this
      ensures store == WithClient(old(store), instance.id, cl)
    {
      Evict(instance);
      store := store[CacheKey(instance.id) := cl];
    }

    /** Get, build, Set without holding the mutex in between; here with no other thread running. */
    method GetOrBuild(instance: Instance, secrets: Secrets) returns (cl: Option<Client>)
      modifies this
      ensures var key := CacheKey(instance.id);
              var built := BuildClient(instance.id.namespace, instance.spec, secrets);
              && cl == (if key in old(store) then Some(old(store)[key]) else built)
              && store == if key in old(store) || built.None? then old(store)
                          else WithClient(old(store), instance.id, built.value)
    {
      cl := Get(instance);
      if cl.Some? {
        return;
      }
      cl := BuildClient(instance.id.namespace, instance.spec, secrets);
      if cl.Some? {
        Set(instance, cl.value);
      }
    }
  }

  ghost predicate HasEntry(store: Store, id: Ident) {
    CacheKey(id) in store
  }

  /** At most one entry per namespace/name. */
  ghost predicate OneEntryEach(store: Store) {
    forall i, j :: ValidIdent(i) && ValidIdent(j) && SameInstance(i, j) && HasEntry(store, i) && HasEntry(store, j)
                   ==> i == j
  }

  /** Set and Evict of one Instance leave the entries of all others untouched. */
  lemma OthersUntouched(store: Store, id: Ident, cl: Client, other: Ident)
    requires ValidIdent(id) && ValidIdent(other) && !SameInstance(id, other)
    ensures HasEntry(Evicted(store, id), other) <==> HasEntry(store, other)
    ensures HasEntry(WithClient(store, id, cl), other) <==> HasEntry(store, other)
    ensures HasEntry(store, other) ==> Evicted(store, id)[CacheKey(other)] == store[CacheKey(other)]
    ensures HasEntry(store, other) ==> WithClient(store, id, cl)[CacheKey(other)] == store[CacheKey(other)]
  {
    PrefixIsExact(other, id);
    if CacheKey(other) == CacheKey(id) { KeyIsInjective(other, id); }
  }

  /** Evict removes every entry of the Instance; Set leaves exactly the one it stores. */
  lemma OwnEntries(store: Store, id: Ident, cl: Client, i: Ident)
    requires ValidIdent(id) && ValidIdent(i) && SameInstance(id, i)
    ensures !HasEntry(Evicted(store, id), i)
    ensures HasEntry(WithClient(store, id, cl), i) <==> i == id
  {
    PrefixIsExact(i, id);
    if CacheKey(i) == CacheKey(id) { KeyIsInjective(i, id); }
  }

  lemma SetKeepsOneEntry(store: Store, id: Ident, cl: Client)
    requires OneEntryEach(store) && ValidIdent(id)
    ensures OneEntryEach(WithClient(store, id, cl)) && OneEntryEach(Evicted(store, id))
  {
    forall i, j | ValidIdent(i) && ValidIdent(j) && SameInstance(i, j) && i != j
      ensures !(HasEntry(WithClient(store, id, cl), i) && HasEntry(WithClient(store, id, cl), j))
      ensures !(HasEntry(Evicted(store, id), i) && HasEntry(Evicted(store, id), j))
    {
      if SameInstance(i, id) {
        OwnEntries(store, id, cl, i);
        OwnEntries(store, id, cl, j);
      } else {
        OthersUntouched(store, id, cl, i);
        OthersUntouched(store, id, cl, j);
      }
    }
  }
}
