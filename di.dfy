/**
 * The dependency-injection provider (academy_di/src/lib.rs). A provider keeps a cache keyed by
 * type; building an `Arc<T>` returns the cached one when there is one, and otherwise builds a
 * `T`, caches a new `Arc` around it and returns that same `Arc`. Types are keys, built values
 * come from a function of the key, and the builds are logged.
 */
module Di {
  /** The type a cache entry is for. */
  type TypeKey = string

  /** `Arc<T>`: a shared handle; two handles are the same when they are the same object. */
  class Arc<V> {
    const value: V

    constructor (value: V)
      ensures this.value == value
    {
      this.value := value;
    }
  }

  /** What `provide` hands out: a plain value built afresh, or a shared handle. */
  datatype Provided<V> = Plain(value: V) | Shared(arc: Arc<V>)

  /** Whether `provide::<T>()` is asked for `T` itself or for `Arc<T>`. */
  datatype Request = BuildPlain(key: TypeKey) | BuildShared(key: TypeKey)

  /** A `Provider` with its `TypeMap` cache. */
  class Provider<V> {
    var cache: map<TypeKey, Arc<V>>
    /** `T::build`, as a function of the type. */
    const build: TypeKey -> V
    /** The types `T::build` ran for, in order. */
    ghost var builds: seq<TypeKey>

    constructor (build: TypeKey -> V)
      ensures this.build == build && cache == map[] && builds == []
    {
      this.build := build;
      cache := map[];
      builds := [];
    }

    /**
     * `Build for Arc<T>`: a hit returns the cached handle without building; a miss builds once,
     * caches a new handle and returns that handle.
     */
    method BuildArc(key: TypeKey) returns (a: Arc<V>)
      modifies this
      ensures key in old(cache) ==> a == old(cache)[key] && cache == old(cache) && builds == old(builds)
      ensures key !in old(cache) ==>
        && fresh(a) && a.value == build(key)
        && cache == old(cache)[key := a]
        && builds == old(builds) + [key]
    {
      if key in cache {
        a := cache[key];
      } else {
        var value := build(key);
        builds := builds + [key];
        a := new Arc(value);
        cache := cache[key := a];
      }
    }

    /** `provide::<T>()` is `T::build`: plain types are built every time, `Arc`s go through the cache. */
    method Provide(req: Request) returns (p: Provided<V>)
      modifies this
      ensures req.BuildPlain? ==>
        p == Plain(build(req.key)) && cache == old(cache) && builds == old(builds) + [req.key]
      ensures req.BuildShared? && req.key in old(cache) ==>
        p == Shared(old(cache)[req.key]) && cache == old(cache) && builds == old(builds)
      ensures req.BuildShared? && req.key !in old(cache) ==>
        && p.Shared? && fresh(p.arc) && p.arc.value == build(req.key)
        && cache == old(cache)[req.key := p.arc] && builds == old(builds) + [req.key]
    {
      match req
      case BuildPlain(key) =>
        builds := builds + [key];
        p := Plain(build(key));
      case BuildShared(key) =>
        var a := BuildArc(key);
        p := Shared(a);
    }
  }

  /** Building the same `Arc<T>` twice gives the same handle, and `T::build` runs at most once. */
  method BuildArcTwice<V>(provider: Provider<V>, key: TypeKey) returns (first: Arc<V>, second: Arc<V>)
    modifies provider
    ensures first == second
    ensures first.value == (if key in old(provider.cache) then old(provider.cache)[key].value else provider.build(key))
    ensures |provider.builds| <= |old(provider.builds)| + 1
  {
    first := provider.BuildArc(key);
    second := provider.BuildArc(key);
  }
}
