/** The registry of response factories, keyed by type, with a `default` entry. */
module ResponseFactories {
  import opened Wrappers
  import opened PhpArrays

  /** A registered factory: the framework's own, or one added by the
      application (identified by a number). */
  datatype Factory = DefaultFactory | AddedFactory(id: nat)

  /** The type `make` looks up: `null` means `default`. */
  function TypeKey(t: Option<string>): (k: string)
    ensures t.None? ==> k == "default"
    ensures t.Some? ==> k == t.value
  {
    t.GetOr("default")
  }

  /** `make` as written: an unregistered type is a runtime error, and every
      registered type yields the `default` entry. */
  function MakeAsWritten(factories: OMap<string, Factory>, t: Option<string>): (r: Result<Factory, string>)
    requires "default" in Keys(factories)
    ensures r.Failure? <==> TypeKey(t) !in Keys(factories)
    ensures r.Failure? ==> r.error == "cant find ResponseFactory: " + TypeKey(t)
    ensures r.Success? ==> Some(r.value) == Get(factories, "default")
  {
    if Get(factories, TypeKey(t)).None? then Failure("cant find ResponseFactory: " + TypeKey(t))
    else Success(Get(factories, "default").value)
  }

  /** The evident intent of `make`: the factory registered for the type. */
  function MakeIntended(factories: OMap<string, Factory>, t: Option<string>): (r: Result<Factory, string>)
    ensures r.Failure? <==> TypeKey(t) !in Keys(factories)
    ensures r.Failure? ==> r.error == "cant find ResponseFactory: " + TypeKey(t)
    ensures forall f :: r == Success(f) <==> Get(factories, TypeKey(t)) == Some(f)
  {
    match Get(factories, TypeKey(t))
    case None => Failure("cant find ResponseFactory: " + TypeKey(t))
    case Some(f) => Success(f)
  }

  /** A factory added for `json` is not the one `make('json')` returns. */
  lemma AddedFactoryNotReturned(id: nat)
    ensures var fs := Put([("default", DefaultFactory)], "json", AddedFactory(id));
      && Get(fs, "json") == Some(AddedFactory(id))
      && MakeAsWritten(fs, Some("json")) == Success(DefaultFactory)
      && MakeIntended(fs, Some("json")) == Success(AddedFactory(id))
  {
    var fs := Put([("default", DefaultFactory)], "json", AddedFactory(id));
    assert fs == [("default", DefaultFactory), ("json", AddedFactory(id))];
  }

  /** With the intent, `make` returns whatever `addFactory` last registered
      for the type, and a missing type stays an error. */
  lemma MakeIntendedAfterAdd(factories: OMap<string, Factory>, t: string, f: Factory, u: Option<string>)
    ensures MakeIntended(Put(factories, t, f), Some(t)) == Success(f)
    ensures TypeKey(u) != t ==> MakeIntended(Put(factories, t, f), u) == MakeIntended(factories, u)
  {
    PutGet(factories, t, f);
    if TypeKey(u) != t {
      PutOther(factories, t, f, TypeKey(u));
    }
  }

  /** `AbstractResponseFactory`. */
  class AbstractResponseFactory {
    var factories: OMap<string, Factory>

    /** The registry always has a `default` entry and no type twice. */
    predicate Valid()
      reads this
    {
      "default" in Keys(factories) && UniqueKeys(factories)
    }

    /** The constructor registers the framework's factory as `default`. */
    constructor()
      ensures Valid()
      ensures factories == [("default", DefaultFactory)]
    {
      factories := [("default", DefaultFactory)];
    }

    /** `addFactory`: entry `t` set or overwritten, no other entry changed. */
    method AddFactory(t: string, f: Factory)
      requires Valid()
      modifies this
      ensures Valid()
      ensures factories == Put(old(factories), t, f)
      ensures Get(factories, t) == Some(f)
      ensures forall k :: k != t ==> Get(factories, k) == Get(old(factories), k)
    {
      PutGet(factories, t, f);
      PutKeys(factories, t, f);
      PutUnique(factories, t, f);
      forall k | k != t
        ensures Get(Put(factories, t, f), k) == Get(factories, k)
      {
        PutOther(factories, t, f, k);
      }
      factories := Put(factories, t, f);
    }

    /** `make`, as written. */
    method Make(t: Option<string>) returns (r: Result<Factory, string>)
      requires Valid()
      ensures r == MakeAsWritten(factories, t)
    {
      var key := if t.None? then "default" else t.value;
      if Get(factories, key).None? {
        return Failure("cant find ResponseFactory: " + key);
      }
      r := Success(Get(factories, "default").value);
    }
  }
}
