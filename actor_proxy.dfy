/** The proxy cache of the Service Fabric model: one proxy object per actor
    id, created on the first request and handed out again on every later one. */
module Proxies {
  import opened Common
  import Grains

  /** A Service Fabric actor id. Its own definition is not part of this model;
      it is taken as a value whose equality is the equality of its key. */
  datatype ActorId = LongId(long: int64) | GuidId(guid: Grains.Guid) | StringId(text: string)

  /** A generated proxy object. Which interface it was generated for is
      recorded; the generated type itself is not modelled. */
  class Proxy {
    const interfaceName: string

    constructor(interfaceName: string)
      ensures this.interfaceName == interfaceName
    {
      this.interfaceName := interfaceName;
    }
  }

  /** The static state of `ActorProxy`, and the static `ActorModel.Runtime` slot
      it initialises, held by one object. */
  class ActorProxy {
    /** `IdMap`: the proxies handed out so far, by actor id. */
    var idMap: map<ActorId, Proxy>
    /** Whether `ActorModel.Runtime` is non-null. */
    var runtimeInitialized: bool

    /** The static constructor: an empty cache. The runtime slot belongs to
        another class and keeps whatever it held. */
    constructor(runtimeInitialized: bool)
      ensures idMap == map[] && this.runtimeInitialized == runtimeInitialized
    {
      idMap := map[];
      this.runtimeInitialized := runtimeInitialized;
    }

    /** `Create<TActorInterface>(actorId, applicationName, serviceName)`. A hit
        returns the cached proxy and changes nothing; a miss initialises the
        runtime if it is null, makes a new proxy and caches it under `actorId`.
        Only `actorId` is looked up: the interface and the two names play no part. */
    method Create(actorId: ActorId, interfaceName: string,
                  applicationName: Option<string>, serviceName: Option<string>)
      returns (p: Proxy)
      modifies this
      ensures actorId in idMap && idMap[actorId] == p
      ensures actorId in old(idMap) ==>
                p == old(idMap)[actorId] && idMap == old(idMap)
                && runtimeInitialized == old(runtimeInitialized)
      ensures actorId !in old(idMap) ==>
                fresh(p) && p.interfaceName == interfaceName
                && idMap == old(idMap)[actorId := p] && runtimeInitialized
      ensures old(runtimeInitialized) ==> runtimeInitialized
    {
      if actorId in idMap {
        p := idMap[actorId];
        return;
      }
      if !runtimeInitialized {
        runtimeInitialized := true;
      }
      p := new Proxy(interfaceName);
      idMap := idMap[actorId := p];
    }
  }

  /** Activation is idempotent: two requests for one id, whatever interfaces
      and names they give, return the same proxy. */
  method CreateTwice(cache: ActorProxy, actorId: ActorId, firstInterface: string, secondInterface: string,
                     applicationName: Option<string>, serviceName: Option<string>,
                     applicationName2: Option<string>, serviceName2: Option<string>)
    returns (first: Proxy, second: Proxy)
    modifies cache
    ensures first == second
    ensures cache.idMap == old(cache.idMap)[actorId := first]
  {
    first := cache.Create(actorId, firstInterface, applicationName, serviceName);
    second := cache.Create(actorId, secondInterface, applicationName2, serviceName2);
  }
}
