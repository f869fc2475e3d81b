/**
 * The lazily created, shared catalog service of
 * src/services/property/singleton.ts. The module-level slot
 * `propertyServiceInstance` is the field `instance`; `data` is the static
 * catalog that a new service is built from.
 */
module ServiceSingleton {
  import opened PropertyTypes
  import opened Catalog

  class ServiceRegistry {
    const data: seq<Property>
    var instance: PropertyService?

    /** The slot starts empty. */
    constructor (data: seq<Property>)
      ensures this.data == data && instance == null
    {
      this.data := data;
      instance := null;
    }

    /**
     * `getPropertyService()`: builds a service on the first call and stores
     * it; every later call returns the stored one.
     */
    method GetPropertyService() returns (service: PropertyService)
      modifies this
      ensures instance == service
      ensures old(instance) != null ==> service == old(instance)
      ensures old(instance) == null ==> fresh(service) && service.properties == data
    {
      if instance == null {
        instance := new PropertyService(data);
      }
      service := instance;
    }
  }

  /** Two successive calls hand out the same service, and the slot keeps it. */
  method TwoCallsShareInstance(registry: ServiceRegistry) returns (first: PropertyService, second: PropertyService)
    modifies registry
    ensures first == second && registry.instance == first
    ensures old(registry.instance) != null ==> first == old(registry.instance)
    ensures old(registry.instance) == null ==> fresh(first) && first.properties == registry.data
  {
    first := registry.GetPropertyService();
    second := registry.GetPropertyService();
  }
}
