/** The provider adapter registry: adapters registered by the name they report. */
module AdapterRegistry {
  import opened Wrappers

  /** A provider adapter, known by the name it reports and an identity standing for its
      implementation (endpoint, credentials, request format). */
  datatype Adapter = Adapter(name: string, implementation: nat)

  /** `providerRegistry`. */
  class Registry {
    var adapters: map<string, Adapter>

    constructor ()
      ensures adapters == map[]
    {
      adapters := map[];
    }

    /** `GetProviderAdapter`: the adapter registered under `name`, None (Go's nil) otherwise. */
    function GetProviderAdapter(name: string): (r: Option<Adapter>)
      reads this
      ensures r.Some? <==> name in adapters
      ensures r.Some? ==> r.value == adapters[name]
    {
      if name in adapters then Some(adapters[name]) else None
    }

    /** `RegisterProviderAdapter`: a nil adapter changes nothing; otherwise the adapter is filed
        under its own name, replacing any earlier adapter of that name, and every other name
        keeps its adapter. */
    method RegisterProviderAdapter(adapter: Option<Adapter>)
      modifies this
      ensures adapter.None? ==> adapters == old(adapters)
      ensures adapter.Some? ==> adapters == old(adapters)[adapter.value.name := adapter.value]
      ensures adapter.Some? ==> GetProviderAdapter(adapter.value.name) == adapter
      ensures forall n :: (adapter.None? || n != adapter.value.name) ==>
                GetProviderAdapter(n) == old(GetProviderAdapter(n))
    {
      if adapter.None? {
        return;
      }
      adapters := adapters[adapter.value.name := adapter.value];
    }
  }
}
