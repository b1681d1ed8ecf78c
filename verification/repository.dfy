/**
 * The in-memory repository (`DataProvider`): the single owner of the client,
 * estimate and photo collections. It loads them from the device store on mount
 * and writes a collection back under its own key after every change to it.
 * The clock is an input: `now` is the `new Date()` reading, `tick` the
 * `Date.now()` reading an id is made from.
 */
module Repository {
  import opened Types
  import opened Storage
  import Ids

  class DataProvider {
    var clients: seq<Client>
    var estimates: seq<Estimate>
    var photos: seq<Photo>
    const store: DeviceStore
    const clientCodec: Codec<seq<Client>>
    const estimateCodec: Codec<seq<Estimate>>
    const photoCodec: Codec<seq<Photo>>

    /** Mounting the provider: until loading completes every collection is empty. */
    constructor (store: DeviceStore, clientCodec: Codec<seq<Client>>, estimateCodec: Codec<seq<Estimate>>, photoCodec: Codec<seq<Photo>>)
      ensures clients == [] && estimates == [] && photos == []
      ensures this.store == store
      ensures this.clientCodec == clientCodec && this.estimateCodec == estimateCodec && this.photoCodec == photoCodec
    {
      this.store := store;
      this.clientCodec := clientCodec;
      this.estimateCodec := estimateCodec;
      this.photoCodec := photoCodec;
      clients, estimates, photos := [], [], [];
    }

    /** The store holds the current serialisation of each collection under that collection's key. */
    ghost predicate Persisted()
      reads this, store
    {
      && ClientsKey in store.entries && store.entries[ClientsKey] == clientCodec.serialize(clients)
      && EstimatesKey in store.entries && store.entries[EstimatesKey] == estimateCodec.serialize(estimates)
      && PhotosKey in store.entries && store.entries[PhotosKey] == photoCodec.serialize(photos)
    }

    /** Each collection survives being serialised and parsed back, as a non-empty text. */
    ghost predicate RoundTrips()
      reads this
    {
      && clientCodec.serialize(clients) != "" && clientCodec.parse(clientCodec.serialize(clients)) == Some(clients)
      && estimateCodec.serialize(estimates) != "" && estimateCodec.parse(estimateCodec.serialize(estimates)) == Some(estimates)
      && photoCodec.serialize(photos) != "" && photoCodec.parse(photoCodec.serialize(photos)) == Some(photos)
    }

    /**
     * The load-on-mount step: each collection becomes what `loadItem` returns for its
     * key with [] as the fallback, where the keys in `failedReads` are those whose
     * device read is rejected; the state change then writes each collection back, so
     * a key whose read failed is overwritten with the serialisation of []. Reloading
     * a persisted state whose collections round-trip, with no failed read, changes
     * nothing.
     */
    method Load(failedReads: set<StorageKey>)
      modifies this, store
      ensures clients == LoadItem(old(store.entries), ClientsKey, ClientsKey in failedReads, [], clientCodec.parse)
      ensures estimates == LoadItem(old(store.entries), EstimatesKey, EstimatesKey in failedReads, [], estimateCodec.parse)
      ensures photos == LoadItem(old(store.entries), PhotosKey, PhotosKey in failedReads, [], photoCodec.parse)
      ensures store.entries == old(store.entries)[ClientsKey := clientCodec.serialize(clients)]
                                                 [EstimatesKey := estimateCodec.serialize(estimates)]
                                                 [PhotosKey := photoCodec.serialize(photos)]
      ensures Persisted()
      ensures ClientsKey in failedReads ==> clients == [] && store.entries[ClientsKey] == clientCodec.serialize([])
      ensures EstimatesKey in failedReads ==> estimates == [] && store.entries[EstimatesKey] == estimateCodec.serialize([])
      ensures PhotosKey in failedReads ==> photos == [] && store.entries[PhotosKey] == photoCodec.serialize([])
      ensures failedReads == {} && old(Persisted() && RoundTrips()) ==> clients == old(clients) && estimates == old(estimates) && photos == old(photos)
    {
      clients := LoadItem(store.entries, ClientsKey, ClientsKey in failedReads, [], clientCodec.parse);
      estimates := LoadItem(store.entries, EstimatesKey, EstimatesKey in failedReads, [], estimateCodec.parse);
      photos := LoadItem(store.entries, PhotosKey, PhotosKey in failedReads, [], photoCodec.parse);
      store.SaveItem(ClientsKey, clients, clientCodec.serialize);
      store.SaveItem(EstimatesKey, estimates, estimateCodec.serialize);
      store.SaveItem(PhotosKey, photos, photoCodec.serialize);
    }

    /**
     * `addClient`: the new client goes last, stamped with one id and one timestamp
     * for both dates; the earlier clients and the other collections are untouched,
     * and only the clients key is rewritten.
     */
    method AddClient(c: ClientFields, now: Instant, tick: nat)
      modifies this, store
      ensures clients == old(clients) + [c.Stamp(Ids.MillisId(tick), now)]
      ensures estimates == old(estimates) && photos == old(photos)
      ensures store.entries == old(store.entries)[ClientsKey := clientCodec.serialize(clients)]
      ensures old(Persisted()) ==> Persisted()
    {
      clients := clients + [c.Stamp(Ids.MillisId(tick), now)];
      store.SaveItem(ClientsKey, clients, clientCodec.serialize);
    }

    /**
     * `addEstimate`: appended last with the caller's line items, totals and status
     * exactly as given; only the estimates collection and key change.
     */
    method AddEstimate(e: EstimateFields, now: Instant, tick: nat)
      modifies this, store
      ensures estimates == old(estimates) + [e.Stamp(Ids.MillisId(tick), now)]
      ensures clients == old(clients) && photos == old(photos)
      ensures store.entries == old(store.entries)[EstimatesKey := estimateCodec.serialize(estimates)]
      ensures old(Persisted()) ==> Persisted()
    {
      estimates := estimates + [e.Stamp(Ids.MillisId(tick), now)];
      store.SaveItem(EstimatesKey, estimates, estimateCodec.serialize);
    }

    /**
     * `addPhoto`: the new photo goes first (newest first), the earlier photos follow
     * in their old order; only the photos collection and key change.
     */
    method AddPhoto(p: PhotoFields, now: Instant, tick: nat)
      modifies this, store
      ensures photos == [p.Stamp(Ids.MillisId(tick), now)] + old(photos)
      ensures clients == old(clients) && estimates == old(estimates)
      ensures store.entries == old(store.entries)[PhotosKey := photoCodec.serialize(photos)]
      ensures old(Persisted()) ==> Persisted()
    {
      photos := [p.Stamp(Ids.MillisId(tick), now)] + photos;
      store.SaveItem(PhotosKey, photos, photoCodec.serialize);
    }
  }

  const NoProviderMessage := "useData must be used within DataProvider"

  /** `useData`: the enclosing provider, or a failure when there is none. */
  function UseData(context: Option<DataProvider>): (r: Result<DataProvider, string>)
    ensures r.Success? <==> context.Some?
    ensures context.Some? ==> r.value == context.value
    ensures context.None? ==> r.error == NoProviderMessage
  {
    match context
    case Some(p) => Success(p)
    case None => Failure(NoProviderMessage)
  }
}
