/**
 * The one-shot strategy loader of the toolbox module
 * (toolbox/src/main/java/in/windrunner/android_toolbox/data_loader/DataLoader.kt).
 *
 * Each strategy is written as the source's flow pipeline (emits, `transform`,
 * `map { it.mapData(..) }`, `onStart { emit(loading) }`) over the outcomes of
 * the adapter calls, and its contract states the exact sequence that comes out
 * and the adapter calls made on the way.
 */
module ToolboxLoader {
  import opened DataModel
  import opened LoaderContract

  /**
   * The abstract members of the loader: what `getFromNetwork()` and
   * `getFromStorage()` give (each is called at most once per run), and
   * `getUpdatedOnStorage`, which writes a storage model and reports back the
   * model actually stored.
   */
  datatype Adapter<N, !S> = Adapter(
    network: Outcome<N>,
    storage: Outcome<S>,
    updateOnStorage: S -> Outcome<S>)

  /** The storage model a successful write reports, or the one that was written if the write threw. */
  function Persisted<S>(update: S -> Outcome<S>, s: S): S {
    match update(s)
    case Ok(p) => p
    case Err(_) => s
  }

  /**
   * `getStorageResultSaved`: map the network result to storage and, when it has
   * content, write it and keep what the storage reports, falling back to the
   * unsaved value when the write throws. A failed write never becomes an error.
   */
  function GetStorageResultSaved<N, S>(networkResult: Data<N>, netToStorage: N -> S, update: S -> Outcome<S>)
    : (r: Step<Data<S>, S>)
    requires networkResult.CanMap()
    ensures r.value.IsStateError() <==> networkResult.IsStateError()
    ensures networkResult.content.Some? && networkResult == Ready(networkResult.content.value) ==>
      var s := netToStorage(networkResult.content.value);
      && r.calls == [GetUpdatedOnStorage(s)]
      && (update(s).Ok? ==> r.value == Ready(update(s).value))
      && (update(s).Err? ==> r.value == Ready(s))
  {
    var storageResult := networkResult.MapData(netToStorage);
    if storageResult.content.Some? then
      var s := storageResult.content.value;
      match update(s)
      case Ok(p) => Step(Ready(p), [GetUpdatedOnStorage(s)])
      case Err(_) => Step(storageResult, [GetUpdatedOnStorage(s)])
    else
      Step(storageResult, [])
  }

  /**
   * NETWORK_FIRST: loading, then on a network success the persisted value; on a
   * network failure the stored value if the storage read succeeds, followed by
   * the network error. A storage failure is not emitted.
   */
  function GetNetworkFirst<N, S, D>(a: Adapter<N, S>, m: Mapper<N, S, D>): (r: Run<D, S>)
    ensures a.network.Ok? ==>
      var s := m.netToStorage(a.network.value);
      && r.emitted == [Loading(), Ready(m.storageToDomain(Persisted(a.updateOnStorage, s)))]
      && r.calls == [GetFromNetwork, GetUpdatedOnStorage(s)]
    ensures a.network.Err? && a.storage.Ok? ==>
      && r.emitted == [Loading(), Ready(m.storageToDomain(a.storage.value)), Error(a.network.error)]
      && r.calls == [GetFromNetwork, GetFromStorage]
    ensures a.network.Err? && a.storage.Err? ==>
      && r.emitted == [Loading(), Error(a.network.error)]
      && r.calls == [GetFromNetwork, GetFromStorage]
  {
    var netModel := TryReady(a.network);
    if netModel.IsStateReady() then
      var saved := GetStorageResultSaved(netModel, m.netToStorage, a.updateOnStorage);
      Run([Loading()] + MapAll([saved.value], m.storageToDomain), [GetFromNetwork] + saved.calls)
    else
      var stored := TryReady(a.storage);
      var fromStorage := if stored.IsStateReady() then [stored] else [];
      var netError := if netModel.error.Some? then [Error<S>(netModel.error.value)] else [];
      Run([Loading()] + MapAll(fromStorage + netError, m.storageToDomain), [GetFromNetwork, GetFromStorage])
  }

  /**
   * CACHE_FIRST: the stored value if the storage read succeeds and loading
   * otherwise, then the persisted network value or the network error.
   */
  function GetCacheFirst<N, S, D>(a: Adapter<N, S>, m: Mapper<N, S, D>): (r: Run<D, S>)
    ensures |r.emitted| == 2
    ensures a.storage.Ok? ==> r.emitted[0] == Ready(m.storageToDomain(a.storage.value))
    ensures a.storage.Err? ==> r.emitted[0] == Loading()
    ensures a.network.Ok? ==>
      var s := m.netToStorage(a.network.value);
      && r.emitted[1] == Ready(m.storageToDomain(Persisted(a.updateOnStorage, s)))
      && r.calls == [GetFromStorage, GetFromNetwork, GetUpdatedOnStorage(s)]
    ensures a.network.Err? ==>
      && r.emitted[1] == Error(a.network.error)
      && r.calls == [GetFromStorage, GetFromNetwork]
  {
    var storageModel := TryReady(a.storage);
    var first := if storageModel.IsStateReady() then storageModel else Loading();
    var netResult := TryReady(a.network);
    var second :=
      if netResult.IsStateReady() then GetStorageResultSaved(netResult, m.netToStorage, a.updateOnStorage)
      else Step(netResult.MapData(m.netToStorage), []);
    Run(MapAll([first, second.value], m.storageToDomain), [GetFromStorage, GetFromNetwork] + second.calls)
  }

  /** NETWORK_ONLY: loading, then the mapped network value or the network error. */
  function GetNetworkOnly<N, S, D>(a: Adapter<N, S>, m: Mapper<N, S, D>): (r: Run<D, S>)
    ensures a.network.Ok? ==> r.emitted == [Loading(), Ready(m.storageToDomain(m.netToStorage(a.network.value)))]
    ensures a.network.Err? ==> r.emitted == [Loading(), Error(a.network.error)]
    ensures r.calls == [GetFromNetwork]
  {
    var netModel := TryReady(a.network);
    Run([Loading()] + MapAll(MapAll([netModel], m.netToStorage), m.storageToDomain), [GetFromNetwork])
  }

  /** NETWORK_FIRST attempts exactly one write when the network succeeds, and none otherwise. */
  lemma NetworkFirstPersistsOnce<N, S, D>(a: Adapter<N, S>, m: Mapper<N, S, D>)
    ensures PersistCount(GetNetworkFirst(a, m).calls) == if a.network.Ok? then 1 else 0
  {
    if a.network.Ok? {
      var s := m.netToStorage(a.network.value);
      assert GetNetworkFirst(a, m).calls == [GetFromNetwork] + [GetUpdatedOnStorage(s)];
      PersistCountAppend([GetFromNetwork], [GetUpdatedOnStorage(s)]);
    } else {
      assert GetNetworkFirst(a, m).calls == [GetFromNetwork] + [GetFromStorage];
      PersistCountAppend<S>([GetFromNetwork], [GetFromStorage]);
    }
  }

  /** CACHE_FIRST attempts exactly one write when the network succeeds, and none otherwise. */
  lemma CacheFirstPersistsOnce<N, S, D>(a: Adapter<N, S>, m: Mapper<N, S, D>)
    ensures PersistCount(GetCacheFirst(a, m).calls) == if a.network.Ok? then 1 else 0
  {
    var fetches: seq<Call<S>> := [GetFromStorage, GetFromNetwork];
    assert fetches == [GetFromStorage] + [GetFromNetwork];
    PersistCountAppend<S>([GetFromStorage], [GetFromNetwork]);
    if a.network.Ok? {
      var s := m.netToStorage(a.network.value);
      assert GetCacheFirst(a, m).calls == fetches + [GetUpdatedOnStorage(s)];
      PersistCountAppend(fetches, [GetUpdatedOnStorage(s)]);
    }
  }

  /**
   * What every strategy's run satisfies: two or three envelopes (three only
   * for NETWORK_FIRST with a failed network and a readable storage), all well
   * formed, loading only in front and always in front outside CACHE_FIRST,
   * every error the network's and, when the network failed, its error last;
   * one write attempt exactly when the network succeeded outside NETWORK_ONLY,
   * NETWORK_ONLY calling nothing but the network, and NETWORK_FIRST skipping
   * the storage read after a network success.
   */
  ghost predicate OneShotShape<N, S, D>(strategy: Strategy, a: Adapter<N, S>, r: Run<D, S>) {
    && 2 <= |r.emitted| <= 3
    && (|r.emitted| == 3 <==> strategy == NetworkFirst && a.network.Err? && a.storage.Ok?)
    && (forall i :: 0 <= i < |r.emitted| ==> r.emitted[i].WellFormed())
    && (forall i :: 0 < i < |r.emitted| ==> !r.emitted[i].IsStateLoading())
    && (strategy != CacheFirst ==> r.emitted[0] == Loading())
    && (forall i :: 0 <= i < |r.emitted| && r.emitted[i].IsStateError() ==>
          a.network.Err? && r.emitted[i] == Error(a.network.error))
    && (a.network.Err? ==> r.emitted[|r.emitted| - 1] == Error(a.network.error))
    && PersistCount(r.calls) == (if a.network.Ok? && strategy != NetworkOnly then 1 else 0)
    && (strategy == NetworkOnly ==> r.calls == [GetFromNetwork])
    && (strategy == NetworkFirst && a.network.Ok? ==> GetFromStorage !in r.calls)
  }

  lemma NetworkFirstShape<N, S, D>(a: Adapter<N, S>, m: Mapper<N, S, D>)
    ensures OneShotShape(NetworkFirst, a, GetNetworkFirst(a, m))
  {
    NetworkFirstPersistsOnce(a, m);
  }

  lemma CacheFirstShape<N, S, D>(a: Adapter<N, S>, m: Mapper<N, S, D>)
    ensures OneShotShape(CacheFirst, a, GetCacheFirst(a, m))
  {
    CacheFirstPersistsOnce(a, m);
  }

  lemma NetworkOnlyShape<N, S, D>(a: Adapter<N, S>, m: Mapper<N, S, D>)
    ensures OneShotShape(NetworkOnly, a, GetNetworkOnly(a, m))
  {
    var r := GetNetworkOnly(a, m);
    assert r.calls == [GetFromNetwork];
  }

  /** `getData()`: the strategy dispatch; every strategy's run has the one-shot shape. */
  function GetData<N, S, D>(strategy: Strategy, a: Adapter<N, S>, m: Mapper<N, S, D>): (r: Run<D, S>)
    ensures OneShotShape(strategy, a, r)
  {
    match strategy
    case NetworkFirst => NetworkFirstShape(a, m); GetNetworkFirst(a, m)
    case CacheFirst => CacheFirstShape(a, m); GetCacheFirst(a, m)
    case NetworkOnly => NetworkOnlyShape(a, m); GetNetworkOnly(a, m)
  }
}
