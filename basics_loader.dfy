/**
 * The older strategy loader of the basics module
 * (basics/src/main/java/in/windrunner/basics/data_loader/DataLoader.kt).
 *
 * It differs from the toolbox loader in three ways: the network fetch runs
 * under `withTimeout`, the storage write `saveToStorage` reports nothing back
 * and its failure is swallowed, and NETWORK_FIRST after a network failure
 * emits the storage outcome, ready or error, in place of the network error.
 */
module BasicsLoader {
  import opened DataModel
  import opened LoaderContract

  /**
   * How `getFromNetwork()` ends once started: its outcome, and the number of
   * milliseconds after which it would reach that outcome.
   */
  datatype NetworkFetch<N> = NetworkFetch(outcome: Outcome<N>, elapsedMs: nat)

  /**
   * The abstract members. `saveToStorage` returns `Unit` and its exceptions are
   * caught and dropped, so its outcome is no input: the run only records the call.
   */
  datatype Adapter<N, S> = Adapter(network: NetworkFetch<N>, storage: Outcome<S>)

  /**
   * The constructor parameters that shape a run. `networkTimeoutSec` is handed to
   * `withTimeout` as milliseconds; `timeoutError` is the exception `withTimeout`
   * throws when it expires.
   */
  datatype Config = Config(strategy: Strategy, networkTimeoutSec: int, timeoutError: Throwable)

  /** The fetch completes before the bound of `networkTimeoutSec` milliseconds. */
  predicate InTime<N>(fetch: NetworkFetch<N>, networkTimeoutSec: int) {
    fetch.elapsedMs < networkTimeoutSec
  }

  /** What the network step yields once the timeout is accounted for. */
  function NetworkOutcome<N>(fetch: NetworkFetch<N>, c: Config): Outcome<N> {
    if InTime(fetch, c.networkTimeoutSec) then fetch.outcome else Err(c.timeoutError)
  }

  /**
   * `getNetworkResult`: `withTimeout(networkTimeoutSec.milliseconds) { ready(getFromNetwork()) }`,
   * any throwable, the timeout included, caught into an error. A non-positive
   * bound throws before the fetch starts.
   */
  function GetNetworkResult<N, S>(fetch: NetworkFetch<N>, c: Config): (r: Step<Data<N>, S>)
    ensures r.value.WellFormed()
    ensures r.value.IsStateReady() <==> InTime(fetch, c.networkTimeoutSec) && fetch.outcome.Ok?
    ensures !InTime(fetch, c.networkTimeoutSec) ==> r.value == Error(c.timeoutError)
    ensures InTime(fetch, c.networkTimeoutSec) && fetch.outcome.Ok? ==> r.value == Ready(fetch.outcome.value)
    ensures InTime(fetch, c.networkTimeoutSec) && fetch.outcome.Err? ==> r.value == Error(fetch.outcome.error)
    ensures r.calls == if c.networkTimeoutSec > 0 then [GetFromNetwork] else []
  {
    if c.networkTimeoutSec <= 0 then
      Step(Error(c.timeoutError), [])
    else if InTime(fetch, c.networkTimeoutSec) then
      Step(TryReady(fetch.outcome), [GetFromNetwork])
    else
      Step(Error(c.timeoutError), [GetFromNetwork])
  }

  /**
   * `getStorageResultSaved`: map the network result to storage, hand its content,
   * if any, to `saveToStorage`, and return the mapped result whatever the save did.
   */
  function GetStorageResultSaved<N, S>(networkResult: Data<N>, netToStorage: N -> S): (r: Step<Data<S>, S>)
    requires networkResult.CanMap()
    ensures r.value == networkResult.MapData(netToStorage)
    ensures networkResult.IsStateReady() && !networkResult.IsStateError() && !networkResult.IsStateLoading() ==>
      r.calls == [SaveToStorage(netToStorage(networkResult.content.value))]
    ensures !networkResult.IsStateReady() || networkResult.IsStateError() || networkResult.IsStateLoading() ==>
      r.calls == []
  {
    var storageResult := networkResult.MapData(netToStorage);
    if storageResult.content.Some? then
      Step(storageResult, [SaveToStorage(storageResult.content.value)])
    else
      Step(storageResult, [])
  }

  /**
   * NETWORK_FIRST: loading, then the mapped network value (saved on the way),
   * or, when the network fails, the storage outcome: ready or the storage error.
   * The network error itself is dropped.
   */
  function GetNetworkFirst<N, S, D>(a: Adapter<N, S>, m: Mapper<N, S, D>, c: Config): (r: Run<D, S>)
    ensures var net := NetworkOutcome(a.network, c);
      var netCalls := if c.networkTimeoutSec > 0 then [GetFromNetwork] else [];
      && (net.Ok? ==>
            && r.emitted == [Loading(), Ready(m.storageToDomain(m.netToStorage(net.value)))]
            && r.calls == netCalls + [SaveToStorage(m.netToStorage(net.value))])
      && (net.Err? && a.storage.Ok? ==>
            && r.emitted == [Loading(), Ready(m.storageToDomain(a.storage.value))]
            && r.calls == netCalls + [GetFromStorage])
      && (net.Err? && a.storage.Err? ==>
            && r.emitted == [Loading(), Error(a.storage.error)]
            && r.calls == netCalls + [GetFromStorage])
  {
    var net := GetNetworkResult(a.network, c);
    var next :=
      if net.value.IsStateReady() then GetStorageResultSaved(net.value, m.netToStorage)
      else Step(TryReady(a.storage), [GetFromStorage]);
    Run([Loading()] + MapAll([next.value], m.storageToDomain), net.calls + next.calls)
  }

  /** CACHE_FIRST: the stored value or loading, then the mapped network value or the network error. */
  function GetCacheFirst<N, S, D>(a: Adapter<N, S>, m: Mapper<N, S, D>, c: Config): (r: Run<D, S>)
    ensures var net := NetworkOutcome(a.network, c);
      var netCalls := if c.networkTimeoutSec > 0 then [GetFromNetwork] else [];
      && |r.emitted| == 2
      && (a.storage.Ok? ==> r.emitted[0] == Ready(m.storageToDomain(a.storage.value)))
      && (a.storage.Err? ==> r.emitted[0] == Loading())
      && (net.Ok? ==>
            && r.emitted[1] == Ready(m.storageToDomain(m.netToStorage(net.value)))
            && r.calls == [GetFromStorage] + netCalls + [SaveToStorage(m.netToStorage(net.value))])
      && (net.Err? ==>
            && r.emitted[1] == Error(net.error)
            && r.calls == [GetFromStorage] + netCalls)
  {
    var storageModel := TryReady(a.storage);
    var first := if storageModel.IsStateReady() then storageModel else Loading();
    var net := GetNetworkResult(a.network, c);
    var second :=
      if net.value.IsStateReady() then GetStorageResultSaved(net.value, m.netToStorage)
      else Step(net.value.MapData(m.netToStorage), []);
    Run(MapAll([first, second.value], m.storageToDomain), [GetFromStorage] + net.calls + second.calls)
  }

  /** NETWORK_ONLY: loading, then the mapped network value or the network error; storage is never touched. */
  function GetNetworkOnly<N, S, D>(a: Adapter<N, S>, m: Mapper<N, S, D>, c: Config): (r: Run<D, S>)
    ensures var net := NetworkOutcome(a.network, c);
      && (net.Ok? ==> r.emitted == [Loading(), Ready(m.storageToDomain(m.netToStorage(net.value)))])
      && (net.Err? ==> r.emitted == [Loading(), Error(net.error)])
      && r.calls == if c.networkTimeoutSec > 0 then [GetFromNetwork] else []
  {
    var net := GetNetworkResult(a.network, c);
    Run([Loading()] + MapAll(MapAll([net.value], m.netToStorage), m.storageToDomain), net.calls)
  }

  /**
   * What every strategy's run satisfies: exactly two well-formed envelopes,
   * loading only in front and always in front outside CACHE_FIRST; one save
   * exactly when the network step succeeded outside NETWORK_ONLY, and only of
   * the mapped network value; an error is the storage's under NETWORK_FIRST
   * and the network's otherwise; NETWORK_ONLY neither reads nor saves.
   */
  ghost predicate BasicsShape<N, S, D>(a: Adapter<N, S>, m: Mapper<N, S, D>, c: Config, r: Run<D, S>) {
    var net := NetworkOutcome(a.network, c);
    && |r.emitted| == 2
    && r.emitted[0].WellFormed() && r.emitted[1].WellFormed()
    && !r.emitted[1].IsStateLoading()
    && (c.strategy != CacheFirst ==> r.emitted[0] == Loading())
    && PersistCount(r.calls) == (if net.Ok? && c.strategy != NetworkOnly then 1 else 0)
    && (forall i :: 0 <= i < |r.calls| && r.calls[i].SaveToStorage? ==>
          net.Ok? && r.calls[i] == SaveToStorage(m.netToStorage(net.value)))
    && (r.emitted[1].IsStateError() ==>
          if c.strategy == NetworkFirst then a.storage.Err? && r.emitted[1] == Error(a.storage.error)
          else net.Err? && r.emitted[1] == Error(net.error))
    && (c.strategy == NetworkOnly ==> GetFromStorage !in r.calls && PersistCount(r.calls) == 0)
  }

  lemma NetworkFirstShape<N, S, D>(a: Adapter<N, S>, m: Mapper<N, S, D>, c: Config)
    requires c.strategy == NetworkFirst
    ensures BasicsShape(a, m, c, GetNetworkFirst(a, m, c))
  {
    var net := NetworkOutcome(a.network, c);
    var netCalls: seq<Call<S>> := if c.networkTimeoutSec > 0 then [GetFromNetwork] else [];
    if net.Ok? {
      PersistCountAppend(netCalls, [SaveToStorage(m.netToStorage(net.value))]);
    } else {
      PersistCountAppend(netCalls, [GetFromStorage]);
    }
  }

  lemma CacheFirstShape<N, S, D>(a: Adapter<N, S>, m: Mapper<N, S, D>, c: Config)
    requires c.strategy == CacheFirst
    ensures BasicsShape(a, m, c, GetCacheFirst(a, m, c))
  {
    CacheFirstPersistsOnce(a, m, c);
  }

  lemma NetworkOnlyShape<N, S, D>(a: Adapter<N, S>, m: Mapper<N, S, D>, c: Config)
    requires c.strategy == NetworkOnly
    ensures BasicsShape(a, m, c, GetNetworkOnly(a, m, c))
  {
    var r := GetNetworkOnly(a, m, c);
    assert r.calls == if c.networkTimeoutSec > 0 then [GetFromNetwork] else [];
  }

  /** `getData()`: the strategy dispatch; every strategy's run has the shape above. */
  function GetData<N, S, D>(a: Adapter<N, S>, m: Mapper<N, S, D>, c: Config): (r: Run<D, S>)
    ensures BasicsShape(a, m, c, r)
  {
    match c.strategy
    case NetworkFirst => NetworkFirstShape(a, m, c); GetNetworkFirst(a, m, c)
    case CacheFirst => CacheFirstShape(a, m, c); GetCacheFirst(a, m, c)
    case NetworkOnly => NetworkOnlyShape(a, m, c); GetNetworkOnly(a, m, c)
  }

  /** CACHE_FIRST writes to storage exactly once when the network step succeeds, and never otherwise. */
  lemma CacheFirstPersistsOnce<N, S, D>(a: Adapter<N, S>, m: Mapper<N, S, D>, c: Config)
    ensures PersistCount(GetCacheFirst(a, m, c).calls) == if NetworkOutcome(a.network, c).Ok? then 1 else 0
  {
    var net := NetworkOutcome(a.network, c);
    var netCalls: seq<Call<S>> := if c.networkTimeoutSec > 0 then [GetFromNetwork] else [];
    PersistCountAppend([GetFromStorage], netCalls);
    if net.Ok? {
      PersistCountAppend([GetFromStorage] + netCalls, [SaveToStorage(m.netToStorage(net.value))]);
    }
  }

  /** A fetch that does not finish within the bound is an ordinary network error, whatever it would have given. */
  lemma TimeoutIsNetworkError<N, S, D>(a: Adapter<N, S>, m: Mapper<N, S, D>, c: Config)
    requires !InTime(a.network, c.networkTimeoutSec)
    ensures var timedOut := Adapter(NetworkFetch(Err(c.timeoutError), 0), a.storage);
      GetData(a, m, c).emitted == GetData(timedOut, m, Config(c.strategy, 1, c.timeoutError)).emitted
  {
  }
}
