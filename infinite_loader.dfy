/**
 * The "infinite" loader of the toolbox module
 * (toolbox/src/main/java/in/windrunner/android_toolbox/data_loader/DataLoaderInfinite.kt):
 * the one-shot output of `DataLoader.getData()`, whose storage read is the
 * first value of `observeStorage()`, followed by every later value of that
 * stream and, if the stream fails, one error that ends the output.
 */
module InfiniteLoader {
  import opened Optional
  import opened DataModel
  import opened LoaderContract
  import ToolboxLoader

  /**
   * What one collection of `observeStorage()` produces: its values in order,
   * then either normal completion (`None`) or the throwable it failed with.
   */
  datatype Stream<S> = Stream(values: seq<S>, failure: Option<Throwable>)

  /** The abstract members: the network fetch, the storage stream and the storage write. */
  datatype Adapter<N, !S> = Adapter(
    network: Outcome<N>,
    stream: Stream<S>,
    updateOnStorage: S -> Outcome<S>)

  /** What kotlinx's `first()` throws for a flow that completes without a value. */
  const NoElementError := Throwable("java.util.NoSuchElementException", Some("Expected at least one element"), 0)

  /**
   * `getFromStorage() = observeStorage().first()`: the first value if the
   * stream has one; otherwise the stream's own failure, or `NoSuchElementException`
   * for a stream that completes empty.
   */
  function First<S>(st: Stream<S>): (r: Outcome<S>)
    ensures r.Ok? <==> |st.values| > 0
    ensures r.Ok? ==> r.value == st.values[0]
    ensures r.Err? && st.failure.Some? ==> r.error == st.failure.value
    ensures r.Err? && st.failure.None? ==> r.error == NoElementError
  {
    if |st.values| > 0 then Ok(st.values[0])
    else if st.failure.Some? then Err(st.failure.value)
    else Err(NoElementError)
  }

  /** `map { Data.ready(f(it)) }` over stream values. */
  function ReadyAll<S, D>(values: seq<S>, f: S -> D): (r: seq<Data<D>>)
    ensures |r| == |values|
    ensures forall k :: 0 <= k < |values| ==> r[k] == Ready(f(values[k]))
  {
    if values == [] then [] else [Ready(f(values[0]))] + ReadyAll(values[1..], f)
  }

  /**
   * `observeStorage().drop(1).map { Data.ready(toDomain(it)) }.catch { emit(Data.error(it)) }`:
   * every value after the first as a ready envelope, in order, then the
   * failure, if any, as one error.
   */
  function Tail<S, D>(st: Stream<S>, toDomain: S -> D): (r: seq<Data<D>>)
    ensures |r| == (if |st.values| <= 1 then 0 else |st.values| - 1) + (if st.failure.Some? then 1 else 0)
    ensures forall k :: 1 <= k < |st.values| ==> r[k - 1] == Ready(toDomain(st.values[k]))
    ensures st.failure.Some? ==> r[|r| - 1] == Error(st.failure.value)
    ensures forall i :: 0 <= i < |r| ==> r[i].WellFormed() && !r[i].IsStateLoading()
    ensures forall i :: 0 <= i < |r| && r[i].IsStateError() ==> i == |r| - 1 && st.failure == r[i].error
  {
    var later := if |st.values| <= 1 then [] else ReadyAll(st.values[1..], toDomain);
    later + (if st.failure.Some? then [Error(st.failure.value)] else [])
  }

  /**
   * The one-shot loader the infinite one extends, reading storage through `First`.
   * That first subscription, `observeStorage().first()`, appears in the call
   * trace as the parent's `GetFromStorage`; only the second subscription, the
   * one that feeds the tail, appears as `ObserveStorage`.
   */
  function Parent<N, S, D>(strategy: Strategy, a: Adapter<N, S>, m: Mapper<N, S, D>): Run<D, S> {
    ToolboxLoader.GetData(strategy, ToolboxLoader.Adapter(a.network, First(a.stream), a.updateOnStorage), m)
  }

  /**
   * `getData()`: `emitAll(super.getData())`, then the stream tail, whatever the
   * strategy and however the one-shot part ended. No one-shot element is
   * altered or dropped.
   */
  function GetData<N, S, D>(strategy: Strategy, a: Adapter<N, S>, m: Mapper<N, S, D>): (r: Run<D, S>)
    ensures var p := Parent(strategy, a, m);
      && |r.emitted| == |p.emitted| + |Tail(a.stream, m.storageToDomain)|
      && r.emitted[..|p.emitted|] == p.emitted
      && (forall k :: 1 <= k < |a.stream.values| ==>
            r.emitted[|p.emitted| + k - 1] == Ready(m.storageToDomain(a.stream.values[k])))
      && (a.stream.failure.Some? ==> r.emitted[|r.emitted| - 1] == Error(a.stream.failure.value))
      && (|a.stream.values| <= 1 && a.stream.failure.None? ==> r.emitted == p.emitted)
      && r.calls == p.calls + [ObserveStorage]
  {
    var p := Parent(strategy, a, m);
    var t := Tail(a.stream, m.storageToDomain);
    var emitted := p.emitted + t;
    assert emitted[..|p.emitted|] == p.emitted;
    assert forall k :: 0 <= k < |t| ==> emitted[|p.emitted| + k] == t[k];
    Run(emitted, p.calls + [ObserveStorage])
  }

  /** Loading is only ever the first element, as in the one-shot loader. */
  lemma LoadingOnlyFirst<N, S, D>(strategy: Strategy, a: Adapter<N, S>, m: Mapper<N, S, D>)
    ensures var r := GetData(strategy, a, m);
      |r.emitted| >= 2 && forall i :: 0 < i < |r.emitted| ==> !r.emitted[i].IsStateLoading()
  {
    var r := GetData(strategy, a, m);
    var p := Parent(strategy, a, m);
    var t := Tail(a.stream, m.storageToDomain);
    assert r.emitted == p.emitted + t;
    forall i | 0 < i < |r.emitted| ensures !r.emitted[i].IsStateLoading() {
      if i >= |p.emitted| {
        assert r.emitted[i] == t[i - |p.emitted|];
      }
    }
  }

  /** An error of the network, or the last element and the stream's failure: nothing else is an error. */
  lemma ErrorsAreNetworkOrStream<N, S, D>(strategy: Strategy, a: Adapter<N, S>, m: Mapper<N, S, D>, i: nat)
    requires i < |GetData(strategy, a, m).emitted|
    requires GetData(strategy, a, m).emitted[i].IsStateError()
    ensures var r := GetData(strategy, a, m);
      || (a.network.Err? && r.emitted[i] == Error(a.network.error))
      || (i == |r.emitted| - 1 && a.stream.failure.Some? && r.emitted[i] == Error(a.stream.failure.value))
  {
    var r := GetData(strategy, a, m);
    var p := Parent(strategy, a, m);
    var t := Tail(a.stream, m.storageToDomain);
    assert r.emitted == p.emitted + t;
    if i >= |p.emitted| {
      assert r.emitted[i] == t[i - |p.emitted|];
    }
  }

  /** NETWORK_FIRST with a successful network and a two-value stream (DataLoaderInfiniteTest `network first`). */
  lemma NetworkFirstWithLaterValue<N, S, D>(a: Adapter<N, S>, m: Mapper<N, S, D>, s1: S, s2: S)
    requires a.network.Ok? && a.stream == Stream([s1, s2], None)
    ensures GetData(NetworkFirst, a, m).emitted == [
      Loading(),
      Ready(m.storageToDomain(ToolboxLoader.Persisted(a.updateOnStorage, m.netToStorage(a.network.value)))),
      Ready(m.storageToDomain(s2))]
  {
    assert [s1, s2][1..] == [s2];
  }

  /** CACHE_FIRST with a stream that fails at once and a successful network. */
  lemma CacheFirstFailingStream<N, S, D>(a: Adapter<N, S>, m: Mapper<N, S, D>, e: Throwable)
    requires a.network.Ok? && a.stream == Stream([], Some(e))
    ensures GetData(CacheFirst, a, m).emitted == [
      Loading(),
      Ready(m.storageToDomain(ToolboxLoader.Persisted(a.updateOnStorage, m.netToStorage(a.network.value)))),
      Error(e)]
  {
  }

  /** NETWORK_FIRST with both the network and the stream failing. */
  lemma NetworkFirstBothFail<N, S, D>(a: Adapter<N, S>, m: Mapper<N, S, D>, e: Throwable)
    requires a.network.Err? && a.stream == Stream([], Some(e))
    ensures GetData(NetworkFirst, a, m).emitted == [Loading(), Error(a.network.error), Error(e)]
  {
  }

  /** NETWORK_FIRST with a failing network and a one-value stream: the value, then the network error, and no tail. */
  lemma NetworkFirstNetworkErrorOneValue<N, S, D>(a: Adapter<N, S>, m: Mapper<N, S, D>, s: S)
    requires a.network.Err? && a.stream == Stream([s], None)
    ensures GetData(NetworkFirst, a, m).emitted == [Loading(), Ready(m.storageToDomain(s)), Error(a.network.error)]
  {
  }
}
