/**
 * What the strategy-driven loaders of both modules share: the outcome of one
 * adapter call, the strategy enumeration, the mapper pair, the record of the
 * adapter calls a run makes, and the flow operator `map { it.mapData(f) }`.
 */
module LoaderContract {
  import opened DataModel

  /** What one call into the loader's abstract adapter gave: a value, or the throwable it threw. */
  datatype Outcome<T> = Ok(value: T) | Err(error: Throwable)

  /** `DataLoader.Strategy` (identical in both modules). */
  datatype Strategy = NetworkFirst | CacheFirst | NetworkOnly

  /** `DataLoaderMapper`: two conversions that the model takes to be total. */
  datatype Mapper<!N, !S, D> = Mapper(netToStorage: N -> S, storageToDomain: S -> D)

  /** One call a run makes into the adapter, in the order they happen. */
  datatype Call<S> =
    | GetFromNetwork
    | GetFromStorage
    | GetUpdatedOnStorage(storageModel: S)
    | SaveToStorage(storageModel: S)
    | ObserveStorage

  /** A value computed by a part of a run, with the adapter calls it made. */
  datatype Step<T, S> = Step(value: T, calls: seq<Call<S>>)

  /** Everything one collection of `getData()` shows: the envelopes emitted and the calls made. */
  datatype Run<D, S> = Run(emitted: seq<Data<D>>, calls: seq<Call<S>>)

  /** `try { Data.ready(call()) } catch (e: Throwable) { Data.error(e) }` */
  function TryReady<T>(o: Outcome<T>): (r: Data<T>)
    ensures r.WellFormed()
    ensures r.IsStateReady() <==> o.Ok?
    ensures o.Ok? ==> r == Ready(o.value)
    ensures o.Err? ==> r == Error(o.error)
  {
    match o
    case Ok(v) => Ready(v)
    case Err(e) => Error(e)
  }

  /** How many times a run tried to write to storage. */
  function PersistCount<S>(calls: seq<Call<S>>): (n: nat)
    ensures n <= |calls|
    ensures n == 0 <==> forall i :: 0 <= i < |calls| ==> !calls[i].GetUpdatedOnStorage? && !calls[i].SaveToStorage?
  {
    if calls == [] then 0
    else (if calls[0].GetUpdatedOnStorage? || calls[0].SaveToStorage? then 1 else 0) + PersistCount(calls[1..])
  }

  /** Persisting calls of a concatenated trace add up. */
  lemma {:induction false} PersistCountAppend<S>(xs: seq<Call<S>>, ys: seq<Call<S>>)
    ensures PersistCount(xs + ys) == PersistCount(xs) + PersistCount(ys)
  {
    if xs == [] {
      assert xs + ys == ys;
    } else {
      assert (xs + ys)[1..] == xs[1..] + ys;
      PersistCountAppend(xs[1..], ys);
    }
  }

  /** The flow operator `map { it.mapData(f) }` over an emitted sequence. */
  function MapAll<T, U>(xs: seq<Data<T>>, f: T -> U): (r: seq<Data<U>>)
    requires forall i :: 0 <= i < |xs| ==> xs[i].CanMap()
    ensures |r| == |xs|
    ensures forall i :: 0 <= i < |xs| ==> r[i] == xs[i].MapData(f)
  {
    if xs == [] then [] else [xs[0].MapData(f)] + MapAll(xs[1..], f)
  }
}
