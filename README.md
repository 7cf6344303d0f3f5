# Strategy-driven data loader of Android_toolbox, modelled in Dafny

This project models the data loaders of the Android_toolbox repository. It also models two
small list helpers from the same repository.

A loader reconciles two fallible sources into an ordered list of `Data` envelopes
(loading, ready or error). The network source is `getFromNetwork`. The storage source is
`getFromStorage`, or `observeStorage` in the infinite variant. The loader follows one of
three strategies: NETWORK_FIRST, CACHE_FIRST and NETWORK_ONLY. Under NETWORK_FIRST and
CACHE_FIRST, a successful network fetch is followed by a write to storage. The infinite variant then keeps listening to the storage stream.

The model is written in Dafny 4.11. It has one module per core source file, plus two shared
modules. `Optional` (`optional.dfy`) holds Kotlin's nullable types as `Option`. `LoaderContract`
matches no single source file: it gathers what both `DataLoader.kt` files share, namely the
`Strategy` enumeration, `DataLoaderMapper`, and the helpers and call record of the loaders.

- `DataModel` (`data_model.dfy`) is the envelope `Data<T>`, kept as its three fields.
  The factories, the state predicates, `mapData` and `equals` are the source's own field tests.
  Errors are compared by class and message only. `ready(null)` is representable.
- `LoaderContract` (`loader_contract.dfy`) holds what the loaders share:
  - the `Outcome` of one adapter call (`Ok(v)` or `Err(throwable)`);
  - the `Strategy` enumeration;
  - the mapper pair;
  - the record of adapter calls a run makes (`Call`);
  - the flow operator `map { it.mapData(f) }`.
- `ToolboxLoader` (`toolbox_loader.dfy`) is the current one-shot loader. Persisting goes through
  `getUpdatedOnStorage`, and the loader keeps the value the storage reports back.
- `InfiniteLoader` (`infinite_loader.dfy`) is `DataLoaderInfinite`. Its storage read is the first
  value of the stream. After the one-shot output it appends every later stream value, plus one
  error if the stream fails.
- `BasicsLoader` (`basics_loader.dfy`) is the older loader of the basics module:
  - the network fetch runs under `withTimeout`;
  - the outcome of `saveToStorage` is ignored;
  - NETWORK_FIRST surfaces the storage outcome, not the network error.
- `ItemDecorator` (`item_decorator.dfy`) is `RecyclerItemDecorator`. It maps an adapter position
  and a column count to four paddings, and writes them into a `Rect` in place.
- `FilterableAdapter` (`filterable_adapter.dfy`) is the filtering state of
  `FilterableRecycleAdapter`: the unfiltered list, the remembered query, and an
  order-preserving filter.

Each loader strategy returns a `Run`. A `Run` holds the envelopes emitted and the adapter calls
made, in order, so "never called" and "called exactly once" can be stated. Each strategy is
written as the source's pipeline. Its contract gives the exact output for each combination of
adapter outcomes.

The model follows the code where the code and its description differ:

- The toolbox NETWORK_FIRST on a network failure emits the stored value (if the read succeeds)
  and then the network error. It never emits the storage error.
- The basics NETWORK_FIRST does the opposite on a network failure. It emits the storage outcome,
  which may be the storage error, and drops the network error. On a network failure, CACHE_FIRST
  emits the network error in both modules.
- The basics loader never uses a value reported back by storage. `saveToStorage` returns
  nothing, so what is emitted is always the mapped network value.
- The basics loader hands `networkTimeoutSec` to `withTimeout` as milliseconds, despite the name.
  A bound of zero or less throws before the fetch starts. The model then records no
  `GetFromNetwork` call.
- The test file `toolbox/src/test/.../DataLoaderTest.kt` builds its loader with the basics
  constructor (`networkTimeoutSec`, `saveToStorage`). Its expected outputs match the basics
  loader, for example the storage error at lines 66-85.
- The toolbox loaders import a `Data` class from `android_toolbox.model`, which is not part of
  this model. The basics `Data` class is used in its place.
- In the decorator, a negative position is never first in its row. It is still last in its row
  when it is a multiple of the column count, because the truncated remainder is 0. The flags
  treat position 0 as last in its row. They read as if positions started at 1.

## Model

| member | source | states |
|---|---|---|
| DataModel.Loading | basics/src/main/java/in/windrunner/basics/model/Data.kt:78-82 | `loading()` is well formed and only `isStateLoading` holds |
| DataModel.Error | basics/src/main/java/in/windrunner/basics/model/Data.kt:84-88 | `error(e)` carries `e` and only `isStateError` holds |
| DataModel.ReadyOf | basics/src/main/java/in/windrunner/basics/model/Data.kt:90-94 | `ready(c)` for nullable `c`: ready, mappable and well formed exactly when `c` is non-null; never loading or error |
| DataModel.Ready | basics/src/main/java/in/windrunner/basics/model/Data.kt:90-94 | `ready(c)` for non-null `c` holds `c` and only `isStateReady` holds |
| DataModel.Data.IsStateError | basics/src/main/java/in/windrunner/basics/model/Data.kt:28 | the source's field test: an error is present |
| DataModel.Data.IsStateLoading | basics/src/main/java/in/windrunner/basics/model/Data.kt:34 | the source's field test: the loading flag is set |
| DataModel.Data.IsStateReady | basics/src/main/java/in/windrunner/basics/model/Data.kt:39 | the source's field test: content is present |
| DataModel.Data.MapData | basics/src/main/java/in/windrunner/basics/model/Data.kt:47-51 | result is well formed and has the same throwable; loading iff loading and not error; ready iff neither, with `mapper(content)`; on a well-formed envelope the tag is kept |
| DataModel.Equals | basics/src/main/java/in/windrunner/basics/model/Data.kt:55-67 | equal envelopes are in the same state; identical envelopes are equal |
| DataModel.ExactlyOneState | basics/src/main/java/in/windrunner/basics/model/Data.kt:28-39 | a well-formed envelope satisfies exactly one of the three state predicates |
| DataModel.ReadyNullHasNoState | basics/src/main/java/in/windrunner/basics/model/Data.kt:39-50 | `ready(null)` satisfies no state predicate and cannot be mapped without hitting `content!!` |
| DataModel.MapDataOfFactories | basics/src/main/java/in/windrunner/basics/model/Data.kt:47-51 | error(e) maps to error(e), loading to loading, ready(c) to ready(f(c)) |
| DataModel.MapDataIgnoresMapper | basics/src/main/java/in/windrunner/basics/model/Data.kt:47-49 | on loading or error the result does not depend on the mapper |
| DataModel.MapDataIdentity | basics/src/main/java/in/windrunner/basics/model/Data.kt:47-51 | mapping with the identity returns a well-formed envelope unchanged |
| DataModel.MapDataCompose | basics/src/main/java/in/windrunner/basics/model/Data.kt:47-51 | `mapData(g).mapData(f) == mapData(f ∘ g)` |
| DataModel.EqualsErrors | basics/src/main/java/in/windrunner/basics/model/Data.kt:63-64 | two error envelopes are equal iff their throwables have the same class and message, whatever their identity |
| DataModel.EqualsReady | basics/src/main/java/in/windrunner/basics/model/Data.kt:61-62 | two ready envelopes are equal iff their contents are equal |
| DataModel.EqualsDistinguishesFactories | basics/src/main/java/in/windrunner/basics/model/Data.kt:61-62 | loading, ready and error envelopes are pairwise unequal, both ways round |
| DataModel.EqualsIsEquivalence | basics/src/main/java/in/windrunner/basics/model/Data.kt:55-67 | `equals` is reflexive, symmetric and transitive |
| DataModel.MapDataRespectsEquals | basics/src/main/java/in/windrunner/basics/model/Data.kt:47-67 | mapping equal envelopes gives equal envelopes |
| LoaderContract.TryReady | toolbox/src/main/java/in/windrunner/android_toolbox/data_loader/DataLoader.kt:90-94 | a caught call is ready with its value when it succeeds and an error with its throwable when it throws |
| LoaderContract.PersistCount | toolbox/src/main/java/in/windrunner/android_toolbox/data_loader/DataLoader.kt:96-106 | the number of storage writes in a call trace is at most its length, and zero exactly when the trace holds no write |
| LoaderContract.PersistCountAppend | toolbox/src/main/java/in/windrunner/android_toolbox/data_loader/DataLoader.kt:41-88 | the writes of two traces run one after the other add up |
| LoaderContract.MapAll | toolbox/src/main/java/in/windrunner/android_toolbox/data_loader/DataLoader.kt:85-86 | `map { it.mapData(f) }` keeps the length and maps every element with `mapData` |
| ToolboxLoader.GetStorageResultSaved | toolbox/src/main/java/in/windrunner/android_toolbox/data_loader/DataLoader.kt:96-106 | for ready network content: one write of the mapped value; the result is the reported value, or the mapped value if the write throws; never an error unless the input was one |
| ToolboxLoader.GetNetworkFirst | toolbox/src/main/java/in/windrunner/android_toolbox/data_loader/DataLoader.kt:47-64 | network ok: `[Loading, Ready(toDomain(persisted))]` with calls network then write, no storage read; network fails: `[Loading, Ready(toDomain(s)), Error(netErr)]` or `[Loading, Error(netErr)]`; the storage error is not emitted |
| ToolboxLoader.GetCacheFirst | toolbox/src/main/java/in/windrunner/android_toolbox/data_loader/DataLoader.kt:66-79 | two elements: stored value or Loading, then the persisted network value or the network error; calls storage, network, then a write only on network success |
| ToolboxLoader.GetNetworkOnly | toolbox/src/main/java/in/windrunner/android_toolbox/data_loader/DataLoader.kt:81-88 | `[Loading, Ready(toDomain(netToStorage(n)))]` or `[Loading, Error(netErr)]`; the only call is the network fetch |
| ToolboxLoader.NetworkFirstPersistsOnce | toolbox/src/main/java/in/windrunner/android_toolbox/data_loader/DataLoader.kt:47-64 | NETWORK_FIRST attempts one write when the network succeeds and none when it fails |
| ToolboxLoader.CacheFirstPersistsOnce | toolbox/src/main/java/in/windrunner/android_toolbox/data_loader/DataLoader.kt:66-79 | CACHE_FIRST attempts one write when the network succeeds and none when it fails |
| ToolboxLoader.NetworkFirstShape | toolbox/src/main/java/in/windrunner/android_toolbox/data_loader/DataLoader.kt:47-64 | the NETWORK_FIRST run has the one-shot shape stated for `GetData` |
| ToolboxLoader.CacheFirstShape | toolbox/src/main/java/in/windrunner/android_toolbox/data_loader/DataLoader.kt:66-79 | the CACHE_FIRST run has the one-shot shape stated for `GetData` |
| ToolboxLoader.NetworkOnlyShape | toolbox/src/main/java/in/windrunner/android_toolbox/data_loader/DataLoader.kt:81-88 | the NETWORK_ONLY run has the one-shot shape stated for `GetData` |
| ToolboxLoader.GetData | toolbox/src/main/java/in/windrunner/android_toolbox/data_loader/DataLoader.kt:41-88 | every strategy: 2 or 3 elements (3 iff NETWORK_FIRST, network fails, storage succeeds); all well formed; Loading only at index 0; every error is the network's, and it comes last when the network failed; exactly one write iff the network succeeded outside NETWORK_ONLY; NETWORK_ONLY calls only the network |
| InfiniteLoader.First | toolbox/src/main/java/in/windrunner/android_toolbox/data_loader/DataLoaderInfinite.kt:44 | the storage read succeeds iff the stream has a value, and then gives its first value; otherwise it fails with the stream's failure, or `NoSuchElementException` for an empty stream |
| InfiniteLoader.ReadyAll | toolbox/src/main/java/in/windrunner/android_toolbox/data_loader/DataLoaderInfinite.kt:39 | every value becomes a ready envelope of its mapped value, in order |
| InfiniteLoader.Parent | toolbox/src/main/java/in/windrunner/android_toolbox/data_loader/DataLoaderInfinite.kt:35-44 | `super.getData()` with `getFromStorage` overridden as `observeStorage().first()`: the one-shot run over the stream's `First` |
| InfiniteLoader.Tail | toolbox/src/main/java/in/windrunner/android_toolbox/data_loader/DataLoaderInfinite.kt:37-40 | every stream value after the first, in order, as `Ready(toDomain(v))`; then one `Error` with the stream's failure, as the last element; nothing loading; a one-value stream adds nothing |
| InfiniteLoader.GetData | toolbox/src/main/java/in/windrunner/android_toolbox/data_loader/DataLoaderInfinite.kt:34-44 | the output is the one-shot output (storage read = stream's first value), unchanged, followed by the tail; the tail subscription is the last call for every strategy |
| InfiniteLoader.LoadingOnlyFirst | toolbox/src/main/java/in/windrunner/android_toolbox/data_loader/DataLoaderInfinite.kt:34-42 | at least two elements, and no element after the first is loading |
| InfiniteLoader.ErrorsAreNetworkOrStream | toolbox/src/main/java/in/windrunner/android_toolbox/data_loader/DataLoaderInfinite.kt:34-42 | an error element is either the network error or, in last place, the stream's failure |
| InfiniteLoader.NetworkFirstWithLaterValue | toolbox/src/test/java/in/windrunner/android_toolbox/data_loader/DataLoaderInfiniteTest.kt:31-61 | NETWORK_FIRST, network ok, stream `[s1, s2]`: `[Loading, Ready(persisted), Ready(toDomain(s2))]` |
| InfiniteLoader.NetworkFirstNetworkErrorOneValue | toolbox/src/test/java/in/windrunner/android_toolbox/data_loader/DataLoaderInfiniteTest.kt:64-85 | NETWORK_FIRST, network fails, stream `[s]`: `[Loading, Ready(toDomain(s)), Error(netErr)]` |
| InfiniteLoader.NetworkFirstBothFail | toolbox/src/test/java/in/windrunner/android_toolbox/data_loader/DataLoaderInfiniteTest.kt:88-110 | NETWORK_FIRST, both fail: `[Loading, Error(netErr), Error(storageErr)]` |
| InfiniteLoader.CacheFirstFailingStream | toolbox/src/test/java/in/windrunner/android_toolbox/data_loader/DataLoaderInfiniteTest.kt:153-171 | CACHE_FIRST, failing stream, network ok: `[Loading, Ready(persisted), Error(storageErr)]` |
| BasicsLoader.GetNetworkResult | basics/src/main/java/in/windrunner/basics/data_loader/DataLoader.kt:93-99 | ready iff the fetch succeeds within `networkTimeoutSec` milliseconds, and then holds the fetched value; a fetch in time that throws is `Error` of its throwable; a late fetch is `Error(timeoutError)`; the fetch is started iff the bound is positive |
| BasicsLoader.GetStorageResultSaved | basics/src/main/java/in/windrunner/basics/data_loader/DataLoader.kt:101-111 | the result is the mapped network result whatever the save does; one save of the mapped content iff the input is ready |
| BasicsLoader.GetNetworkFirst | basics/src/main/java/in/windrunner/basics/data_loader/DataLoader.kt:56-67 | network ok: `[Loading, Ready(toDomain(netToStorage(n)))]` with one save; network failed or timed out: `[Loading, Ready(toDomain(s))]` or `[Loading, Error(storageErr)]`, the network error dropped |
| BasicsLoader.GetCacheFirst | basics/src/main/java/in/windrunner/basics/data_loader/DataLoader.kt:69-82 | two elements: stored value or Loading, then the mapped network value or the network (or timeout) error |
| BasicsLoader.GetNetworkOnly | basics/src/main/java/in/windrunner/basics/data_loader/DataLoader.kt:84-91 | `[Loading, Ready(toDomain(netToStorage(n)))]` or `[Loading, Error(netErr)]`; no storage read and no save |
| BasicsLoader.CacheFirstPersistsOnce | basics/src/main/java/in/windrunner/basics/data_loader/DataLoader.kt:69-82 | CACHE_FIRST saves once when the network step succeeds in time and never otherwise |
| BasicsLoader.NetworkFirstShape | basics/src/main/java/in/windrunner/basics/data_loader/DataLoader.kt:56-67 | the NETWORK_FIRST run has the shape stated for `GetData` |
| BasicsLoader.CacheFirstShape | basics/src/main/java/in/windrunner/basics/data_loader/DataLoader.kt:69-82 | the CACHE_FIRST run has the shape stated for `GetData` |
| BasicsLoader.NetworkOnlyShape | basics/src/main/java/in/windrunner/basics/data_loader/DataLoader.kt:84-91 | the NETWORK_ONLY run has the shape stated for `GetData` |
| BasicsLoader.GetData | basics/src/main/java/in/windrunner/basics/data_loader/DataLoader.kt:50-91 | every strategy: exactly two well-formed elements, the second never loading; at most one save, only of the mapped network value, exactly when the network succeeded outside NETWORK_ONLY; an error is the storage's under NETWORK_FIRST and the network's otherwise |
| BasicsLoader.TimeoutIsNetworkError | basics/src/main/java/in/windrunner/basics/data_loader/DataLoader.kt:93-99 | a fetch past the bound gives the same output as a fetch that throws the timeout exception |
| ItemDecorator.TruncDiv | toolbox/src/main/java/in/windrunner/android_toolbox/recycler_view/decorator/RecyclerItemDecorator.kt:27-28 | Kotlin `Int` division: the remainder is smaller than the divisor in size and has the dividend's sign |
| ItemDecorator.Half | toolbox/src/main/java/in/windrunner/android_toolbox/recycler_view/decorator/RecyclerItemDecorator.kt:43-46 | `p / 2` rounded toward zero: the unique `h` with `2h <= p <= 2h + 1` for `p >= 0` and `2h - 1 <= p <= 2h` for `p < 0` |
| ItemDecorator.RowRemainder | toolbox/src/main/java/in/windrunner/android_toolbox/recycler_view/decorator/RecyclerItemDecorator.kt:27-28 | the remainder lies strictly between `-columnsCount` and `columnsCount` and has the sign of the position |
| ItemDecorator.IsFirstRow | toolbox/src/main/java/in/windrunner/android_toolbox/recycler_view/decorator/RecyclerItemDecorator.kt:26 | the source's flag: the position is at most the column count |
| ItemDecorator.IsFirstInRow | toolbox/src/main/java/in/windrunner/android_toolbox/recycler_view/decorator/RecyclerItemDecorator.kt:27 | the source's flag: the truncated remainder is 1 |
| ItemDecorator.IsLastInRow | toolbox/src/main/java/in/windrunner/android_toolbox/recycler_view/decorator/RecyclerItemDecorator.kt:28 | the source's flag: the truncated remainder is 0 |
| ItemDecorator.RecyclerItemDecorator.constructor | toolbox/src/main/java/in/windrunner/android_toolbox/recycler_view/decorator/RecyclerItemDecorator.kt:7-13 | keeps the four paddings and the column count |
| ItemDecorator.RecyclerItemDecorator.Offsets | toolbox/src/main/java/in/windrunner/android_toolbox/recycler_view/decorator/RecyclerItemDecorator.kt:25-56 | bottom is always half; every side is full or half; single column: full left and right, full top only at position 1; grid: full top iff position <= columnsCount, full left iff first in row, full right iff last in row |
| ItemDecorator.RecyclerItemDecorator.GetItemOffsets | toolbox/src/main/java/in/windrunner/android_toolbox/recycler_view/decorator/RecyclerItemDecorator.kt:15-34 | the four sides of `outRect` become `Offsets(viewIndex)` |
| ItemDecorator.RecyclerItemDecorator.SetMultiColumn | toolbox/src/main/java/in/windrunner/android_toolbox/recycler_view/decorator/RecyclerItemDecorator.kt:36-47 | each side of `outRect` is full when its flag is set and half otherwise; the bottom is half |
| ItemDecorator.RecyclerItemDecorator.SetSingleColumn | toolbox/src/main/java/in/windrunner/android_toolbox/recycler_view/decorator/RecyclerItemDecorator.kt:50-56 | full left and right, full top only for the first item, half bottom |
| ItemDecorator.NeverFirstAndLastInRow | toolbox/src/main/java/in/windrunner/android_toolbox/recycler_view/decorator/RecyclerItemDecorator.kt:27-28 | no position is both first and last in its row |
| ItemDecorator.PositionZeroIsLastInRow | toolbox/src/main/java/in/windrunner/android_toolbox/recycler_view/decorator/RecyclerItemDecorator.kt:26-46 | in a grid, position 0 is last in row, not first, and gets half left, full top, full right, half bottom |
| ItemDecorator.RemainderOfNonNegative | toolbox/src/main/java/in/windrunner/android_toolbox/recycler_view/decorator/RecyclerItemDecorator.kt:27-28 | for positions >= 0 the remainder is Dafny's `%`: first in row iff `%` is 1, last iff it is 0 |
| ItemDecorator.RemainderOfNegative | toolbox/src/main/java/in/windrunner/android_toolbox/recycler_view/decorator/RecyclerItemDecorator.kt:27-28 | a negative position is never first in row; it is last iff it is a multiple of the column count; otherwise its remainder is the Euclidean one minus the column count |
| ItemDecorator.NoPositionIndexGetsHalfSides | toolbox/src/main/java/in/windrunner/android_toolbox/recycler_view/decorator/RecyclerItemDecorator.kt:27-45 | position -1 in a grid gets half left and half right padding |
| FilterableAdapter.FilterItems | recycler/src/main/java/in/windrunner/android_toolbox/adapter/FilterableRecycleAdapter.kt:57-60 | the result is no longer than the items and every element of it matches the query |
| FilterableAdapter.FilterIsSubsequence | recycler/src/main/java/in/windrunner/android_toolbox/adapter/FilterableRecycleAdapter.kt:57-60 | the filtered list is the item list with some items left out, the rest in their original order |
| FilterableAdapter.FilterCounts | recycler/src/main/java/in/windrunner/android_toolbox/adapter/FilterableRecycleAdapter.kt:57-60 | every matching item is kept exactly as often as it occurs, every other item is dropped, and nothing is added |
| FilterableAdapter.DefaultFilterKeepsAll | recycler/src/main/java/in/windrunner/android_toolbox/adapter/FilterableItem.kt:6 | with the default `isMatchFilter` the filtered list is the whole list |
| FilterableAdapter.DefaultIsMatchFilter | recycler/src/main/java/in/windrunner/android_toolbox/adapter/FilterableItem.kt:6 | the inherited `isMatchFilter`: every item matches every query |
| FilterableAdapter.FilterIdempotent | recycler/src/main/java/in/windrunner/android_toolbox/adapter/FilterableRecycleAdapter.kt:57-60 | filtering a filtered list with the same query changes nothing |
| FilterableAdapter.FilterableRecycleAdapter.constructor | recycler/src/main/java/in/windrunner/android_toolbox/adapter/FilterableRecycleAdapter.kt:12-14 | empty unfiltered list, `lastFilterQuery` is the empty string, no filter run yet |
| FilterableAdapter.FilterableRecycleAdapter.SetNewItems | recycler/src/main/java/in/windrunner/android_toolbox/adapter/FilterableRecycleAdapter.kt:34-40 | the unfiltered list becomes exactly `list`; the remembered query is kept, and the filter runs with it over `list` |
| FilterableAdapter.FilterableRecycleAdapter.Filter | recycler/src/main/java/in/windrunner/android_toolbox/adapter/FilterableRecycleAdapter.kt:42-46 | a non-null query replaces the remembered one and a null one keeps it; the filter runs with the remembered query; the list is untouched |
| FilterableAdapter.FilterableRecycleAdapter.PerformFiltering | recycler/src/main/java/in/windrunner/android_toolbox/adapter/FilterableRecycleAdapter.kt:57-63 | the order-preserving subsequence of `nonFilteredList` whose items match the constraint, each matching item kept as often as it occurs |

## Left out

- Coroutine and flow machinery is left out: suspension, dispatchers, laziness, and cancelling
  `first()` after its value. A collected flow is a finite sequence built in order.
- The storage stream of the infinite loader is finite: a list of values plus an optional final
  failure. It is subscribed up to twice: once by `first()` when the strategy reads storage,
  then once for the tail. The model gives both subscriptions the same stream, as a cold flow
  does. A stream that yields different values
  on re-subscription is not modelled. No deduplication is assumed.
- Adapter calls that return `null` are left out. With a nullable model type, `ready(null)` from
  the network would take other paths, including the `content!!` failure in `mapData`. Every
  adapter outcome is therefore a value or a throwable. `ToolboxLoader.GetNetworkFirst`'s test
  `netModel.error?.let` always finds an error.
- InfiniteLoader.GetData: `observeStorage()` is taken to return its flow without throwing. It is a
  `suspend fun` and may throw. When the call for `first()` throws, `getStorageResult`'s `try`
  turns the exception into a storage error. When the second call, for the tail, throws, the
  `.catch` is not yet attached. `getData()` then ends with that exception after the one-shot
  output instead of emitting an `Error`. `Stream` cannot express this input.
- FilterableAdapter.FilterableRecycleAdapter.Filter: the query is taken as an immutable string.
  The source stores the caller's own `CharSequence` object. A mutable one, such as an `Editable`,
  stays aliased, and a later `setNewItems` filters with its contents at that time. The model
  fixes the contents when `Filter` is called, and it does not model a `CharSequence` the caller
  changes later.
- Mapper exceptions are left out. `DataLoaderMapper` is an interface, modelled as two total
  functions.
- Mappers that return `null` are left out. This covers both `DataLoaderMapper` functions
  (`mapNetToStorage`, `mapStorageToDomain`) and the mapper handed to `mapData`. With a nullable
  target type, `ready(mapper(content!!))` gives `ready(null)`: an envelope in no state, on which
  the next `mapData` throws at `content!!`. For example, the toolbox CACHE_FIRST with a
  `mapNetToStorage` that returns `null` skips the write (`?: storageResult`) and then fails the
  flow in its final `map { it.mapData(..) }`. `DataModel.Data.MapData` always returns a
  well-formed envelope, so the model does not capture this failure. `DataModel.ReadyOf` and
  `DataModel.ReadyNullHasNoState` state what such an envelope is. The `catch` of the infinite tail is modelled only for stream failures.
- The clock behind `withTimeout` is not modelled. A fetch is described by its outcome and the
  milliseconds it takes. A fetch that takes exactly the bound counts as timed out. The
  exception `withTimeout` throws is a parameter (`Config.timeoutError`).
- The outcome of the basics `saveToStorage` is no input, because the source discards it. The
  model records the call and its argument.
- `Data.hashCode` and `Data.toString` are left out. `hashCode` hashes the error's identity,
  which disagrees with `equals`.
- `Data.equals` against an object that is not a `Data` is left out: `Equals` takes two
  envelopes. The `this === other` shortcut is covered, because identical envelopes are equal.
- The `android_toolbox.model.Data` class is not part of this model. The basics `Data` stands in
  for it.
- `UriContentUtil` is left out. It is ContentResolver and cursor I/O.
- `BindableHolder` and the abstract members of `FilterableItem` (`isIdEqual`,
  `isContentEqual`) are left out; they are view and item hooks with no logic. `isMatchFilter`
  is a parameter of the adapter; its default is `DefaultIsMatchFilter`.
- These Android parts of `FilterableRecycleAdapter` are left out: `ListAdapter`, `DiffUtil`
  callbacks, the deprecated `submitList` overrides, `onBindViewHolder`, and the asynchronous
  hop of `android.widget.Filter` into `publishResults`. The model records which query the
  filter was asked to run with (`requestedQuery`), and `PerformFiltering` gives its result.
- `super.getItemOffsets` and `parent.getChildAdapterPosition` are left out. The position is an
  integer input.
- Kotlin's 32-bit `Int` is not modelled. No step of the decorator can overflow: the divisors
  are positive, and quotients and remainders are no larger than their dividends.
