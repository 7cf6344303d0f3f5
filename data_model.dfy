/**
 * The stateful result envelope `Data<T>` of the basics module
 * (basics/src/main/java/in/windrunner/basics/model/Data.kt), which the toolbox
 * loaders use as well.
 *
 * The Kotlin class has a private constructor over three fields and four ways
 * to build an instance (`loading()`, `error(e)`, `ready(c)`, the last one also
 * with a null `c` when `T` is nullable). The model keeps the three fields, so
 * that the state predicates and `equals` are the same field tests as in the
 * source, and proves what the factories and `mapData` guarantee about them.
 */
module DataModel {
  import opened Optional

  /**
   * A JVM throwable as far as the envelope looks at it: its runtime class, its
   * message (which may be null) and an identity that tells two instances apart.
   */
  datatype Throwable = Throwable(javaClass: string, message: Option<string>, identity: nat)

  /** The fields of `Data<T>`; `None` stands for Kotlin's `null`. */
  datatype Data<T> = Data(content: Option<T>, isLoading: bool, error: Option<Throwable>) {

    predicate IsStateError() { error.Some? }

    predicate IsStateLoading() { isLoading }

    predicate IsStateReady() { content.Some? }

    /** The envelope is one the factories build, with non-null content if it is ready. */
    predicate WellFormed() {
      || (isLoading && content.None? && error.None?)
      || (!isLoading && content.None? && error.Some?)
      || (!isLoading && content.Some? && error.None?)
    }

    /** `mapData` does not reach `content!!` with a null content. */
    predicate CanMap() {
      IsStateError() || IsStateLoading() || IsStateReady()
    }

    /**
     * `mapData`: an error stays the same error, loading stays loading, and
     * only ready content goes through the mapper. The error test comes first.
     */
    function MapData<U>(mapper: T -> U): (r: Data<U>)
      requires CanMap()
      ensures r.WellFormed()
      ensures r.error == error
      ensures r.IsStateLoading() <==> IsStateLoading() && !IsStateError()
      ensures r.IsStateReady() <==> !IsStateError() && !IsStateLoading()
      ensures r.IsStateReady() ==> r.content == Some(mapper(content.value))
      ensures WellFormed() ==>
        && (r.IsStateError() <==> IsStateError())
        && (r.IsStateLoading() <==> IsStateLoading())
        && (r.IsStateReady() <==> IsStateReady())
    {
      if IsStateError() then Error(error.value)
      else if IsStateLoading() then Loading()
      else Ready(mapper(content.value))
    }
  }

  /** `Data.loading()`. */
  function Loading<T>(): (r: Data<T>)
    ensures r.WellFormed()
    ensures r.IsStateLoading() && !r.IsStateError() && !r.IsStateReady()
  {
    Data(None, true, None)
  }

  /** `Data.error(e)`. */
  function Error<T>(e: Throwable): (r: Data<T>)
    ensures r.WellFormed() && r.error == Some(e)
    ensures r.IsStateError() && !r.IsStateLoading() && !r.IsStateReady()
  {
    Data(None, false, Some(e))
  }

  /** `Data.ready(content)` for a content that may be null. */
  function ReadyOf<T>(content: Option<T>): (r: Data<T>)
    ensures r.content == content && !r.IsStateError() && !r.IsStateLoading()
    ensures r.IsStateReady() <==> content.Some?
    ensures r.WellFormed() <==> content.Some?
    ensures r.CanMap() <==> content.Some?
  {
    Data(content, false, None)
  }

  /** `Data.ready(content)` for a non-null content. */
  function Ready<T>(content: T): (r: Data<T>)
    ensures r.WellFormed() && r.content == Some(content)
    ensures r.IsStateReady() && !r.IsStateError() && !r.IsStateLoading()
  {
    ReadyOf(Some(content))
  }

  /** `error?.javaClass` */
  function ErrorClass(e: Option<Throwable>): Option<string> {
    if e.Some? then Some(e.value.javaClass) else None
  }

  /** `error?.message`: null both without an error and for an error without a message. */
  function ErrorMessage(e: Option<Throwable>): Option<string> {
    if e.Some? then e.value.message else None
  }

  /**
   * `Data.equals`: same content, same loading flag, and errors of the same class
   * with the same message; which throwable instance it is does not matter.
   */
  function Equals<T(==)>(a: Data<T>, b: Data<T>): (r: bool)
    ensures r ==> (a.IsStateError() <==> b.IsStateError())
    ensures r ==> (a.IsStateLoading() <==> b.IsStateLoading())
    ensures r ==> (a.IsStateReady() <==> b.IsStateReady())
    ensures a == b ==> r
  {
    && a.content == b.content
    && a.isLoading == b.isLoading
    && ErrorClass(a.error) == ErrorClass(b.error)
    && ErrorMessage(a.error) == ErrorMessage(b.error)
  }

  /** A well-formed envelope is in exactly one of the three states. */
  lemma ExactlyOneState<T>(d: Data<T>)
    requires d.WellFormed()
    ensures d.IsStateError() ==> !d.IsStateLoading() && !d.IsStateReady()
    ensures d.IsStateLoading() ==> !d.IsStateError() && !d.IsStateReady()
    ensures d.IsStateReady() ==> !d.IsStateError() && !d.IsStateLoading()
    ensures d.IsStateError() || d.IsStateLoading() || d.IsStateReady()
  {
  }

  /** `ready(null)` is in none of the states, and `mapData` on it would throw. */
  lemma ReadyNullHasNoState<T>()
    ensures var d := ReadyOf<T>(None);
      !d.IsStateError() && !d.IsStateLoading() && !d.IsStateReady() && !d.CanMap()
  {
  }

  /** `mapData` keeps the tag, carries the same throwable and maps ready content. */
  lemma MapDataOfFactories<T, U>(e: Throwable, c: T, f: T -> U)
    ensures Error<T>(e).MapData(f) == Error<U>(e)
    ensures Loading<T>().MapData(f) == Loading<U>()
    ensures Ready(c).MapData(f) == Ready(f(c))
  {
  }

  /** On loading or error the mapper plays no part. */
  lemma MapDataIgnoresMapper<T, U>(d: Data<T>, f: T -> U, g: T -> U)
    requires d.IsStateError() || d.IsStateLoading()
    ensures d.MapData(f) == d.MapData(g)
  {
  }

  /** Mapping with the identity gives back a well-formed envelope unchanged. */
  lemma MapDataIdentity<T>(d: Data<T>)
    requires d.WellFormed()
    ensures d.MapData(x => x) == d
  {
  }

  /** `mapData(g).mapData(f)` is `mapData(f ∘ g)`. */
  lemma MapDataCompose<T, U, V>(d: Data<T>, g: T -> U, f: U -> V)
    requires d.CanMap()
    ensures d.MapData(g).MapData(f) == d.MapData(x => f(g(x)))
  {
  }

  /** Two error envelopes are equal iff their throwables agree in class and message. */
  lemma EqualsErrors<T>(e1: Throwable, e2: Throwable)
    ensures Equals(Error<T>(e1), Error<T>(e2)) <==>
      e1.javaClass == e2.javaClass && e1.message == e2.message
  {
  }

  /** Two ready envelopes are equal iff their contents are. */
  lemma EqualsReady<T>(c1: T, c2: T)
    ensures Equals(Ready(c1), Ready(c2)) <==> c1 == c2
  {
  }

  /** Envelopes built by different factories are never equal. */
  lemma EqualsDistinguishesFactories<T>(e: Throwable, c: T)
    ensures !Equals(Loading<T>(), Ready(c)) && !Equals(Ready(c), Loading<T>())
    ensures !Equals(Loading<T>(), Error<T>(e)) && !Equals(Error<T>(e), Loading<T>())
    ensures !Equals(Ready(c), Error<T>(e)) && !Equals(Error<T>(e), Ready(c))
  {
  }

  /** `equals` is an equivalence relation. */
  lemma EqualsIsEquivalence<T>(a: Data<T>, b: Data<T>, c: Data<T>)
    ensures Equals(a, a)
    ensures Equals(a, b) ==> Equals(b, a)
    ensures Equals(a, b) && Equals(b, c) ==> Equals(a, c)
  {
  }

  /** `mapData` sends equal envelopes to equal envelopes. */
  lemma MapDataRespectsEquals<T, U>(a: Data<T>, b: Data<T>, f: T -> U)
    requires a.CanMap() && Equals(a, b)
    ensures b.CanMap() && Equals(a.MapData(f), b.MapData(f))
  {
  }
}
