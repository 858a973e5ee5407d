/**
 * Shared vocabulary of the Bedrock client model: optional values, the
 * failure-compatible Result type standing for Swift's `throws`, the error
 * taxonomy, bytes, and the ordered "map with try" used wherever the source
 * writes `try xs.map { try f($0) }`.
 */
module Base {

  /** Swift's `T?`. */
  datatype Option<+T> = None | Some(value: T) {

    /** Swift's `self ?? fallback`. */
    function OrElse(fallback: Option<T>): Option<T> {
      if Some? then this else fallback
    }
  }

  /**
   * The error kinds thrown by the two generations of the code
   * (`BedrockLibraryError` in Sources/, `SwiftBedrockError` and
   * `BedrockServiceError` in backend/). Each kind carries the subject the
   * source's message names, so that a chain of guards can be told apart.
   * `Transport` stands for an error thrown by the SDK client itself.
   */
  datatype BedrockError =
    | NotFound(what: string)
    | NotSupported(what: string)
    | InvalidName(what: string)
    | InvalidPrompt(what: string)
    | InvalidModality(what: string)
    | InvalidSDKResponse(what: string)
    | InvalidSDKResponseBody(data: Bytes)
    | DecodingError(what: string)
    | EncodingError(what: string)
    | NotImplemented(what: string)
    | Transport(detail: string)

  /** The outcome of a Swift function that `throws`. */
  datatype Result<+T> = Success(value: T) | Failure(error: BedrockError) {

    predicate IsFailure() {
      Failure?
    }

    function PropagateFailure<U>(): Result<U>
      requires Failure?
    {
      Failure(error)
    }

    function Extract(): T
      requires Success?
    {
      value
    }
  }

  newtype byte = x: int | 0 <= x < 256

  /** Foundation's `Data`. */
  type Bytes = seq<byte>

  /**
   * Foundation's base64 conversions: `Data.base64EncodedString()` and
   * `Data(base64Encoded:)`. Only their defining laws are assumed.
   */
  datatype Base64Codec = Base64Codec(encode: Bytes -> string, decode: string -> Option<Bytes>) {

    ghost predicate Valid() {
      && (forall b :: decode(encode(b)) == Some(b))
      && encode([]) == []
      && (forall b :: b != [] ==> encode(b) != [])
    }
  }

  /**
   * `try xs.map { try f($0) }`: the elements are converted in order and the
   * first failing one aborts the whole conversion with its own error.
   */
  function MapAll<A, B>(xs: seq<A>, f: A -> Result<B>): (r: Result<seq<B>>)
    ensures r.Success? <==> forall i :: 0 <= i < |xs| ==> f(xs[i]).Success?
    ensures r.Success? ==> |r.value| == |xs| && forall i :: 0 <= i < |xs| ==> f(xs[i]) == Success(r.value[i])
    ensures r.Failure? ==>
      exists i :: 0 <= i < |xs| && f(xs[i]) == Failure(r.error) && forall j :: 0 <= j < i ==> f(xs[j]).Success?
    decreases |xs|
  {
    if xs == [] then Success([])
    else
      var prefix :- MapAll(xs[..|xs| - 1], f);
      var last :- f(xs[|xs| - 1]);
      Success(prefix + [last])
  }

  /** Converting back what `MapAll` produced, with a pointwise inverse, restores the input. */
  lemma {:induction false} MapAllInverse<A, B>(xs: seq<A>, f: A -> Result<B>, g: B -> Result<A>)
    requires MapAll(xs, f).Success?
    requires forall x :: x in xs && f(x).Success? ==> g(f(x).value) == Success(x)
    ensures MapAll(MapAll(xs, f).value, g) == Success(xs)
  {
    var ys := MapAll(xs, f).value;
    forall i | 0 <= i < |ys|
      ensures g(ys[i]) == Success(xs[i])
    {
      assert f(xs[i]) == Success(ys[i]);
      assert xs[i] in xs;
    }
    var back := MapAll(ys, g);
    assert back.Success?;
    assert back.value == xs;
  }

  /** Once a prefix fails, the whole list fails with the same error: `MapAll` stops at the first failure. */
  lemma {:induction false} MapAllFailsFromPrefix<A, B>(xs: seq<A>, n: nat, f: A -> Result<B>)
    requires n <= |xs| && MapAll(xs[..n], f).Failure?
    ensures MapAll(xs, f) == MapAll(xs[..n], f)
    decreases |xs| - n
  {
    if n < |xs| {
      assert xs[..n + 1][..n] == xs[..n];
      MapAllFailsFromPrefix(xs, n + 1, f);
    } else {
      assert xs[..n] == xs;
    }
  }
}
