/** Reading a response body chunk by chunk without ever holding more than a bound. */
module BoundedReader {
  import opened BitStrings
  import opened Numerals

  datatype Option<T> = None | Some(value: T)

  /** How the stream ends after its chunks: closed by the peer, or with an error. */
  datatype Ending = Closed | Failed

  /** A body as its reader will deliver it; `abort` is the number of reads after which the signal is aborted. */
  datatype Body = Body(chunks: seq<seq<Byte>>, ending: Ending, abort: Option<nat>)

  datatype Response = Response(contentLength: Option<string>, body: Option<Body>)

  /**
   * The three readers differ in two points: an absent body is empty or an error,
   * and the signal is looked at once more after the last read or not: for the proxy (true, false), for web pages and for
   * citations (false, true).
   */
  datatype Policy = Policy(absentIsEmpty: bool, checksAfterwards: bool)

  datatype Result = Ok(bytes: seq<Byte>) | Rejected

  // ----- what is accepted

  /** A declared length is absent, or a number within the bound. */
  predicate DeclaredOk(declared: Option<string>, maximum: nat) {
    declared.None? || (declared.value != "" && AllDigits(declared.value) && NumberOf(declared.value) <= maximum)
  }

  function Flatten(chunks: seq<seq<Byte>>): seq<Byte> {
    if chunks == [] then []
    else Flatten(chunks[..|chunks| - 1]) + chunks[|chunks| - 1]
  }

  /** Whether the signal is aborted once so many reads have returned. */
  predicate Aborted(body: Body, done: nat) {
    body.abort.Some? && body.abort.value <= done
  }

  /** The body closes normally within the bound before any abort that the reader would see. */
  predicate BodyOk(body: Body, maximum: nat, policy: Policy) {
    && body.ending.Closed?
    && |Flatten(body.chunks)| <= maximum
    && !Aborted(body, |body.chunks| + if policy.checksAfterwards then 1 else 0)
  }

  predicate Accepts(response: Response, maximum: nat, policy: Policy) {
    && DeclaredOk(response.contentLength, maximum)
    && (if response.body.None? then policy.absentIsEmpty else BodyOk(response.body.value, maximum, policy))
  }

  lemma {:induction false} FlattenPrefix(chunks: seq<seq<Byte>>, n: nat)
    requires n <= |chunks|
    ensures |Flatten(chunks[..n])| <= |Flatten(chunks)|
    ensures Flatten(chunks[..n]) <= Flatten(chunks)
  {
    if n == |chunks| {
      assert chunks[..n] == chunks;
    } else {
      var front := chunks[..|chunks| - 1];
      FlattenPrefix(front, n);
      assert front[..n] == chunks[..n];
    }
  }

  /** One chunk is its bytes, and chunks one after the other are their bytes one after the other. */
  lemma {:induction false} FlattenConcatenates(a: seq<seq<Byte>>, b: seq<seq<Byte>>, c: seq<Byte>)
    ensures Flatten([c]) == c && Flatten(a + b) == Flatten(a) + Flatten(b)
    decreases |b|
  {
    assert [c][..0] == [];
    if b == [] {
      assert a + b == a;
    } else {
      var last := |b| - 1;
      FlattenConcatenates(a, b[..last], c);
      assert (a + b)[..|a| + last] == a + b[..last];
    }
  }

  lemma FlattenStep(chunks: seq<seq<Byte>>, n: nat)
    requires n < |chunks|
    ensures chunks[..n + 1] == chunks[..n] + [chunks[n]]
    ensures Flatten(chunks[..n + 1]) == Flatten(chunks[..n]) + chunks[n]
    ensures |Flatten(chunks[..n + 1])| <= |Flatten(chunks)|
  {
    assert chunks[..n + 1][..n] == chunks[..n];
    FlattenPrefix(chunks, n + 1);
  }

  // ----- the readers

  /** Copies the chunks one after another into one buffer of their total size. */
  method Assemble(chunks: seq<seq<Byte>>, size: nat) returns (buffer: array<Byte>)
    requires size == |Flatten(chunks)|
    ensures fresh(buffer) && buffer[..] == Flatten(chunks)
  {
    buffer := new Byte[size](_ => 0);
    var offset := 0;
    for i := 0 to |chunks|
      invariant offset == |Flatten(chunks[..i])| <= size
      invariant buffer[..offset] == Flatten(chunks[..i])
    {
      var chunk := chunks[i];
      FlattenStep(chunks, i);
      ghost var before := buffer[..offset];
      forall j | 0 <= j < |chunk| {
        buffer[offset + j] := chunk[j];
      }
      assert buffer[..offset + |chunk|] == before + chunk;
      offset := offset + |chunk|;
    }
    assert chunks[..|chunks|] == chunks;
  }

  /**
   * The reading loop. `held` is what the reader keeps in memory when it returns: it never exceeds the bound,
   * and an accepted body comes back whole and in order.
   */
  method ReadBody(body: Body, maximum: nat, policy: Policy) returns (r: Result, held: seq<seq<Byte>>)
    ensures r.Ok? <==> BodyOk(body, maximum, policy)
    ensures r.Ok? ==> r.bytes == Flatten(body.chunks) && held == body.chunks
    ensures held <= body.chunks && |Flatten(held)| <= maximum
  {
    held := [];
    var size := 0;
    var done := 0;
    assert Flatten(held) == [];
    hide Flatten;
    while true
      invariant done <= |body.chunks| && held == body.chunks[..done]
      invariant size == |Flatten(held)| <= maximum
      invariant done > 0 ==> !Aborted(body, done - 1)
      decreases |body.chunks| - done
    {
      if Aborted(body, done) {
        return Rejected, held;
      }
      if done == |body.chunks| {
        if body.ending.Failed? {
          return Rejected, held;
        }
        break;
      }
      var value := body.chunks[done];
      FlattenStep(body.chunks, done);
      if |value| > maximum - size {
        return Rejected, held;
      }
      held := held + [value];
      size := size + |value|;
      done := done + 1;
    }
    assert held == body.chunks;
    if policy.checksAfterwards && Aborted(body, done + 1) {
      return Rejected, held;
    }
    var buffer := Assemble(held, size);
    return Ok(buffer[..]), held;
  }

  /** The whole reader, from the declared length to the bytes. */
  method ReadBounded(response: Response, maximum: nat, policy: Policy) returns (r: Result)
    ensures r.Ok? <==> Accepts(response, maximum, policy)
    ensures r.Ok? ==> |r.bytes| <= maximum
    ensures r.Ok? ==> r.bytes == if response.body.None? then [] else Flatten(response.body.value.chunks)
  {
    var declared := response.contentLength;
    if declared.Some? && (declared.value == "" || !AllDigits(declared.value) || NumberOf(declared.value) > maximum) {
      return Rejected;
    }
    if response.body.None? {
      return if policy.absentIsEmpty then Ok([]) else Rejected;
    }
    var held;
    r, held := ReadBody(response.body.value, maximum, policy);
  }
}
