/**
 * The storage façade of internal/blobber/blobber.go.
 *
 * The bucket and the generator are scripted collaborators, in the manner of
 * the test doubles beside the Go code:
 *  - `generator(k)` is what the generator returns on its `k`-th call;
 *  - `bucket.writers(k)` is what the `k`-th `NewWriter` call hands out: an
 *    error, or a writer that reports a byte count and write error and then a
 *    close error;
 *  - `bucket.listing` is what successive `Next` calls on a fresh listing
 *    return; once it is used up, `Next` reports end-of-listing.
 * Both counts restart with each façade call. The keys' random integers are an
 * oracle too: `keys(i)` is the `rand.Int63()` drawn in iteration `i`.
 */
module Blobber {
  import opened Wrappers
  import opened Primitives

  /** A value of `rand.Int63()`. */
  type Int63 = n: int | 0 <= n < 0x8000_0000_0000_0000

  // ---------------------------------------------------------------- errors

  /** The errors the façade returns; the wrapped ones keep the collaborator's error text. */
  datatype Error =
    | NilGenerator
    | NilBucket
    | WriterUnavailable(cause: string)
    | GenerationFailed(cause: string)
    | WriteFailed(cause: string)
    | IncorrectByteCount
    | CloseFailed(cause: string)
    | IterationFailed(cause: string)

  predicate IsWrapped(e: Error) {
    e.WriterUnavailable? || e.GenerationFailed? || e.WriteFailed? || e.CloseFailed? || e.IterationFailed?
  }

  /**
   * The message `ListObjects` wraps iteration errors in: "unexpected error
   * during blob storage iteration". It is written as two literals because the
   * verifier does not read single characters out of a literal this long.
   */
  const IterationMessage: string := "unexpected error during " + "blob storage iteration"

  /** `errors.Wrap(cause, message).Error()`. */
  function Wrap(message: string, cause: string): string {
    message + ": " + cause
  }

  /**
   * The text of `err.Error()`. A wrapped error's text ends with its cause,
   * which is what callers (and the tests) look for.
   */
  function Message(e: Error): (m: string)
    ensures IsWrapped(e) ==> |e.cause| < |m| && m[|m| - |e.cause|..] == e.cause
  {
    match e
    case NilGenerator => "generator function cannot be nil"
    case NilBucket => "blob bucket cannot be nil"
    case WriterUnavailable(cause) => Wrap("could not create bucket writer", cause)
    case GenerationFailed(cause) => Wrap("generating random characters failed", cause)
    case WriteFailed(cause) => Wrap("could not write to bucket", cause)
    case IncorrectByteCount => "wrote incorrect number of bytes"
    case CloseFailed(cause) => Wrap("failed to close the blob bucket writer", cause)
    case IterationFailed(cause) => Wrap(IterationMessage, cause)
  }

  /** The first byte of every message; equal only for the pairs `MessageMiddle` tells apart. */
  lemma MessageHead(e: Error)
    ensures |Message(e)| > 10
    ensures (e.NilGenerator? || e.GenerationFailed?) ==> Message(e)[0] == 'g'
    ensures e.NilBucket? ==> Message(e)[0] == 'b'
    ensures (e.WriterUnavailable? || e.WriteFailed?) ==> Message(e)[0] == 'c'
    ensures e.IncorrectByteCount? ==> Message(e)[0] == 'w'
    ensures e.CloseFailed? ==> Message(e)[0] == 'f'
    ensures e.IterationFailed? ==> Message(e)[0] == 'u'
  {
    match e
    case WriterUnavailable(c) => WrapHead("could not create bucket writer", c, 0);
    case GenerationFailed(c) => WrapHead("generating random characters failed", c, 0);
    case WriteFailed(c) => WrapHead("could not write to bucket", c, 0);
    case CloseFailed(c) => WrapHead("failed to close the blob bucket writer", c, 0);
    case IterationFailed(c) => WrapHead(IterationMessage, c, 0);
    case _ =>
  }

  /** A later byte that tells apart the messages with the same first byte. */
  lemma MessageMiddle(e: Error)
    ensures e.NilGenerator? ==> Message(e)[7] == 'o'
    ensures e.GenerationFailed? ==> Message(e)[7] == 'i'
    ensures e.WriterUnavailable? ==> Message(e)[10] == 'c'
    ensures e.WriteFailed? ==> Message(e)[10] == 'w'
  {
    match e
    case WriterUnavailable(c) => WrapHead("could not create bucket writer", c, 10);
    case GenerationFailed(c) => WrapHead("generating random characters failed", c, 7);
    case WriteFailed(c) => WrapHead("could not write to bucket", c, 10);
    case _ =>
  }

  lemma WrapHead(message: string, cause: string, i: nat)
    requires i < |message|
    ensures Wrap(message, cause)[i] == message[i]
  {
  }

  lemma WrapInjective(message: string, c1: string, c2: string)
    requires Wrap(message, c1) == Wrap(message, c2)
    ensures c1 == c2
  {
    var n := |message| + 2;
    assert c1 == Wrap(message, c1)[n..];
    assert c2 == Wrap(message, c2)[n..];
  }

  /** Every error has its own text: the message tells both the failing step and the cause. */
  lemma MessageInjective(e1: Error, e2: Error)
    requires Message(e1) == Message(e2)
    ensures e1 == e2
  {
    MessageHead(e1);
    MessageHead(e2);
    MessageMiddle(e1);
    MessageMiddle(e2);
    match e1
    case WriterUnavailable(c) => WrapInjective("could not create bucket writer", c, e2.cause);
    case GenerationFailed(c) => WrapInjective("generating random characters failed", c, e2.cause);
    case WriteFailed(c) => WrapInjective("could not write to bucket", c, e2.cause);
    case CloseFailed(c) => WrapInjective("failed to close the blob bucket writer", c, e2.cause);
    case IterationFailed(c) => WrapInjective(IterationMessage, c, e2.cause);
    case _ =>
  }

  // ------------------------------------------------------------------ keys

  function Digit(d: nat): char
    requires d < 10
  {
    ('0' as int + d) as char
  }

  predicate IsDigits(s: string) {
    forall i :: 0 <= i < |s| ==> '0' <= s[i] <= '9'
  }

  /** The value of a run of decimal digits. */
  function DecimalValue(s: string): nat
    requires IsDigits(s)
  {
    if s == [] then 0 else DecimalValue(s[..|s| - 1]) * 10 + (s[|s| - 1] as int - '0' as int)
  }

  /** `%v` of a non-negative integer: its decimal digits, without leading zeros. */
  function Decimal(n: nat): (s: string)
    ensures 1 <= |s| && IsDigits(s)
    ensures s[0] == '0' ==> n == 0
  {
    if n < 10 then [Digit(n)] else Decimal(n / 10) + [Digit(n % 10)]
  }

  /** Reading the digits back gives the number. */
  lemma {:induction false} DecimalRoundTrip(n: nat)
    ensures DecimalValue(Decimal(n)) == n
  {
    if n >= 10 {
      var s := Decimal(n);
      assert s[..|s| - 1] == Decimal(n / 10);
      DecimalRoundTrip(n / 10);
    }
  }

  const KeyPrefix: string := "somebytes-"
  const KeySuffix: string := ".txt"

  /** `fmt.Sprintf("somebytes-%v.txt", n)`: the object key for random integer `n`. */
  function Key(n: Int63): string {
    KeyPrefix + Decimal(n) + KeySuffix
  }

  /** A key is the fixed template around decimal digits, and the digits read back as the random integer. */
  lemma KeyFormat(n: Int63)
    ensures var key := Key(n);
      && |key| > |KeyPrefix| + |KeySuffix|
      && key[..|KeyPrefix|] == KeyPrefix && key[|key| - |KeySuffix|..] == KeySuffix
      && IsDigits(key[|KeyPrefix|..|key| - |KeySuffix|])
      && DecimalValue(key[|KeyPrefix|..|key| - |KeySuffix|]) == n
  {
    var key := Key(n);
    assert key[|KeyPrefix|..|key| - |KeySuffix|] == Decimal(n);
    DecimalRoundTrip(n);
  }

  /** Distinct draws give distinct keys (that draws differ is only probable). */
  lemma KeyInjective(m: Int63, n: Int63)
    requires Key(m) == Key(n)
    ensures m == n
  {
    KeyFormat(m);
    KeyFormat(n);
  }

  // -------------------------------------------------------- collaborators

  /** What one `NewWriter` call yields. */
  datatype WriterScript =
    | Refused(err: string)
    | Granted(written: int, writeErr: Option<string>, closeErr: Option<string>)

  /** What one `Next` call on a listing yields: an object, `io.EOF`, or another error. */
  datatype NextResult =
    | Listed(key: string, size: int64)
    | Eof
    | Failed(err: string)

  /** The generator: its `k`-th call returns `generator(k)`. */
  type Generator = nat -> Result<seq<byte>, string>

  /** A writer handed out by `NewWriter` (an `io.WriteCloser`), answering as scripted. */
  class Writer {
    const key: string
    const written: int
    const writeErr: Option<string>
    const closeErr: Option<string>
    var closed: bool
    /** The calls made on this writer so far. */
    ghost var calls: seq<Event>

    constructor (key: string, written: int, writeErr: Option<string>, closeErr: Option<string>)
      ensures this.key == key && this.written == written
      ensures this.writeErr == writeErr && this.closeErr == closeErr
      ensures !closed && calls == []
    {
      this.key := key;
      this.written := written;
      this.writeErr := writeErr;
      this.closeErr := closeErr;
      closed := false;
      calls := [];
    }

    /** `Write(payload)`; only an open writer may be written to. */
    method Write(payload: seq<byte>) returns (n: int, err: Option<string>)
      requires !closed
      modifies this
      ensures n == written && err == writeErr
      ensures !closed && calls == old(calls) + [WriteCalled(key, payload)]
    {
      n, err := written, writeErr;
      calls := calls + [WriteCalled(key, payload)];
    }

    /** `Close()`; a writer is closed at most once. */
    method Close() returns (err: Option<string>)
      requires !closed
      modifies this
      ensures closed && err == closeErr
      ensures calls == old(calls) + [CloseCalled(key)]
    {
      closed := true;
      err := closeErr;
      calls := calls + [CloseCalled(key)];
    }
  }

  /** The pull-style cursor `List()` returns. */
  class ListIterator {
    const results: seq<NextResult>
    var pos: nat

    ghost predicate Valid()
      reads this
    {
      pos <= |results|
    }

    constructor (results: seq<NextResult>)
      ensures Valid() && this.results == results && pos == 0
    {
      this.results := results;
      pos := 0;
    }

    /** `Next(ctx)`: the next scripted result, then `io.EOF` for ever. */
    method Next() returns (r: NextResult)
      requires Valid()
      modifies this
      ensures Valid()
      ensures old(pos) < |results| ==> r == results[old(pos)] && pos == old(pos) + 1
      ensures old(pos) == |results| ==> r == Eof && pos == old(pos)
    {
      if pos < |results| {
        r := results[pos];
        pos := pos + 1;
      } else {
        r := Eof;
      }
    }
  }

  /** The bucket seam: `NewWriter` and `List`, nothing else. */
  datatype Bucket = Bucket(writers: nat -> WriterScript, listing: seq<NextResult>)
  {
    /** The `k`-th `NewWriter(ctx, key)` call. */
    method NewWriter(k: nat, key: string) returns (r: Result<Writer, string>)
      ensures writers(k).Refused? ==> r == Failure(writers(k).err)
      ensures writers(k).Granted? ==>
        && r.Success? && fresh(r.value) && !r.value.closed && r.value.calls == [] && r.value.key == key
        && r.value.written == writers(k).written
        && r.value.writeErr == writers(k).writeErr
        && r.value.closeErr == writers(k).closeErr
    {
      match writers(k)
      case Refused(err) =>
        r := Failure(err);
      case Granted(written, writeErr, closeErr) =>
        var w := new Writer(key, written, writeErr, closeErr);
        r := Success(w);
    }

    /** `List()`: a fresh cursor over the listing. */
    method List() returns (it: ListIterator)
      ensures fresh(it) && it.Valid() && it.results == listing && it.pos == 0
    {
      it := new ListIterator(listing);
    }
  }

  // --------------------------------------------- the steps of CreateObjects

  /** The calls an iteration makes on its collaborators, in order. */
  datatype Event =
    | NewWriterCalled(key: string)
    | GeneratorCalled
    | WriteCalled(key: string, payload: seq<byte>)
    | CloseCalled(key: string)

  /** The whole pipeline of one iteration that writes `payload` under `key`. */
  function Pipeline(key: string, payload: seq<byte>): seq<Event> {
    [NewWriterCalled(key), GeneratorCalled, WriteCalled(key, payload), CloseCalled(key)]
  }

  /** How many steps of the pipeline run when it fails with `e` (0 for errors of the other operations). */
  function FailedStep(e: Error): nat {
    match e
    case WriterUnavailable(_) => 1
    case GenerationFailed(_) => 2
    case WriteFailed(_) => 3
    case IncorrectByteCount => 3
    case CloseFailed(_) => 4
    case _ => 0
  }

  function PayloadOf(generated: Result<seq<byte>, string>): seq<byte> {
    if generated.Success? then generated.value else []
  }

  /** An iteration succeeds when every step does and the writer confirms the whole payload. */
  predicate IterationSucceeds(writer: WriterScript, generated: Result<seq<byte>, string>) {
    && writer.Granted?
    && generated.Success?
    && writer.writeErr.None?
    && writer.written == |generated.value|
    && writer.closeErr.None?
  }

  /**
   * One iteration of the loop in `CreateObjects`: get a writer, generate the
   * payload, write it, check the byte count, close the writer. The steps run in
   * that order, and the first one that fails ends the iteration with the error
   * that names it; no later step runs, and a writer is closed only when every
   * earlier step succeeded.
   */
  function Iteration(key: string, writer: WriterScript, generated: Result<seq<byte>, string>)
    : (seq<Event>, Option<Error>)
  {
    match writer
    case Refused(err) => ([NewWriterCalled(key)], Some(WriterUnavailable(err)))
    case Granted(written, writeErr, closeErr) =>
      match generated
      case Failure(err) => ([NewWriterCalled(key), GeneratorCalled], Some(GenerationFailed(err)))
      case Success(payload) =>
        var wrote := [NewWriterCalled(key), GeneratorCalled, WriteCalled(key, payload)];
        if writeErr.Some? then (wrote, Some(WriteFailed(writeErr.value)))
        else if |payload| != written then (wrote, Some(IncorrectByteCount))
        else if closeErr.Some? then (wrote + [CloseCalled(key)], Some(CloseFailed(closeErr.value)))
        else (wrote + [CloseCalled(key)], None)
  }

  /**
   * An iteration makes a prefix of the pipeline's calls: as many as the
   * step that failed, or all four when none did. It succeeds exactly when
   * every step does; it closes the writer exactly when it succeeds or the
   * close itself fails; and it reports a wrong byte count exactly when the
   * write succeeded but confirmed a different number of bytes.
   */
  lemma IterationShape(key: string, writer: WriterScript, generated: Result<seq<byte>, string>)
    ensures var r := Iteration(key, writer, generated);
      && 1 <= |r.0| <= 4 && r.0 == Pipeline(key, PayloadOf(generated))[..|r.0|]
      && (r.1.Some? ==> |r.0| == FailedStep(r.1.value))
      && (r.1.None? ==> |r.0| == 4)
      && (r.1.None? <==> IterationSucceeds(writer, generated))
      && (CloseCalled(key) in r.0 <==> r.1.None? || r.1.value.CloseFailed?)
      && (writer.Refused? ==> r.1 == Some(WriterUnavailable(writer.err)))
      && (writer.Granted? && generated.Failure? ==> r.1 == Some(GenerationFailed(generated.error)))
      && (writer.Granted? && generated.Success? && writer.writeErr.Some? ==>
            r.1 == Some(WriteFailed(writer.writeErr.value)))
      && (writer.Granted? && generated.Success? && writer.writeErr.None? &&
          writer.written == |generated.value| && writer.closeErr.Some? ==>
            r.1 == Some(CloseFailed(writer.closeErr.value)))
      && (r.1 == Some(IncorrectByteCount) <==>
            writer.Granted? && generated.Success? && writer.writeErr.None? && writer.written != |generated.value|)
  {
  }

  lemma Associative<T>(a: seq<T>, b: seq<T>, c: seq<T>)
    ensures a + (b + c) == (a + b) + c
  {
  }

  // ------------------------------------------------------------------ runs

  /** The calls and the result of each iteration of a loop, by iteration number. */
  type Steps = nat -> (seq<Event>, Option<Error>)

  /** The result of iterations `i` up to `limit`: the error of the first that fails. */
  function Outcome(step: Steps, i: nat, limit: int): Option<Error>
    decreases limit - i
  {
    if i >= limit then None
    else if step(i).1.Some? then step(i).1
    else Outcome(step, i + 1, limit)
  }

  /** The calls made by iterations `i` up to `limit`, the first failing one included. */
  function Calls(step: Steps, i: nat, limit: int): seq<Event>
    decreases limit - i
  {
    if i >= limit then []
    else if step(i).1.Some? then step(i).0
    else step(i).0 + Calls(step, i + 1, limit)
  }

  /** The calls made by iterations `i` up to `k`. */
  function Completed(step: Steps, i: nat, k: nat): seq<Event>
    decreases k - i
  {
    if i >= k then [] else step(i).0 + Completed(step, i + 1, k)
  }

  /** A successful iteration puts its calls in front of those of the iterations after it. */
  lemma CallsStep(step: Steps, i: nat, limit: int)
    requires i < limit && step(i).1.None?
    ensures Calls(step, i, limit) == step(i).0 + Calls(step, i + 1, limit)
    ensures Outcome(step, i, limit) == Outcome(step, i + 1, limit)
  {
  }

  /** A failing iteration ends the run with its calls and its error. */
  lemma CallsStop(step: Steps, i: nat, limit: int)
    requires i < limit && step(i).1.Some?
    ensures Calls(step, i, limit) == step(i).0
    ensures Outcome(step, i, limit) == step(i).1
  {
  }

  /**
   * One more iteration of a run whose first `i` iterations made the calls
   * `before`: a failing one ends the run, a successful one adds its calls.
   */
  lemma Advance(step: Steps, i: nat, limit: int, before: seq<Event>)
    requires i < limit
    requires Calls(step, 0, limit) == before + Calls(step, i, limit)
    requires Outcome(step, 0, limit) == Outcome(step, i, limit)
    ensures step(i).1.Some? ==> Outcome(step, 0, limit) == step(i).1 && Calls(step, 0, limit) == before + step(i).0
    ensures step(i).1.None? ==>
      && Calls(step, 0, limit) == (before + step(i).0) + Calls(step, i + 1, limit)
      && Outcome(step, 0, limit) == Outcome(step, i + 1, limit)
  {
    if step(i).1.None? {
      CallsStep(step, i, limit);
      Associative(before, step(i).0, Calls(step, i + 1, limit));
    }
  }

  /** Iterations that succeed contribute their calls and nothing else. */
  lemma {:induction false} RunThrough(step: Steps, i: nat, k: nat, limit: int)
    requires i <= k <= limit
    requires forall j :: i <= j < k ==> step(j).1.None?
    ensures Calls(step, i, limit) == Completed(step, i, k) + Calls(step, k, limit)
    ensures Outcome(step, i, limit) == Outcome(step, k, limit)
    decreases k - i
  {
    if i < k {
      RunThrough(step, i + 1, k, limit);
      CallsStep(step, i, limit);
      Associative(step(i).0, Completed(step, i + 1, k), Calls(step, k, limit));
    } else {
      assert [] + Calls(step, k, limit) == Calls(step, k, limit);
    }
  }

  /** A run from `i` succeeds only when every iteration from `i` does. */
  lemma {:induction false} RunSucceedsOnlyIfAll(step: Steps, i: nat, limit: int)
    requires Outcome(step, i, limit).None?
    ensures forall j :: i <= j < limit ==> step(j).1.None?
    decreases limit - i
  {
    if i < limit {
      RunSucceedsOnlyIfAll(step, i + 1, limit);
    }
  }

  // ------------------------------------------------------------- the façade

  /** The façade: the generator and the bucket it was built over. */
  datatype Blobber = Blobber(generator: Generator, bucket: Bucket)
  {
    /** Iteration `i` of `CreateObjects`, under key draws `keys`. */
    function Step(keys: nat -> Int63, i: nat): (seq<Event>, Option<Error>) {
      Iteration(Key(keys(i)), bucket.writers(i), generator(i))
    }

    /** The iterations of `CreateObjects` under key draws `keys`. */
    function Loop(keys: nat -> Int63): Steps {
      (i: nat) => Step(keys, i)
    }

    predicate Succeeds(i: nat) {
      IterationSucceeds(bucket.writers(i), generator(i))
    }

    /** Iteration `i` fails exactly when its scripted collaborators make it fail. */
    lemma LoopStep(keys: nat -> Int63, i: nat)
      ensures Loop(keys)(i).1.None? <==> Succeeds(i)
    {
      IterationShape(Key(keys(i)), bucket.writers(i), generator(i));
    }

    /** Successful iterations `i` up to `k` make exactly four calls each, in pipeline order. */
    lemma {:induction false} CompletedLayout(keys: nat -> Int63, i: nat, k: nat)
      requires i <= k
      requires forall j :: i <= j < k ==> Succeeds(j)
      ensures |Completed(Loop(keys), i, k)| == 4 * (k - i)
      ensures forall j :: i <= j < k ==>
        Completed(Loop(keys), i, k)[4 * (j - i)..4 * (j - i) + 4] == Pipeline(Key(keys(j)), PayloadOf(generator(j)))
      decreases k - i
    {
      if i < k {
        CompletedLayout(keys, i + 1, k);
        var head, tail := Loop(keys)(i).0, Completed(Loop(keys), i + 1, k);
        assert Completed(Loop(keys), i, k) == head + tail;
        LoopStep(keys, i);
        IterationShape(Key(keys(i)), bucket.writers(i), generator(i));
        assert Succeeds(i);
        assert Pipeline(Key(keys(i)), PayloadOf(generator(i)))[..4] == Pipeline(Key(keys(i)), PayloadOf(generator(i)));
        assert head == Pipeline(Key(keys(i)), PayloadOf(generator(i)));
        forall j | i <= j < k
          ensures (head + tail)[4 * (j - i)..4 * (j - i) + 4] == Pipeline(Key(keys(j)), PayloadOf(generator(j)))
        {
          if j > i {
            assert (head + tail)[4 * (j - i)..4 * (j - i) + 4] == tail[4 * (j - (i + 1))..4 * (j - (i + 1)) + 4];
          }
        }
      }
    }

    /** The iterations `i` up to `k` all succeed exactly when their steps report no error. */
    lemma AllSucceed(keys: nat -> Int63, i: nat, k: int)
      ensures (forall j :: i <= j < k ==> Succeeds(j)) <==> (forall j :: i <= j < k ==> Loop(keys)(j).1.None?)
    {
      forall j | i <= j < k {
        LoopStep(keys, j);
      }
    }

    /** The loop succeeds exactly when each of its `limit` iterations does. */
    lemma SucceedsIffAll(keys: nat -> Int63, limit: int)
      ensures Outcome(Loop(keys), 0, limit).None? <==> forall j :: 0 <= j < limit ==> Succeeds(j)
    {
      AllSucceed(keys, 0, limit);
      if Outcome(Loop(keys), 0, limit).None? {
        RunSucceedsOnlyIfAll(Loop(keys), 0, limit);
      }
      if forall j :: 0 <= j < limit ==> Succeeds(j) {
        RunThrough(Loop(keys), 0, if limit > 0 then limit else 0, if limit > 0 then limit else 0);
      }
    }

    /**
     * When `CreateObjects` succeeds (see `SucceedsIffAll`), it has asked for `limit` writers, one per iteration under that
     * iteration's key, and writes and closes each in turn.
     */
    lemma CreateSucceeds(keys: nat -> Int63, limit: int)
      ensures Outcome(Loop(keys), 0, limit).None? ==>
        && |Calls(Loop(keys), 0, limit)| == (if limit > 0 then 4 * limit else 0)
        && forall j :: 0 <= j < limit ==>
             Calls(Loop(keys), 0, limit)[4 * j..4 * j + 4] == Pipeline(Key(keys(j)), PayloadOf(generator(j)))
    {
      SucceedsIffAll(keys, limit);
      if limit > 0 && forall j :: 0 <= j < limit ==> Succeeds(j) {
        AllSucceed(keys, 0, limit);
        RunThrough(Loop(keys), 0, limit, limit);
        CompletedLayout(keys, 0, limit);
        assert Completed(Loop(keys), 0, limit) + [] == Completed(Loop(keys), 0, limit);
      }
    }

    /**
     * When iteration `k` is the first to fail, `CreateObjects` returns that
     * iteration's error; the calls made are those of the `k` whole iterations
     * before it and the steps of iteration `k` up to the failing one. No later
     * iteration starts.
     */
    lemma CreateFailsAt(keys: nat -> Int63, limit: int, k: nat)
      requires k < limit
      requires forall j :: 0 <= j < k ==> Succeeds(j)
      requires !Succeeds(k)
      ensures Calls(Loop(keys), 0, limit) == Completed(Loop(keys), 0, k) + Step(keys, k).0
      ensures Outcome(Loop(keys), 0, limit) == Step(keys, k).1
      ensures Outcome(Loop(keys), 0, limit).Some?
      ensures |Calls(Loop(keys), 0, limit)| == 4 * k + FailedStep(Outcome(Loop(keys), 0, limit).value)
    {
      AllSucceed(keys, 0, k);
      RunThrough(Loop(keys), 0, k, limit);
      CompletedLayout(keys, 0, k);
      LoopStep(keys, k);
      CallsStop(Loop(keys), k, limit);
      IterationShape(Key(keys(k)), bucket.writers(k), generator(k));
    }

    /**
     * `CreateObjects(ctx, limit)`: `limit` iterations of the pipeline, each
     * under the key drawn for it; the first failing step ends the call with its
     * error. Returns the error (`None` for nil) and, as a ghost, the calls made
     * on the generator and the bucket.
     */
    method CreateObjects(limit: int, keys: nat -> Int63) returns (err: Option<Error>, ghost trace: seq<Event>)
      ensures err == Outcome(Loop(keys), 0, limit) && trace == Calls(Loop(keys), 0, limit)
    {
      trace := [];
      var i := 0;
      assert [] + Calls(Loop(keys), 0, limit) == Calls(Loop(keys), 0, limit);
      while i < limit
        invariant 0 <= i <= (if limit > 0 then limit else 0)
        invariant Calls(Loop(keys), 0, limit) == trace + Calls(Loop(keys), i, limit)
        invariant Outcome(Loop(keys), 0, limit) == Outcome(Loop(keys), i, limit)
      {
        Advance(Loop(keys), i, limit, trace);
        var failure, events, _ := Store(keys, i);
        trace := trace + events;
        if failure.Some? {
          return failure, trace;
        }
        i := i + 1;
      }
      err := None;
      assert trace + [] == trace;
    }

    /**
     * The body of the loop in `CreateObjects` for iteration `i`: build the key
     * from the draw `keys(i)`, get a writer for it, generate the payload, write
     * it, check the byte count, close the writer; the first failing step
     * returns its error.
     */
    method Store(keys: nat -> Int63, i: nat) returns (err: Option<Error>, ghost events: seq<Event>, ghost used: Option<Writer>)
      ensures events == Loop(keys)(i).0 && err == Loop(keys)(i).1
      ensures err.None? <==> Succeeds(i)
      ensures 1 <= |events| && (err.Some? ==> (events[|events| - 1].CloseCalled? <==> err.value.CloseFailed?))
      ensures used.Some? <==> bucket.writers(i).Granted?
      ensures used.Some? ==>
        && fresh(used.value) && 2 <= |events| && used.value.calls == events[2..]
        && (used.value.closed <==> err.None? || err.value.CloseFailed?)
    {
      LoopStep(keys, i);
      var key := Key(keys(i));
      var acquired := bucket.NewWriter(i, key);
      events := [NewWriterCalled(key)];
      if acquired.Failure? {
        return Some(WriterUnavailable(acquired.error)), events, None;
      }
      var w := acquired.value;
      used := Some(w);
      var generated := generator(i);
      events := events + [GeneratorCalled];
      if generated.Failure? {
        return Some(GenerationFailed(generated.error)), events, used;
      }
      var payload := generated.value;
      var expected := |payload|;
      var written, writeErr := w.Write(payload);
      events := events + [WriteCalled(key, payload)];
      if writeErr.Some? {
        return Some(WriteFailed(writeErr.value)), events, used;
      }
      if expected != written {
        return Some(IncorrectByteCount), events, used;
      }
      var closeErr := w.Close();
      events := events + [CloseCalled(key)];
      if closeErr.Some? {
        return Some(CloseFailed(closeErr.value)), events, used;
      }
      return None, events, used;
    }

    /**
     * `ListObjects(ctx, threshold)`: drain a fresh listing to `io.EOF`,
     * keeping the key and size of each object at least `threshold` bytes in
     * listing order; any other listing error fails the whole call.
     */
    method ListObjects(threshold: int64) returns (r: Result<seq<Object>, Error>)
      ensures r == Listing(bucket.listing, threshold)
      ensures r.Success? ==> forall o :: o in r.value ==> o.size >= threshold
      ensures r.Failure? ==> r.error.IterationFailed?
    {
      var objects: seq<Object> := [];
      var iter := bucket.List();
      assert bucket.listing[iter.pos..] == bucket.listing;
      var whole := Listing(bucket.listing, threshold);
      if whole.Success? {
        assert objects + whole.value == whole.value;
      }
      while true
        invariant fresh(iter) && iter.Valid() && iter.results == bucket.listing
        invariant Listing(bucket.listing, threshold) == Prepend(objects, Listing(bucket.listing[iter.pos..], threshold))
        decreases |iter.results| - iter.pos
      {
        ghost var at := iter.pos;
        var next := iter.Next();
        if next.Eof? {
          assert Listing(bucket.listing[at..], threshold) == Success([]);
          assert objects + [] == objects;
          break;
        }
        if next.Failed? {
          return Failure(IterationFailed(next.err));
        }
        assert bucket.listing[at..][0] == next;
        ListingStep(bucket.listing[at..], objects, threshold);
        assert objects + [] == objects;
        assert bucket.listing[at..][1..] == bucket.listing[iter.pos..];
        if next.size >= threshold {
          objects := objects + [Object(next.key, next.size)];
        }
      }
      r := Success(objects);
    }
  }

  /**
   * `New(generator, bb)`: the generator is checked first, then the bucket;
   * with both present the façade is built over them.
   */
  function New(generator: Option<Generator>, bb: Option<Bucket>): (r: Result<Blobber, Error>)
    ensures r.Success? <==> generator.Some? && bb.Some?
    ensures generator.None? ==> r == Failure(NilGenerator)
    ensures generator.Some? && bb.None? ==> r == Failure(NilBucket)
    ensures r.Success? ==> r.value.generator == generator.value && r.value.bucket == bb.value
  {
    if generator.None? then Failure(NilGenerator)
    else if bb.None? then Failure(NilBucket)
    else Success(Blobber(generator.value, bb.value))
  }

  /**
   * The façade's `CreateObjects` tests: no iteration runs for limit 0, and with
   * limit 2 the first iteration fails with the error of the failing step,
   * whose message carries the collaborator's error.
   */
  lemma CreateObjectsExamples(keys: nat -> Int63)
    ensures
      var b := Blobber((k: nat) => Success([]), Bucket((k: nat) => Refused("could not create new writer"), []));
      Outcome(b.Loop(keys), 0, 0) == None
    ensures
      var b := Blobber((k: nat) => Success([]), Bucket((k: nat) => Refused("could not create new writer"), []));
      Outcome(b.Loop(keys), 0, 2) == Some(WriterUnavailable("could not create new writer"))
    ensures
      var b := Blobber((k: nat) => Failure("bad generator"), Bucket((k: nat) => Granted(0, None, None), []));
      Outcome(b.Loop(keys), 0, 2) == Some(GenerationFailed("bad generator"))
    ensures
      var b := Blobber((k: nat) => Success([]), Bucket((k: nat) => Granted(0, Some("write failed"), None), []));
      Outcome(b.Loop(keys), 0, 2) == Some(WriteFailed("write failed"))
    ensures
      var b := Blobber((k: nat) => Success([0x4C]), Bucket((k: nat) => Granted(0, None, None), []));
      Outcome(b.Loop(keys), 0, 2) == Some(IncorrectByteCount)
    ensures
      var b := Blobber((k: nat) => Success([]), Bucket((k: nat) => Granted(0, None, Some("who left this open")), []));
      Outcome(b.Loop(keys), 0, 2) == Some(CloseFailed("who left this open"))
  {
  }

  // ------------------------------------------------------------ the listing

  /** What `ListObjects` returns for each object kept. */
  datatype Object = Object(key: string, size: int64)

  function Prepend(objects: seq<Object>, r: Result<seq<Object>, Error>): Result<seq<Object>, Error> {
    if r.Success? then Success(objects + r.value) else r
  }

  /** Reading one more listed object moves it (when kept) from the rest of the listing to the collected objects. */
  lemma ListingStep(results: seq<NextResult>, objects: seq<Object>, threshold: int64)
    requires results != [] && results[0].Listed?
    ensures Prepend(objects, Listing(results, threshold))
      == Prepend(objects + (if results[0].size >= threshold then [Object(results[0].key, results[0].size)] else []),
                 Listing(results[1..], threshold))
  {
    var kept := if results[0].size >= threshold then [Object(results[0].key, results[0].size)] else [];
    var rest := Listing(results[1..], threshold);
    if rest.Success? {
      assert objects + (kept + rest.value) == objects + kept + rest.value;
    }
  }

  /**
   * The result of draining a listing: the kept objects, or the first error
   * other than end-of-listing. Every object kept reaches the threshold.
   */
  function Listing(results: seq<NextResult>, threshold: int64): (r: Result<seq<Object>, Error>)
    ensures r.Success? ==> forall o :: o in r.value ==> o.size >= threshold
    ensures r.Failure? ==> r.error.IterationFailed?
  {
    if results == [] then Success([])
    else
      match results[0]
      case Eof => Success([])
      case Failed(err) => Failure(IterationFailed(err))
      case Listed(key, size) =>
        var rest := Listing(results[1..], threshold);
        if rest.Failure? then rest
        else Success((if size >= threshold then [Object(key, size)] else []) + rest.value)
  }

  /** The objects of `listed` that reach the threshold, as `Object`s, in order. */
  function Keep(listed: seq<NextResult>, threshold: int64): seq<Object> {
    if listed == [] then []
    else
      var last := listed[|listed| - 1];
      Keep(listed[..|listed| - 1], threshold)
        + (if last.Listed? && last.size >= threshold then [Object(last.key, last.size)] else [])
  }

  /** Keeping distributes over concatenation, so the order of the listing is kept. */
  lemma {:induction false} KeepAppend(p: seq<NextResult>, q: seq<NextResult>, threshold: int64)
    ensures Keep(p + q, threshold) == Keep(p, threshold) + Keep(q, threshold)
    decreases |q|
  {
    if q != [] {
      var init, last := q[..|q| - 1], q[|q| - 1];
      assert (p + q)[..|p + q| - 1] == p + init;
      assert (p + q)[|p + q| - 1] == last;
      KeepAppend(p, init, threshold);
      var tail := if last.Listed? && last.size >= threshold then [Object(last.key, last.size)] else [];
      assert Keep(q, threshold) == Keep(init, threshold) + tail;
      assert Keep(p + q, threshold) == Keep(p + init, threshold) + tail;
      assert Keep(p + q, threshold) == Keep(p, threshold) + Keep(init, threshold) + tail;
      assert Keep(p, threshold) + Keep(init, threshold) + tail == Keep(p, threshold) + (Keep(init, threshold) + tail);
    } else {
      assert p + q == p;
      assert Keep(p, threshold) + [] == Keep(p, threshold);
    }
  }

  /** An object is kept exactly when it was listed and reaches the threshold; key and size are unchanged. */
  lemma {:induction false} KeepMembers(listed: seq<NextResult>, threshold: int64, o: Object)
    ensures o in Keep(listed, threshold) <==> o.size >= threshold && Listed(o.key, o.size) in listed
    decreases |listed|
  {
    if listed != [] {
      var init := listed[..|listed| - 1];
      KeepMembers(init, threshold, o);
      assert listed == init + [listed[|listed| - 1]];
    }
  }

  /** A listing of objects only, however it ends, yields exactly the kept objects. */
  lemma {:induction false} ListingKeeps(listed: seq<NextResult>, threshold: int64)
    requires forall x :: x in listed ==> x.Listed?
    ensures Listing(listed, threshold) == Success(Keep(listed, threshold))
  {
    if listed != [] {
      ListingKeeps(listed[1..], threshold);
      assert listed == [listed[0]] + listed[1..];
      KeepAppend([listed[0]], listed[1..], threshold);
      assert [listed[0]][..0] == [];
      assert Keep([listed[0]], threshold)
        == (if listed[0].size >= threshold then [Object(listed[0].key, listed[0].size)] else []);
    }
  }

  /** Draining stops at the first end-of-listing: whatever follows it is never read. */
  lemma {:induction false} ListingStopsAtEof(p: seq<NextResult>, q: seq<NextResult>, threshold: int64)
    ensures Listing(p + [Eof] + q, threshold) == Listing(p, threshold)
  {
    if p != [] {
      assert (p + [Eof] + q)[1..] == p[1..] + [Eof] + q;
      ListingStopsAtEof(p[1..], q, threshold);
    }
  }

  /** An error before the end of the listing discards every object collected so far. */
  lemma {:induction false} ListingFailsAt(p: seq<NextResult>, err: string, q: seq<NextResult>, threshold: int64)
    requires forall x :: x in p ==> x.Listed?
    ensures Listing(p + [Failed(err)] + q, threshold) == Failure(IterationFailed(err))
  {
    if p != [] {
      assert (p + [Failed(err)] + q)[1..] == p[1..] + [Failed(err)] + q;
      ListingFailsAt(p[1..], err, q, threshold);
    }
  }

  /**
   * The listings of the façade's tests, each a single `Next` result before
   * end-of-listing: an error fails the call with a message that carries it; an
   * object of 1025 bytes is kept at threshold 1024 with key and size unchanged;
   * an object of 1023 bytes is not.
   */
  lemma ListingExamples()
    ensures Listing([Failed("ran out of objects bro")], 1024) == Failure(IterationFailed("ran out of objects bro"))
    ensures Listing([Listed("boom shakalaka", 1025)], 1024) == Success([Object("boom shakalaka", 1025)])
    ensures Listing([Listed("oh carolina", 1023)], 1024) == Success([])
  {
    assert [Listed("boom shakalaka", 1025)][1..] == [];
    assert [Object("boom shakalaka", 1025)] + [] == [Object("boom shakalaka", 1025)];
    assert [Listed("oh carolina", 1023)][1..] == [];
    var none: seq<Object> := [];
    assert Listing([], 1024) == Success(none) && none + none == none;
  }
}
