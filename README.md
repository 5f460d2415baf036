# somebytes in Dafny

A model of the two packages at the heart of `somebytes`, a tool that fills a
cloud storage bucket with objects of random Lorem ipsum text and lists the
objects at or above a size threshold.

- `loremipsum.dfy` (module `LoremIpsum`) models `internal/loremipsum`: the
  canonical Lorem ipsum phrase, its rune slice, the one-million character
  limit, and `RandomCharacters`. That function writes randomly chosen runes
  of the phrase to a byte builder while the iteration count stays below a
  bound that is drawn again before every iteration, and returns the builder's
  UTF-8 bytes. The two `rand.Intn` draws are oracles: `bound(c)` and
  `index(c)` are the values drawn before and during iteration `c`, each in
  the range `rand.Intn` promises. The spec function `Length(bound)` is the
  first iteration count that reaches its own bound draw. `Drawn(index, n)`
  is the runes picked. `Utf8` gives the bytes of a run of runes written one
  after another, built from a verified rune encoder.
- `blobber.dfy` (module `Blobber`) models `internal/blobber`: the error
  texts, the `somebytes-<n>.txt` keys, the façade constructor `New`,
  `CreateObjects` and `ListObjects`. The bucket, its writers, its list
  iterator and the generator are scripted collaborators, like the test
  doubles next to the Go code. `CreateObjects` returns the error and, as a
  ghost, the sequence of calls it made on its collaborators. It is proved
  equal to the spec functions `Outcome` and `Calls` over the per-iteration
  function `Iteration`. `ListObjects` drains a fresh iterator in a loop and
  is proved equal to the recursive spec function `Listing`.
- `wrappers.dfy` holds `Option`/`Result`. `primitives.dfy` holds the
  `byte` and `int64` ranges.

The façade is a datatype because the Go struct's fields never change after
`New`. The writer and the list iterator are classes with mutable state, and
the façade's methods allocate them fresh.

Where the Go code reads differently from its comments or tests, the model
follows the code:
- the comment at `loremipsum.go:29` reads as if the loop ran up to one
  random length drawn once. The condition on line 30 draws a new bound before
  every iteration, so the loop stops at the first `c` whose draw is at most
  `c` (see `LengthIsFirstStop`);
- the comment at `blobber.go:124` says `ListObjects` keeps objects greater
  than the threshold, but line 140 keeps those *at least* the threshold (`>=`);
- `loremipsum_test.go` refers to `Chars` and `Phrase`, but the package
  declares the lower-case `chars` and `phrase`. The model names them
  `Chars` and `Phrase` and proves the tests' two claims, `CharsLength` and
  `PhraseContainsLoremIpsum`.

## Model

| member | source | states |
|---|---|---|
| LoremIpsum.CharsLength | internal/loremipsum/loremipsum.go:12-19 | the rune slice of the phrase has 447 runes and starts and ends with the newline the raw literal keeps |
| LoremIpsum.PhraseContainsLoremIpsum | internal/loremipsum/loremipsum_test.go:16-20 | the phrase contains "Lorem ipsum" |
| LoremIpsum.CharsAreAscii | internal/loremipsum/loremipsum.go:21-24 | every rune of the phrase is ASCII, so there is no multi-byte character in it |
| LoremIpsum.EncodeRune | internal/loremipsum/loremipsum.go:31 | the bytes `WriteRune` appends are 1 to 4 bytes; the lead byte announces the length and the other bytes are continuation bytes; they decode back to the rune; exactly the ASCII runes take one byte; the length is the shortest form: 2 bytes below U+0800, 3 below U+10000, 4 above |
| LoremIpsum.Utf8 | internal/loremipsum/loremipsum.go:38 | the bytes of a string are between one and four per rune; an ASCII string converts byte for byte |
| LoremIpsum.StopFrom | internal/loremipsum/loremipsum.go:30 | counted from iteration `c`, the loop stops at some `n` below one million whose bound draw is at most `n`, and every iteration before `n` had a draw above its count |
| LoremIpsum.LengthIsFirstStop | internal/loremipsum/loremipsum.go:29-30 | the output length is the first count not below its bound draw, and no other number |
| LoremIpsum.EmptyOnlyOnZeroDraw | internal/loremipsum/loremipsum.go:30 | the output is empty exactly when the first bound draw is 0 |
| LoremIpsum.DrawnStep | internal/loremipsum/loremipsum.go:31 | iteration `n` appends the rune `chars[index(n)]` after those of the earlier iterations |
| LoremIpsum.DrawnBytes | internal/loremipsum/loremipsum.go:31-38 | the output has one byte per drawn rune, and byte `c` is the rune picked in iteration `c` |
| LoremIpsum.RandomCharacters | internal/loremipsum/loremipsum.go:25-39 | the builder grows by the encoding of each rune drawn; the bytes returned are the UTF-8 encoding of the runes drawn over `Length(bound)` iterations, fewer than one million |
| Blobber.Message | internal/blobber/blobber.go:67-137 | a wrapped error's text ends with the collaborator's error text |
| Blobber.WrapInjective | internal/blobber/blobber.go:91 | wrapping the same message around two causes gives the same text only for the same cause |
| Blobber.MessageInjective | internal/blobber/blobber.go:67-137 | distinct errors have distinct texts: the text identifies both the failing step and its cause |
| Blobber.Decimal | internal/blobber/blobber.go:87 | `%v` of a number is a non-empty run of digits with no leading zero |
| Blobber.DecimalRoundTrip | internal/blobber/blobber.go:87 | reading the digits back gives the number |
| Blobber.KeyFormat | internal/blobber/blobber.go:87 | a key is `somebytes-` + digits + `.txt`, and the digits read back as the random integer drawn |
| Blobber.KeyInjective | internal/blobber/blobber.go:87 | different draws give different keys |
| Blobber.New | internal/blobber/blobber.go:65-76 | construction succeeds exactly when generator and bucket are both present; a missing generator is reported first, then a missing bucket; the façade keeps both |
| Blobber.Bucket.NewWriter | internal/blobber/blobber.go:15-17 | the `k`-th writer request returns the scripted error, or a fresh open writer for the key with the scripted answers and no calls made on it yet |
| Blobber.Bucket.List | internal/blobber/blobber.go:20-22 | listing returns a fresh iterator at the start of the listing |
| Blobber.Writer.Write | internal/blobber/blobber_test.go:26-28 | an open writer answers a write with its scripted byte count and error, stays open, and records the write of that payload under its key |
| Blobber.Writer.Close | internal/blobber/blobber_test.go:30-32 | closing an open writer closes it, records the close, and returns the scripted error |
| Blobber.ListIterator.Next | internal/blobber/blobber_test.go:48-55 | `Next` returns the scripted results in order, then end-of-listing for ever |
| Blobber.IterationShape | internal/blobber/blobber.go:89-110 | an iteration makes a prefix of the four calls (writer, generate, write, close), as long as the failing step or all four; it succeeds exactly when every step does and the byte count matches; it closes the writer exactly when it succeeds or the close fails; it reports a wrong byte count exactly when the write succeeded with a different count; a refused writer, a failed generator, a failed write and a failed close each give their own error carrying the collaborator's cause |
| Blobber.Blobber.Store | internal/blobber/blobber.go:87-110 | one loop body, run against the scripted collaborators, makes the calls and returns the error of `Iteration`; it fails exactly when the iteration's scripts make it fail; its last call is a close exactly when the error is a close failure; it holds a writer exactly when the bucket grants one, and then the calls recorded on that writer are the write and close events after the first two, so the writer ends closed exactly on success or a close failure |
| Blobber.Blobber.LoopStep | internal/blobber/blobber.go:86-111 | iteration `i` reports no error exactly when its collaborators' scripts let every step succeed |
| Blobber.Advance | internal/blobber/blobber.go:86-111 | after `i` successful iterations, a failing iteration ends the run with its calls and its error, and a successful one appends its calls and leaves the result to the rest |
| Blobber.RunThrough | internal/blobber/blobber.go:86-111 | successful iterations contribute their calls, in order, and nothing else |
| Blobber.RunSucceedsOnlyIfAll | internal/blobber/blobber.go:86-113 | a run returns nil only if every iteration in it succeeded |
| Blobber.Blobber.AllSucceed | internal/blobber/blobber.go:86-111 | all iterations up to `k` succeed exactly when none of them reports an error |
| Blobber.Blobber.SucceedsIffAll | internal/blobber/blobber.go:82-114 | `CreateObjects` returns nil exactly when all `limit` iterations succeed (for `limit <= 0`, always) |
| Blobber.Blobber.CompletedLayout | internal/blobber/blobber.go:86-111 | successful iterations make exactly four calls each: a writer for the iteration's key, the generator, a write of the generated payload under that key, a close |
| Blobber.Blobber.CreateSucceeds | internal/blobber/blobber.go:82-114 | on success, `CreateObjects` made 4·limit calls, block `j` being the full pipeline for key `j` and payload `j` |
| Blobber.Blobber.CreateFailsAt | internal/blobber/blobber.go:86-111 | when iteration `k` is the first to fail, the result is its error and the calls are the `k` whole pipelines before it plus the steps of iteration `k` up to the failing one; no later iteration starts |
| Blobber.Blobber.CreateObjects | internal/blobber/blobber.go:82-114 | the loop returns exactly `Outcome` and makes exactly the calls `Calls` of the iterations up to `limit` |
| Blobber.CreateObjectsExamples | internal/blobber/blobber_test.go:57-133 | the tests' scenarios: limit 0 returns nil; with limit 2, a refused writer, a failing generator, a failing write, a short write and a failing close each end the call with the error that carries their text |
| Blobber.Listing | internal/blobber/blobber.go:126-146 | draining a listing keeps only objects at or above the threshold; a failure is always the wrapped iteration error |
| Blobber.ListingStep | internal/blobber/blobber.go:129-143 | reading one more object moves it, when kept, from the rest of the listing to the end of the collected objects |
| Blobber.Blobber.ListObjects | internal/blobber/blobber.go:126-146 | the loop over `Next` returns exactly `Listing` of the bucket's listing: kept objects at or above the threshold, or the wrapped iteration error |
| Blobber.KeepAppend | internal/blobber/blobber.go:140-142 | filtering distributes over concatenation, so the listing order is kept |
| Blobber.KeepMembers | internal/blobber/blobber.go:140-141 | an object is returned exactly when it was listed with that key and size and reaches the threshold |
| Blobber.ListingKeeps | internal/blobber/blobber.go:126-146 | a listing of objects only, ending at end-of-listing or running out, yields exactly the filtered objects |
| Blobber.ListingStopsAtEof | internal/blobber/blobber.go:132-134 | nothing after the first end-of-listing is read |
| Blobber.ListingFailsAt | internal/blobber/blobber.go:136-138 | an iteration error discards every object collected before it |
| Blobber.ListingExamples | internal/blobber/blobber_test.go:157-213 | the tests' listings: an error on `Next` fails with that error; 1025 bytes at threshold 1024 is kept with key and size unchanged; 1023 bytes is not |

## Left out

- `rand.Seed(time.Now().UnixNano())` and the PRNG itself: every random value is an oracle parameter (`keys`, `bound`, `index`). So the model says nothing about distributions, and key uniqueness is not modelled. `KeyInjective` only shows that different draws give different keys.
- `context.Context`, cancellation and the network: the collaborators answer as scripted and never block.
- `blobBucketContainer` and the public `BlobBucket` interface (`blobber.go:35-54`): they only pass calls through to gocloud's `*blob.Bucket`, and gocloud is not part of this model.
- `LoremIpsum.RandomCharacters`: the `WriteRune` error branch (`loremipsum.go:32-34`) is not modelled. `strings.Builder.WriteRune` never returns an error, so the method returns only the bytes.
- `Blobber.Bucket.NewWriter`: a Go writer request can return a nil writer with a nil error, and the model never does. Only a failing generator follows such a writer in the tests, so the nil writer is never used.
- `Blobber.ListIterator.Next`: a Go `Next` can return a nil object with a nil error, which would crash on `obj.Size`. The model has no such result.
- The scripts are indexed per façade call. Two calls of `CreateObjects` or `ListObjects` on the same façade see the same scripts from the start, where a real bucket keeps its state between calls.
- `Blobber.Blobber.CreateObjects`: `limit` is an unbounded `int`. Go's `int` is 64 bits, but `i` never exceeds `limit`, so no wrap-around can occur. `threshold` is an `int64` because the code converts it with `int64(threshold)`.
- The command-line front ends (`cmd/`, `somebytes.go`) are not part of this model.
