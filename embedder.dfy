/**
 * Embedding generation with retry and batching (src/ingestion/embedder.py).
 *
 * The Bedrock `invoke_model` call is the oracle `Service`: given the request and the index of
 * the call among all calls made so far, it yields the outcome of that call. `time.sleep` is not
 * performed; every requested wait is recorded, in seconds, in a `waits` list.
 */
module Embedder {
  import opened Wrappers
  import opened PyText

  /** The fields of the Titan request body that vary: the model and the `inputText`. */
  datatype Request = Request(modelId: string, inputText: string)

  /** What one service call does: return a body (whose `embedding` may be absent), raise a `ClientError`, or raise anything else. */
  datatype Outcome =
    | Returned(embedding: Option<seq<real>>)
    | ClientError(code: string)
    | OtherError(message: string)

  /** The service, from a request and the global index of the call to its outcome. */
  type Service = (Request, nat) -> Outcome

  /** The exception `embed_text` (and so `embed_batch`) raises. */
  datatype EmbedError =
    | ServiceError(code: string)   // a re-raised ClientError
    | MissingEmbedding             // ValueError("No embedding in response")
    | Unexpected(message: string)  // any other exception, re-raised
    | Exhausted(maxRetries: int)   // "Failed to generate embedding after ... attempts"
    | ZeroBatchSize                // range() arg 3 must not be zero

  const Throttling := "ThrottlingException"

  function Pow2(n: nat): (p: nat)
    ensures p >= 1
  {
    if n == 0 then 1 else 2 * Pow2(n - 1)
  }

  /** An embedding Python treats as present: not None and not empty. */
  predicate Usable(e: Option<seq<real>>) {
    e.Some? && e.value != []
  }

  /** The result of a run of attempts, the number of service calls it made and the waits it requested. */
  datatype Run = Run(result: Result<seq<real>, EmbedError>, calls: nat, waits: seq<real>)

  /** The attempts of `embed_text` from attempt number `attempt` on, the first one being global call `call`. */
  function Attempts(svc: Service, req: Request, maxRetries: int, attempt: nat, call: nat): Run
    decreases maxRetries - attempt
  {
    if attempt >= maxRetries then Run(Failure(Exhausted(maxRetries)), 0, [])
    else match svc(req, call)
      case Returned(e) =>
        if Usable(e) then Run(Success(e.value), 1, []) else Run(Failure(MissingEmbedding), 1, [])
      case ClientError(code) =>
        if code == Throttling && attempt < maxRetries - 1 then
          var rest := Attempts(svc, req, maxRetries, attempt + 1, call + 1);
          Run(rest.result, 1 + rest.calls, [Pow2(attempt) as real] + rest.waits)
        else Run(Failure(ServiceError(code)), 1, [])
      case OtherError(m) => Run(Failure(Unexpected(m)), 1, [])
  }

  /** The run `rest` after `calls` calls and the waits `waits` already made. */
  function After(calls: nat, waits: seq<real>, rest: Run): Run {
    Run(rest.result, calls + rest.calls, waits + rest.waits)
  }

  /** `embed_text`. */
  method EmbedText(svc: Service, modelId: string, text: string, maxRetries: int, firstCall: nat)
    returns (r: Result<seq<real>, EmbedError>, calls: nat, waits: seq<real>)
    ensures Run(r, calls, waits) == Attempts(svc, Request(modelId, text), maxRetries, 0, firstCall)
  {
    var req := Request(modelId, text);
    calls, waits := 0, [];
    var attempt := 0;
    assert [] + Attempts(svc, req, maxRetries, 0, firstCall).waits == Attempts(svc, req, maxRetries, 0, firstCall).waits;
    while attempt < maxRetries
      invariant calls == attempt
      invariant Attempts(svc, req, maxRetries, 0, firstCall) == After(calls, waits, Attempts(svc, req, maxRetries, attempt, firstCall + calls))
      decreases maxRetries - attempt
    {
      ghost var rest := Attempts(svc, req, maxRetries, attempt, firstCall + calls);
      var outcome := svc(req, firstCall + calls);
      calls := calls + 1;
      match outcome {
        case Returned(embedding) =>
          if embedding == None || embedding == Some([]) {
            r := Failure(MissingEmbedding);
          } else {
            r := Success(embedding.value);
          }
          assert waits + [] == waits;
          return;
        case ClientError(code) =>
          if code == Throttling && attempt < maxRetries - 1 {
            ghost var next := Attempts(svc, req, maxRetries, attempt + 1, firstCall + calls);
            assert waits + ([Pow2(attempt) as real] + next.waits) == waits + [Pow2(attempt) as real] + next.waits;
            waits := waits + [Pow2(attempt) as real];
          } else {
            r := Failure(ServiceError(code));
            assert waits + [] == waits;
            return;
          }
        case OtherError(m) =>
          r := Failure(Unexpected(m));
          assert waits + [] == waits;
          return;
      }
      attempt := attempt + 1;
    }
    assert waits + [] == waits;
    r := Failure(Exhausted(maxRetries));
  }

  // ---------------------------------------------------------------------------------------
  // Properties of the retry loop

  /** At most `max_retries` calls are made, and at least one whenever an attempt is allowed. */
  lemma {:induction false} CallsBounded(svc: Service, req: Request, maxRetries: int, attempt: nat, call: nat)
    ensures var run := Attempts(svc, req, maxRetries, attempt, call);
      && (attempt < maxRetries ==> 1 <= run.calls <= maxRetries - attempt)
      && (attempt >= maxRetries ==> run.calls == 0)
    decreases maxRetries - attempt
  {
    if attempt < maxRetries && attempt < maxRetries - 1 {
      CallsBounded(svc, req, maxRetries, attempt + 1, call + 1);
    }
  }

  /** The trailing "failed after n attempts" is raised exactly when no attempt is allowed at all. */
  lemma {:induction false} ExhaustedIffNoAttempts(svc: Service, req: Request, maxRetries: int, attempt: nat, call: nat)
    ensures Attempts(svc, req, maxRetries, attempt, call).result.Failure?
        && Attempts(svc, req, maxRetries, attempt, call).result.error.Exhausted?
        <==> attempt >= maxRetries
    decreases maxRetries - attempt
  {
    if attempt < maxRetries - 1 {
      ExhaustedIffNoAttempts(svc, req, maxRetries, attempt + 1, call + 1);
    }
  }

  /**
   * Every call but the last was throttled and was followed by a wait of `2^attempt` seconds;
   * the last call's outcome decides the result.
   */
  lemma {:induction false} RetryTrace(svc: Service, req: Request, maxRetries: int, attempt: nat, call: nat)
    requires attempt < maxRetries
    ensures var run := Attempts(svc, req, maxRetries, attempt, call);
      && run.calls >= 1
      && |run.waits| == run.calls - 1
      && (forall j :: 0 <= j < |run.waits| ==> run.waits[j] == Pow2(attempt + j) as real)
      && (forall c :: call <= c < call + run.calls - 1 ==> Throttled(svc, req, c))
      && Decided(svc(req, call + run.calls - 1), attempt + run.calls - 1 == maxRetries - 1, run.result)
    decreases maxRetries - attempt
  {
    var run := Attempts(svc, req, maxRetries, attempt, call);
    match svc(req, call)
    case ClientError(code) =>
      if code == Throttling && attempt < maxRetries - 1 {
        RetryTrace(svc, req, maxRetries, attempt + 1, call + 1);
        var rest := Attempts(svc, req, maxRetries, attempt + 1, call + 1);
        assert run.waits == [Pow2(attempt) as real] + rest.waits;
        assert Throttled(svc, req, call);
        assert call + run.calls - 1 == (call + 1) + rest.calls - 1;
      }
    case _ =>
  }

  /** Call number `c` for `req` raised a throttling `ClientError`. */
  predicate Throttled(svc: Service, req: Request, c: nat) {
    svc(req, c) == ClientError(Throttling)
  }

  /** How the outcome of the last call determines the result (`final` says whether it was the last allowed attempt). */
  predicate Decided(last: Outcome, final: bool, result: Result<seq<real>, EmbedError>) {
    match last
    case Returned(e) => result == (if Usable(e) then Success(e.value) else Failure(MissingEmbedding))
    case ClientError(code) => (code != Throttling || final) && result == Failure(ServiceError(code))
    case OtherError(m) => result == Failure(Unexpected(m))
  }

  /** Anything but a throttle on a non-final attempt ends the loop after that one call. */
  lemma NoRetryUnlessThrottled(svc: Service, req: Request, maxRetries: int, call: nat)
    requires 0 < maxRetries
    requires svc(req, call) != ClientError(Throttling) || maxRetries == 1
    ensures Attempts(svc, req, maxRetries, 0, call).calls == 1
    ensures Attempts(svc, req, maxRetries, 0, call).waits == []
  {
  }

  /** A throttled service makes `embed_text` wait 1, 2, 4, ... seconds and fail with the throttle after `max_retries` calls. */
  lemma {:induction false} AlwaysThrottled(svc: Service, req: Request, maxRetries: int, attempt: nat, call: nat)
    requires attempt < maxRetries
    requires forall c :: svc(req, c) == ClientError(Throttling)
    ensures Attempts(svc, req, maxRetries, attempt, call).calls == maxRetries - attempt
    ensures Attempts(svc, req, maxRetries, attempt, call).result == Failure(ServiceError(Throttling))
    decreases maxRetries - attempt
  {
    if attempt < maxRetries - 1 {
      AlwaysThrottled(svc, req, maxRetries, attempt + 1, call + 1);
    }
  }

  // ---------------------------------------------------------------------------------------
  // Batches

  /** The default `max_retries` `embed_batch` uses. */
  const DefaultMaxRetries := 3

  /** The seconds `embed_batch` sleeps after each text. */
  const TextDelay: real := 0.1

  /** `embed_text` with the default retries, for text `t`, the first call being global call `c`. */
  function TextRun(svc: Service, modelId: string, t: string, c: nat): Run {
    Attempts(svc, Request(modelId, t), DefaultMaxRetries, 0, c)
  }

  /** A text's `embed_text` run, from the text and the global index of its first call. */
  type TextRuns = (string, nat) -> Run

  /** `embed_text` with the default retries against `svc`, as a function (`EmbedText` computes it). */
  function TextRunsOf(svc: Service, modelId: string): TextRuns {
    (t: string, c: nat) => TextRun(svc, modelId, t, c)
  }

  /** A text's run makes at most three calls, and a successful one yields a non-empty embedding. */
  lemma TextRunFacts(svc: Service, modelId: string, t: string, c: nat)
    ensures TextRun(svc, modelId, t, c).calls <= DefaultMaxRetries
    ensures TextRun(svc, modelId, t, c).result.Success? ==> TextRun(svc, modelId, t, c).result.value != []
  {
    CallsBounded(svc, Request(modelId, t), DefaultMaxRetries, 0, c);
    RetryTrace(svc, Request(modelId, t), DefaultMaxRetries, 0, c);
  }

  /** The outcome of embedding several texts: the embeddings or the first exception, the calls made and the waits requested. */
  datatype BatchRun = BatchRun(result: Result<seq<seq<real>>, EmbedError>, calls: nat, waits: seq<real>)

  /**
   * Embedding `texts[..n]` one after the other, the first call being `call`: the run stops at
   * the first text whose `embed_text` raises, and every successful text is followed by a delay.
   */
  function EmbedPrefix(embed: TextRuns, texts: seq<string>, n: nat, call: nat): BatchRun
    requires n <= |texts|
  {
    if n == 0 then BatchRun(Success([]), 0, [])
    else
      var before := EmbedPrefix(embed, texts, n - 1, call);
      match before.result
      case Failure(_) => before
      case Success(vs) =>
        var one := embed(texts[n - 1], call + before.calls);
        match one.result
        case Failure(e) => BatchRun(Failure(e), before.calls + one.calls, before.waits + one.waits)
        case Success(v) => BatchRun(Success(vs + [v]), before.calls + one.calls, before.waits + one.waits + [TextDelay])
  }

  /** Embedding all of `texts` one after the other with `embed_text`'s default retries. */
  function EmbedAll(svc: Service, modelId: string, texts: seq<string>, call: nat): BatchRun {
    EmbedPrefix(TextRunsOf(svc, modelId), texts, |texts|, call)
  }

  /** Once a text has failed, no later text is embedded and the run's outcome stays that failure. */
  lemma {:induction false} FailureSticks(embed: TextRuns, texts: seq<string>, n: nat, m: nat, call: nat)
    requires n <= m <= |texts|
    requires EmbedPrefix(embed, texts, n, call).result.Failure?
    ensures EmbedPrefix(embed, texts, m, call) == EmbedPrefix(embed, texts, n, call)
    decreases m
  {
    if m > n {
      FailureSticks(embed, texts, n, m - 1, call);
    }
  }

  /** The progress values `min(i + batch_size, total)` logged for `i` in `range(start, total, batch_size)`. */
  function Marks(start: int, total: int, batchSize: int): seq<int>
    requires batchSize > 0
    decreases total - start
  {
    if start >= total then [] else [Min(start + batchSize, total)] + Marks(start + batchSize, total, batchSize)
  }

  lemma MarksStep(start: int, total: int, batchSize: int)
    requires batchSize > 0 && start < total
    ensures Marks(start, total, batchSize) == [Min(start + batchSize, total)] + Marks(start + batchSize, total, batchSize)
  {
  }

  /** Logging the next mark moves it from the marks still to come to the marks already logged. */
  lemma MarksAdvance(logged: seq<int>, start: int, total: int, batchSize: int)
    requires batchSize > 0 && start < total
    requires logged + Marks(start, total, batchSize) == Marks(0, total, batchSize)
    ensures (logged + [Min(start + batchSize, total)]) + Marks(start + batchSize, total, batchSize)
         == Marks(0, total, batchSize)
  {
    MarksStep(start, total, batchSize);
    assert logged + ([Min(start + batchSize, total)] + Marks(start + batchSize, total, batchSize))
        == (logged + [Min(start + batchSize, total)]) + Marks(start + batchSize, total, batchSize);
  }

  /** The logged progress is non-decreasing, never exceeds `total`, and ends at `total`. */
  lemma {:induction false} MarksFacts(start: int, total: int, batchSize: int)
    requires batchSize > 0
    ensures var m := Marks(start, total, batchSize);
      && (forall k :: 0 <= k < |m| ==> start < m[k] <= total && m[k] == Min(start + (k + 1) * batchSize, total))
      && (forall k, l :: 0 <= k < l < |m| ==> m[k] <= m[l])
      && (start < total ==> m != [] && m[|m| - 1] == total)
    decreases total - start
  {
    if start < total {
      var rest := Marks(start + batchSize, total, batchSize);
      MarksFacts(start + batchSize, total, batchSize);
      var m := Marks(start, total, batchSize);
      forall k | 0 < k < |m| ensures m[k] == Min(start + (k + 1) * batchSize, total) {
        assert m[k] == rest[k - 1];
        assert start + batchSize + k * batchSize == start + (k + 1) * batchSize;
      }
      if rest == [] {
        assert start + batchSize >= total;
      }
    }
  }

  /** One more text: its run either fails the whole prefix or appends its embedding and a delay. */
  lemma EmbedPrefixStep(embed: TextRuns, texts: seq<string>, n: nat, call: nat,
                        vs: seq<seq<real>>, c: nat, w: seq<real>, one: Run)
    requires n < |texts| && EmbedPrefix(embed, texts, n, call) == BatchRun(Success(vs), c, w)
    requires one == embed(texts[n], call + c)
    ensures one.result.Failure? ==>
      EmbedPrefix(embed, texts, n + 1, call) == BatchRun(Failure(one.result.error), c + one.calls, w + one.waits)
    ensures one.result.Success? ==>
      EmbedPrefix(embed, texts, n + 1, call) == BatchRun(Success(vs + [one.result.value]), c + one.calls, w + one.waits + [TextDelay])
  {
  }

  /** A text whose run succeeds extends the prefix by its embedding, its calls, its waits and a delay. */
  lemma PrefixGrows(embed: TextRuns, texts: seq<string>, n: nat, call: nat,
                    done: seq<seq<real>>, more: seq<seq<real>>, c: nat, w: seq<real>, one: Run)
    requires n < |texts| && EmbedPrefix(embed, texts, n, call) == BatchRun(Success(done + more), c, w)
    requires one == embed(texts[n], call + c) && one.result.Success?
    ensures EmbedPrefix(embed, texts, n + 1, call)
         == BatchRun(Success(done + (more + [one.result.value])), c + one.calls, w + one.waits + [TextDelay])
  {
    EmbedPrefixStep(embed, texts, n, call, done + more, c, w, one);
    assert done + more + [one.result.value] == done + (more + [one.result.value]);
  }

  /** A text whose run fails decides the outcome of the whole sequence. */
  lemma PrefixFails(embed: TextRuns, texts: seq<string>, n: nat, call: nat,
                    vs: seq<seq<real>>, c: nat, w: seq<real>, one: Run)
    requires n < |texts| && EmbedPrefix(embed, texts, n, call) == BatchRun(Success(vs), c, w)
    requires one == embed(texts[n], call + c) && one.result.Failure?
    ensures EmbedPrefix(embed, texts, |texts|, call) == BatchRun(Failure(one.result.error), c + one.calls, w + one.waits)
  {
    EmbedPrefixStep(embed, texts, n, call, vs, c, w, one);
    FailureSticks(embed, texts, n + 1, |texts|, call);
  }


  /**
   * The inner loop of `embed_batch` over the slice `texts[lo..hi]`: each text is embedded by
   * `embed` (`embed_text` with its default retries) and followed by a delay. `done`, `calls0`
   * and `waits0` are the embeddings, calls and waits of the texts before `lo`.
   */
  method EmbedSlice(embed: TextRuns, texts: seq<string>, lo: nat, hi: nat, firstCall: nat,
                    ghost done: seq<seq<real>>, calls0: nat, waits0: seq<real>)
    returns (r: Result<seq<seq<real>>, EmbedError>, calls: nat, waits: seq<real>)
    requires lo <= hi <= |texts|
    requires EmbedPrefix(embed, texts, lo, firstCall) == BatchRun(Success(done), calls0, waits0)
    ensures r.Success? ==>
      |r.value| == hi - lo && EmbedPrefix(embed, texts, hi, firstCall) == BatchRun(Success(done + r.value), calls, waits)
    ensures r.Failure? ==> EmbedPrefix(embed, texts, |texts|, firstCall) == BatchRun(Failure(r.error), calls, waits)
  {
    var batchEmbeddings: seq<seq<real>> := [];
    calls, waits := calls0, waits0;
    assert done + [] == done;
    for i := lo to hi
      invariant |batchEmbeddings| == i - lo
      invariant EmbedPrefix(embed, texts, i, firstCall) == BatchRun(Success(done + batchEmbeddings), calls, waits)
    {
      var one := embed(texts[i], firstCall + calls);
      if one.result.Failure? {
        PrefixFails(embed, texts, i, firstCall, done + batchEmbeddings, calls, waits, one);
        return Failure(one.result.error), calls + one.calls, waits + one.waits;
      }
      PrefixGrows(embed, texts, i, firstCall, done, batchEmbeddings, calls, waits, one);
      batchEmbeddings := batchEmbeddings + [one.result.value];
      calls := calls + one.calls;
      waits := waits + one.waits + [TextDelay];
    }
    r := Success(batchEmbeddings);
  }

  /**
   * `embed_batch`: the texts in slices of `batch_size`, each embedded by `embed` and followed
   * by a 0.1 s delay; `progress` is the list of values logged. For any positive batch size the
   * outcome is that of embedding the texts one after the other.
   */
  method EmbedBatch(embed: TextRuns, texts: seq<string>, batchSize: int, showProgress: bool, firstCall: nat)
    returns (r: Result<seq<seq<real>>, EmbedError>, calls: nat, waits: seq<real>, progress: seq<int>)
    ensures batchSize == 0 ==> r == Failure(ZeroBatchSize) && calls == 0
    ensures batchSize < 0 ==> r == Success([]) && calls == 0 && progress == []
    ensures batchSize > 0 ==> BatchRun(r, calls, waits) == EmbedPrefix(embed, texts, |texts|, firstCall)
    ensures batchSize > 0 && r.Success? ==> progress == if showProgress then Marks(0, |texts|, batchSize) else []
  {
    var embeddings: seq<seq<real>> := [];
    var total := |texts|;
    calls, waits, progress := 0, [], [];
    if batchSize == 0 {
      return Failure(ZeroBatchSize), calls, waits, progress;
    }
    if batchSize < 0 {
      // `range(0, total, batch_size)` is empty for a negative step.
      return Success([]), calls, waits, progress;
    }
    assert progress + Marks(0, total, batchSize) == Marks(0, total, batchSize);
    var i := 0;
    while i < total
      invariant 0 <= i
      invariant EmbedPrefix(embed, texts, Min(i, total), firstCall) == BatchRun(Success(embeddings), calls, waits)
      invariant showProgress ==> progress + Marks(i, total, batchSize) == Marks(0, total, batchSize)
      invariant !showProgress ==> progress == []
      decreases total - i
    {
      var batchEmbeddings;
      batchEmbeddings, calls, waits := EmbedSlice(embed, texts, i, Min(i + batchSize, total), firstCall, embeddings, calls, waits);
      if batchEmbeddings.Failure? {
        return Failure(batchEmbeddings.error), calls, waits, progress;
      }
      embeddings := embeddings + batchEmbeddings.value;
      if showProgress {
        MarksAdvance(progress, i, total, batchSize);
        progress := progress + [Min(i + batchSize, total)];
      }
      i := i + batchSize;
    }
    assert progress + [] == progress;
    r := Success(embeddings);
  }

  /** `v` is what some run of `embed` for `text` (from some first call) yields. */
  ghost predicate ProducedBy(embed: TextRuns, text: string, v: seq<real>) {
    exists c: nat :: embed(text, c).result == Success(v)
  }

  /**
   * A sequential run of a runner that makes at most three calls per text makes at most three
   * calls per text; when it succeeds it yields one embedding per text, embedding `k` being
   * what a run for text `k` produced.
   */
  lemma {:induction false} EmbedPrefixFacts(embed: TextRuns, texts: seq<string>, n: nat, call: nat)
    requires n <= |texts|
    requires forall t, c :: embed(t, c).calls <= DefaultMaxRetries
    ensures EmbedPrefix(embed, texts, n, call).calls <= DefaultMaxRetries * n
    ensures EmbedPrefix(embed, texts, n, call).result.Success? ==>
      var vs := EmbedPrefix(embed, texts, n, call).result.value;
      |vs| == n && forall k :: 0 <= k < n ==> ProducedBy(embed, texts[k], vs[k])
  {
    if n > 0 {
      EmbedPrefixFacts(embed, texts, n - 1, call);
      var before := EmbedPrefix(embed, texts, n - 1, call);
      if before.result.Success? {
        var one := embed(texts[n - 1], call + before.calls);
        if one.result.Success? {
          var vs := before.result.value + [one.result.value];
          assert EmbedPrefix(embed, texts, n, call).result.value == vs;
          forall k | 0 <= k < n ensures ProducedBy(embed, texts[k], vs[k]) {
            if k == n - 1 {
              assert embed(texts[k], call + before.calls).result == Success(vs[k]);
            } else {
              assert vs[k] == before.result.value[k];
            }
          }
        }
      }
    }
  }

  /** `embed_batch` yields one non-empty embedding per text, in input order, with at most three calls per text. */
  lemma EmbedAllInOrder(svc: Service, modelId: string, texts: seq<string>, call: nat)
    requires EmbedAll(svc, modelId, texts, call).result.Success?
    ensures var vs := EmbedAll(svc, modelId, texts, call).result.value;
      && |vs| == |texts|
      && forall k :: 0 <= k < |texts| ==> vs[k] != [] && ProducedBy(TextRunsOf(svc, modelId), texts[k], vs[k])
    ensures EmbedAll(svc, modelId, texts, call).calls <= DefaultMaxRetries * |texts|
  {
    var embed := TextRunsOf(svc, modelId);
    forall t, c ensures embed(t, c).calls <= DefaultMaxRetries {
      TextRunFacts(svc, modelId, t, c);
    }
    EmbedPrefixFacts(embed, texts, |texts|, call);
    var vs := EmbedAll(svc, modelId, texts, call).result.value;
    forall k | 0 <= k < |texts| ensures vs[k] != [] {
      assert ProducedBy(embed, texts[k], vs[k]);
      var c: nat :| embed(texts[k], c).result == Success(vs[k]);
      TextRunFacts(svc, modelId, texts[k], c);
    }
  }

  // ---------------------------------------------------------------------------------------
  // Chunks

  /** A chunk dictionary: `text`, `metadata` and, once embedded, `embedding`. */
  datatype ChunkDict = ChunkDict(text: string, metadata: map<string, string>, embedding: Option<seq<real>>)

  /** `[chunk['text'] for chunk in chunks]`. */
  function Texts(cs: seq<ChunkDict>): (ts: seq<string>)
    ensures |ts| == |cs| && forall i :: 0 <= i < |cs| ==> ts[i] == cs[i].text
  {
    seq(|cs|, i requires 0 <= i < |cs| => cs[i].text)
  }

  /** Each of the first `min(|cs|, |vs|)` chunks gets the embedding at its position (Python's `zip`). */
  function Attach(cs: seq<ChunkDict>, vs: seq<seq<real>>): (r: seq<ChunkDict>)
    ensures |r| == |cs|
  {
    seq(|cs|, i requires 0 <= i < |cs| => if i < |vs| then cs[i].(embedding := Some(vs[i])) else cs[i])
  }

  /** The loop of `embed_chunks` that sets `chunk['embedding']` for each chunk that received one. */
  method StoreEmbeddings(chunks: array<ChunkDict>, vs: seq<seq<real>>)
    modifies chunks
    ensures chunks[..] == Attach(old(chunks[..]), vs)
  {
    ghost var before := chunks[..];
    var n := Min(chunks.Length, |vs|);
    for i := 0 to n
      invariant forall k :: 0 <= k < i ==> chunks[k] == before[k].(embedding := Some(vs[k]))
      invariant forall k :: i <= k < chunks.Length ==> chunks[k] == before[k]
    {
      chunks[i] := chunks[i].(embedding := Some(vs[i]));
    }
    assert chunks[..] == Attach(before, vs);
  }

  /** `embed_chunks`: embeds the chunks' texts and stores each embedding in its chunk, in place. */
  method EmbedChunks(svc: Service, modelId: string, chunks: array<ChunkDict>, batchSize: int, firstCall: nat)
    returns (r: Result<array<ChunkDict>, EmbedError>, calls: nat, waits: seq<real>)
    modifies chunks
    ensures batchSize == 0 ==> r == Failure(ZeroBatchSize) && chunks[..] == old(chunks[..])
    ensures batchSize < 0 ==> r == Success(chunks) && chunks[..] == old(chunks[..])
    ensures batchSize > 0 ==>
      var run := EmbedAll(svc, modelId, Texts(old(chunks[..])), firstCall);
      && calls == run.calls && waits == run.waits
      && match run.result
         case Failure(e) => r == Failure(e) && chunks[..] == old(chunks[..])
         case Success(vs) => r == Success(chunks) && chunks[..] == Attach(old(chunks[..]), vs)
  {
    var texts := Texts(chunks[..]);
    var embeddings, progress;
    embeddings, calls, waits, progress := EmbedBatch(TextRunsOf(svc, modelId), texts, batchSize, true, firstCall);
    if embeddings.Failure? {
      return Failure(embeddings.error), calls, waits;
    }
    StoreEmbeddings(chunks, embeddings.value);
    r := Success(chunks);
  }
}
