/**
 * The command-line ingestion script: an environment check that throws, then,
 * inside one try block, reading the data file, splitting it, and uploading every
 * chunk in order with a progress report, a per-chunk error report that does not
 * stop the loop, and a delay after each chunk.
 *
 * The file system, the splitter and the vector store are oracles. What the
 * script does is reported as a log of `Event`s: the external calls it makes and
 * the lines it reports, in order.
 */
module IngestScript {
  import opened Wrappers
  import opened Runtime

  /** What `fs.readFileSync` gives: the text, or an error with its `code`. */
  datatype ReadOutcome = Read(text: string) | ReadFailed(code: string, message: string)

  datatype Event =
    | ReadFile(path: string)
    | SplitText(chunkSize: nat, chunkOverlap: nat)
    | Progress(current: nat, total: nat, percent: nat)
    | AddDocument(chunk: string)
    | ChunkError(index: nat, message: string)
    | Sleep(ms: nat)
    | Complete
    | FileNotFound(path: string)
    | FatalError(message: string)

  /** The data file, relative to the working directory. */
  const DataFilePath := "data/finance_data.txt"
  const ChunkSize: nat := 1000
  const ChunkOverlap: nat := 200
  const UploadDelayMs: nat := 1000
  const MissingEnv :=
    "Missing environment variables: Check SUPABASE_URL, SUPABASE_PRIVATE_KEY, and GOOGLE_API_KEY."

  /** The Supabase and Google variables are all set. */
  predicate EnvReady(env: Env)
  {
    Present(env.supabaseUrl) && Present(env.supabasePrivateKey) && Present(env.googleApiKey)
  }

  /** `Math.round(((i + 1) / n) * 100)`, on exact rationals. */
  function ProgressPercent(i: nat, n: nat): nat
    requires i < n
  {
    RoundRatio((i + 1) * 100, n)
  }

  /** What one iteration of the upload loop does for chunk `i`. */
  function ChunkSteps(docs: seq<string>, add: (nat, string) -> Attempt, i: nat): seq<Event>
    requires i < |docs|
  {
    var outcome := add(i, docs[i]);
    [Progress(i + 1, |docs|, ProgressPercent(i, |docs|)), AddDocument(docs[i])]
    + (if outcome.Threw? then [ChunkError(i, outcome.message)] else [])
    + [Sleep(UploadDelayMs)]
  }

  /** What the first `upto` iterations of the upload loop do. */
  function ChunkTrace(docs: seq<string>, add: (nat, string) -> Attempt, upto: nat): seq<Event>
    requires upto <= |docs|
  {
    if upto == 0 then [] else ChunkTrace(docs, add, upto - 1) + ChunkSteps(docs, add, upto - 1)
  }

  /** `runIngestion()`: `Failure` when it throws, otherwise the log of what it did. */
  method RunIngestion(
    env: Env,
    read: string -> ReadOutcome,
    split: (string, nat, nat) -> Result<seq<string>>,
    add: (nat, string) -> Attempt)
    returns (outcome: Result<seq<Event>>)
    ensures !EnvReady(env) ==> outcome == Failure(MissingEnv)
    ensures EnvReady(env) ==> outcome.Success?
    ensures EnvReady(env) && outcome.Success? ==>
      var log := outcome.value;
      match read(DataFilePath)
      case ReadFailed(code, message) =>
        log == [ReadFile(DataFilePath),
                if code == "ENOENT" then FileNotFound(DataFilePath) else FatalError(message)]
      case Read(text) =>
        match split(text, ChunkSize, ChunkOverlap)
        case Failure(e) => log == [ReadFile(DataFilePath), SplitText(ChunkSize, ChunkOverlap), FatalError(e)]
        case Success(docs) =>
          log == [ReadFile(DataFilePath), SplitText(ChunkSize, ChunkOverlap)]
                 + ChunkTrace(docs, add, |docs|) + [Complete]
  {
    if !Present(env.supabaseUrl) || !Present(env.supabasePrivateKey) || !Present(env.googleApiKey) {
      return Failure(MissingEnv);
    }

    var log := [ReadFile(DataFilePath)];
    var file := read(DataFilePath);
    if file.ReadFailed? {
      if file.code == "ENOENT" {
        log := log + [FileNotFound(DataFilePath)];
      } else {
        log := log + [FatalError(file.message)];
      }
      return Success(log);
    }

    log := log + [SplitText(ChunkSize, ChunkOverlap)];
    var splitResult := split(file.text, ChunkSize, ChunkOverlap);
    if splitResult.Failure? {
      log := log + [FatalError(splitResult.error)];
      return Success(log);
    }
    var docs := splitResult.value;
    ghost var head := log;

    for i := 0 to |docs|
      invariant log == head + ChunkTrace(docs, add, i)
    {
      ghost var before := log;
      var doc := docs[i];
      var progress := RoundRatio((i + 1) * 100, |docs|);
      log := log + [Progress(i + 1, |docs|, progress)];

      log := log + [AddDocument(doc)];
      var attempt := add(i, doc);
      if attempt.Threw? {
        log := log + [ChunkError(i, attempt.message)];
      }

      log := log + [Sleep(UploadDelayMs)];
      assert log == before + ChunkSteps(docs, add, i);
    }

    log := log + [Complete];
    return Success(log);
  }

  // ---------------------------------------------------------------------------
  // Projections of a log
  // ---------------------------------------------------------------------------

  /** What each event of `log` contributes under `f`, in log order. */
  function Collect<T>(log: seq<Event>, f: Event -> seq<T>): seq<T>
  {
    if log == [] then [] else Collect(log[..|log| - 1], f) + f(log[|log| - 1])
  }

  /** A chunk handed to the store. */
  function AttemptOf(e: Event): seq<string>
  {
    if e.AddDocument? then [e.chunk] else []
  }

  /** A chunk index reported as failed. */
  function FailureOf(e: Event): seq<nat>
  {
    if e.ChunkError? then [e.index] else []
  }

  /** A delay, in milliseconds. */
  function DelayOf(e: Event): seq<nat>
  {
    if e.Sleep? then [e.ms] else []
  }

  /** A reported percentage. */
  function PercentOf(e: Event): seq<nat>
  {
    if e.Progress? then [e.percent] else []
  }

  /** The indices among the first `upto` whose upload throws, in increasing order. */
  function FailedIndices(docs: seq<string>, add: (nat, string) -> Attempt, upto: nat): seq<nat>
    requires upto <= |docs|
  {
    if upto == 0 then []
    else FailedIndices(docs, add, upto - 1) + (if add(upto - 1, docs[upto - 1]).Threw? then [upto - 1] else [])
  }

  lemma {:induction false} CollectAppend<T>(a: seq<Event>, b: seq<Event>, f: Event -> seq<T>)
    ensures Collect(a + b, f) == Collect(a, f) + Collect(b, f)
    decreases |b|
  {
    if b == [] {
      assert a + b == a;
    } else {
      var init := b[..|b| - 1];
      CollectAppend(a, init, f);
      assert (a + b)[..|a + b| - 1] == a + init;
      assert (a + b)[|a + b| - 1] == b[|b| - 1];
    }
  }

  /** One iteration contributes its events' projections in order. */
  lemma CollectSteps<T>(docs: seq<string>, add: (nat, string) -> Attempt, i: nat, f: Event -> seq<T>)
    requires i < |docs|
    ensures var outcome := add(i, docs[i]);
      Collect(ChunkSteps(docs, add, i), f)
      == f(Progress(i + 1, |docs|, ProgressPercent(i, |docs|))) + f(AddDocument(docs[i]))
         + (if outcome.Threw? then f(ChunkError(i, outcome.message)) else []) + f(Sleep(UploadDelayMs))
  {
    var p := Progress(i + 1, |docs|, ProgressPercent(i, |docs|));
    var u := AddDocument(docs[i]);
    var w := Sleep(UploadDelayMs);
    var o := add(i, docs[i]);
    CollectAppend([p], [u], f);
    if o.Threw? {
      var e := ChunkError(i, o.message);
      CollectAppend([p, u], [e], f);
      CollectAppend([p, u, e], [w], f);
      assert ChunkSteps(docs, add, i) == [p, u, e] + [w];
    } else {
      CollectAppend([p, u], [w], f);
      assert ChunkSteps(docs, add, i) == [p, u] + [w];
    }
  }

  /** The first `upto` iterations contribute those of the first `upto - 1`, then those of the last. */
  lemma CollectTrace<T>(docs: seq<string>, add: (nat, string) -> Attempt, upto: nat, f: Event -> seq<T>)
    requires 0 < upto <= |docs|
    ensures Collect(ChunkTrace(docs, add, upto), f)
         == Collect(ChunkTrace(docs, add, upto - 1), f) + Collect(ChunkSteps(docs, add, upto - 1), f)
  {
    CollectAppend(ChunkTrace(docs, add, upto - 1), ChunkSteps(docs, add, upto - 1), f);
  }

  /**
   * Over the first `upto` iterations, each chunk is handed to the store exactly
   * once, in index order, whatever failed before it.
   */
  lemma {:induction false} ChunkTraceAttempts(docs: seq<string>, add: (nat, string) -> Attempt, upto: nat)
    requires upto <= |docs|
    ensures Collect(ChunkTrace(docs, add, upto), AttemptOf) == docs[..upto]
  {
    if upto > 0 {
      ChunkTraceAttempts(docs, add, upto - 1);
      CollectTrace(docs, add, upto, AttemptOf);
      CollectSteps(docs, add, upto - 1, AttemptOf);
      assert docs[..upto - 1] + [docs[upto - 1]] == docs[..upto];
    }
  }

  /** Over the first `upto` iterations, exactly the chunks whose upload threw are reported, by index. */
  lemma {:induction false} ChunkTraceFailures(docs: seq<string>, add: (nat, string) -> Attempt, upto: nat)
    requires upto <= |docs|
    ensures Collect(ChunkTrace(docs, add, upto), FailureOf) == FailedIndices(docs, add, upto)
  {
    if upto > 0 {
      var i := upto - 1;
      ChunkTraceFailures(docs, add, i);
      CollectTrace(docs, add, upto, FailureOf);
      CollectSteps(docs, add, i, FailureOf);
      var o := add(i, docs[i]);
      assert FailureOf(Progress(i + 1, |docs|, ProgressPercent(i, |docs|))) == [];
      assert FailureOf(AddDocument(docs[i])) == [] && FailureOf(Sleep(UploadDelayMs)) == [];
      if o.Threw? {
        assert Collect(ChunkSteps(docs, add, i), FailureOf) == [i];
      } else {
        assert Collect(ChunkSteps(docs, add, i), FailureOf) == [];
      }
    }
  }

  /** Over the first `upto` iterations, one delay of `UploadDelayMs` follows every chunk. */
  lemma {:induction false} ChunkTraceDelays(docs: seq<string>, add: (nat, string) -> Attempt, upto: nat)
    requires upto <= |docs|
    ensures Collect(ChunkTrace(docs, add, upto), DelayOf) == seq(upto, _ => UploadDelayMs)
  {
    if upto > 0 {
      ChunkTraceDelays(docs, add, upto - 1);
      CollectTrace(docs, add, upto, DelayOf);
      CollectSteps(docs, add, upto - 1, DelayOf);
    }
  }

  /** The `i`-th reported percentage is that of chunk `i`. */
  lemma {:induction false} ChunkTracePercents(docs: seq<string>, add: (nat, string) -> Attempt, upto: nat)
    requires upto <= |docs|
    ensures Collect(ChunkTrace(docs, add, upto), PercentOf)
         == seq(upto, i requires 0 <= i < upto => ProgressPercent(i, |docs|))
  {
    if upto > 0 {
      ChunkTracePercents(docs, add, upto - 1);
      CollectTrace(docs, add, upto, PercentOf);
      CollectSteps(docs, add, upto - 1, PercentOf);
    }
  }

  lemma MulMono(a: nat, b: nat, c: nat)
    requires b <= c
    ensures a * b <= a * c
  {
  }

  /** Every reported percentage lies in 0..100, and the last chunk reports exactly 100. */
  lemma ProgressBounds(i: nat, n: nat)
    requires i < n
    ensures ProgressPercent(i, n) <= 100
    ensures i == n - 1 ==> ProgressPercent(i, n) == 100
  {
    var r := ProgressPercent(i, n);
    var num := (i + 1) * 100;
    var m := 2 * n;
    assert m * r <= 2 * num + n;
    MulMono(100, i + 1, n);
    assert num <= 100 * n;
    if r >= 101 {
      MulMono(m, 101, r);
      assert false;
    }
    if i == n - 1 {
      assert num == 100 * n;
      assert 2 * num + n < m * (r + 1);
      if r + 1 <= 100 {
        MulMono(m, r + 1, 100);
        assert false;
      }
    }
  }

  /** A full run reports each chunk's attempt, failure and delay, and ends with 100%. */
  lemma FullRun(docs: seq<string>, add: (nat, string) -> Attempt)
    requires |docs| > 0
    ensures var log := ChunkTrace(docs, add, |docs|);
      var percents := Collect(log, PercentOf);
      && Collect(log, AttemptOf) == docs
      && |Collect(log, DelayOf)| == |docs|
      && Collect(log, FailureOf) == FailedIndices(docs, add, |docs|)
      && |percents| == |docs|
      && percents[|docs| - 1] == 100
      && forall i :: 0 <= i < |docs| ==> percents[i] <= 100
  {
    ChunkTraceAttempts(docs, add, |docs|);
    ChunkTraceDelays(docs, add, |docs|);
    ChunkTraceFailures(docs, add, |docs|);
    ChunkTracePercents(docs, add, |docs|);
    assert docs[..|docs|] == docs;
    forall i | 0 <= i < |docs| ensures ProgressPercent(i, |docs|) <= 100 {
      ProgressBounds(i, |docs|);
    }
    ProgressBounds(|docs| - 1, |docs|);
  }
}
