/** The dataset vectorizer: every record of the HAM10000 metadata is turned
    into a 1024-value vector with its metadata, in batches of 20, and each
    batch's vectors are sent to the index together. Counters tell how many
    records were stored, failed or skipped. The embedding model is loaded
    once, with up to three attempts and a doubling wait after a rate-limit
    error, and concurrent callers share the load in flight. The file system,
    the model, the index and the clock are parameters. */
module Vectorize {
  import opened Wrappers
  import opened Types
  import Text
  import Embedding

  /* --------------------------------------------------------------- records */

  /** One row of the metadata file. */
  datatype Record = Record(
    imageId: string,
    lesionId: string,
    dx: string,
    dxType: string,
    age: string,
    sex: string,
    localization: string)

  datatype VectorMetadata = VectorMetadata(
    imageId: string,
    lesionId: string,
    diagnosis: string,
    diagnosisType: string,
    age: string,
    sex: string,
    localization: string)

  datatype Vector<T> = Vector(id: string, values: seq<T>, metadata: VectorMetadata)

  const Unknown: string := "unknown"

  /** `value || 'unknown'` */
  function OrUnknown(s: string): string {
    if s == [] then Unknown else s
  }

  /** The metadata stored with a record's vector. */
  function MetadataOf(r: Record): VectorMetadata {
    VectorMetadata(r.imageId, r.lesionId, r.dx, r.dxType,
                   OrUnknown(r.age), OrUnknown(r.sex), OrUnknown(r.localization))
  }

  /* -------------------------------------------------------- model retries */

  const Attempts: nat := 3
  const FirstDelay: nat := 5000

  function Pow2(j: nat): nat {
    if j == 0 then 1 else 2 * Pow2(j - 1)
  }

  /** `error.message?.includes('429') || error.message?.includes('rate limit')` */
  predicate RateLimited(e: Err) {
    e.Error? && (Text.Contains(e.message, "429") || Text.Contains(e.message, "rate limit"))
  }

  /** How a model load ends, and the waits (in milliseconds) before each
      retry. */
  datatype Loaded<M> = Loaded(result: Result<M, Err>, waits: seq<nat>)

  /** The retry loop from attempt `k` on. `pipeline(k)` is what building the
      pipeline gives at attempt `k`; `RetryFacts` says what the loop does. */
  function Retry<M>(pipeline: nat -> Result<M, Err>, k: nat): (l: Loaded<M>)
    requires k < Attempts
    decreases Attempts - k
  {
    var outcome := pipeline(k);
    if outcome.Success? || k + 1 == Attempts || !RateLimited(outcome.error) then
      Loaded(outcome, [])
    else
      var rest := Retry(pipeline, k + 1);
      Loaded(rest.result, [FirstDelay * Pow2(k)] + rest.waits)
  }

  /** The `while (retries > 0)` loop of the model load. */
  method LoadWithRetries<M>(pipeline: nat -> Result<M, Err>) returns (r: Result<M, Err>, waits: seq<nat>)
    ensures Loaded(r, waits) == Retry(pipeline, 0)
  {
    var retries := Attempts;
    var delay := FirstDelay;
    var attempt := 0;
    waits := [];
    while true
      invariant 0 < retries <= Attempts && attempt == Attempts - retries
      invariant |waits| == attempt && delay == FirstDelay * Pow2(attempt)
      invariant Retry(pipeline, 0) == Loaded(Retry(pipeline, attempt).result, waits + Retry(pipeline, attempt).waits)
      decreases retries
    {
      var outcome := pipeline(attempt);
      if outcome.Success? {
        return outcome, waits;
      }
      retries := retries - 1;
      if retries == 0 {
        return outcome, waits;
      }
      if !RateLimited(outcome.error) {
        return outcome, waits;
      }
      assert Retry(pipeline, attempt).waits == [delay] + Retry(pipeline, attempt + 1).waits;
      waits := waits + [delay];
      delay := delay * 2;
      attempt := attempt + 1;
    }
  }

  /** The module-level `embeddingModel` and `modelLoadingPromise`. The
      promise is represented by the outcome it settles to. */
  class ModelLoader<M> {
    var model: Option<M>
    var loading: Option<Result<M, Err>>

    constructor()
      ensures model.None? && loading.None?
    {
      model := None;
      loading := None;
    }

    /** What a load gives in this state, `attempt` being the outcome of a
        fresh retry loop. */
    function Outcome(attempt: Result<M, Err>): Result<M, Err>
      reads this
    {
      if model.Some? then Success(model.value)
      else if loading.Some? then loading.value
      else attempt
    }

    /** `loadEmbeddingModel`: the cached model, else the load in flight,
        else a new load. A successful load is cached and the promise slot
        cleared; a failed one stays in the slot, so every later load gives
        the same outcome. */
    method Load(pipeline: nat -> Result<M, Err>) returns (r: Result<M, Err>)
      modifies this
      ensures r == old(Outcome(Retry(pipeline, 0).result))
      ensures forall a :: Outcome(a) == r
      ensures old(model).Some? || old(loading).Some? ==> model == old(model) && loading == old(loading)
      ensures old(model).None? && old(loading).None? ==>
        if r.Success? then model == Some(r.value) && loading.None? else model.None? && loading == Some(r)
    {
      if model.Some? {
        return Success(model.value);
      }
      if loading.Some? {
        return loading.value;
      }
      var waits;
      r, waits := LoadWithRetries(pipeline);
      if r.Success? {
        model := Some(r.value);
        loading := None;
      } else {
        loading := Some(r);
      }
    }
  }

  /* ------------------------------------------------------------ embeddings */

  /** The normalisation step of the vectorizer's `generateEmbedding`: the same
      rules as the server's, with the exact-length case tested first. */
  method NormalizeForVectorizer<T>(raw: seq<T>, scale: T -> T, zero: T) returns (r: seq<T>)
    ensures r == Embedding.Normalized(raw, scale, zero)
  {
    var embedding := raw;
    if |embedding| == Embedding.ClipDimension {
      var projected := embedding;
      var variation := seq(|embedding|, i requires 0 <= i < |embedding| => scale(embedding[i]));
      embedding := projected + variation;
    }
    if |embedding| == Embedding.Dimension {
      r := embedding;
    } else if |embedding| < Embedding.Dimension {
      r := embedding + seq(Embedding.Dimension - |embedding|, _ => zero);
    } else {
      r := embedding[..Embedding.Dimension];
    }
    assert forall i :: 0 <= i < Embedding.Dimension ==> r[i] == Embedding.Entry(raw, scale, zero, i);
  }

  /** What the outside world answers: whether a record's image file exists,
      what the model makes of an image, what each pipeline build attempt
      gives, and whether the upsert of a batch (by its 1-based number)
      succeeds. Element values are abstract: `scale` is multiplying by 0.1
      and `zero` is 0. */
  datatype Env<!M, !T> = Env(
    found: string -> bool,
    extract: (M, string) -> Result<seq<T>, Err>,
    pipeline: nat -> Result<M, Err>,
    upsertOk: nat -> bool,
    scale: T -> T,
    zero: T)

  /** The vector `generateEmbedding` gives for an image once the model load
      has settled to `loaded`. */
  function EmbeddingOf<M, T>(env: Env<M, T>, loaded: Result<M, Err>, imageId: string): Result<seq<T>, Err> {
    if loaded.Failure? then Failure(loaded.error)
    else
      var raw := env.extract(loaded.value, imageId);
      if raw.Failure? then Failure(raw.error)
      else Success(Embedding.Normalized(raw.value, env.scale, env.zero))
  }

  /** `generateEmbedding`: load the model, run it, normalise. */
  method GenerateEmbedding<M, T>(loader: ModelLoader<M>, env: Env<M, T>, imageId: string)
    returns (r: Result<seq<T>, Err>)
    modifies loader
    ensures r == EmbeddingOf(env, old(loader.Outcome(Retry(env.pipeline, 0).result)), imageId)
    ensures forall a :: loader.Outcome(a) == old(loader.Outcome(Retry(env.pipeline, 0).result))
  {
    var model := loader.Load(env.pipeline);
    if model.Failure? {
      return Failure(model.error);
    }
    var raw := env.extract(model.value, imageId);
    if raw.Failure? {
      return Failure(raw.error);
    }
    var v := NormalizeForVectorizer(raw.value, env.scale, env.zero);
    r := Success(v);
  }

  /* --------------------------------------------------------------- batches */

  /** What became of one record. */
  datatype Outcome<T> = Skipped | Failed | Ready(vector: Vector<T>)

  /** One record of a batch: a missing image is skipped; a thrown error or
      a vector of the wrong length is a failure; otherwise the vector is
      built with the record's metadata. */
  function RecordOutcome<M, T>(env: Env<M, T>, loaded: Result<M, Err>, r: Record): Outcome<T> {
    if !env.found(r.imageId) then Skipped
    else
      var e := EmbeddingOf(env, loaded, r.imageId);
      if e.Failure? then Failed
      else if |e.value| != Embedding.Dimension then Failed
      else Ready(Vector(r.imageId, e.value, MetadataOf(r)))
  }

  function Outcomes<M, T>(env: Env<M, T>, loaded: Result<M, Err>, rs: seq<Record>): (os: seq<Outcome<T>>)
    ensures |os| == |rs|
  {
    seq(|rs|, i requires 0 <= i < |rs| => RecordOutcome(env, loaded, rs[i]))
  }

  /** The array `Promise.all` yields: a vector or `null` per record. */
  function Nulled<T>(os: seq<Outcome<T>>): (vs: seq<Option<Vector<T>>>)
    ensures |vs| == |os|
    ensures forall i :: 0 <= i < |os| ==> (vs[i].Some? <==> os[i].Ready?)
    ensures forall i :: 0 <= i < |os| ==> os[i].Ready? ==> vs[i] == Some(os[i].vector)
  {
    seq(|os|, i requires 0 <= i < |os| => if os[i].Ready? then Some(os[i].vector) else None)
  }

  /** `vectors.filter(v => v !== null)` */
  function Present<T>(vs: seq<Option<Vector<T>>>): seq<Vector<T>> {
    if |vs| == 0 then []
    else if vs[0].Some? then [vs[0].value] + Present(vs[1..])
    else Present(vs[1..])
  }

  function Skips<T>(os: seq<Outcome<T>>): nat {
    if |os| == 0 then 0 else (if os[0].Skipped? then 1 else 0) + Skips(os[1..])
  }

  function Fails<T>(os: seq<Outcome<T>>): nat {
    if |os| == 0 then 0 else (if os[0].Failed? then 1 else 0) + Fails(os[1..])
  }

  /** The callbacks of one batch, one record after another: each missing
      image adds to `skipped`, each failure to `failed`. */
  method ProcessBatch<M, T>(loader: ModelLoader<M>, env: Env<M, T>, batch: seq<Record>)
    returns (vectors: seq<Option<Vector<T>>>, failed: nat, skipped: nat)
    modifies loader
    ensures var os := Outcomes(env, old(loader.Outcome(Retry(env.pipeline, 0).result)), batch);
      vectors == Nulled(os) && failed == Fails(os) && skipped == Skips(os)
    ensures loader.Outcome(Retry(env.pipeline, 0).result) == old(loader.Outcome(Retry(env.pipeline, 0).result))
  {
    ghost var loaded := loader.Outcome(Retry(env.pipeline, 0).result);
    ghost var os := Outcomes(env, loaded, batch);
    vectors, failed, skipped := [], 0, 0;
    for j := 0 to |batch|
      invariant loader.Outcome(Retry(env.pipeline, 0).result) == loaded
      invariant vectors == Nulled(os[..j])
      invariant failed == Fails(os[..j]) && skipped == Skips(os[..j])
    {
      var record := batch[j];
      var v: Option<Vector<T>> := None;
      if !env.found(record.imageId) {
        skipped := skipped + 1;
      } else {
        var embedding := GenerateEmbedding(loader, env, record.imageId);
        if embedding.Failure? || |embedding.value| != Embedding.Dimension {
          failed := failed + 1;
        } else {
          v := Some(Vector(record.imageId, embedding.value, MetadataOf(record)));
        }
      }
      CountsAppend(os[..j], os[j]);
      assert os[..j + 1] == os[..j] + [os[j]];
      vectors := vectors + [v];
    }
    assert os[..|batch|] == os;
  }

  const BatchSize: nat := 20

  function Min(a: nat, b: nat): nat {
    if a <= b then a else b
  }

  /** `Math.ceil(records.length / BATCH_SIZE)` */
  function BatchCount(n: nat): nat {
    (n + BatchSize - 1) / BatchSize
  }

  /** The records of batch `k`, counted from 0: `records.slice(i, i + 20)`
      for `i = 20 k`. */
  function Batch<X>(xs: seq<X>, k: nat): seq<X>
    requires BatchSize * k <= |xs|
  {
    xs[BatchSize * k..Min(BatchSize * k + BatchSize, |xs|)]
  }

  datatype Tally = Tally(processed: nat, failed: nat, skipped: nat)

  /** The counters and the upserts issued so far. */
  datatype Run<T> = Run(tally: Tally, upserts: seq<seq<Vector<T>>>)

  /** One batch's bookkeeping: the callbacks' counts, then the upsert of
      the valid vectors when there is at least one; its size is added to
      `processed` on success and to `failed` otherwise. */
  function BatchStep<T>(run: Run<T>, os: seq<Outcome<T>>, ok: bool): Run<T> {
    var valid := Present(Nulled(os));
    var t := Tally(run.tally.processed, run.tally.failed + Fails(os), run.tally.skipped + Skips(os));
    if |valid| == 0 then Run(t, run.upserts)
    else if ok then Run(t.(processed := t.processed + |valid|), run.upserts + [valid])
    else Run(t.(failed := t.failed + |valid|), run.upserts + [valid])
  }

  /** The state after the first `k` batches, `os` being what becomes of
      each record and `upsertOk` whether the upsert of batch number `k`
      succeeds. */
  function RunAfter<T>(os: seq<Outcome<T>>, upsertOk: nat -> bool, k: nat): Run<T>
    requires k <= BatchCount(|os|)
  {
    if k == 0 then Run(Tally(0, 0, 0), [])
    else
      BatchesBound(|os|, k - 1);
      BatchStep(RunAfter(os, upsertOk, k - 1), Batch(os, k - 1), upsertOk(k))
  }

  /** The end of one batch: the callbacks' counts are added, and the valid
      vectors, if any, are upserted. */
  method Upload<T>(run: Run<T>, vectors: seq<Option<Vector<T>>>, f: nat, s: nat, ok: bool, ghost os: seq<Outcome<T>>)
    returns (next: Run<T>)
    requires vectors == Nulled(os) && f == Fails(os) && s == Skips(os)
    ensures next == BatchStep(run, os, ok)
  {
    var t := Tally(run.tally.processed, run.tally.failed + f, run.tally.skipped + s);
    var upserts := run.upserts;
    var valid := Present(vectors);
    if |valid| > 0 {
      upserts := upserts + [valid];
      if ok {
        t := t.(processed := t.processed + |valid|);
      } else {
        t := t.(failed := t.failed + |valid|);
      }
    }
    next := Run(t, upserts);
  }

  /** One turn of the batch loop: batch number `k + 1`, starting at record
      `i`, is processed and uploaded. */
  method RunBatch<M, T>(loader: ModelLoader<M>, env: Env<M, T>, records: seq<Record>, run: Run<T>, i: nat,
                        ghost k: nat, ghost os: seq<Outcome<T>>)
    returns (next: Run<T>)
    requires i == BatchSize * k && i < |records|
    requires os == Outcomes(env, loader.Outcome(Retry(env.pipeline, 0).result), records)
    modifies loader
    ensures k + 1 <= BatchCount(|os|)
    ensures next == BatchStep(run, Batch(os, k), env.upsertOk(k + 1))
    ensures loader.Outcome(Retry(env.pipeline, 0).result) == old(loader.Outcome(Retry(env.pipeline, 0).result))
  {
    ghost var loaded := loader.Outcome(Retry(env.pipeline, 0).result);
    var batch := records[i..Min(i + BatchSize, |records|)];
    var batchNum := i / BatchSize + 1;
    assert batch == Batch(records, k) && batchNum == k + 1;
    var vectors, f, s := ProcessBatch(loader, env, batch);
    OutcomesOfBatch(env, loaded, records, k);
    BatchesBound(|records|, k);
    next := Upload(run, vectors, f, s, env.upsertOk(batchNum), Batch(os, k));
  }

  /** The batch loop of `vectorizeHAM10000`. */
  method Vectorize<M, T>(loader: ModelLoader<M>, env: Env<M, T>, records: seq<Record>)
    returns (processed: nat, failed: nat, skipped: nat, upserts: seq<seq<Vector<T>>>)
    modifies loader
    ensures Run(Tally(processed, failed, skipped), upserts) ==
            RunAfter(Outcomes(env, old(loader.Outcome(Retry(env.pipeline, 0).result)), records), env.upsertOk, BatchCount(|records|))
  {
    ghost var loaded := loader.Outcome(Retry(env.pipeline, 0).result);
    ghost var os := Outcomes(env, loaded, records);
    var run: Run<T> := Run(Tally(0, 0, 0), []);
    var i := 0;
    ghost var k := 0;
    while i < |records|
      invariant i == BatchSize * k && k <= BatchCount(|records|)
      invariant loader.Outcome(Retry(env.pipeline, 0).result) == loaded
      invariant run == RunAfter(os, env.upsertOk, k)
      decreases |records| - i
    {
      run := RunBatch(loader, env, records, run, i, k, os);
      i := i + BatchSize;
      k := k + 1;
    }
    BatchesBound(|records|, k);
    processed, failed, skipped, upserts := run.tally.processed, run.tally.failed, run.tally.skipped, run.upserts;
  }

  /* ---------------------------------------------------------------- lemmas */

  /** There is a batch `k` exactly when it starts inside the records. */
  lemma BatchesBound(n: nat, k: nat)
    ensures k < BatchCount(n) <==> BatchSize * k < n
  {
  }

  lemma {:induction false} CountsAppend<T>(os: seq<Outcome<T>>, o: Outcome<T>)
    ensures Nulled(os + [o]) == Nulled(os) + [if o.Ready? then Some(o.vector) else None]
    ensures Skips(os + [o]) == Skips(os) + (if o.Skipped? then 1 else 0)
    ensures Fails(os + [o]) == Fails(os) + (if o.Failed? then 1 else 0)
    decreases |os|
  {
    if |os| > 0 {
      assert (os + [o])[1..] == os[1..] + [o];
      CountsAppend(os[1..], o);
    }
  }

  /** Each record of a batch is counted once: stored for upload, failed or
      skipped. */
  lemma {:induction false} OutcomesCounted<T>(os: seq<Outcome<T>>)
    ensures |Present(Nulled(os))| + Fails(os) + Skips(os) == |os|
    decreases |os|
  {
    if |os| > 0 {
      assert Nulled(os)[1..] == Nulled(os[1..]);
      OutcomesCounted(os[1..]);
    }
  }

  /** The valid vectors are exactly the non-null ones. */
  lemma {:induction false} PresentValues<T>(vs: seq<Option<Vector<T>>>, v: Vector<T>)
    ensures v in Present(vs) <==> Some(v) in vs
    decreases |vs|
  {
    if |vs| > 0 {
      PresentValues(vs[1..], v);
      assert vs == [vs[0]] + vs[1..];
    }
  }

  /** One batch adds its size to the counters, and upserts only a
      non-empty set of vectors. */
  lemma StepFacts<T>(run: Run<T>, os: seq<Outcome<T>>, ok: bool)
    ensures var t := BatchStep(run, os, ok).tally;
      t.processed + t.failed + t.skipped == run.tally.processed + run.tally.failed + run.tally.skipped + |os|
    ensures var u := BatchStep(run, os, ok).upserts;
      |run.upserts| <= |u| <= |run.upserts| + 1 &&
      (forall j :: 0 <= j < |run.upserts| ==> u[j] == run.upserts[j]) &&
      (|u| > |run.upserts| ==> |u[|run.upserts|]| > 0)
  {
    OutcomesCounted(os);
  }

  /** The outcomes of a batch are the batch of the outcomes. */
  lemma OutcomesOfBatch<M, T>(env: Env<M, T>, loaded: Result<M, Err>, records: seq<Record>, k: nat)
    requires BatchSize * k <= |records|
    ensures Outcomes(env, loaded, Batch(records, k)) == Batch(Outcomes(env, loaded, records), k)
  {
  }

  /** After `k` batches, the counters add up to the records handled. */
  lemma {:induction false} TallyAfter<T>(os: seq<Outcome<T>>, upsertOk: nat -> bool, k: nat)
    requires k <= BatchCount(|os|)
    ensures var t := RunAfter(os, upsertOk, k).tally;
      t.processed + t.failed + t.skipped == Min(BatchSize * k, |os|)
  {
    if k > 0 {
      BatchesBound(|os|, k - 1);
      TallyAfter(os, upsertOk, k - 1);
      StepFacts(RunAfter(os, upsertOk, k - 1), Batch(os, k - 1), upsertOk(k));
    }
  }

  /** When the loop is done every record is counted once. */
  lemma AllCounted<T>(os: seq<Outcome<T>>, upsertOk: nat -> bool)
    ensures var t := RunAfter(os, upsertOk, BatchCount(|os|)).tally;
      t.processed + t.failed + t.skipped == |os|
  {
    TallyAfter(os, upsertOk, BatchCount(|os|));
  }

  /** Every upsert carries at least one vector. */
  lemma {:induction false} UpsertsNonEmpty<T>(os: seq<Outcome<T>>, upsertOk: nat -> bool, k: nat)
    requires k <= BatchCount(|os|)
    ensures forall j :: 0 <= j < |RunAfter(os, upsertOk, k).upserts| ==> |RunAfter(os, upsertOk, k).upserts[j]| > 0
  {
    if k > 0 {
      BatchesBound(|os|, k - 1);
      UpsertsNonEmpty(os, upsertOk, k - 1);
      var prev := RunAfter(os, upsertOk, k - 1);
      StepFacts(prev, Batch(os, k - 1), upsertOk(k));
      var u := RunAfter(os, upsertOk, k).upserts;
      assert u == BatchStep(prev, Batch(os, k - 1), upsertOk(k)).upserts;
      forall j | 0 <= j < |u|
        ensures |u[j]| > 0
      {
        if j < |prev.upserts| {
          assert |prev.upserts[j]| > 0;
          assert u[j] == prev.upserts[j];
        } else {
          assert j == |prev.upserts|;
        }
      }
    }
  }

  /** The batches from `k` on. */
  function BatchesFrom(records: seq<Record>, k: nat): seq<seq<Record>>
    decreases |records| - BatchSize * k
  {
    if BatchSize * k >= |records| then [] else [Batch(records, k)] + BatchesFrom(records, k + 1)
  }

  function Flatten(xss: seq<seq<Record>>): seq<Record> {
    if |xss| == 0 then [] else xss[0] + Flatten(xss[1..])
  }

  /** The batches cover the records in order, each record once, and there
      are `ceil(n / 20)` of them. */
  lemma {:induction false} BatchesPartition(records: seq<Record>, k: nat)
    requires BatchSize * k <= |records|
    ensures Flatten(BatchesFrom(records, k)) == records[BatchSize * k..]
    ensures |BatchesFrom(records, k)| == BatchCount(|records|) - k
    decreases |records| - BatchSize * k
  {
    BatchesBound(|records|, k);
    if BatchSize * k < |records| {
      var next := Min(BatchSize * (k + 1), |records|);
      if BatchSize * (k + 1) <= |records| {
        BatchesPartition(records, k + 1);
        assert records[BatchSize * k..] == Batch(records, k) + records[BatchSize * (k + 1)..];
      } else {
        BatchesBound(|records|, k + 1);
        assert BatchesFrom(records, k + 1) == [];
        assert Batch(records, k) == records[BatchSize * k..];
      }
    }
  }

  /** A record is skipped exactly when its image is missing, and the length
      check never fires: a record with an image fails only when the model
      load or the model itself threw. */
  lemma RecordFates<M, T>(env: Env<M, T>, loaded: Result<M, Err>, r: Record)
    ensures RecordOutcome(env, loaded, r).Skipped? <==> !env.found(r.imageId)
    ensures RecordOutcome(env, loaded, r).Failed? <==>
      env.found(r.imageId) && (loaded.Failure? || env.extract(loaded.value, r.imageId).Failure?)
    ensures RecordOutcome(env, loaded, r).Ready? ==>
      var v := RecordOutcome(env, loaded, r).vector;
      v.id == r.imageId && v.metadata == MetadataOf(r) && |v.values| == Embedding.Dimension
  {
  }

  /** Empty demographic fields become "unknown"; the diagnosis fields are
      copied under their new names. */
  lemma MetadataDefaults(r: Record)
    ensures var m := MetadataOf(r);
      m.imageId == r.imageId && m.diagnosis == r.dx && m.diagnosisType == r.dxType &&
      m.age != [] && m.sex != [] && m.localization != [] &&
      (r.age != [] ==> m.age == r.age) && (r.age == [] ==> m.age == Unknown) &&
      (r.sex != [] ==> m.sex == r.sex) && (r.sex == [] ==> m.sex == Unknown) &&
      (r.localization != [] ==> m.localization == r.localization) &&
      (r.localization == [] ==> m.localization == Unknown)
  {
  }

  /** At most three attempts: every attempt but the last failed with a rate
      limit and was followed by a wait of 5000 ms, doubled per retry; the
      last attempt is the outcome, and it is a failure only when it was the
      third attempt or its error was not a rate limit. */
  lemma {:induction false} RetryFacts<M>(pipeline: nat -> Result<M, Err>, k: nat)
    requires k < Attempts
    ensures var l := Retry(pipeline, k);
      k + |l.waits| < Attempts &&
      l.result == pipeline(k + |l.waits|) &&
      (forall j :: k <= j < k + |l.waits| ==> pipeline(j).Failure? && RateLimited(pipeline(j).error)) &&
      (forall j :: 0 <= j < |l.waits| ==> l.waits[j] == FirstDelay * Pow2(k + j)) &&
      (l.result.Failure? ==> k + |l.waits| == Attempts - 1 || !RateLimited(l.result.error))
    decreases Attempts - k
  {
    var outcome := pipeline(k);
    if !(outcome.Success? || k + 1 == Attempts || !RateLimited(outcome.error)) {
      RetryFacts(pipeline, k + 1);
      var l := Retry(pipeline, k);
      var rest := Retry(pipeline, k + 1);
      assert l.waits == [FirstDelay * Pow2(k)] + rest.waits;
      assert forall j :: 1 <= j < |l.waits| ==> l.waits[j] == rest.waits[j - 1];
    }
  }

  /** A rate limit on every attempt waits 5 s, then 10 s, and the third
      error is thrown. */
  lemma PersistentRateLimit<M>(pipeline: nat -> Result<M, Err>)
    requires forall j: nat :: j < Attempts ==> pipeline(j).Failure? && RateLimited(pipeline(j).error)
    ensures Retry(pipeline, 0) == Loaded(pipeline(2), [5000, 10000])
  {
    assert Retry(pipeline, 2) == Loaded(pipeline(2), []);
    assert Retry(pipeline, 1).waits == [10000];
  }

  /** Any other error is thrown at once, without a wait. */
  lemma OtherErrorThrown<M>(pipeline: nat -> Result<M, Err>)
    requires pipeline(0).Failure? && !RateLimited(pipeline(0).error)
    ensures Retry(pipeline, 0) == Loaded(pipeline(0), [])
  {
  }
}
