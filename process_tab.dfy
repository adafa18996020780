/**
 * The processing tab: its own GPU switch, the `processing` flag that
 * start, pause and stop toggle, and the counting loop of the worker that
 * runs the OCR pipeline over a batch of unprocessed images. The database,
 * the file system and the other thread are inputs: the batch the database
 * hands out, whether each file exists, what the pipeline and the update
 * make of it, whether a state write succeeds, and the image before which
 * the flag is found cleared.
 */
module ProcessTab {
  import opened Wrappers
  import opened GpuDetector
  import OcrProcessor

  /** The batch size the worker asks the database for. */
  const BatchLimit: nat := 1000

  /**
   * `_should_use_gpu`: only an on-value of MEMEFINDER_USE_GPU switches
   * the GPU on; an off-value, an empty or unset variable and any other
   * value all give the CPU.
   */
  function TabShouldUseGpu(env: Option<string>): (r: bool)
    ensures r <==> EnvOn(env)
  {
    var v := EnvValue(env);
    if v in {"1", "true", "yes", "on"} then true
    else if v in {"0", "false", "no", "off", ""} then false
    else false
  }

  /**
   * Unlike the shared detector, the tab never consults detection: with the
   * variable unset and a CUDA provider present, the detector says GPU and
   * the tab says CPU.
   */
  lemma TabIgnoresDetection(sig: GpuSignals)
    requires sig.providers.Some? && "CUDAExecutionProvider" in sig.providers.value
    ensures ShouldUseGpu(None, sig) && !TabShouldUseGpu(None)
  {
    UnsetDefersToProviders(sig);
    assert EnvValue(None) == [];
  }

  /** One row the database hands out, with what happens to it. */
  datatype Row = Row(
    id: int,
    fileExists: bool,
    outcome: Option<OcrProcessor.Processed>)  // None: the pipeline or the update raised

  /** The counters of the worker and the updates it sent, in order. */
  datatype Tally = Tally(processed: nat, errors: nat, updates: seq<(int, OcrProcessor.Processed)>)

  /** One image: a missing file or a raised error counts as an error, anything else is stored. */
  function Step(t: Tally, row: Row): (r: Tally)
    ensures r.processed + r.errors == t.processed + t.errors + 1
    ensures !row.fileExists ==> r.updates == t.updates
  {
    if !row.fileExists then t.(errors := t.errors + 1)
    else match row.outcome
      case None => t.(errors := t.errors + 1)
      case Some(p) => t.(processed := t.processed + 1, updates := t.updates + [(row.id, p)])
  }

  /** The tally after the given images, in order. */
  function RunBatch(rows: seq<Row>): (t: Tally)
    ensures (forall k :: 0 <= k < |rows| ==> !rows[k].fileExists) ==> t.updates == [] && t.errors == |rows|
  {
    if rows == [] then Tally(0, 0, [])
    else Step(RunBatch(rows[..|rows| - 1]), rows[|rows| - 1])
  }

  /** How many images the loop takes up: all of them, unless the flag is found cleared first. */
  function Visited(n: nat, stopAt: Option<nat>): (k: nat)
    ensures k <= n
    ensures stopAt.Some? && stopAt.value < n ==> k == stopAt.value
  {
    if stopAt.Some? && stopAt.value < n then stopAt.value else n
  }

  /**
   * Every visited image is counted exactly once, as processed or as an
   * error; each processed image gives one update, of its own id and
   * result, and only images whose file exists are updated.
   */
  lemma {:induction false} RunBatchAccounts(rows: seq<Row>)
    ensures RunBatch(rows).processed + RunBatch(rows).errors == |rows|
    ensures |RunBatch(rows).updates| == RunBatch(rows).processed
    ensures forall u :: u in RunBatch(rows).updates ==>
      exists row :: row in rows && row.fileExists && row.outcome == Some(u.1) && row.id == u.0
  {
    if rows != [] {
      var init := rows[..|rows| - 1];
      RunBatchAccounts(init);
      forall u | u in RunBatch(rows).updates
        ensures exists row :: row in rows && row.fileExists && row.outcome == Some(u.1) && row.id == u.0
      {
        if u in RunBatch(init).updates {
          var row :| row in init && row.fileExists && row.outcome == Some(u.1) && row.id == u.0;
          assert row in rows;
        } else {
          assert rows[|rows| - 1] in rows;
        }
      }
    }
  }

  /** The tab's state: the flag, the state stored for resuming, and what reached the database. */
  class ProcessTab {
    var processing: bool
    var appState: string
    var workersStarted: nat
    var stored: seq<(int, OcrProcessor.Processed)>

    constructor (appState: string)
      ensures !processing && this.appState == appState && workersStarted == 0 && stored == []
    {
      processing := false;
      this.appState := appState;
      workersStarted := 0;
      stored := [];
    }

    /** A state write that raises is ignored. */
    method SetAppState(value: string, dbOk: bool)
      modifies this
      ensures appState == (if dbOk then value else old(appState))
      ensures processing == old(processing) && workersStarted == old(workersStarted) && stored == old(stored)
    {
      if dbOk {
        appState := value;
      }
    }

    /**
     * `start_processing`: nothing happens while a run is on or when no
     * unprocessed image is left; otherwise the state is marked running,
     * the flag is raised and a worker is started.
     */
    method StartProcessing(anyUnprocessed: bool, dbOk: bool)
      modifies this
      ensures old(processing) || !anyUnprocessed ==>
        processing == old(processing) && appState == old(appState) && workersStarted == old(workersStarted)
      ensures !old(processing) && anyUnprocessed ==>
        processing && workersStarted == old(workersStarted) + 1 &&
        appState == (if dbOk then "running" else old(appState))
      ensures stored == old(stored)
    {
      if processing {
        return;
      }
      if !anyUnprocessed {
        return;
      }
      SetAppState("running", dbOk);
      processing := true;
      workersStarted := workersStarted + 1;
    }

    /** `pause_processing`: only while a run is on; it lowers the flag and marks the state paused. */
    method PauseProcessing(dbOk: bool)
      modifies this
      ensures !processing
      ensures appState == (if old(processing) && dbOk then "paused" else old(appState))
      ensures workersStarted == old(workersStarted) && stored == old(stored)
    {
      if processing {
        processing := false;
        SetAppState("paused", dbOk);
      }
    }

    /** `stop_processing`: only while a run is on; it lowers the flag and marks the state idle. */
    method StopProcessing(dbOk: bool)
      modifies this
      ensures !processing
      ensures appState == (if old(processing) && dbOk then "idle" else old(appState))
      ensures workersStarted == old(workersStarted) && stored == old(stored)
    {
      if processing {
        processing := false;
        SetAppState("idle", dbOk);
      }
    }

    /**
     * `process_images_thread`: the batch is at most the first 1000
     * unprocessed images (None when the query raises). The flag is read
     * before each image; `stopAt` is the index of the image before which
     * the other thread has cleared it. An empty batch lowers the flag and
     * returns; otherwise the loop counts, the flag is lowered and the state
     * marked idle. The result is the final (processed, errors) pair.
     */
    method ProcessImagesThread(fetch: Option<seq<Row>>, stopAt: Option<nat>, dbOk: bool)
      returns (summary: Option<(nat, nat)>)
      requires processing
      modifies this
      ensures !processing
      ensures workersStarted == old(workersStarted)
      ensures fetch.None? ==> summary.None? && stored == old(stored) && appState == (if dbOk then "idle" else old(appState))
      ensures fetch.Some? && fetch.value == [] ==> summary.None? && stored == old(stored) && appState == old(appState)
      ensures fetch.Some? && fetch.value != [] ==>
        var batch := Take(fetch.value, BatchLimit);
        var t := RunBatch(batch[..Visited(|batch|, stopAt)]);
        && summary == Some((t.processed, t.errors))
        && stored == old(stored) + t.updates
        && appState == (if dbOk then "idle" else old(appState))
    {
      if fetch.None? {
        processing := false;
        SetAppState("idle", dbOk);
        return None;
      }
      var batch := Take(fetch.value, BatchLimit);
      if batch == [] {
        processing := false;
        return None;
      }
      var t := RunLoop(batch, stopAt);
      processing := false;
      SetAppState("idle", dbOk);
      summary := Some((t.processed, t.errors));
    }

    /** The loop over the batch, stopping at the first image that finds the flag lowered. */
    method RunLoop(batch: seq<Row>, stopAt: Option<nat>) returns (t: Tally)
      requires processing
      modifies this
      ensures t == RunBatch(batch[..Visited(|batch|, stopAt)])
      ensures stored == old(stored) + t.updates
      ensures t.processed + t.errors <= |batch|
      ensures appState == old(appState) && workersStarted == old(workersStarted)
    {
      var processedCount: nat := 0;
      var errorCount: nat := 0;
      var sent: seq<(int, OcrProcessor.Processed)> := [];
      var i := 0;
      while i < |batch|
        invariant 0 <= i <= Visited(|batch|, stopAt)
        invariant processing
        invariant Tally(processedCount, errorCount, sent) == RunBatch(batch[..i])
        invariant stored == old(stored) + sent
        invariant processedCount + errorCount == i
        invariant appState == old(appState) && workersStarted == old(workersStarted)
      {
        if stopAt == Some(i) {
          // the other thread lowers the flag before this image
          processing := false;
        }
        if !processing {
          break;
        }
        assert batch[..i + 1][..i] == batch[..i];
        var row := batch[i];
        if !row.fileExists {
          errorCount := errorCount + 1;
        } else if row.outcome.None? {
          errorCount := errorCount + 1;
        } else {
          var p := row.outcome.value;
          stored := stored + [(row.id, p)];
          sent := sent + [(row.id, p)];
          processedCount := processedCount + 1;
        }
        i := i + 1;
      }
      t := Tally(processedCount, errorCount, sent);
    }
  }

  /** The first n elements, or all of them when there are fewer (the database's LIMIT). */
  function Take<T>(s: seq<T>, n: nat): (r: seq<T>)
    ensures |r| <= n && |r| <= |s| && r == s[..|r|]
    ensures |s| <= n ==> r == s
  {
    if |s| <= n then s else s[..n]
  }

  /** A run never counts more than the 1000 images it asked for. */
  lemma BatchBounded(fetched: seq<Row>, stopAt: Option<nat>)
    ensures var batch := Take(fetched, BatchLimit);
      var t := RunBatch(batch[..Visited(|batch|, stopAt)]);
      t.processed + t.errors <= BatchLimit
  {
    var batch := Take(fetched, BatchLimit);
    RunBatchAccounts(batch[..Visited(|batch|, stopAt)]);
  }
}
