/** The training schedule of lines 96-99 and 228-245 of
    `machine_translation/train_tf2.py`: one shuffle per epoch,
    fixed-size batches with the remainder dropped, two checkpoints saved at
    the start of every epoch, the loss printed every hundred batches, and two
    sample translations at the end of the epoch whose `KeyError`s are
    swallowed.  The network, the optimiser and the loss value are abstract:
    a parameter `trainStep` maps the weights and a batch to new weights and a
    loss. */
module Training {
  import opened Seqs
  import opened Corpus
  import opened Decoding

  /** The number of examples in one batch (`BATCH_SIZE`, line 18 of `train_tf2.py`). */
  const BatchSize: nat := 64
  /** The number of training epochs (`NUM_EPOCHS`, line 21 of `train_tf2.py`). */
  const NumEpochs: nat := 15
  /** The loss is printed for batch indices divisible by this (line 237 of `train_tf2.py`). */
  const LogEvery: nat := 100

  // ---------------------------------------------------------------------
  // Shuffling and batching (lines 98-99)
  // ---------------------------------------------------------------------

  /** `perm` lists each of `0 .. n-1` exactly once: the order in which one
      pass of `dataset.shuffle(n)` yields the `n` examples. */
  predicate IsPermutation(perm: seq<nat>, n: nat)
  {
    && |perm| == n
    && (forall i :: 0 <= i < n ==> perm[i] < n)
    && (forall i, j :: 0 <= i < j < n ==> perm[i] != perm[j])
  }

  lemma SlotInRange(n: nat, b: nat, k: nat)
    requires b < n / BatchSize && k < BatchSize
    ensures b * BatchSize + k < n
  {
  }

  /** `batch(BATCH_SIZE, drop_remainder=True)` over the shuffled examples:
      batch `b` holds the examples at shuffle positions `64b .. 64b+63`. */
  function Batches(data: seq<Example>, perm: seq<nat>): (bs: seq<seq<Example>>)
    requires IsPermutation(perm, |data|)
    ensures |bs| == |data| / BatchSize
    ensures forall b :: 0 <= b < |bs| ==> |bs[b]| == BatchSize
  {
    seq(|data| / BatchSize, b requires 0 <= b < |data| / BatchSize =>
      seq(BatchSize, k requires 0 <= k < BatchSize =>
        SlotInRange(|data|, b, k); data[perm[b * BatchSize + k]]))
  }

  /** Every shuffle position below `|bs| * 64` lands in slot `j % 64` of batch
      `j / 64`, and fewer than 64 examples, those at the last positions, are
      left out of every batch. */
  lemma BatchesCover(data: seq<Example>, perm: seq<nat>)
    requires IsPermutation(perm, |data|)
    ensures var bs := Batches(data, perm);
      && |bs| * BatchSize <= |data| < |bs| * BatchSize + BatchSize
      && forall j :: 0 <= j < |bs| * BatchSize ==> bs[j / BatchSize][j % BatchSize] == data[perm[j]]
  {
    var bs := Batches(data, perm);
    forall j | 0 <= j < |bs| * BatchSize
      ensures bs[j / BatchSize][j % BatchSize] == data[perm[j]]
    {
      assert j / BatchSize * BatchSize + j % BatchSize == j;
    }
  }

  /** No example is drawn twice in one epoch: two different slots of the
      batches hold examples from different positions of the data. */
  lemma BatchesDrawOnce(data: seq<Example>, perm: seq<nat>, b: nat, k: nat, b': nat, k': nat)
    requires IsPermutation(perm, |data|)
    requires b < |data| / BatchSize && k < BatchSize
    requires b' < |data| / BatchSize && k' < BatchSize
    requires b != b' || k != k'
    ensures b * BatchSize + k < |data| && b' * BatchSize + k' < |data|
    ensures Batches(data, perm)[b][k] == data[perm[b * BatchSize + k]]
    ensures Batches(data, perm)[b'][k'] == data[perm[b' * BatchSize + k']]
    ensures perm[b * BatchSize + k] != perm[b' * BatchSize + k']
  {
    SlotInRange(|data|, b, k);
    SlotInRange(|data|, b', k');
    if b < b' {
      assert b * BatchSize + k < b' * BatchSize + k';
    } else if b' < b {
      assert b' * BatchSize + k' < b * BatchSize + k;
    }
  }

  // ---------------------------------------------------------------------
  // Checkpoint file names (lines 231-232)
  // ---------------------------------------------------------------------

  function Digit(d: nat): char
    requires d < 10
  {
    ('0' as int + d) as char
  }

  predicate IsDigits(s: string)
  {
    forall i :: 0 <= i < |s| ==> '0' <= s[i] <= '9'
  }

  /** `'{}'.format(n)`: the decimal digits of `n`, without leading zeros. */
  function Decimal(n: nat): (s: string)
    ensures |s| >= 1 && IsDigits(s)
    ensures s[0] == '0' <==> n == 0
    decreases n
  {
    if n < 10 then [Digit(n)] else Decimal(n / 10) + [Digit(n % 10)]
  }

  /** The number a string of decimal digits denotes. */
  function DigitsValue(s: string): nat
    requires IsDigits(s)
  {
    if s == [] then 0 else DigitsValue(s[..|s| - 1]) * 10 + (s[|s| - 1] as int - '0' as int)
  }

  /** Reading back the digits gives the number. */
  lemma {:induction false} DecimalRoundTrip(n: nat)
    ensures DigitsValue(Decimal(n)) == n
    decreases n
  {
    if n >= 10 {
      DecimalRoundTrip(n / 10);
      var s := Decimal(n);
      assert s[..|s| - 1] == Decimal(n / 10);
    }
  }

  const EncoderDir: string := "encoder"
  const DecoderDir: string := "decoder"

  function CheckpointPrefix(kind: string): string
  {
    "checkpoints/" + kind + "/" + kind + "_"
  }

  /** `'checkpoints/<kind>/<kind>_{}.h5'.format(e + 1)`: the file saved at the
      start of 0-based epoch `e`. */
  function CheckpointName(kind: string, e: nat): (name: string)
    ensures |name| == |CheckpointPrefix(kind)| + |Decimal(e + 1)| + 3
    ensures name[..|CheckpointPrefix(kind)|] == CheckpointPrefix(kind)
    ensures name[|CheckpointPrefix(kind)|..|name| - 3] == Decimal(e + 1)
    ensures name[|name| - 3..] == ".h5"
  {
    CheckpointPrefix(kind) + Decimal(e + 1) + ".h5"
  }

  /** Different epochs save to different files of the same kind. */
  lemma CheckpointNamesDistinct(kind: string, e: nat, e': nat)
    requires e != e'
    ensures CheckpointName(kind, e) != CheckpointName(kind, e')
  {
    DecimalRoundTrip(e + 1);
    DecimalRoundTrip(e' + 1);
  }

  /** Encoder and decoder checkpoints never share a file. */
  lemma EncoderDecoderNamesDiffer(e: nat, e': nat)
    ensures CheckpointName(EncoderDir, e) != CheckpointName(DecoderDir, e')
  {
    var a, b := CheckpointName(EncoderDir, e), CheckpointName(DecoderDir, e');
    assert a[12] == CheckpointPrefix(EncoderDir)[12] == 'e';
    assert b[12] == CheckpointPrefix(DecoderDir)[12] == 'd';
  }

  // ---------------------------------------------------------------------
  // The model, the log of observable events, and the schedule as functions
  // ---------------------------------------------------------------------

  /** The trainable part of the program with weights of type `P`, losses of
      type `L` and recurrent states of type `S`: `train_step` on one batch
      (lines 170-185), the encoder run on a source row (line 196), and one
      decoder call followed by the argmax (lines 203-205). */
  datatype Model<!P, L, !S> = Model(
    trainStep: (P, seq<Example>) -> (P, L),
    encode: (P, seq<nat>) -> S,
    decodeStep: (P, S, nat) -> (nat, S))

  /** The encoder of `m` with weights `w`. */
  function EncoderAt<P, L, S>(m: Model<P, L, S>, w: P): seq<nat> -> S
  {
    source => m.encode(w, source)
  }

  /** The decoder step of `m` with weights `w`. */
  function StepAt<P, L, S>(m: Model<P, L, S>, w: P): (S, nat) -> (nat, S)
  {
    (state, token) => m.decodeStep(w, state, token)
  }

  /** What training does that can be observed from outside. */
  datatype Event<P, L> =
    | Saved(path: string, weights: P)                                    // lines 231-232
    | Trained(epoch: nat, batch: nat, examples: seq<Example>)            // line 235
    | Logged(epoch: nat, batch: nat, loss: L)                            // line 238, epoch counted from 1
    | Predicted(source: string, outcome: Result<seq<string>, PredictError>) // lines 241, 243

  /** The inputs of the training loop: the dataset, the normalised English
      sentences `predict()` draws from, the two tokenizers' `word_index` maps
      and the target tokenizer's `index_word` map. */
  datatype Setup = Setup(data: seq<Example>, sentences: seq<string>,
                         enIndex: map<string, nat>, frIndex: map<string, nat>,
                         indexWord: map<nat, string>)

  /** The events of batch `b` of epoch `e`, whose `train_step` returned `loss`. */
  function BatchEvents<P, L>(e: nat, b: nat, batch: seq<Example>, loss: L): seq<Event<P, L>>
  {
    [Trained(e, b, batch)] + (if b % LogEvery == 0 then [Logged(e + 1, b, loss)] else [])
  }

  /** The weights and the events after the first `k` batches of epoch `e`. */
  function BatchRun<P, L, S>(m: Model<P, L, S>, w: P, e: nat, bs: seq<seq<Example>>, k: nat): (P, seq<Event<P, L>>)
    requires k <= |bs|
    decreases k
  {
    if k == 0 then (w, [])
    else
      var prev := BatchRun(m, w, e, bs, k - 1);
      var out := m.trainStep(prev.0, bs[k - 1]);
      (out.0, prev.1 + BatchEvents(e, k - 1, bs[k - 1], out.1))
  }

  /** The fixed sentence translated after every epoch (line 243 of `train_tf2.py`). */
  const Greeting: string := "How are you today ?"

  /** Lines 240-245 of `train_tf2.py` with weights `w`: `predict()` on the sentence the random
      draw `pick` selects and, only when that one raised nothing,
      `predict("How are you today ?")`; either exception ends the epoch
      quietly.  `np.random.choice(n)` draws below `n`, so a `pick` outside the
      sentences occurs only when there are none, and then stands for the
      `ValueError` of drawing from an empty corpus. */
  function Predictions<P, L, S>(m: Model<P, L, S>, w: P, setup: Setup, pick: nat): (evs: seq<Event<P, L>>)
    ensures forall i :: 0 <= i < |evs| ==> evs[i].Predicted?
  {
    if pick >= |setup.sentences| then []
    else
      var text := setup.sentences[pick];
      var first := PredictWith(m, w, setup, text);
      if first.Err? then [Predicted(text, first)]
      else [Predicted(text, first), Predicted(Greeting, PredictWith(m, w, setup, Greeting))]
  }

  /** `predict(text)` with weights `w`. */
  function PredictWith<P, L, S>(m: Model<P, L, S>, w: P, setup: Setup, text: string): Result<seq<string>, PredictError>
  {
    PredictSpec(EncoderAt(m, w), StepAt(m, w), setup.enIndex, setup.frIndex, setup.indexWord, text)
  }

  /** Lines 229-245 of `train_tf2.py` for 0-based epoch `e`, shuffle `perm` and draw `pick`. */
  function EpochRun<P, L, S>(m: Model<P, L, S>, w: P, setup: Setup, e: nat, perm: seq<nat>, pick: nat): (P, seq<Event<P, L>>)
    requires IsPermutation(perm, |setup.data|)
  {
    var bs := Batches(setup.data, perm);
    var saves := [Saved(CheckpointName(EncoderDir, e), w), Saved(CheckpointName(DecoderDir, e), w)];
    var run := BatchRun(m, w, e, bs, |bs|);
    (run.0, saves + run.1 + Predictions(m, run.0, setup, pick))
  }

  lemma EpochRunUnfold<P, L, S>(m: Model<P, L, S>, w: P, setup: Setup, e: nat, perm: seq<nat>, pick: nat)
    requires IsPermutation(perm, |setup.data|)
    ensures var run := BatchRun(m, w, e, Batches(setup.data, perm), |setup.data| / BatchSize);
      EpochRun(m, w, setup, e, perm, pick)
      == (run.0, [Saved(CheckpointName(EncoderDir, e), w), Saved(CheckpointName(DecoderDir, e), w)]
                 + run.1 + Predictions(m, run.0, setup, pick))
  {
  }

  /** Every shuffle is a permutation of the dataset. */
  predicate Shuffles(perms: seq<seq<nat>>, n: nat)
  {
    forall e :: 0 <= e < |perms| ==> IsPermutation(perms[e], n)
  }

  /** Every epoch of the schedule as one function of the weights it starts
      from and its 0-based index; an index past the schedule runs nothing. */
  function EpochOf<P, L, S>(m: Model<P, L, S>, setup: Setup, perms: seq<seq<nat>>, picks: seq<nat>): (P, nat) -> (P, seq<Event<P, L>>)
    requires Shuffles(perms, |setup.data|)
  {
    (w: P, e: nat) =>
      if e < |perms| && e < |picks| then EpochRun(m, w, setup, e, perms[e], picks[e]) else (w, [])
  }

  /** The epoch loop (line 229 of `train_tf2.py`): the weights and the events after the first `k` epochs,
      each starting from the weights the previous one left. */
  function TrainRun<P, L>(epoch: (P, nat) -> (P, seq<Event<P, L>>), w: P, k: nat): (P, seq<Event<P, L>>)
    decreases k
  {
    if k == 0 then (w, [])
    else
      var prev := TrainRun(epoch, w, k - 1);
      var next := epoch(prev.0, k - 1);
      (next.0, prev.1 + next.1)
  }

  // ---------------------------------------------------------------------
  // Views of the log and what the schedule promises about them
  // ---------------------------------------------------------------------

  function TrainedOf<P, L>(ev: Event<P, L>): seq<seq<Example>>
  {
    if ev.Trained? then [ev.examples] else []
  }

  function LoggedOf<P, L>(ev: Event<P, L>): seq<nat>
  {
    if ev.Logged? then [ev.batch] else []
  }

  function SavedOf<P, L>(ev: Event<P, L>): seq<string>
  {
    if ev.Saved? then [ev.path] else []
  }

  /** The batches passed to `train_step`, in order. */
  function TrainedBatches<P, L>(evs: seq<Event<P, L>>): seq<seq<Example>>
  {
    Collect(TrainedOf, evs)
  }

  /** The batch indices whose loss was printed, in order. */
  function LoggedBatches<P, L>(evs: seq<Event<P, L>>): seq<nat>
  {
    Collect(LoggedOf, evs)
  }

  /** The checkpoint files written, in order. */
  function SavedPaths<P, L>(evs: seq<Event<P, L>>): seq<string>
  {
    Collect(SavedOf, evs)
  }

  /** The batch indices below `k` divisible by 100, in increasing order. */
  function LogPoints(k: nat): seq<nat>
  {
    if k == 0 then [] else LogPoints(k - 1) + (if (k - 1) % LogEvery == 0 then [k - 1] else [])
  }

  /** `LogPoints(k)` holds exactly the multiples of 100 below `k`, increasing. */
  lemma {:induction false} LogPointsAreMultiples(k: nat)
    ensures forall b :: b in LogPoints(k) <==> 0 <= b < k && b % LogEvery == 0
    ensures forall i, j :: 0 <= i < j < |LogPoints(k)| ==> LogPoints(k)[i] < LogPoints(k)[j]
  {
    if k > 0 {
      LogPointsAreMultiples(k - 1);
      var prev := LogPoints(k - 1);
      var extra := if (k - 1) % LogEvery == 0 then [k - 1] else [];
      assert LogPoints(k) == prev + extra;
      forall b: nat
        ensures b in LogPoints(k) <==> 0 <= b < k && b % LogEvery == 0
      {
        assert b in prev + extra <==> b in prev || b in extra;
        assert b in extra <==> b == k - 1 && (k - 1) % LogEvery == 0;
      }
      forall i, j | 0 <= i < j < |LogPoints(k)|
        ensures LogPoints(k)[i] < LogPoints(k)[j]
      {
        if j >= |prev| {
          assert LogPoints(k)[j] == k - 1;
          assert LogPoints(k)[i] == prev[i] && prev[i] in prev;
        }
      }
    }
  }

  /** The events of one batch: one `train_step` call, a printed loss exactly
      when the index is a multiple of 100, no checkpoint. */
  lemma BatchEventsShape<P, L>(e: nat, b: nat, batch: seq<Example>, loss: L)
    ensures TrainedBatches(BatchEvents<P, L>(e, b, batch, loss)) == [batch]
    ensures LoggedBatches(BatchEvents<P, L>(e, b, batch, loss)) == (if b % LogEvery == 0 then [b] else [])
    ensures SavedPaths(BatchEvents<P, L>(e, b, batch, loss)) == []
  {
    var t: Event<P, L> := Trained(e, b, batch);
    CollectOne(TrainedOf, t);
    CollectOne(LoggedOf, t);
    CollectOne(SavedOf, t);
    if b % LogEvery == 0 {
      var l: Event<P, L> := Logged(e + 1, b, loss);
      CollectOne(TrainedOf, l);
      CollectOne(LoggedOf, l);
      CollectOne(SavedOf, l);
      CollectConcat(TrainedOf, [t], [l]);
      CollectConcat(LoggedOf, [t], [l]);
      CollectConcat(SavedOf, [t], [l]);
    } else {
      assert BatchEvents<P, L>(e, b, batch, loss) == [t];
    }
  }

  /** Every batch holds exactly 64 examples. */
  predicate FullBatches(bs: seq<seq<Example>>)
  {
    forall b :: 0 <= b < |bs| ==> |bs[b]| == BatchSize
  }

  /** Appending one batch's events to a log adds that batch to the trained
      ones, its index to the logged ones when divisible by 100, and no checkpoint. */
  lemma BatchStep<P, L>(evs: seq<Event<P, L>>, e: nat, b: nat, batch: seq<Example>, loss: L)
    ensures TrainedBatches(evs + BatchEvents(e, b, batch, loss)) == TrainedBatches(evs) + [batch]
    ensures LoggedBatches(evs + BatchEvents(e, b, batch, loss))
            == LoggedBatches(evs) + (if b % LogEvery == 0 then [b] else [])
    ensures SavedPaths(evs + BatchEvents(e, b, batch, loss)) == SavedPaths(evs)
  {
    var step := BatchEvents<P, L>(e, b, batch, loss);
    BatchEventsShape<P, L>(e, b, batch, loss);
    CollectConcat(TrainedOf, evs, step);
    CollectConcat(LoggedOf, evs, step);
    CollectConcat(SavedOf, evs, step);
    assert SavedPaths(evs) + [] == SavedPaths(evs);
  }

  /** The first `k` batches of an epoch go through `train_step` in order, one
      call each. */
  lemma {:induction false} BatchRunTrains<P, L, S>(m: Model<P, L, S>, w: P, e: nat, bs: seq<seq<Example>>, k: nat)
    requires k <= |bs|
    ensures TrainedBatches(BatchRun(m, w, e, bs, k).1) == bs[..k]
    decreases k
  {
    if k > 0 {
      BatchRunTrains(m, w, e, bs, k - 1);
      var prev := BatchRun(m, w, e, bs, k - 1);
      var out := m.trainStep(prev.0, bs[k - 1]);
      BatchStep(prev.1, e, k - 1, bs[k - 1], out.1);
      assert bs[..k] == bs[..k - 1] + [bs[k - 1]];
    }
  }

  /** Among the first `k` batches of an epoch, the loss is printed exactly for
      those whose index is a multiple of 100. */
  lemma {:induction false} BatchRunLogs<P, L, S>(m: Model<P, L, S>, w: P, e: nat, bs: seq<seq<Example>>, k: nat)
    requires k <= |bs|
    ensures LoggedBatches(BatchRun(m, w, e, bs, k).1) == LogPoints(k)
    decreases k
  {
    if k > 0 {
      BatchRunLogs(m, w, e, bs, k - 1);
      var prev := BatchRun(m, w, e, bs, k - 1);
      var out := m.trainStep(prev.0, bs[k - 1]);
      BatchStep(prev.1, e, k - 1, bs[k - 1], out.1);
    }
  }

  /** Training on batches writes no checkpoint. */
  lemma {:induction false} BatchRunSavesNothing<P, L, S>(m: Model<P, L, S>, w: P, e: nat, bs: seq<seq<Example>>, k: nat)
    requires k <= |bs|
    ensures SavedPaths(BatchRun(m, w, e, bs, k).1) == []
    decreases k
  {
    if k > 0 {
      BatchRunSavesNothing(m, w, e, bs, k - 1);
      var prev := BatchRun(m, w, e, bs, k - 1);
      var out := m.trainStep(prev.0, bs[k - 1]);
      BatchStep(prev.1, e, k - 1, bs[k - 1], out.1);
    }
  }

  /** Prediction attempts write no checkpoint and train nothing. */
  lemma {:induction false} PredictionsQuiet<P, L>(evs: seq<Event<P, L>>)
    requires forall i :: 0 <= i < |evs| ==> evs[i].Predicted?
    ensures TrainedBatches(evs) == [] && LoggedBatches(evs) == [] && SavedPaths(evs) == []
  {
    if evs != [] {
      PredictionsQuiet(evs[1..]);
    }
  }

  /** The views of an epoch's log: two checkpoints, then the batches' events,
      then prediction attempts, which train, log and save nothing. */
  lemma EpochViews<P, L>(saves: seq<Event<P, L>>, run: seq<Event<P, L>>, preds: seq<Event<P, L>>)
    requires |saves| == 2 && saves[0].Saved? && saves[1].Saved?
    requires forall i :: 0 <= i < |preds| ==> preds[i].Predicted?
    ensures TrainedBatches(saves + run + preds) == TrainedBatches(run)
    ensures LoggedBatches(saves + run + preds) == LoggedBatches(run)
    ensures SavedPaths(saves + run + preds) == [saves[0].path, saves[1].path] + SavedPaths(run)
  {
    PredictionsQuiet(preds);
    assert saves == [saves[0]] + [saves[1]];
    CollectConcat(TrainedOf, saves + run, preds);
    CollectConcat(TrainedOf, saves, run);
    CollectConcat(TrainedOf, [saves[0]], [saves[1]]);
    CollectOne(TrainedOf, saves[0]);
    CollectOne(TrainedOf, saves[1]);
    CollectConcat(LoggedOf, saves + run, preds);
    CollectConcat(LoggedOf, saves, run);
    CollectConcat(LoggedOf, [saves[0]], [saves[1]]);
    CollectOne(LoggedOf, saves[0]);
    CollectOne(LoggedOf, saves[1]);
    CollectConcat(SavedOf, saves + run, preds);
    CollectConcat(SavedOf, saves, run);
    CollectConcat(SavedOf, [saves[0]], [saves[1]]);
    CollectOne(SavedOf, saves[0]);
    CollectOne(SavedOf, saves[1]);
  }

  /** Epoch `e` first saves `encoder_{e+1}.h5` and `decoder_{e+1}.h5` with the
      weights it starts from, and writes no other checkpoint, whatever its
      predictions raise. */
  lemma EpochSaves<P, L, S>(m: Model<P, L, S>, w: P, setup: Setup, e: nat, perm: seq<nat>, pick: nat)
    requires IsPermutation(perm, |setup.data|)
    ensures EpochRun(m, w, setup, e, perm, pick).1[..2]
            == [Saved(CheckpointName(EncoderDir, e), w), Saved(CheckpointName(DecoderDir, e), w)]
    ensures SavedPaths(EpochRun(m, w, setup, e, perm, pick).1) == [CheckpointName(EncoderDir, e), CheckpointName(DecoderDir, e)]
  {
    var bs := Batches(setup.data, perm);
    var saves: seq<Event<P, L>> := [Saved(CheckpointName(EncoderDir, e), w), Saved(CheckpointName(DecoderDir, e), w)];
    var run := BatchRun(m, w, e, bs, |bs|);
    EpochRunUnfold(m, w, setup, e, perm, pick);
    BatchRunSavesNothing(m, w, e, bs, |bs|);
    EpochViews(saves, run.1, Predictions(m, run.0, setup, pick));
    assert [saves[0].path, saves[1].path] + [] == [CheckpointName(EncoderDir, e), CheckpointName(DecoderDir, e)];
  }

  /** Epoch `e` runs exactly `N div 64` batches of 64 examples each, the
      shuffled batches in order, whatever its predictions raise. */
  lemma EpochTrains<P, L, S>(m: Model<P, L, S>, w: P, setup: Setup, e: nat, perm: seq<nat>, pick: nat)
    requires IsPermutation(perm, |setup.data|)
    ensures TrainedBatches(EpochRun(m, w, setup, e, perm, pick).1) == Batches(setup.data, perm)
    ensures |TrainedBatches(EpochRun(m, w, setup, e, perm, pick).1)| == |setup.data| / BatchSize
    ensures FullBatches(TrainedBatches(EpochRun(m, w, setup, e, perm, pick).1))
  {
    var bs := Batches(setup.data, perm);
    var saves: seq<Event<P, L>> := [Saved(CheckpointName(EncoderDir, e), w), Saved(CheckpointName(DecoderDir, e), w)];
    var run := BatchRun(m, w, e, bs, |bs|);
    EpochRunUnfold(m, w, setup, e, perm, pick);
    BatchRunTrains(m, w, e, bs, |bs|);
    assert bs[..|bs|] == bs;
    EpochViews(saves, run.1, Predictions(m, run.0, setup, pick));
  }

  /** Epoch `e` prints the loss exactly at the batch indices divisible by 100. */
  lemma EpochLogs<P, L, S>(m: Model<P, L, S>, w: P, setup: Setup, e: nat, perm: seq<nat>, pick: nat)
    requires IsPermutation(perm, |setup.data|)
    ensures LoggedBatches(EpochRun(m, w, setup, e, perm, pick).1) == LogPoints(|setup.data| / BatchSize)
  {
    var bs := Batches(setup.data, perm);
    var saves: seq<Event<P, L>> := [Saved(CheckpointName(EncoderDir, e), w), Saved(CheckpointName(DecoderDir, e), w)];
    var run := BatchRun(m, w, e, bs, |bs|);
    EpochRunUnfold(m, w, setup, e, perm, pick);
    BatchRunLogs(m, w, e, bs, |bs|);
    EpochViews(saves, run.1, Predictions(m, run.0, setup, pick));
  }

  /** The checkpoint files of the first `k` epochs: the encoder's and then the
      decoder's for each epoch in turn. */
  function SavePlan(k: nat): (paths: seq<string>)
    ensures |paths| == 2 * k
  {
    if k == 0 then [] else SavePlan(k - 1) + [CheckpointName(EncoderDir, k - 1), CheckpointName(DecoderDir, k - 1)]
  }

  /** Slot `2e` of the plan is epoch `e`'s encoder file, slot `2e + 1` its
      decoder file. */
  lemma {:induction false} SavePlanAt(k: nat, e: nat)
    requires e < k
    ensures SavePlan(k)[2 * e] == CheckpointName(EncoderDir, e)
    ensures SavePlan(k)[2 * e + 1] == CheckpointName(DecoderDir, e)
  {
    if e < k - 1 {
      SavePlanAt(k - 1, e);
    }
  }

  /** The file at slot `i` of the plan. */
  lemma PlanSlot(k: nat, i: nat)
    requires i < 2 * k
    ensures SavePlan(k)[i] == CheckpointName(if i % 2 == 0 then EncoderDir else DecoderDir, i / 2)
  {
    SavePlanAt(k, i / 2);
  }

  lemma PlanSlotsDiffer(k: nat, i: nat, j: nat)
    requires i < j < 2 * k
    ensures SavePlan(k)[i] != SavePlan(k)[j]
  {
    PlanSlot(k, i);
    PlanSlot(k, j);
    if i % 2 == 0 && j % 2 == 0 {
      CheckpointNamesDistinct(EncoderDir, i / 2, j / 2);
    } else if i % 2 == 1 && j % 2 == 1 {
      CheckpointNamesDistinct(DecoderDir, i / 2, j / 2);
    } else if i % 2 == 0 {
      EncoderDecoderNamesDiffer(i / 2, j / 2);
    } else {
      EncoderDecoderNamesDiffer(j / 2, i / 2);
    }
  }

  /** No checkpoint file is written twice in a run. */
  lemma SavePlanDistinct(k: nat)
    ensures forall i, j :: 0 <= i < j < 2 * k ==> SavePlan(k)[i] != SavePlan(k)[j]
  {
    forall i, j | 0 <= i < j < 2 * k
      ensures SavePlan(k)[i] != SavePlan(k)[j]
    {
      PlanSlotsDiffer(k, i, j);
    }
  }

  /** Each of the first `k` epochs writes exactly its own two checkpoints. */
  ghost predicate SavesEachEpoch<P(!new), L>(epoch: (P, nat) -> (P, seq<Event<P, L>>), k: nat)
  {
    forall v: P, e: nat :: e < k ==>
      SavedPaths(epoch(v, e).1) == [CheckpointName(EncoderDir, e), CheckpointName(DecoderDir, e)]
  }

  /** Each of the first `k` epochs makes `n` `train_step` calls on 64 examples. */
  ghost predicate TrainsEachEpoch<P(!new), L>(epoch: (P, nat) -> (P, seq<Event<P, L>>), k: nat, n: nat)
  {
    forall v: P, e: nat :: e < k ==>
      |TrainedBatches(epoch(v, e).1)| == n && FullBatches(TrainedBatches(epoch(v, e).1))
  }

  /** A run whose epochs each save their own checkpoints saves them all, in
      epoch order. */
  lemma {:induction false} RunSaves<P(!new), L>(epoch: (P, nat) -> (P, seq<Event<P, L>>), w: P, k: nat)
    requires SavesEachEpoch(epoch, k)
    ensures SavedPaths(TrainRun(epoch, w, k).1) == SavePlan(k)
    decreases k
  {
    if k > 0 {
      RunSaves(epoch, w, k - 1);
      var prev := TrainRun(epoch, w, k - 1);
      var next := epoch(prev.0, k - 1);
      CollectConcat(SavedOf, prev.1, next.1);
      assert SavePlan(k) == SavePlan(k - 1) + [CheckpointName(EncoderDir, k - 1), CheckpointName(DecoderDir, k - 1)];
    }
  }

  /** A run of `k` epochs of `n` full batches each trains on `k * n` full batches. */
  lemma {:induction false} RunSteps<P(!new), L>(epoch: (P, nat) -> (P, seq<Event<P, L>>), w: P, k: nat, n: nat)
    requires TrainsEachEpoch(epoch, k, n)
    ensures |TrainedBatches(TrainRun(epoch, w, k).1)| == k * n
    ensures FullBatches(TrainedBatches(TrainRun(epoch, w, k).1))
    decreases k
  {
    if k > 0 {
      RunSteps(epoch, w, k - 1, n);
      var prev := TrainRun(epoch, w, k - 1);
      var next := epoch(prev.0, k - 1);
      CollectConcat(TrainedOf, prev.1, next.1);
      AllBatchesFull(TrainedBatches(prev.1), TrainedBatches(next.1));
      OneMoreEpoch(k, n);
    }
  }

  /** Every one of the first `k` epochs saves its two checkpoints, in epoch
      order, whether or not its predictions raised. */
  lemma TrainRunSaves<P(!new), L, S>(m: Model<P, L, S>, w: P, setup: Setup,
                               perms: seq<seq<nat>>, picks: seq<nat>, k: nat)
    requires k <= |perms| && k <= |picks| && Shuffles(perms, |setup.data|)
    ensures SavedPaths(TrainRun(EpochOf(m, setup, perms, picks), w, k).1) == SavePlan(k)
  {
    var epoch := EpochOf(m, setup, perms, picks);
    forall v: P, e: nat | e < k
      ensures SavedPaths(epoch(v, e).1) == [CheckpointName(EncoderDir, e), CheckpointName(DecoderDir, e)]
    {
      EpochSaves(m, v, setup, e, perms[e], picks[e]);
    }
    RunSaves(epoch, w, k);
  }

  /** With a dataset of `N` examples a run of `k` epochs calls `train_step`
      exactly `k * (N div 64)` times, each time on 64 examples. */
  lemma TrainRunSteps<P(!new), L, S>(m: Model<P, L, S>, w: P, setup: Setup,
                               perms: seq<seq<nat>>, picks: seq<nat>, k: nat)
    requires k <= |perms| && k <= |picks| && Shuffles(perms, |setup.data|)
    ensures |TrainedBatches(TrainRun(EpochOf(m, setup, perms, picks), w, k).1)| == k * (|setup.data| / BatchSize)
    ensures FullBatches(TrainedBatches(TrainRun(EpochOf(m, setup, perms, picks), w, k).1))
  {
    var epoch := EpochOf(m, setup, perms, picks);
    forall v: P, e: nat | e < k
      ensures |TrainedBatches(epoch(v, e).1)| == |setup.data| / BatchSize
      ensures FullBatches(TrainedBatches(epoch(v, e).1))
    {
      EpochTrains(m, v, setup, e, perms[e], picks[e]);
    }
    RunSteps(epoch, w, k, |setup.data| / BatchSize);
  }

  lemma OneMoreEpoch(k: nat, n: nat)
    requires k > 0
    ensures (k - 1) * n + n == k * n
  {
  }

  lemma AllBatchesFull(a: seq<seq<Example>>, b: seq<seq<Example>>)
    requires FullBatches(a) && FullBatches(b)
    ensures FullBatches(a + b)
  {
  }

  /** `predict(text)` with weights `w`, as it runs. */
  method PredictAt<P, L, S>(m: Model<P, L, S>, w: P, setup: Setup, text: string)
    returns (r: Result<seq<string>, PredictError>)
    ensures r == PredictWith(m, w, setup, text)
  {
    r := Predict(EncoderAt(m, w), StepAt(m, w), setup.enIndex, setup.frIndex, setup.indexWord, text);
  }

  /** Lines 240-245 of `train_tf2.py` as they run: `predict()` on the drawn sentence, then,
      unless that raised, `predict("How are you today ?")`. */
  method SamplePredictions<P, L, S>(m: Model<P, L, S>, w: P, setup: Setup, pick: nat) returns (evs: seq<Event<P, L>>)
    ensures evs == Predictions(m, w, setup, pick)
  {
    if pick >= |setup.sentences| {
      return [];
    }
    var text := setup.sentences[pick];
    var first := PredictAt(m, w, setup, text);
    if first.Err? {
      return [Predicted(text, first)];
    }
    var second := PredictAt(m, w, setup, Greeting);
    evs := [Predicted(text, first), Predicted(Greeting, second)];
  }

  // ---------------------------------------------------------------------
  // The training loop
  // ---------------------------------------------------------------------

  /** The encoder and decoder weights, updated in place by `train_step`, and
      the events of the run so far. */
  class Trainer<P, L, S> {
    const model: Model<P, L, S>
    var weights: P
    var log: seq<Event<P, L>>

    constructor(model: Model<P, L, S>, weights: P)
      ensures this.model == model && this.weights == weights && log == []
    {
      this.model := model;
      this.weights := weights;
      log := [];
    }

    /** Lines 234-238 of `train_tf2.py`: one pass over the batches of epoch `e`. */
    method TrainBatches(e: nat, bs: seq<seq<Example>>)
      modifies this
      ensures weights == BatchRun(model, old(weights), e, bs, |bs|).0
      ensures log == old(log) + BatchRun(model, old(weights), e, bs, |bs|).1
    {
      ghost var w0, log0 := weights, log;
      var batch := 0;
      while batch < |bs|
        invariant 0 <= batch <= |bs|
        invariant weights == BatchRun(model, w0, e, bs, batch).0
        invariant log == log0 + BatchRun(model, w0, e, bs, batch).1
      {
        ghost var before := log;
        var out := model.trainStep(weights, bs[batch]);
        weights := out.0;
        log := log + [Trained(e, batch, bs[batch])];
        if batch % LogEvery == 0 {
          log := log + [Logged(e + 1, batch, out.1)];
        }
        assert log == before + BatchEvents(e, batch, bs[batch], out.1);
        batch := batch + 1;
      }
    }

    /** Lines 240-245 of `train_tf2.py`: the sample translations with the current weights. */
    method PredictSamples(setup: Setup, pick: nat)
      modifies this
      ensures weights == old(weights)
      ensures log == old(log) + Predictions(model, weights, setup, pick)
    {
      var evs := SamplePredictions(model, weights, setup, pick);
      log := log + evs;
    }

    /** Lines 230-245 of `train_tf2.py`: one epoch with shuffle `perm` and draw `pick`. */
    method RunEpoch(setup: Setup, e: nat, perm: seq<nat>, pick: nat)
      requires IsPermutation(perm, |setup.data|)
      modifies this
      ensures weights == EpochRun(model, old(weights), setup, e, perm, pick).0
      ensures log == old(log) + EpochRun(model, old(weights), setup, e, perm, pick).1
    {
      ghost var w0, log0 := weights, log;
      var saves := [Saved(CheckpointName(EncoderDir, e), weights), Saved(CheckpointName(DecoderDir, e), weights)];
      log := log + saves;
      var bs := Batches(setup.data, perm);
      TrainBatches(e, bs);
      ghost var run := BatchRun(model, w0, e, bs, |bs|);
      PredictSamples(setup, pick);
      EpochRunUnfold(model, w0, setup, e, perm, pick);
      ConcatAssoc4(log0, saves, run.1, Predictions(model, run.0, setup, pick));
    }

    /** Lines 228-245 of `train_tf2.py`: fifteen epochs, epoch `e` shuffled by `perms[e]` and
        drawing `picks[e]`; `np.random.choice` only draws indices of sentences. */
    method Train(setup: Setup, perms: seq<seq<nat>>, picks: seq<nat>)
      requires |perms| == NumEpochs && |picks| == NumEpochs && Shuffles(perms, |setup.data|)
      requires |setup.sentences| > 0 ==> forall e :: 0 <= e < |picks| ==> picks[e] < |setup.sentences|
      modifies this
      ensures weights == TrainRun(EpochOf(model, setup, perms, picks), old(weights), NumEpochs).0
      ensures log == old(log) + TrainRun(EpochOf(model, setup, perms, picks), old(weights), NumEpochs).1
    {
      ghost var w0, log0 := weights, log;
      ghost var epochs := EpochOf(model, setup, perms, picks);
      for e := 0 to NumEpochs
        invariant weights == TrainRun(epochs, w0, e).0
        invariant log == log0 + TrainRun(epochs, w0, e).1
      {
        ghost var prev := TrainRun(epochs, w0, e);
        ghost var epoch := epochs(weights, e);
        assert epoch == EpochRun(model, weights, setup, e, perms[e], picks[e]);
        RunEpoch(setup, e, perms[e], picks[e]);
        assert log == (log0 + prev.1) + epoch.1;
        ConcatAssoc(log0, prev.1, epoch.1);
      }
    }
  }
}
