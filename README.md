# English–French sequence-to-sequence trainer, modelled in Dafny

This project models the core of `machine_translation/train_tf2.py`, a script that trains an
LSTM encoder–decoder on the Anki `fra-eng` sentence pairs. It covers four parts:

- **Sentence normaliser** (`normalize.dfy`): `unicode_to_ascii` (NFD decomposition, then
  the nonspacing marks are dropped) and `normalize_string`'s three regular-expression
  substitutions. Each substitution is written out character by character.
- **Corpus preparation** (`corpus.dfy`): the file is split into rows; `zip(*raw_data)` and
  its two-name unpacking become `Unzip`, whose error cases are modelled. Then come the
  `<start>`/`<end>` teacher-forcing texts, `texts_to_sequences` with a fitted vocabulary,
  `pad_sequences(padding='post')` and the padding mask of `loss_func`.
- **Greedy decoding** (`decoding.dfy`): `predict`'s `while True` loop, as a method proved
  against a recursive specification. It stops at `<end>` or at twenty words. The
  `KeyError`s it can raise are part of the result.
- **Training schedule** (`training.dfy`):
  - the per-epoch shuffle and `batch(64, drop_remainder=True)`;
  - the two checkpoint files saved at the start of every epoch;
  - the `train_step` loop that prints the loss every hundred batches;
  - the two sample translations, whose exceptions end the epoch quietly.

  A class `Trainer` holds the weights and the log of observable events. Its methods
  update them in place, and each method is proved equal to a function of the old state.

`seqs.dfy` holds the shared sequence helpers: Python's filtering comprehension,
`str.split`/`str.join`, and a flattening map used for views of the event log.

The neural network is abstract. A `Model` value holds three functions:

- `trainStep`: weights and a batch to new weights and a loss;
- `encode`: the encoder on a source row;
- `decodeStep`: one decoder call followed by the argmax.

The Unicode tables (`unicodedata.normalize('NFD', ·)` and `unicodedata.category`) are
fields of a `UnicodeData` parameter. The shuffles (one permutation per epoch) and the
random sentence draws are parameters too.

## Model

| member | source | states |
|---|---|---|
| Normalize.UnicodeToAscii | machine_translation/train_tf2.py:54-58 | the result keeps exactly the characters of the decomposition whose category is not `Mn`, and no others |
| Normalize.SpacePunct | machine_translation/train_tf2.py:63 | every `.`, `!`, `?` gets one space in front: the length grows by the number of marks, each mark is preceded by a space, the first character follows from the input's first, the last is unchanged |
| Normalize.SpacePunctAddsOnlySpaces | machine_translation/train_tf2.py:63 | the substitution inserts only spaces: any filter that rejects spaces sees the same text before and after |
| Normalize.SpacePunctConcat | machine_translation/train_tf2.py:63 | the substitution of a concatenation is the concatenation of the substitutions, so every character other than an inserted space stays in place |
| Normalize.SpacePunctChar | machine_translation/train_tf2.py:63 | a single mark becomes a space followed by the mark, any other single character is kept |
| Normalize.Collapse | machine_translation/train_tf2.py:64-65 | a run replacement outputs only spaces and characters outside the class that occur in the input; with a class containing the space it never outputs two spaces in a row; it starts and ends as the regular expression dictates |
| Normalize.CollapseSkipsRun | machine_translation/train_tf2.py:64-65 | inside an open run, the rest of the run produces nothing |
| Normalize.SubRunsRun | machine_translation/train_tf2.py:64-65 | a maximal run of class characters at the front becomes one space, and the substitution continues after it |
| Normalize.SubRunsCopy | machine_translation/train_tf2.py:64-65 | a character outside the class is copied, whatever follows it |
| Normalize.CollapseCopiesPrefix | machine_translation/train_tf2.py:64-65 | a stretch of characters outside the class is copied unchanged, whatever follows it |
| Normalize.SubRunsStep | machine_translation/train_tf2.py:64-65 | the `re.sub(C+, ' ', s)` step: the characters before the first run are copied, the maximal run becomes one space, and the substitution goes on after the run |
| Normalize.SubRunsBetween | machine_translation/train_tf2.py:64-65 | a run between two stretches outside the class becomes exactly one space, and nothing else changes |
| Normalize.SpacePunctNoMarks | machine_translation/train_tf2.py:63 | a text without `.`, `!`, `?` is left unchanged |
| Normalize.NormalizeStringJoinsWords | machine_translation/train_tf2.py:61-66 | an accent-stripped input made of two letter words separated by characters outside `[a-zA-Z.!?]` comes out as the two words with exactly one space between them |
| Normalize.WhitespaceRunsNoop | machine_translation/train_tf2.py:65 | text of letters, marks and single spaces has nothing for `\s+` to change |
| Normalize.Line65Noop | machine_translation/train_tf2.py:64-65 | after the substitution of line 64, the substitution of line 65 changes nothing |
| Normalize.CollapseKeepsPunctSpaced | machine_translation/train_tf2.py:63-64 | a mark that follows a character of `[^a-zA-Z.!?]` (such as the space line 63 inserted) is still preceded by a space after line 64 replaces that character's run |
| Normalize.NormalizeStringNormalized | machine_translation/train_tf2.py:61-66 | every output consists of letters, marks and single spaces, and each mark follows a space |
| Normalize.CollapseKeepsKept | machine_translation/train_tf2.py:64 | with its spaces deleted, the output of line 64 is the input filtered to `[a-zA-Z.!?]` |
| Normalize.NormalizeStringKeepsOrder | machine_translation/train_tf2.py:61-66 | with its spaces deleted, the output is exactly the accent-stripped input filtered to `[a-zA-Z.!?]`, in order |
| Normalize.NormalizeStringNoTrim | machine_translation/train_tf2.py:61-66 | nothing is trimmed: an accent-stripped input starting with a non-letter gives an output starting with a space, one starting with a letter keeps that letter first, and an accent-stripped input ending outside `[a-zA-Z.!?]` gives an output ending with a space |
| Normalize.RespaceNormalized | machine_translation/train_tf2.py:63-64 | on already normalised text, line 64 undoes the spaces line 63 added |
| Normalize.NormalizeFixesNormalized | machine_translation/train_tf2.py:61-66 | a normalised ASCII string is a fixed point of the normaliser, given tables that leave ASCII alone |
| Normalize.NormalizeStringIdempotent | machine_translation/train_tf2.py:61-66 | normalising twice gives the same result as normalising once |
| Normalize.IsWhitespace | machine_translation/train_tf2.py:65 | the characters of Python's `\s` for `str` patterns; its use in line 65 is stated by `WhitespaceRunsNoop` and `Line65Noop` |
| Normalize.SubRuns | machine_translation/train_tf2.py:64-65 | `re.sub(C + '+', ' ', s)` for a class `C`: `Collapse` from outside a run, whose behaviour `SubRunsRun`, `SubRunsCopy`, `SubRunsStep` and `SubRunsBetween` state |
| Normalize.NormalizeString | machine_translation/train_tf2.py:61-66 | `normalize_string`: the two substitutions of runs after the mark spacing after `unicode_to_ascii`, whose output `NormalizeStringNormalized`, `NormalizeStringKeepsOrder`, `NormalizeStringNoTrim`, `NormalizeStringJoinsWords` and `NormalizeStringIdempotent` describe |
| Seqs.Filter | machine_translation/train_tf2.py:55-58 | the filtered text has only elements satisfying the predicate, and all of them |
| Seqs.FilterConcat | machine_translation/train_tf2.py:55-58 | filtering distributes over concatenation |
| Seqs.Split | machine_translation/train_tf2.py:47-48 | `split(d)` gives one more piece than there are separators, and no piece contains the separator |
| Seqs.JoinSplit | machine_translation/train_tf2.py:47-48 | joining the pieces with the separator gives back the text |
| Seqs.SplitJoin | machine_translation/train_tf2.py:47-48 | splitting undoes joining pieces that do not contain the separator |
| Corpus.Rows | machine_translation/train_tf2.py:46-51 | one row per newline in the file (the piece after the last newline is dropped), each row the line split on tabs |
| Corpus.ReadRows | machine_translation/train_tf2.py:46-51 | the append loop builds exactly those rows |
| Corpus.MinFields | machine_translation/train_tf2.py:69 | the field count of the shortest row: no row has fewer, and some row has exactly that many |
| Corpus.Unzip | machine_translation/train_tf2.py:69 | the unpacking succeeds exactly when there are rows, every row has at least two fields and some row has exactly two; then the columns are the first and second fields; it fails with too many values exactly when every row has more than two |
| Corpus.Words | machine_translation/train_tf2.py:76-78 | the tokenizer's words are non-empty and contain no space |
| Corpus.WordsAround | machine_translation/train_tf2.py:71-72 | a space separates words: the words of `a + " " + b` are those of `a` followed by those of `b` |
| Corpus.DecoderInput | machine_translation/train_tf2.py:71 | `<start> ` in front of a normalised French sentence; its words and indices are stated by `TeacherForcingWords` and `TeacherForcingIndices` |
| Corpus.DecoderTarget | machine_translation/train_tf2.py:72 | ` <end>` behind a normalised French sentence; its words and indices are stated by `TeacherForcingWords` and `TeacherForcingIndices` |
| Corpus.TeacherForcingWords | machine_translation/train_tf2.py:71-72 | the decoder input is `<start>` then the sentence's words, the target is the words then `<end>`, and the input shifted by one is the target without its last word |
| Corpus.IndexWord | machine_translation/train_tf2.py:206 | the `fr_tokenizer.index_word` lookup: `index_word` is the inverse of `word_index` in both directions, and index 0, kept for padding, has no word |
| Corpus.Encode | machine_translation/train_tf2.py:78 | the indices are those of the vocabulary, at most one per word; with every word in the vocabulary, exactly one per word, in order |
| Corpus.EncodeConcat | machine_translation/train_tf2.py:78 | encoding works word by word: the indices of two word lists put together are those of each, put together |
| Corpus.Tokenize | machine_translation/train_tf2.py:78-91 | `texts_to_sequences` on a column: one row per text, row `i` the encoding of text `i`'s words |
| Corpus.TeacherForcingIndices | machine_translation/train_tf2.py:71-72 | for any vocabulary holding the markers, the decoder input and target rows have the same length, one more than the sentence's indices (one more than its words when every word is known), start with `<start>`'s index and end with `<end>`'s index respectively, and the input shifted by one is the target without its last index |
| Corpus.MaxLen | machine_translation/train_tf2.py:79-80 | the padding width is the length of the longest row |
| Corpus.PadRow | machine_translation/train_tf2.py:79-80 | a padded row keeps the row as its prefix and is zero after it |
| Corpus.PadPost | machine_translation/train_tf2.py:79-94 | every row is post-padded with zeros to the longest row's length |
| Corpus.SameLengthsSameWidth | machine_translation/train_tf2.py:87-94 | columns whose rows agree in length pad to the same width |
| Corpus.StripTrailingZeros | machine_translation/train_tf2.py:79-80 | the row without its trailing zeros |
| Corpus.StripPadded | machine_translation/train_tf2.py:79-80 | stripping the padding recovers a row that does not end in 0 |
| Corpus.PadRoundTrip | machine_translation/train_tf2.py:76-80 | a tokenised row of known words is recovered whole from its padded form, and `index_word` turns it back into the words |
| Corpus.Mask | machine_translation/train_tf2.py:160-161 | the mask is 1 exactly where the target index is not 0 |
| Corpus.MaskOfPadded | machine_translation/train_tf2.py:160-161 | on a padded row of real indices, the mask covers the row and none of the padding |
| Corpus.SourceTexts | machine_translation/train_tf2.py:70 | the English column normalised, one text per sentence |
| Corpus.InputTexts | machine_translation/train_tf2.py:71 | the French column normalised with `<start> ` in front, one text per sentence |
| Corpus.TargetTexts | machine_translation/train_tf2.py:72 | the French column normalised with ` <end>` behind, one text per sentence |
| Corpus.Examples | machine_translation/train_tf2.py:70-97 | the dataset of `from_tensor_slices((data_en, data_fr_in, data_fr_out))`: one example per sentence pair, with contents given by `ExampleAt` |
| Corpus.ExampleShapes | machine_translation/train_tf2.py:79-97 | for any target vocabulary holding the markers, all source rows share one width, and all decoder input and target rows share another |
| Corpus.Prepare | machine_translation/train_tf2.py:46-97 | a successful preparation yields one example per row of the file |
| Corpus.ExampleAt | machine_translation/train_tf2.py:70-97 | example `i` holds the padded rows of sentence pair `i`: the source row of the `i`-th English sentence and the decoder input and target rows of the `i`-th French sentence, each followed only by zeros |
| Corpus.PrepareAt | machine_translation/train_tf2.py:46-97 | a successful preparation builds example `i` from row `i` of the file: the source row from its first field and both decoder rows from its second |
| Decoding.Unroll | machine_translation/train_tf2.py:202-205 | the decoder steps chain: each step is fed the index and the state the previous one produced |
| Decoding.Greedy | machine_translation/train_tf2.py:202-209 | the recursive specification of the decoding loop: step, look the index up, stop at `<end>` or at the budget; `GreedySucceeds`, `GreedyFails` and `GreedyKnownIndices` state what it returns |
| Decoding.PredictSpec | machine_translation/train_tf2.py:192-209 | `predict` on a sentence: encode its words, look up `<start>`, then `Greedy` with a budget of twenty; `Predict` and `DecodeLoop` are proved against it |
| Decoding.GreedySucceeds | machine_translation/train_tf2.py:202-209 | a successful decoding has between one and twenty words, each the word of the index its step predicted, `<end>` only possibly last, and `<end>` last whenever fewer than twenty words came out |
| Decoding.GreedyFails | machine_translation/train_tf2.py:206 | a failed decoding names the first predicted index without a word, after steps that all had words other than `<end>` |
| Decoding.GreedyKnownIndices | machine_translation/train_tf2.py:206 | if every predicted index has a word, decoding succeeds |
| Decoding.DecodeLoop | machine_translation/train_tf2.py:198-209 | the `while True` loop returns exactly the recursive specification's result |
| Decoding.Predict | machine_translation/train_tf2.py:188-211 | `predict` returns the specification's result: one to twenty words, `<end>` only possibly last and last below twenty words; the `<start>` lookup is the failure exactly when `<start>` is missing |
| Training.Batches | machine_translation/train_tf2.py:98-99 | `N div 64` batches, each of exactly 64 examples |
| Training.BatchesCover | machine_translation/train_tf2.py:98-99 | shuffle position `j` below `64 * (N div 64)` lands in slot `j mod 64` of batch `j div 64`; fewer than 64 examples are dropped |
| Training.BatchesDrawOnce | machine_translation/train_tf2.py:98-99 | no example is drawn twice in one epoch |
| Training.Decimal | machine_translation/train_tf2.py:231-232 | `format` writes at least one decimal digit, with a leading zero only for 0 |
| Training.DecimalRoundTrip | machine_translation/train_tf2.py:231-232 | reading the digits back gives the number |
| Training.CheckpointName | machine_translation/train_tf2.py:231-232 | the file name is `checkpoints/<kind>/<kind>_`, then the decimal epoch number counted from 1, then `.h5` |
| Training.CheckpointNamesDistinct | machine_translation/train_tf2.py:231-232 | different epochs save to different files |
| Training.EncoderDecoderNamesDiffer | machine_translation/train_tf2.py:231-232 | encoder and decoder checkpoints never share a file |
| Training.Predictions | machine_translation/train_tf2.py:240-245 | the sample translations produce only prediction events |
| Training.LogPointsAreMultiples | machine_translation/train_tf2.py:237-238 | the printed batch indices are exactly the multiples of 100 below the batch count, increasing |
| Training.BatchEventsShape | machine_translation/train_tf2.py:234-238 | one batch is one `train_step` call, a printed loss exactly when its index is a multiple of 100, and no checkpoint |
| Training.BatchStep | machine_translation/train_tf2.py:234-238 | appending one batch's events adds that batch to the trained ones and its index to the printed ones when divisible by 100 |
| Training.BatchRunTrains | machine_translation/train_tf2.py:234-235 | the batches go through `train_step` in order, one call each |
| Training.BatchRunLogs | machine_translation/train_tf2.py:237-238 | the loss is printed exactly for the batches whose index is a multiple of 100 |
| Training.BatchRunSavesNothing | machine_translation/train_tf2.py:234-238 | training on batches writes no checkpoint |
| Training.PredictionsQuiet | machine_translation/train_tf2.py:240-245 | prediction attempts train, print and save nothing |
| Training.BatchEvents | machine_translation/train_tf2.py:234-238 | the events of one batch: its `train_step` call and, at a multiple of 100, the printed loss, as `BatchEventsShape` states |
| Training.BatchRun | machine_translation/train_tf2.py:234-238 | the batch loop of one epoch: the weights and events after the first `k` batches, described by `BatchRunTrains`, `BatchRunLogs` and `BatchRunSavesNothing` |
| Training.PredictWith | machine_translation/train_tf2.py:188-211 | `predict` with the weights `w`, the network calls taken from the model; `PredictAt` ties it to the decoding loop |
| Training.EpochRun | machine_translation/train_tf2.py:229-245 | one epoch: two saves, the batch loop over the shuffled batches and the sample translations; `EpochSaves`, `EpochTrains`, `EpochLogs` and `EpochViews` describe it |
| Training.EpochOf | machine_translation/train_tf2.py:229-245 | epoch `e` as a function of the weights, with the `e`-th shuffle and draw, as `TrainRun` folds it |
| Training.TrainRun | machine_translation/train_tf2.py:229 | the epoch loop: each epoch starts from the weights the previous one left; `TrainRunSaves` and `TrainRunSteps` describe it |
| Training.EpochViews | machine_translation/train_tf2.py:231-245 | an epoch's log trains and prints as its batches do; it saves its two checkpoints and nothing else |
| Training.EpochSaves | machine_translation/train_tf2.py:231-232 | epoch `e` first saves `encoder_{e+1}.h5` and `decoder_{e+1}.h5` with the weights it starts from, and writes no other checkpoint, whatever its predictions raise |
| Training.EpochTrains | machine_translation/train_tf2.py:234-235 | epoch `e` trains on exactly the shuffled batches, `N div 64` of them and each of 64 examples, whatever its predictions raise |
| Training.EpochLogs | machine_translation/train_tf2.py:237-238 | epoch `e` prints the loss exactly at the batch indices divisible by 100 |
| Training.SavePlan | machine_translation/train_tf2.py:229-232 | `k` epochs save `2k` files |
| Training.SavePlanAt | machine_translation/train_tf2.py:229-232 | slot `2e` of the plan is epoch `e`'s encoder file, slot `2e + 1` its decoder file |
| Training.SavePlanDistinct | machine_translation/train_tf2.py:229-232 | no checkpoint file is written twice in a run |
| Training.RunSaves | machine_translation/train_tf2.py:229-232 | a run whose epochs each save their own two checkpoints saves all of them, in epoch order |
| Training.RunSteps | machine_translation/train_tf2.py:229-235 | `k` epochs of `n` full batches each train on `k * n` full batches |
| Training.TrainRunSaves | machine_translation/train_tf2.py:229-245 | the first `k` epochs save exactly the planned checkpoints, in order, whether or not predictions raised |
| Training.TrainRunSteps | machine_translation/train_tf2.py:229-235 | `k` epochs call `train_step` exactly `k * (N div 64)` times, each on 64 examples |
| Training.PredictAt | machine_translation/train_tf2.py:188-211 | the prediction with the current weights is the specification's |
| Training.SamplePredictions | machine_translation/train_tf2.py:240-245 | `predict()` on the drawn sentence, then `predict("How are you today ?")` only if the first raised nothing |
| Training.Trainer.TrainBatches | machine_translation/train_tf2.py:234-238 | the batch loop leaves the weights and the log of the batch-run function |
| Training.Trainer.PredictSamples | machine_translation/train_tf2.py:240-245 | the sample translations leave the weights unchanged and append their events |
| Training.Trainer.RunEpoch | machine_translation/train_tf2.py:229-245 | one epoch leaves the weights and the log of the epoch function |
| Training.Trainer.Train | machine_translation/train_tf2.py:228-245 | given draws that index a sentence whenever there are sentences (as `np.random.choice` does), the fifteen epochs leave the weights and the log of the run function |

## Left out

- Downloading, unzipping and reading the corpus file (lines 24-44) are I/O. The model starts from the file's text.
- Printing (lines 50, 74, 81, 89, 94, 191, 193, 211, 238) is I/O. The printed loss appears as a `Logged` event; the printed translation is the result of `Predict`.
- Loading checkpoints (lines 214-226) and writing the weight files are I/O. A `Saved` event records the path and the weights.
- Saved: one event records all weights, not the encoder's and the decoder's separately, because the model does not split the weights.
- The layers, the optimiser and the loss value (lines 102-185) are floating-point TensorFlow code. They are the abstract `Model` functions.
- The argmax over the decoder's logits (line 205) is part of the abstract `decodeStep`.
- NFD decomposition and the Unicode category table are foreign data. `UnicodeData` takes them as parameters.
- Fitting the tokenizers (lines 76-77, 83-85) is left out: `word_index` is a parameter. Only `IndexWord` and `PadRoundTrip` ask it to satisfy `IsWordIndex` (distinct indices from 1 up). The decoding and training members hold for any maps. `index_word` is a `Setup` field and is not tied to `IndexWord(frIndex)`.
- Tokenizer lowercasing is left out. Words missing from the vocabulary are dropped, which is the Keras behaviour without an `oov_token`. The fixed sentence `"How are you today ?"` is passed as written.
- The randomness of `dataset.shuffle` is a parameter: one permutation per epoch, because the dataset reshuffles on every iteration.
- `np.random.choice` (line 190) is replaced by a `pick` parameter. `Train` requires every pick to index a sentence whenever there are sentences, since `np.random.choice(n)` only returns indices below `n`. `Predictions` still accepts a pick outside the sentences; with no sentences that case stands for the `ValueError` of drawing from an empty corpus.
- PadPost: on an empty column Keras raises, while the model returns no rows. This cannot be reached, because `Unzip` rejects an empty corpus.
- Prepare: its own contract states only the number of examples. The contents of each example are stated by `PrepareAt` and `ExampleAt`, and their shapes by `ExampleShapes`.
- Inference mode and the `test_sents` loop (lines 247-272) are outside the training core.
- `embeddings/skipgram/main_estimator.py` is not part of this model.

The unpacking `raw_data_en, raw_data_fr = zip(*raw_data)` does not require every row to have
exactly two fields. `zip` stops at the shortest row, so the unpacking succeeds whenever the
shortest row has exactly two fields. The extra fields of longer rows are dropped. `Unzip` models
this behaviour of the code rather than an "exactly two fields" reading.
