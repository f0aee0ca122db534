/** Greedy decoding of `predict` (`machine_translation/train_tf2.py`, lines
    188-211): the decoder is fed one index at a time,
    starting from `<start>`, and each step's predicted index becomes the next
    input, until `<end>` or twenty words.  The encoder and the decoder step
    (one decoder call followed by the argmax over its logits) are parameters. */
module Decoding {
  import opened Seqs
  import opened Corpus

  /** The word limit of the decoding loop. */
  const MaxWords: nat := 20

  /** The `KeyError`s `predict` can raise. */
  datatype PredictError =
    | MissingWord(word: string)   // `word_index['<start>']` has no entry
    | UnknownIndex(index: nat)    // `index_word[...]` has no entry for the prediction

  /** The first `n` decoder steps from `state` and input `token`: each entry is
      the index the step predicts and the state it leaves. */
  function Unroll<S>(step: (S, nat) -> (nat, S), state: S, token: nat, n: nat): (r: seq<(nat, S)>)
    ensures |r| == n
    ensures n > 0 ==> r[0] == step(state, token)
    ensures forall k :: 0 < k < n ==> r[k] == step(r[k - 1].1, r[k - 1].0)
    decreases n
  {
    if n == 0 then []
    else
      var p := step(state, token);
      [p] + Unroll(step, p.1, p.0, n - 1)
  }

  /** The words of the decoding loop when at most `budget` more words may be
      appended before the twenty-word limit. */
  function Greedy<S>(step: (S, nat) -> (nat, S), state: S, token: nat,
                     indexWord: map<nat, string>, budget: nat): Result<seq<string>, PredictError>
    requires budget >= 1
    decreases budget
  {
    var p := step(state, token);
    if p.0 !in indexWord then Err(UnknownIndex(p.0))
    else if indexWord[p.0] == EndMarker || budget == 1 then Ok([indexWord[p.0]])
    else
      match Greedy(step, p.1, p.0, indexWord, budget - 1)
      case Ok(ws) => Ok([indexWord[p.0]] + ws)
      case Err(e) => Err(e)
  }

  /** A successful decoding: between one and `budget` words, the word of each
      step's predicted index, `<end>` nowhere but possibly last, and `<end>`
      last whenever the limit was not reached. */
  lemma {:induction false} GreedySucceeds<S>(step: (S, nat) -> (nat, S), state: S, token: nat,
                                             indexWord: map<nat, string>, budget: nat)
    requires budget >= 1
    ensures var r, u := Greedy(step, state, token, indexWord, budget), Unroll(step, state, token, budget);
      r.Ok? ==>
        && 1 <= |r.value| <= budget
        && (forall i :: 0 <= i < |r.value| ==> u[i].0 in indexWord && r.value[i] == indexWord[u[i].0])
        && (forall i :: 0 <= i < |r.value| - 1 ==> r.value[i] != EndMarker)
        && (|r.value| < budget ==> r.value[|r.value| - 1] == EndMarker)
    decreases budget
  {
    var p := step(state, token);
    var u := Unroll(step, state, token, budget);
    if p.0 in indexWord && indexWord[p.0] != EndMarker && budget > 1 {
      GreedySucceeds(step, p.1, p.0, indexWord, budget - 1);
      var rest := Greedy(step, p.1, p.0, indexWord, budget - 1);
      var u' := Unroll(step, p.1, p.0, budget - 1);
      assert u == [p] + u';
      if rest.Ok? {
        var ws := [indexWord[p.0]] + rest.value;
        assert Greedy(step, state, token, indexWord, budget) == Ok(ws);
        forall i | 0 <= i < |ws|
          ensures u[i].0 in indexWord && ws[i] == indexWord[u[i].0]
        {
          if i > 0 {
            assert u[i] == u'[i - 1];
          }
        }
      }
    }
  }

  /** Step `n` of the unrolled steps `u` is the first to predict an index with
      no word, and none before it predicted `<end>`. */
  predicate FailsAt<S>(u: seq<(nat, S)>, indexWord: map<nat, string>, n: nat)
  {
    && n < |u|
    && (forall i :: 0 <= i < n ==> u[i].0 in indexWord && indexWord[u[i].0] != EndMarker)
    && u[n].0 !in indexWord
  }

  /** A failed decoding: some step `n` within the budget predicted an index with
      no word, after `n` steps that all had words other than `<end>`. */
  lemma {:induction false} GreedyFails<S>(step: (S, nat) -> (nat, S), state: S, token: nat,
                                          indexWord: map<nat, string>, budget: nat)
    requires budget >= 1
    ensures Greedy(step, state, token, indexWord, budget).Err? ==>
      exists n: nat :: FailsAt(Unroll(step, state, token, budget), indexWord, n)
        && Greedy(step, state, token, indexWord, budget).error == UnknownIndex(Unroll(step, state, token, budget)[n].0)
    decreases budget
  {
    var p := step(state, token);
    var u := Unroll(step, state, token, budget);
    if p.0 !in indexWord {
      assert u[0] == p;
      assert FailsAt(u, indexWord, 0);
      assert Greedy(step, state, token, indexWord, budget) == Err(UnknownIndex(u[0].0));
    } else if indexWord[p.0] != EndMarker && budget > 1 {
      GreedyFails(step, p.1, p.0, indexWord, budget - 1);
      var rest := Greedy(step, p.1, p.0, indexWord, budget - 1);
      var u' := Unroll(step, p.1, p.0, budget - 1);
      assert u == [p] + u';
      if rest.Err? {
        var n: nat :| FailsAt(u', indexWord, n) && rest.error == UnknownIndex(u'[n].0);
        assert u[n + 1] == u'[n];
        forall i | 0 <= i < n + 1
          ensures u[i].0 in indexWord && indexWord[u[i].0] != EndMarker
        {
          if i > 0 {
            assert u[i] == u'[i - 1];
          }
        }
        assert FailsAt(u, indexWord, n + 1);
      }
    }
  }

  /** Decoding can fail only on a predicted index without a word: if every
      index the steps predict has one, decoding succeeds. */
  lemma GreedyKnownIndices<S>(step: (S, nat) -> (nat, S), state: S, token: nat,
                              indexWord: map<nat, string>, budget: nat)
    requires budget >= 1
    requires forall i :: 0 <= i < budget ==> Unroll(step, state, token, budget)[i].0 in indexWord
    ensures Greedy(step, state, token, indexWord, budget).Ok?
  {
    GreedyFails(step, state, token, indexWord, budget);
  }

  /** `out` in front of the words of a successful result. */
  function Prepend(out: seq<string>, r: Result<seq<string>, PredictError>): Result<seq<string>, PredictError>
  {
    match r
    case Ok(ws) => Ok(out + ws)
    case Err(e) => Err(e)
  }

  lemma PrependNothing(r: Result<seq<string>, PredictError>)
    ensures Prepend([], r) == r
  {
    if r.Ok? {
      assert [] + r.value == r.value;
    }
  }

  lemma PrependTwice(a: seq<string>, b: seq<string>, r: Result<seq<string>, PredictError>)
    ensures Prepend(a, Prepend(b, r)) == Prepend(a + b, r)
  {
    if r.Ok? {
      assert a + (b + r.value) == (a + b) + r.value;
    }
  }

  /** One decoding step that yields a word other than `<end>` within the budget
      puts that word in front of the rest of the decoding. */
  lemma GreedyUnfold<S>(step: (S, nat) -> (nat, S), state: S, token: nat,
                        indexWord: map<nat, string>, budget: nat)
    requires budget > 1
    requires step(state, token).0 in indexWord && indexWord[step(state, token).0] != EndMarker
    ensures var p := step(state, token);
      Greedy(step, state, token, indexWord, budget)
      == Prepend([indexWord[p.0]], Greedy(step, p.1, p.0, indexWord, budget - 1))
  {
  }

  /** Lines 198-209 of `train_tf2.py`: the `while True` loop, from the encoder's final state and
      the index of `<start>`. */
  method DecodeLoop<S>(step: (S, nat) -> (nat, S), encoderState: S, start: nat,
                       indexWord: map<nat, string>) returns (r: Result<seq<string>, PredictError>)
    ensures r == Greedy(step, encoderState, start, indexWord, MaxWords)
  {
    ghost var spec := Greedy(step, encoderState, start, indexWord, MaxWords);
    var deInput := start;
    var deState := encoderState;
    var outWords: seq<string> := [];
    PrependNothing(spec);
    while true
      invariant |outWords| < MaxWords
      invariant spec == Prepend(outWords, Greedy(step, deState, deInput, indexWord, MaxWords - |outWords|))
      decreases MaxWords - |outWords|
    {
      ghost var budget := MaxWords - |outWords|;
      ghost var before := outWords;
      ghost var rest := Greedy(step, deState, deInput, indexWord, budget);
      ghost var (state, token) := (deState, deInput);
      var p := step(deState, deInput);
      deInput, deState := p.0, p.1;
      if deInput !in indexWord {
        assert rest == Err(UnknownIndex(deInput));
        return Err(UnknownIndex(deInput));
      }
      outWords := outWords + [indexWord[deInput]];
      if outWords[|outWords| - 1] == EndMarker || |outWords| >= MaxWords {
        assert rest == Ok([indexWord[deInput]]);
        return Ok(outWords);
      }
      GreedyUnfold(step, state, token, indexWord, budget);
      PrependTwice(before, [indexWord[deInput]], Greedy(step, deState, deInput, indexWord, budget - 1));
    }
  }

  /** `predict(text)`, lines 192-209, as a function of its inputs: tokenise with
      the source vocabulary, run the encoder, decode from `<start>`. */
  function PredictSpec<S>(encode: seq<nat> -> S, step: (S, nat) -> (nat, S),
                          enIndex: map<string, nat>, frIndex: map<string, nat>,
                          indexWord: map<nat, string>, text: string): Result<seq<string>, PredictError>
  {
    var source := Encode(enIndex, Words(text));
    if StartMarker !in frIndex then Err(MissingWord(StartMarker))
    else Greedy(step, encode(source), frIndex[StartMarker], indexWord, MaxWords)
  }

  /** `predict(text)`: the printed words are those of the result. */
  method Predict<S>(encode: seq<nat> -> S, step: (S, nat) -> (nat, S),
                    enIndex: map<string, nat>, frIndex: map<string, nat>,
                    indexWord: map<nat, string>, text: string) returns (r: Result<seq<string>, PredictError>)
    ensures r == PredictSpec(encode, step, enIndex, frIndex, indexWord, text)
    ensures r.Ok? ==> 1 <= |r.value| <= MaxWords
    ensures r.Ok? ==> forall i :: 0 <= i < |r.value| - 1 ==> r.value[i] != EndMarker
    ensures r.Ok? && |r.value| < MaxWords ==> r.value[|r.value| - 1] == EndMarker
    ensures r.Err? ==> (r.error.MissingWord? <==> StartMarker !in frIndex)
  {
    var source := Encode(enIndex, Words(text));
    var state := encode(source);
    if StartMarker !in frIndex {
      return Err(MissingWord(StartMarker));
    }
    r := DecodeLoop(step, state, frIndex[StartMarker], indexWord);
    GreedySucceeds(step, state, frIndex[StartMarker], indexWord, MaxWords);
    GreedyFails(step, state, frIndex[StartMarker], indexWord, MaxWords);
  }
}
