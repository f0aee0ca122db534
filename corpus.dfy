/** Corpus preparation of the translation trainer
    (`machine_translation/train_tf2.py`, lines 46-97 and 157-164): sentence-pair rows,
    teacher-forcing markers, tokenisation with a fitted vocabulary,
    post-padding and the padding mask of the loss. */
module Corpus {
  import opened Seqs
  import opened Normalize

  // ---------------------------------------------------------------------
  // Rows and sentence pairs
  // ---------------------------------------------------------------------

  /** The rows of the corpus file: its lines split on `'\n'`, each split on
      `'\t'`, without the last piece (a file ending in a newline ends in an
      empty piece). */
  function Rows(text: string): (rows: seq<seq<string>>)
    ensures |rows| == Count('\n', text)
    ensures forall i :: 0 <= i < |rows| ==> rows[i] == Split(Split(text, '\n')[i], '\t')
  {
    var lines := Split(text, '\n');
    seq(|lines| - 1, i requires 0 <= i < |lines| - 1 => Split(lines[i], '\t'))
  }

  /** The `raw_data.append` loop followed by `raw_data[:-1]`. */
  method ReadRows(text: string) returns (rows: seq<seq<string>>)
    ensures |rows| == Count('\n', text)
    ensures forall i :: 0 <= i < |rows| ==> rows[i] == Split(Split(text, '\n')[i], '\t')
    ensures rows == Rows(text)
  {
    var lines := Split(text, '\n');
    var rawData: seq<seq<string>> := [];
    for i := 0 to |lines|
      invariant |rawData| == i
      invariant forall k :: 0 <= k < i ==> rawData[k] == Split(lines[k], '\t')
    {
      rawData := rawData + [Split(lines[i], '\t')];
    }
    rows := rawData[..|rawData| - 1];
  }

  /** The exception the two-name unpacking of `zip(*raw_data)` raises. */
  datatype UnpackError = NotEnoughValues(got: nat) | TooManyValues

  /** The number of fields of the shortest row. */
  function MinFields(rows: seq<seq<string>>): (m: nat)
    requires |rows| > 0
    ensures forall i :: 0 <= i < |rows| ==> m <= |rows[i]|
    ensures exists i :: 0 <= i < |rows| && |rows[i]| == m
  {
    if |rows| == 1 then |rows[0]|
    else
      var m := MinFields(rows[1..]);
      assert forall i :: 1 <= i < |rows| ==> rows[i] == rows[1..][i - 1];
      if |rows[0]| < m then |rows[0]| else m
  }

  /** `raw_data_en, raw_data_fr = zip(*raw_data)`: `zip` yields one tuple per
      field position up to the shortest row, and the unpacking needs exactly two. */
  function Unzip(rows: seq<seq<string>>): (r: Result<(seq<string>, seq<string>), UnpackError>)
    ensures r.Ok? <==>
      && |rows| > 0
      && (forall i :: 0 <= i < |rows| ==> |rows[i]| >= 2)
      && (exists i :: 0 <= i < |rows| && |rows[i]| == 2)
    ensures r.Ok? ==>
      && |r.value.0| == |rows| && |r.value.1| == |rows|
      && forall i :: 0 <= i < |rows| ==> r.value.0[i] == rows[i][0] && r.value.1[i] == rows[i][1]
    ensures r == Err(TooManyValues) <==> |rows| > 0 && forall i :: 0 <= i < |rows| ==> |rows[i]| > 2
  {
    var columns := if |rows| == 0 then 0 else MinFields(rows);
    if columns < 2 then Err(NotEnoughValues(columns))
    else if columns > 2 then Err(TooManyValues)
    else
      Ok((seq(|rows|, i requires 0 <= i < |rows| => rows[i][0]),
          seq(|rows|, i requires 0 <= i < |rows| => rows[i][1])))
  }

  // ---------------------------------------------------------------------
  // Markers and words
  // ---------------------------------------------------------------------

  const StartMarker: string := "<start>"
  const EndMarker: string := "<end>"

  /** The decoder input of a normalised target sentence: `<start> ` in front
      (line 71 of `train_tf2.py`). */
  function DecoderInput(s: string): string
  {
    StartMarker + " " + s
  }

  /** The decoder target of a normalised target sentence: ` <end>` behind
      (line 72 of `train_tf2.py`). */
  function DecoderTarget(s: string): string
  {
    s + " " + EndMarker
  }

  predicate NonEmpty(w: string) { w != [] }

  /** The words the tokenizer sees in a text: the pieces between spaces,
      with the empty pieces dropped. */
  function Words(s: string): (ws: seq<string>)
    ensures forall i :: 0 <= i < |ws| ==> ws[i] != [] && ' ' !in ws[i]
  {
    Filter(NonEmpty, Split(s, ' '))
  }

  /** A space separates words: the words of `a + " " + b` are those of `a`
      followed by those of `b`, whatever spaces `a` and `b` begin or end with. */
  lemma WordsAround(a: string, b: string)
    ensures Words(a + " " + b) == Words(a) + Words(b)
  {
    assert a + " " + b == a + [' '] + b;
    SplitAround(a, ' ', b);
    FilterConcat(NonEmpty, Split(a, ' '), Split(b, ' '));
  }

  /** A marker is one word. */
  lemma WordsOfMarker(m: string)
    requires m == StartMarker || m == EndMarker
    ensures Words(m) == [m]
  {
    assert ' ' !in m;
    SplitWithout(m, ' ');
  }

  /** Teacher forcing: the decoder input is `<start>` then the sentence's words,
      the target is the sentence's words then `<end>`, so the input without its
      first word is the target without its last. */
  lemma TeacherForcingWords(s: string)
    ensures Words(DecoderInput(s)) == [StartMarker] + Words(s)
    ensures Words(DecoderTarget(s)) == Words(s) + [EndMarker]
    ensures Words(DecoderInput(s))[1..] == Words(DecoderTarget(s))[..|Words(s)|]
  {
    WordsAround(StartMarker, s);
    WordsAround(s, EndMarker);
    WordsOfMarker(StartMarker);
    WordsOfMarker(EndMarker);
  }

  // ---------------------------------------------------------------------
  // Vocabulary and tokenisation
  // ---------------------------------------------------------------------

  /** What a fitted tokenizer's `word_index` satisfies: indices start at 1
      (0 is left for padding) and no two words share an index. */
  predicate IsWordIndex(wordIndex: map<string, nat>)
  {
    && (forall w :: w in wordIndex ==> wordIndex[w] >= 1)
    && (forall v, w :: v in wordIndex && w in wordIndex && v != w ==> wordIndex[v] != wordIndex[w])
  }

  /** Every word is in the vocabulary. */
  predicate InVocabulary(wordIndex: map<string, nat>, words: seq<string>)
  {
    forall k :: 0 <= k < |words| ==> words[k] in wordIndex
  }

  /** The tokenizer's `index_word`, the inverse of `word_index`. */
  function IndexWord(wordIndex: map<string, nat>): (indexWord: map<nat, string>)
    requires IsWordIndex(wordIndex)
    ensures forall w :: w in wordIndex ==> wordIndex[w] in indexWord && indexWord[wordIndex[w]] == w
    ensures forall k :: k in indexWord ==> indexWord[k] in wordIndex && wordIndex[indexWord[k]] == k
    ensures 0 !in indexWord
  {
    map w | w in wordIndex :: wordIndex[w] := w
  }

  /** `texts_to_sequences` on one text's words: the index of each word, words
      outside the vocabulary skipped. */
  function Encode(wordIndex: map<string, nat>, words: seq<string>): (r: seq<nat>)
    ensures |r| <= |words|
    ensures forall i :: 0 <= i < |r| ==> r[i] in wordIndex.Values
    ensures InVocabulary(wordIndex, words) ==>
      |r| == |words| && forall i :: 0 <= i < |r| ==> r[i] == wordIndex[words[i]]
  {
    if words == [] then []
    else
      var rest := Encode(wordIndex, words[1..]);
      assert forall i :: 1 <= i < |words| ==> words[1..][i - 1] == words[i];
      (if words[0] in wordIndex then [wordIndex[words[0]]] else []) + rest
  }

  /** `texts_to_sequences` on a column of texts. */
  function Tokenize(wordIndex: map<string, nat>, texts: seq<string>): (rows: seq<seq<nat>>)
    ensures |rows| == |texts|
  {
    seq(|texts|, i requires 0 <= i < |texts| => Encode(wordIndex, Words(texts[i])))
  }

  /** Encoding works word by word: the indices of two word lists put
      together are the indices of each, put together. */
  lemma {:induction false} EncodeConcat(wordIndex: map<string, nat>, a: seq<string>, b: seq<string>)
    ensures Encode(wordIndex, a + b) == Encode(wordIndex, a) + Encode(wordIndex, b)
  {
    if a == [] {
      assert a + b == b;
    } else {
      assert (a + b)[0] == a[0] && (a + b)[1..] == a[1..] + b;
      EncodeConcat(wordIndex, a[1..], b);
    }
  }

  /** Teacher forcing on indices: for any vocabulary holding the two markers,
      the decoder input and target rows have one length, and the input
      without its `<start>` index is the target without its `<end>` index;
      when every word is known that length is one more than the word count. */
  lemma TeacherForcingIndices(wordIndex: map<string, nat>, s: string)
    requires StartMarker in wordIndex && EndMarker in wordIndex
    ensures var input, target := Encode(wordIndex, Words(DecoderInput(s))), Encode(wordIndex, Words(DecoderTarget(s)));
      && |input| == |target| == |Encode(wordIndex, Words(s))| + 1
      && input[0] == wordIndex[StartMarker]
      && target[|target| - 1] == wordIndex[EndMarker]
      && input[1..] == target[..|target| - 1]
      && (InVocabulary(wordIndex, Words(s)) ==> |input| == |Words(s)| + 1)
  {
    TeacherForcingWords(s);
    var ws := Words(s);
    var e := Encode(wordIndex, ws);
    EncodeConcat(wordIndex, [StartMarker], ws);
    EncodeConcat(wordIndex, ws, [EndMarker]);
    assert [StartMarker][1..] == [] && [EndMarker][1..] == [];
    assert Encode(wordIndex, [StartMarker]) == [wordIndex[StartMarker]];
    assert Encode(wordIndex, [EndMarker]) == [wordIndex[EndMarker]];
    var input := [wordIndex[StartMarker]] + e;
    var target := e + [wordIndex[EndMarker]];
    assert input[1..] == e == target[..|target| - 1];
  }

  // ---------------------------------------------------------------------
  // Padding and mask
  // ---------------------------------------------------------------------

  /** The length of the longest row (0 for no rows). */
  function MaxLen(rows: seq<seq<nat>>): (m: nat)
    ensures forall i :: 0 <= i < |rows| ==> |rows[i]| <= m
    ensures rows != [] ==> exists i :: 0 <= i < |rows| && |rows[i]| == m
    ensures rows == [] ==> m == 0
  {
    if rows == [] then 0
    else
      var m := MaxLen(rows[1..]);
      assert forall i :: 1 <= i < |rows| ==> rows[i] == rows[1..][i - 1];
      if |rows[0]| > m then |rows[0]| else m
  }

  function Zeros(n: nat): seq<nat>
  {
    seq(n, _ => 0)
  }

  /** One row post-padded with index 0 to `width`. */
  function PadRow(row: seq<nat>, width: nat): (r: seq<nat>)
    requires |row| <= width
    ensures |r| == width && r[..|row|] == row
    ensures forall j :: |row| <= j < width ==> r[j] == 0
  {
    row + Zeros(width - |row|)
  }

  /** `pad_sequences(rows, padding='post')`: every row padded to the longest. */
  function PadPost(rows: seq<seq<nat>>): (r: seq<seq<nat>>)
    ensures |r| == |rows|
    ensures forall i :: 0 <= i < |rows| ==> |r[i]| == MaxLen(rows) && r[i] == PadRow(rows[i], MaxLen(rows))
  {
    var width := MaxLen(rows);
    seq(|rows|, i requires 0 <= i < |rows| => PadRow(rows[i], width))
  }

  /** Columns whose rows agree in length pad to the same width. */
  lemma {:induction false} SameLengthsSameWidth(a: seq<seq<nat>>, b: seq<seq<nat>>)
    requires |a| == |b|
    requires forall i :: 0 <= i < |a| ==> |a[i]| == |b[i]|
    ensures MaxLen(a) == MaxLen(b)
  {
    if a != [] {
      SameLengthsSameWidth(a[1..], b[1..]);
    }
  }

  /** A row without its trailing zeros. */
  function StripTrailingZeros(row: seq<nat>): (r: seq<nat>)
    ensures |r| <= |row| && r == row[..|r|]
    ensures r == [] || r[|r| - 1] != 0
    ensures forall j :: |r| <= j < |row| ==> row[j] == 0
  {
    if row == [] || row[|row| - 1] != 0 then row
    else StripTrailingZeros(row[..|row| - 1])
  }

  /** Padding round trip: a row that does not end in 0 comes back whole when
      the padding zeros are stripped. */
  lemma {:induction false} StripPadded(row: seq<nat>, width: nat)
    requires |row| <= width
    requires row == [] || row[|row| - 1] != 0
    ensures StripTrailingZeros(PadRow(row, width)) == row
    decreases width - |row|
  {
    if width == |row| {
      assert PadRow(row, width) == row;
    } else {
      assert PadRow(row, width)[..width - 1] == PadRow(row, width - 1);
      StripPadded(row, width - 1);
    }
  }

  /** A tokenised row has no zero, so stripping the padding after post-padding
      recovers it and `index_word` turns it back into the words. */
  lemma PadRoundTrip(wordIndex: map<string, nat>, words: seq<string>, width: nat)
    requires IsWordIndex(wordIndex) && InVocabulary(wordIndex, words)
    requires |words| <= width
    ensures var row := StripTrailingZeros(PadRow(Encode(wordIndex, words), width));
      && row == Encode(wordIndex, words)
      && |row| == |words|
      && forall k :: 0 <= k < |row| ==> row[k] in IndexWord(wordIndex) && IndexWord(wordIndex)[row[k]] == words[k]
  {
    var e := Encode(wordIndex, words);
    assert e != [] ==> e[|e| - 1] == wordIndex[words[|e| - 1]] >= 1;
    StripPadded(e, width);
  }

  /** `loss_func`'s mask: 1 where the target is a real index, 0 on padding. */
  function Mask(targets: seq<nat>): (m: seq<int>)
    ensures |m| == |targets|
    ensures forall j :: 0 <= j < |m| ==> (m[j] == 1 <==> targets[j] != 0) && (m[j] == 0 <==> targets[j] == 0)
  {
    seq(|targets|, j requires 0 <= j < |targets| => if targets[j] == 0 then 0 else 1)
  }

  function Ones(n: nat): seq<int>
  {
    seq(n, _ => 1)
  }

  /** On a padded row of real indices, the mask covers exactly the row and
      none of the padding. */
  lemma MaskOfPadded(row: seq<nat>, width: nat)
    requires |row| <= width
    requires forall k :: 0 <= k < |row| ==> row[k] >= 1
    ensures Mask(PadRow(row, width)) == Ones(|row|) + seq(width - |row|, _ => 0)
  {
    var p := PadRow(row, width);
    forall j | 0 <= j < |row|
      ensures p[j] == row[j]
    {
      assert p[..|row|][j] == p[j];
    }
  }

  // ---------------------------------------------------------------------
  // The prepared dataset
  // ---------------------------------------------------------------------

  /** One training example: the padded source row, decoder input row and
      decoder target row. */
  datatype Example = Example(source: seq<nat>, targetIn: seq<nat>, targetOut: seq<nat>)

  /** The English column normalised (line 70 of `train_tf2.py`). */
  function SourceTexts(u: UnicodeData, en: seq<string>): (texts: seq<string>)
    ensures |texts| == |en|
  {
    seq(|en|, i requires 0 <= i < |en| => NormalizeString(u, en[i]))
  }

  /** The French column normalised with `<start> ` in front: the decoder
      inputs (line 71 of `train_tf2.py`). */
  function InputTexts(u: UnicodeData, fr: seq<string>): (texts: seq<string>)
    ensures |texts| == |fr|
  {
    seq(|fr|, i requires 0 <= i < |fr| => DecoderInput(NormalizeString(u, fr[i])))
  }

  /** The French column normalised with ` <end>` behind: the decoder
      targets (line 72 of `train_tf2.py`). */
  function TargetTexts(u: UnicodeData, fr: seq<string>): (texts: seq<string>)
    ensures |texts| == |fr|
  {
    seq(|fr|, i requires 0 <= i < |fr| => DecoderTarget(NormalizeString(u, fr[i])))
  }

  /** Lines 70-94 of `train_tf2.py` and the pairing of line 96: the three padded columns, one
      example per sentence pair. */
  function Examples(u: UnicodeData, en: seq<string>, fr: seq<string>,
                    enIndex: map<string, nat>, frIndex: map<string, nat>): (data: seq<Example>)
    requires |en| == |fr|
    ensures |data| == |en|
  {
    var source := PadPost(Tokenize(enIndex, SourceTexts(u, en)));
    var targetIn := PadPost(Tokenize(frIndex, InputTexts(u, fr)));
    var targetOut := PadPost(Tokenize(frIndex, TargetTexts(u, fr)));
    seq(|en|, i requires 0 <= i < |en| => Example(source[i], targetIn[i], targetOut[i]))
  }

  /** Lines 46-94 of `train_tf2.py`: the whole preparation from the file's text. */
  function Prepare(u: UnicodeData, text: string,
                   enIndex: map<string, nat>, frIndex: map<string, nat>): (r: Result<seq<Example>, UnpackError>)
    ensures r.Ok? ==> |r.value| == Count('\n', text)
  {
    match Unzip(Rows(text))
    case Err(e) => Err(e)
    case Ok((en, fr)) => Ok(Examples(u, en, fr, enIndex, frIndex))
  }

  /** Batch shapes: all source rows share one width; all decoder input and
      target rows share another, for any target vocabulary that holds the
      two markers. */
  lemma ExampleShapes(u: UnicodeData, en: seq<string>, fr: seq<string>,
                      enIndex: map<string, nat>, frIndex: map<string, nat>)
    requires |en| == |fr|
    requires StartMarker in frIndex && EndMarker in frIndex
    ensures var data := Examples(u, en, fr, enIndex, frIndex);
      forall i :: 0 <= i < |data| ==>
        && |data[i].source| == |data[0].source|
        && |data[i].targetIn| == |data[0].targetIn|
        && |data[i].targetOut| == |data[i].targetIn|
  {
    var data := Examples(u, en, fr, enIndex, frIndex);
    var srcs := Tokenize(enIndex, SourceTexts(u, en));
    var ins := Tokenize(frIndex, InputTexts(u, fr));
    var outs := Tokenize(frIndex, TargetTexts(u, fr));
    forall i | 0 <= i < |fr|
      ensures |ins[i]| == |outs[i]|
    {
      var s := NormalizeString(u, fr[i]);
      assert ins[i] == Encode(frIndex, Words(DecoderInput(s)));
      assert outs[i] == Encode(frIndex, Words(DecoderTarget(s)));
      TeacherForcingIndices(frIndex, s);
    }
    SameLengthsSameWidth(ins, outs);
    forall i | 0 <= i < |data|
      ensures |data[i].source| == MaxLen(srcs) && |data[i].targetIn| == MaxLen(ins) == |data[i].targetOut|
    {
      assert data[i] == Example(PadPost(srcs)[i], PadPost(ins)[i], PadPost(outs)[i]);
    }
  }

  /** `p` is `row` post-padded with index 0. */
  predicate PaddedFrom(p: seq<nat>, row: seq<nat>)
  {
    |row| <= |p| && p[..|row|] == row && forall j :: |row| <= j < |p| ==> p[j] == 0
  }

  /** The pairing of line 96: example `i` holds the padded rows of sentence
      pair `i`: the source row of English sentence `i`, and the decoder input
      and target rows of French sentence `i`, each padded to its column's width. */
  lemma ExampleAt(u: UnicodeData, en: seq<string>, fr: seq<string>,
                  enIndex: map<string, nat>, frIndex: map<string, nat>, i: nat)
    requires |en| == |fr| && i < |en|
    ensures PaddedFrom(Examples(u, en, fr, enIndex, frIndex)[i].source,
                       Encode(enIndex, Words(NormalizeString(u, en[i]))))
    ensures PaddedFrom(Examples(u, en, fr, enIndex, frIndex)[i].targetIn,
                       Encode(frIndex, Words(DecoderInput(NormalizeString(u, fr[i])))))
    ensures PaddedFrom(Examples(u, en, fr, enIndex, frIndex)[i].targetOut,
                       Encode(frIndex, Words(DecoderTarget(NormalizeString(u, fr[i])))))
  {
    var srcs := Tokenize(enIndex, SourceTexts(u, en));
    var ins := Tokenize(frIndex, InputTexts(u, fr));
    var outs := Tokenize(frIndex, TargetTexts(u, fr));
    assert srcs[i] == Encode(enIndex, Words(NormalizeString(u, en[i])));
    assert ins[i] == Encode(frIndex, Words(DecoderInput(NormalizeString(u, fr[i]))));
    assert outs[i] == Encode(frIndex, Words(DecoderTarget(NormalizeString(u, fr[i]))));
    assert Examples(u, en, fr, enIndex, frIndex)[i] == Example(PadPost(srcs)[i], PadPost(ins)[i], PadPost(outs)[i]);
  }

  /** A successful preparation builds example `i` from row `i` of the file:
      its source row from the row's first field, its decoder rows from the
      second, each padded to its column's width. */
  lemma PrepareAt(u: UnicodeData, text: string, enIndex: map<string, nat>, frIndex: map<string, nat>, i: nat)
    requires Prepare(u, text, enIndex, frIndex).Ok? && i < |Prepare(u, text, enIndex, frIndex).value|
    ensures i < |Rows(text)| && |Rows(text)[i]| >= 2
    ensures PaddedFrom(Prepare(u, text, enIndex, frIndex).value[i].source,
                       Encode(enIndex, Words(NormalizeString(u, Rows(text)[i][0]))))
    ensures PaddedFrom(Prepare(u, text, enIndex, frIndex).value[i].targetIn,
                       Encode(frIndex, Words(DecoderInput(NormalizeString(u, Rows(text)[i][1])))))
    ensures PaddedFrom(Prepare(u, text, enIndex, frIndex).value[i].targetOut,
                       Encode(frIndex, Words(DecoderTarget(NormalizeString(u, Rows(text)[i][1])))))
  {
    var rows := Rows(text);
    var columns := Unzip(rows).value;
    assert Prepare(u, text, enIndex, frIndex) == Ok(Examples(u, columns.0, columns.1, enIndex, frIndex));
    ExampleAt(u, columns.0, columns.1, enIndex, frIndex, i);
  }
}
