/** The sentence normaliser of the translation trainer
    (`machine_translation/train_tf2.py`, lines 54-66): accent stripping
    followed by three regular-expression substitutions.  Python's `re.sub`
    is written out character by character. */
module Normalize {
  import opened Seqs

  /** The two Unicode data tables the accent stripper consults: canonical
      decomposition (NFD) and the two-letter general category of a character.
      They are foreign data, so the model takes them as parameters. */
  datatype UnicodeData = UnicodeData(nfd: string -> string, category: char -> string)

  predicate IsAscii(s: string)
  {
    forall i :: 0 <= i < |s| ==> (s[i] as int) < 128
  }

  /** What the real Unicode tables do on ASCII: decomposition leaves ASCII text
      unchanged and no ASCII character is a nonspacing mark. */
  ghost predicate AsciiStable(u: UnicodeData)
  {
    && (forall s :: IsAscii(s) ==> u.nfd(s) == s)
    && (forall c: char :: (c as int) < 128 ==> u.category(c) != "Mn")
  }

  /** The filter of `unicode_to_ascii`: the character is not a nonspacing mark. */
  function Unmarked(u: UnicodeData): char -> bool
  {
    c => u.category(c) != "Mn"
  }

  predicate IsLetter(c: char) { 'a' <= c <= 'z' || 'A' <= c <= 'Z' }

  /** The sentence marks that get a space in front of them. */
  predicate IsPunct(c: char) { c == '.' || c == '!' || c == '?' }

  /** The class `[a-zA-Z.!?]`. */
  predicate IsKept(c: char) { IsLetter(c) || IsPunct(c) }

  /** The class `[^a-zA-Z.!?]`. */
  predicate IsDropped(c: char) { !IsKept(c) }

  predicate IsNotSpace(c: char) { c != ' ' }

  /** Python's `\s` on text: the characters for which `str.isspace` holds. */
  predicate IsWhitespace(c: char)
  {
    var k := c as int;
    || 9 <= k <= 13 || 28 <= k <= 32 || k == 0x85 || k == 0xA0 || k == 0x1680
    || 0x2000 <= k <= 0x200A || k == 0x2028 || k == 0x2029 || k == 0x202F
    || k == 0x205F || k == 0x3000
  }

  /** Every sentence mark has a space right before it. */
  predicate PunctSpaced(s: string)
  {
    && (s != [] ==> !IsPunct(s[0]))
    && forall i :: 0 < i < |s| && IsPunct(s[i]) ==> s[i - 1] == ' '
  }

  /** No two spaces are adjacent. */
  predicate NoDoubleSpace(s: string)
  {
    forall i :: 0 < i < |s| && s[i] == ' ' ==> s[i - 1] != ' '
  }

  /** Every character is a letter, a sentence mark or a plain space. */
  predicate KeptOrSpace(s: string)
  {
    forall i :: 0 <= i < |s| ==> IsKept(s[i]) || s[i] == ' '
  }

  /** The shape of every output of `NormalizeString`. */
  predicate Normalized(s: string)
  {
    KeptOrSpace(s) && NoDoubleSpace(s) && PunctSpaced(s)
  }

  /** `unicode_to_ascii`: decompose, then drop every nonspacing mark. */
  function UnicodeToAscii(u: UnicodeData, s: string): (r: string)
    ensures |r| <= |u.nfd(s)|
    ensures forall i :: 0 <= i < |r| ==> u.category(r[i]) != "Mn" && r[i] in u.nfd(s)
    ensures forall i :: 0 <= i < |u.nfd(s)| && u.category(u.nfd(s)[i]) != "Mn" ==> u.nfd(s)[i] in r
  {
    Filter(Unmarked(u), u.nfd(s))
  }

  /** `re.sub(r'([!.?])', r' \1', s)`: a space goes in front of every sentence mark. */
  function SpacePunct(s: string): (r: string)
    ensures |r| == |s| + |Filter(IsPunct, s)|
    ensures PunctSpaced(r)
    ensures s != [] ==> r != [] && r[0] == (if IsPunct(s[0]) then ' ' else s[0])
    ensures s != [] ==> r != [] && r[|r| - 1] == s[|s| - 1]
  {
    if s == [] then []
    else
      var rest := SpacePunct(s[1..]);
      var r := (if IsPunct(s[0]) then [' ', s[0]] else [s[0]]) + rest;
      assert forall i :: 0 < i < |rest| && IsPunct(rest[i]) ==> rest[i - 1] == ' ';
      r
  }

  /** The only characters `SpacePunct` adds are spaces: any filter that drops
      spaces sees the same text before and after. */
  lemma {:induction false} SpacePunctAddsOnlySpaces(p: char -> bool, s: string)
    requires !p(' ')
    ensures Filter(p, SpacePunct(s)) == Filter(p, s)
  {
    if s != [] {
      SpacePunctAddsOnlySpaces(p, s[1..]);
      var head := if IsPunct(s[0]) then [' ', s[0]] else [s[0]];
      FilterConcat(p, head, SpacePunct(s[1..]));
      if IsPunct(s[0]) {
        assert [' ', s[0]][1..] == [s[0]];
      }
    }
  }

  /** One step of `SpacePunct`: the first character's part, then the rest. */
  lemma SpacePunctCons(c: char, s: string)
    ensures SpacePunct([c] + s) == (if IsPunct(c) then [' ', c] else [c]) + SpacePunct(s)
  {
    assert ([c] + s)[0] == c && ([c] + s)[1..] == s;
  }

  /** `SpacePunct` works character by character: the text around a mark stays
      where it was, so the substitution of a concatenation is the
      concatenation of the substitutions. */
  lemma {:induction false} SpacePunctConcat(a: string, b: string)
    ensures SpacePunct(a + b) == SpacePunct(a) + SpacePunct(b)
  {
    if a == [] {
      assert a + b == b;
    } else {
      var c, a' := a[0], a[1..];
      var head := if IsPunct(c) then [' ', c] else [c];
      calc {
        SpacePunct(a + b);
        { assert a + b == [c] + (a' + b); }
        SpacePunct([c] + (a' + b));
        { SpacePunctCons(c, a' + b); }
        head + SpacePunct(a' + b);
        { SpacePunctConcat(a', b); }
        head + (SpacePunct(a') + SpacePunct(b));
        { ConcatAssoc(head, SpacePunct(a'), SpacePunct(b)); }
        (head + SpacePunct(a')) + SpacePunct(b);
        { SpacePunctCons(c, a'); assert a == [c] + a'; }
        SpacePunct(a) + SpacePunct(b);
      }
    }
  }

  /** On one character: a mark becomes a space and the mark, anything else is kept. */
  lemma SpacePunctChar(c: char)
    ensures SpacePunct([c]) == if IsPunct(c) then [' ', c] else [c]
  {
  }

  /** One `re.sub(C + '+', ' ', s)` for a character class `C`, read left to
      right: each maximal run of characters in `C` becomes one space.
      `inRun` says that the character before `s` was in `C`, so that a run is
      already open and has had its space. */
  function Collapse(inClass: char -> bool, s: string, inRun: bool): (r: string)
    ensures forall i :: 0 <= i < |r| ==> r[i] == ' ' || (!inClass(r[i]) && r[i] in s)
    ensures inClass(' ') ==> NoDoubleSpace(r) && (inRun && r != [] ==> r[0] != ' ')
    ensures s != [] && !inRun ==> r != [] && r[0] == (if inClass(s[0]) then ' ' else s[0])
    ensures s != [] && inClass(s[|s| - 1]) ==> r == [] || r[|r| - 1] == ' '
  {
    if s == [] then []
    else if inClass(s[0]) then (if inRun then [] else [' ']) + Collapse(inClass, s[1..], true)
    else [s[0]] + Collapse(inClass, s[1..], false)
  }

  /** `re.sub(C + '+', ' ', s)`. */
  function SubRuns(inClass: char -> bool, s: string): string
  {
    Collapse(inClass, s, false)
  }

  /** Inside an open run, the rest of the run produces nothing. */
  lemma {:induction false} CollapseSkipsRun(inClass: char -> bool, run: string, rest: string)
    requires forall i :: 0 <= i < |run| ==> inClass(run[i])
    ensures Collapse(inClass, run + rest, true) == Collapse(inClass, rest, true)
  {
    if run != [] {
      assert (run + rest)[1..] == run[1..] + rest;
      CollapseSkipsRun(inClass, run[1..], rest);
    } else {
      assert run + rest == rest;
    }
  }

  /** A maximal run of class characters at the front becomes one space. */
  lemma SubRunsRun(inClass: char -> bool, run: string, rest: string)
    requires |run| > 0 && forall i :: 0 <= i < |run| ==> inClass(run[i])
    requires rest == [] || !inClass(rest[0])
    ensures SubRuns(inClass, run + rest) == [' '] + SubRuns(inClass, rest)
  {
    assert (run + rest)[1..] == run[1..] + rest;
    CollapseSkipsRun(inClass, run[1..], rest);
  }

  /** A character outside the class is copied, whatever follows it. */
  lemma SubRunsCopy(inClass: char -> bool, c: char, rest: string)
    requires !inClass(c)
    ensures SubRuns(inClass, [c] + rest) == [c] + SubRuns(inClass, rest)
  {
    assert ([c] + rest)[1..] == rest;
  }

  /** Characters outside the class are copied, whatever follows them. */
  lemma {:induction false} CollapseCopiesPrefix(inClass: char -> bool, a: string, rest: string)
    requires forall i :: 0 <= i < |a| ==> !inClass(a[i])
    ensures Collapse(inClass, a + rest, false) == a + Collapse(inClass, rest, false)
  {
    if a != [] {
      assert (a + rest)[1..] == a[1..] + rest;
      CollapseCopiesPrefix(inClass, a[1..], rest);
      assert a == [a[0]] + a[1..];
    } else {
      assert a + rest == rest;
    }
  }

  /** `SubRuns` is the regular-expression substitution, step by step: the
      characters before the first run are copied, the run becomes one space,
      and the substitution goes on after the run. */
  lemma SubRunsStep(inClass: char -> bool, a: string, run: string, b: string)
    requires forall i :: 0 <= i < |a| ==> !inClass(a[i])
    requires |run| > 0 && forall i :: 0 <= i < |run| ==> inClass(run[i])
    requires b == [] || !inClass(b[0])
    ensures SubRuns(inClass, a + run + b) == a + [' '] + SubRuns(inClass, b)
  {
    assert a + run + b == a + (run + b);
    CollapseCopiesPrefix(inClass, a, run + b);
    SubRunsRun(inClass, run, b);
  }

  /** A run between two stretches of characters outside the class becomes
      exactly one space; nothing else changes. */
  lemma SubRunsBetween(inClass: char -> bool, a: string, run: string, b: string)
    requires forall i :: 0 <= i < |a| ==> !inClass(a[i])
    requires |run| > 0 && forall i :: 0 <= i < |run| ==> inClass(run[i])
    requires forall i :: 0 <= i < |b| ==> !inClass(b[i])
    ensures SubRuns(inClass, a + run + b) == a + [' '] + b
  {
    SubRunsStep(inClass, a, run, b);
    CollapseCopiesPrefix(inClass, b, []);
    assert b + [] == b;
  }

  /** `normalize_string`, lines 61-66. */
  function NormalizeString(u: UnicodeData, s: string): string
  {
    SubRuns(IsWhitespace, SubRuns(IsDropped, SpacePunct(UnicodeToAscii(u, s))))
  }

  /** Text of letters, marks and single spaces has nothing for `\s+` to change. */
  lemma {:induction false} WhitespaceRunsNoop(s: string, inRun: bool)
    requires KeptOrSpace(s) && NoDoubleSpace(s)
    requires inRun && s != [] ==> s[0] != ' '
    ensures Collapse(IsWhitespace, s, inRun) == s
  {
    if s != [] {
      var c, rest := s[0], s[1..];
      assert s == [c] + rest;
      assert KeptOrSpace(rest) by {
        forall i | 0 <= i < |rest|
          ensures IsKept(rest[i]) || rest[i] == ' '
        {
          assert rest[i] == s[i + 1];
        }
      }
      assert NoDoubleSpace(rest) by {
        forall i | 0 < i < |rest| && rest[i] == ' '
          ensures rest[i - 1] != ' '
        {
          assert rest[i] == s[i + 1] && rest[i - 1] == s[i];
        }
      }
      if c == ' ' {
        assert rest != [] ==> rest[0] != ' ' by {
          if rest != [] {
            assert s[1] == rest[0];
          }
        }
        WhitespaceRunsNoop(rest, true);
        assert IsWhitespace(c) && !inRun;
        assert Collapse(IsWhitespace, s, inRun) == [' '] + Collapse(IsWhitespace, rest, true);
      } else {
        assert IsKept(c);
        assert !IsWhitespace(c);
        WhitespaceRunsNoop(rest, false);
        assert Collapse(IsWhitespace, s, inRun) == [c] + Collapse(IsWhitespace, rest, false);
      }
    }
  }

  /** After the substitution of line 64, the substitution of line 65 changes nothing. */
  lemma Line65Noop(t: string)
    ensures SubRuns(IsWhitespace, SubRuns(IsDropped, t)) == SubRuns(IsDropped, t)
  {
    WhitespaceRunsNoop(SubRuns(IsDropped, t), false);
  }

  /** Every mark in `s` follows a character in `[^a-zA-Z.!?]`, or stands first
      while a run is open. */
  predicate MarksFollowDropped(s: string, inRun: bool)
  {
    && (s != [] && IsPunct(s[0]) ==> inRun)
    && forall i :: 0 < i < |s| && IsPunct(s[i]) ==> IsDropped(s[i - 1])
  }

  /** Every mark in `r` follows a space, or stands first while a run is open. */
  predicate MarksFollowSpace(r: string, inRun: bool)
  {
    && (r != [] && IsPunct(r[0]) ==> inRun)
    && forall i :: 0 < i < |r| && IsPunct(r[i]) ==> r[i - 1] == ' '
  }

  /** A mark that follows a dropped character is still preceded by a space
      after line 64 has replaced the run that character belongs to. */
  lemma {:induction false} CollapseKeepsPunctSpaced(s: string, inRun: bool)
    requires MarksFollowDropped(s, inRun)
    ensures MarksFollowSpace(Collapse(IsDropped, s, inRun), inRun)
  {
    if s != [] {
      var r := Collapse(IsDropped, s, inRun);
      var open := IsDropped(s[0]);
      var t := s[1..];
      forall i | 0 < i < |t| && IsPunct(t[i])
        ensures IsDropped(t[i - 1])
      {
        assert s[i + 1] == t[i] && s[i] == t[i - 1];
      }
      CollapseKeepsPunctSpaced(t, open);
      var rest := Collapse(IsDropped, t, open);
      var head := if open then (if inRun then "" else " ") else [s[0]];
      assert r == head + rest;
      forall i | 0 < i < |r| && IsPunct(r[i])
        ensures r[i - 1] == ' '
      {
        var j := i - |head|;
        assert r[i] == rest[j];
        if j > 0 {
          assert r[i - 1] == rest[j - 1];
        } else {
          assert r[0] == head[0];
        }
      }
    }
  }

  /** Every output of `normalize_string` consists of letters, marks and single
      spaces, with a space before every mark. */
  lemma NormalizeStringNormalized(u: UnicodeData, s: string)
    ensures Normalized(NormalizeString(u, s))
  {
    var b := SpacePunct(UnicodeToAscii(u, s));
    var c := SubRuns(IsDropped, b);
    Line65Noop(b);
    CollapseKeepsPunctSpaced(b, false);
  }

  /** Replacing runs outside `[a-zA-Z.!?]` by a space (line 64 of `train_tf2.py`)
      gives, with all spaces deleted, the input filtered to `[a-zA-Z.!?]`. */
  lemma {:induction false} CollapseKeepsKept(s: string, inRun: bool)
    ensures Filter(IsNotSpace, Collapse(IsDropped, s, inRun)) == Filter(IsKept, s)
  {
    if s != [] {
      CollapseKeepsKept(s[1..], IsDropped(s[0]));
      var rest := Collapse(IsDropped, s[1..], IsDropped(s[0]));
      var head := if IsDropped(s[0]) then (if inRun then "" else " ") else [s[0]];
      FilterConcat(IsNotSpace, head, rest);
    }
  }

  /** Deleting every space from the output leaves exactly the characters of the
      accent-stripped input that are in `[a-zA-Z.!?]`, in their order. */
  lemma NormalizeStringKeepsOrder(u: UnicodeData, s: string)
    ensures Filter(IsNotSpace, NormalizeString(u, s)) == Filter(IsKept, UnicodeToAscii(u, s))
  {
    var a := UnicodeToAscii(u, s);
    Line65Noop(SpacePunct(a));
    CollapseKeepsKept(SpacePunct(a), false);
    SpacePunctAddsOnlySpaces(IsKept, a);
  }

  /** Putting a space before each sentence mark (line 63 of `train_tf2.py`)
      changes nothing in a text without sentence marks. */
  lemma {:induction false} SpacePunctNoMarks(s: string)
    requires forall i :: 0 <= i < |s| ==> !IsPunct(s[i])
    ensures SpacePunct(s) == s
  {
    if s != [] {
      SpacePunctNoMarks(s[1..]);
      assert [s[0]] + s[1..] == s;
    }
  }

  /** Two words separated by anything outside `[a-zA-Z.!?]` come out as the
      two words with exactly one space between them. */
  lemma NormalizeStringJoinsWords(u: UnicodeData, s: string, a: string, run: string, b: string)
    requires UnicodeToAscii(u, s) == a + run + b
    requires forall i :: 0 <= i < |a| ==> IsLetter(a[i])
    requires |run| > 0 && forall i :: 0 <= i < |run| ==> IsDropped(run[i])
    requires forall i :: 0 <= i < |b| ==> IsLetter(b[i])
    ensures NormalizeString(u, s) == a + " " + b
  {
    var t := a + run + b;
    forall i | 0 <= i < |t|
      ensures !IsPunct(t[i])
    {
      if i < |a| {
        assert t[i] == a[i];
      } else if i < |a| + |run| {
        assert t[i] == run[i - |a|];
      } else {
        assert t[i] == b[i - |a| - |run|];
      }
    }
    SpacePunctNoMarks(t);
    SubRunsBetween(IsDropped, a, run, b);
    Line65Noop(t);
  }

  /** The normaliser does not trim: a stripped input that starts with a
      non-letter gives an output that starts with a space, and one that ends
      with a character outside `[a-zA-Z.!?]` gives an output ending in a space.
      A leading letter is kept as the first character. */
  lemma NormalizeStringNoTrim(u: UnicodeData, s: string)
    ensures UnicodeToAscii(u, s) != [] ==>
      && NormalizeString(u, s) != []
      && NormalizeString(u, s)[0] == (if IsLetter(UnicodeToAscii(u, s)[0]) then UnicodeToAscii(u, s)[0] else ' ')
    ensures UnicodeToAscii(u, s) != [] && IsDropped(UnicodeToAscii(u, s)[|UnicodeToAscii(u, s)| - 1]) ==>
      && NormalizeString(u, s) != []
      && NormalizeString(u, s)[|NormalizeString(u, s)| - 1] == ' '
  {
    var a := UnicodeToAscii(u, s);
    var t := SpacePunct(a);
    Line65Noop(t);
    var r := SubRuns(IsDropped, t);
    assert NormalizeString(u, s) == r;
    if a != [] {
      assert r != [] && r[0] == (if IsDropped(t[0]) then ' ' else t[0]);
      assert t[|t| - 1] == a[|a| - 1];
    }
  }

  /** One step of line 64 over a text that starts with a kept character. */
  lemma CollapseKeptHead(c: char, rest: string, inRun: bool)
    requires IsKept(c)
    ensures Collapse(IsDropped, [c] + rest, inRun) == [c] + Collapse(IsDropped, rest, false)
  {
    assert ([c] + rest)[1..] == rest;
  }

  /** The run substitution of line 64 of `train_tf2.py` over a mark with the space
      that line 63 put before it, inside an open run. */
  lemma CollapseSpacedMark(c: char, rest: string)
    requires IsKept(c)
    ensures Collapse(IsDropped, [' ', c] + rest, true) == [c] + Collapse(IsDropped, rest, false)
  {
    assert ([' ', c] + rest)[1..] == [c] + rest;
    assert ([c] + rest)[1..] == rest;
  }

  /** One step of line 64 over a text that starts with a space. */
  lemma CollapseSpaceHead(rest: string, inRun: bool)
    ensures Collapse(IsDropped, [' '] + rest, inRun)
         == (if inRun then "" else " ") + Collapse(IsDropped, rest, true)
  {
    assert ([' '] + rest)[1..] == rest;
  }

  /** The `s[1..]` of a normalised-looking text is normalised-looking, with
      `inRun` telling whether `s[0]` was a space. */
  lemma NormalTail(s: string)
    requires s != [] && KeptOrSpace(s) && NoDoubleSpace(s)
    requires forall i :: 0 < i < |s| && IsPunct(s[i]) ==> s[i - 1] == ' '
    ensures var t := s[1..];
      && KeptOrSpace(t) && NoDoubleSpace(t)
      && (forall i :: 0 < i < |t| && IsPunct(t[i]) ==> t[i - 1] == ' ')
      && (t != [] ==> (t[0] == ' ' ==> s[0] != ' ') && (IsPunct(t[0]) ==> s[0] == ' '))
  {
    var t := s[1..];
    forall i | 0 < i < |t|
      ensures (t[i] == ' ' ==> t[i - 1] != ' ') && (IsPunct(t[i]) ==> t[i - 1] == ' ')
    {
      assert t[i] == s[i + 1] && t[i - 1] == s[i];
    }
    if t != [] {
      assert t[0] == s[1];
    }
  }

  /** On text that is already normalised, the run substitution of line 64 of
      `train_tf2.py` undoes the mark spacing of line 63; `inRun` says
      that the character before `s` was a space. */
  lemma {:induction false} RespaceNormalized(s: string, inRun: bool)
    requires KeptOrSpace(s) && NoDoubleSpace(s)
    requires forall i :: 0 < i < |s| && IsPunct(s[i]) ==> s[i - 1] == ' '
    requires s != [] ==> (s[0] == ' ' ==> !inRun) && (IsPunct(s[0]) ==> inRun)
    ensures Collapse(IsDropped, SpacePunct(s), inRun) == s
  {
    if s != [] {
      var t := s[1..];
      assert [s[0]] + t == s;
      NormalTail(s);
      RespaceNormalized(t, s[0] == ' ');
      var rest := SpacePunct(t);
      assert Collapse(IsDropped, rest, s[0] == ' ') == t;
      if IsPunct(s[0]) {
        assert SpacePunct(s) == [' ', s[0]] + rest;
        CollapseSpacedMark(s[0], rest);
      } else if s[0] == ' ' {
        assert SpacePunct(s) == [' '] + rest;
        CollapseSpaceHead(rest, inRun);
      } else {
        assert SpacePunct(s) == [s[0]] + rest;
        CollapseKeptHead(s[0], rest, inRun);
      }
    }
  }

  /** A normalised string is a fixed point of the normaliser, given tables
      that behave like Unicode's on ASCII. */
  lemma NormalizeFixesNormalized(u: UnicodeData, s: string)
    requires AsciiStable(u)
    requires Normalized(s)
    ensures NormalizeString(u, s) == s
  {
    assert IsAscii(s);
    FilterKeepsAll(Unmarked(u), s);
    RespaceNormalized(s, false);
    WhitespaceRunsNoop(s, false);
  }

  /** `normalize_string` is idempotent. */
  lemma NormalizeStringIdempotent(u: UnicodeData, s: string)
    requires AsciiStable(u)
    ensures NormalizeString(u, NormalizeString(u, s)) == NormalizeString(u, s)
  {
    NormalizeStringNormalized(u, s);
    NormalizeFixesNormalized(u, NormalizeString(u, s));
  }
}
