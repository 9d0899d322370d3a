/** The greedy word wrap the Shots and Shot Images panels apply to a shot's
    visual description: the text is split on whitespace and the words are
    packed, in order, into lines of at most 24 characters joined by single
    spaces; a word is never broken, so a word longer than 24 characters
    occupies a line of its own. */
module TextWrap {
  import opened Text

  /** The widest line the panels draw before starting a new one. */
  const MaxLineLength: nat := 24

  /** A word as `str.split()` produces it: non-empty, with no whitespace. */
  predicate IsWord(w: string) {
    |w| > 0 && NoSpace(w)
  }

  predicate AllWords(ws: seq<string>) {
    forall i :: 0 <= i < |ws| ==> IsWord(ws[i])
  }

  /** `" ".join(ws)`. */
  function JoinSpace(ws: seq<string>): string
    decreases |ws|
  {
    if |ws| == 0 then ""
    else if |ws| == 1 then ws[0]
    else ws[0] + " " + JoinSpace(ws[1..])
  }

  /** Splitting `s` when the word being collected so far is `word`. */
  function SplitFrom(s: string, word: string): (ws: seq<string>)
    requires NoSpace(word)
    ensures AllWords(ws)
    decreases |s|
  {
    if s == [] then (if word == [] then [] else [word])
    else if IsSpace(s[0]) then (if word == [] then [] else [word]) + SplitFrom(s[1..], [])
    else SplitFrom(s[1..], word + [s[0]])
  }

  /** `s.split()`: the maximal runs of non-whitespace characters of `s`, in order. */
  function SplitWords(s: string): (ws: seq<string>)
    ensures AllWords(ws)
  {
    SplitFrom(s, [])
  }

  /** The wrap loop, entered with `line` as the line being filled: each word is
      appended after a space when the result still fits, and otherwise the
      line is emitted (when it is not empty) and the word starts the next one. */
  function WrapFrom(ws: seq<string>, line: string): (lines: seq<string>)
    decreases |ws|
  {
    if ws == [] then (if line == "" then [] else [line])
    else
      var w := ws[0];
      var candidate := if line != "" then line + " " + w else w;
      if |candidate| > MaxLineLength then
        (if line != "" then [line] else []) + WrapFrom(ws[1..], w)
      else
        WrapFrom(ws[1..], candidate)
  }

  /** The lines the panels draw for a list of words. */
  function Wrap(ws: seq<string>): seq<string> {
    WrapFrom(ws, "")
  }

  /** The lines the panels draw for a visual description. */
  function WrapText(text: string): seq<string> {
    Wrap(SplitWords(text))
  }

  /** The leading word of a line: everything before its first space. */
  function FirstWord(line: string): (w: string)
    ensures StartsWith(line, w)
    decreases |line|
  {
    if line == [] || line[0] == ' ' then [] else [line[0]] + FirstWord(line[1..])
  }

  // ---------------------------------------------------------------------
  // Splitting
  // ---------------------------------------------------------------------

  lemma {:induction false} SplitFromWord(w: string, rest: string, word: string)
    requires NoSpace(word) && NoSpace(w)
    ensures SplitFrom(w + rest, word) == SplitFrom(rest, word + w)
    decreases |w|
  {
    if w != [] {
      assert (w + rest)[0] == w[0];
      assert (w + rest)[1..] == w[1..] + rest;
      assert word + w == (word + [w[0]]) + w[1..];
      assert !IsSpace(w[0]);
      SplitFromWord(w[1..], rest, word + [w[0]]);
    } else {
      assert w + rest == rest && word + w == word;
    }
  }

  /** Splitting the space-joined words gives the words back: `split` undoes
      `" ".join` on lists of words. */
  lemma {:induction false} SplitJoinRoundTrip(ws: seq<string>)
    requires AllWords(ws)
    ensures SplitWords(JoinSpace(ws)) == ws
    decreases |ws|
  {
    if |ws| == 1 {
      SplitFromWord(ws[0], [], []);
      assert ws[0] + [] == ws[0];
      assert [] + ws[0] == ws[0];
    } else if |ws| > 1 {
      var rest := JoinSpace(ws[1..]);
      assert JoinSpace(ws) == ws[0] + (" " + rest);
      SplitFromWord(ws[0], " " + rest, []);
      assert [] + ws[0] == ws[0];
      assert (" " + rest)[1..] == rest;
      SplitJoinRoundTrip(ws[1..]);
      assert [ws[0]] + ws[1..] == ws;
    }
  }

  // ---------------------------------------------------------------------
  // Joining
  // ---------------------------------------------------------------------

  lemma {:induction false} JoinSpaceCons(w: string, ws: seq<string>)
    requires ws != []
    ensures JoinSpace([w] + ws) == w + " " + JoinSpace(ws)
  {
    assert ([w] + ws)[1..] == ws;
  }

  lemma {:induction false} JoinSpaceAppend(a: seq<string>, b: seq<string>)
    requires a != [] && b != []
    ensures JoinSpace(a + b) == JoinSpace(a) + " " + JoinSpace(b)
    decreases |a|
  {
    if |a| == 1 {
      JoinSpaceCons(a[0], b);
    } else {
      assert (a + b)[1..] == a[1..] + b;
      JoinSpaceAppend(a[1..], b);
    }
  }

  /** Merging a line with the word that follows it, as the wrap loop does,
      keeps the joined text unchanged. */
  lemma JoinSpaceMerge(line: string, w: string, rest: seq<string>)
    ensures JoinSpace([line + " " + w] + rest) == JoinSpace([line, w] + rest)
  {
    if rest == [] {
      assert [line, w] + rest == [line] + [w];
      JoinSpaceCons(line, [w]);
    } else {
      JoinSpaceCons(line + " " + w, rest);
      JoinSpaceCons(w, rest);
      assert [line, w] + rest == [line] + ([w] + rest);
      JoinSpaceCons(line, [w] + rest);
    }
  }

  // ---------------------------------------------------------------------
  // Wrap properties
  // ---------------------------------------------------------------------

  /** The line being filled, followed by the words still to place. */
  function Pending(line: string, ws: seq<string>): seq<string> {
    if line == "" then ws else [line] + ws
  }

  lemma {:induction false} WrapFromNonEmpty(ws: seq<string>, line: string)
    requires AllWords(ws)
    ensures WrapFrom(ws, line) == [] <==> (ws == [] && line == "")
    decreases |ws|
  {
    if ws != [] {
      WrapFromNonEmpty(ws[1..], ws[0]);
      var candidate := if line != "" then line + " " + ws[0] else ws[0];
      WrapFromNonEmpty(ws[1..], candidate);
    }
  }

  /** Content: joining the emitted lines with single spaces gives back the
      pending line and words joined with single spaces. */
  lemma {:induction false} WrapFromPreservesText(ws: seq<string>, line: string)
    requires AllWords(ws)
    ensures JoinSpace(WrapFrom(ws, line)) == JoinSpace(Pending(line, ws))
    decreases |ws|
  {
    if ws != [] {
      var w := ws[0];
      var rest := ws[1..];
      assert [w] + rest == ws;
      var candidate := if line != "" then line + " " + w else w;
      if |candidate| > MaxLineLength {
        WrapFromPreservesText(rest, w);
        assert Pending(w, rest) == ws;
        if line != "" {
          assert WrapFrom(ws, line) == [line] + WrapFrom(rest, w);
          EmittedLineJoins(line, ws, WrapFrom(rest, w));
        } else {
          assert WrapFrom(ws, line) == WrapFrom(rest, w);
        }
      } else {
        WrapFromPreservesText(rest, candidate);
        assert WrapFrom(ws, line) == WrapFrom(rest, candidate);
        if line != "" {
          JoinSpaceMerge(line, w, rest);
          assert [line, w] + rest == [line] + ws;
        }
      }
    }
  }

  /** Emitting `line` ahead of lines that join to the words `ws` joins to
      `line` followed by those words. */
  lemma EmittedLineJoins(line: string, ws: seq<string>, lines: seq<string>)
    requires line != "" && ws != [] && lines != []
    requires JoinSpace(lines) == JoinSpace(ws)
    ensures JoinSpace([line] + lines) == JoinSpace(Pending(line, ws))
  {
    JoinSpaceCons(line, lines);
    JoinSpaceCons(line, ws);
  }

  /** Every emitted line is non-empty and fits in 24 characters, unless it is
      one of the input words (a word longer than 24 characters stands alone). */
  lemma {:induction false} WrapFromBounded(ws: seq<string>, line: string, all: seq<string>)
    requires AllWords(ws)
    requires forall i :: 0 <= i < |ws| ==> ws[i] in all
    requires |line| <= MaxLineLength || line in all
    ensures forall i :: 0 <= i < |WrapFrom(ws, line)| ==>
      var l := WrapFrom(ws, line)[i];
      l != "" && (|l| <= MaxLineLength || l in all)
    decreases |ws|
  {
    if ws != [] {
      var w := ws[0];
      var rest := ws[1..];
      assert w in all;
      assert forall i :: 0 <= i < |rest| ==> rest[i] == ws[i + 1];
      var candidate := if line != "" then line + " " + w else w;
      if |candidate| > MaxLineLength {
        WrapFromBounded(rest, w, all);
      } else {
        WrapFromBounded(rest, candidate, all);
      }
    }
  }

  lemma {:induction false} FirstWordOfWord(w: string)
    requires NoSpace(w)
    ensures FirstWord(w) == w
    decreases |w|
  {
    if w != [] {
      assert w[0] != ' ';
      FirstWordOfWord(w[1..]);
      assert [w[0]] + w[1..] == w;
    }
  }

  lemma {:induction false} FirstWordExtend(line: string, w: string)
    ensures FirstWord(line + " " + w) == FirstWord(line)
    decreases |line|
  {
    if line == [] {
      assert (line + " " + w)[0] == ' ';
    } else {
      assert (line + " " + w)[0] == line[0];
      assert (line + " " + w)[1..] == line[1..] + " " + w;
      FirstWordExtend(line[1..], w);
    }
  }

  /** The first emitted line begins with the first pending word. */
  lemma {:induction false} WrapFromFirstWord(ws: seq<string>, line: string)
    requires AllWords(ws)
    requires line != "" || ws != []
    requires line != "" ==> FirstWord(line) != ""
    ensures WrapFrom(ws, line) != []
    ensures FirstWord(WrapFrom(ws, line)[0]) ==
      if line != "" then FirstWord(line) else ws[0]
    decreases |ws|
  {
    WrapFromNonEmpty(ws, line);
    if ws != [] {
      var w := ws[0];
      var rest := ws[1..];
      FirstWordOfWord(w);
      var candidate := if line != "" then line + " " + w else w;
      if |candidate| > MaxLineLength {
        if line == "" {
          WrapFromFirstWord(rest, w);
        }
      } else {
        if line != "" {
          FirstWordExtend(line, w);
        }
        WrapFromFirstWord(rest, candidate);
      }
    }
  }

  /** Greedy maximality: a line was ended only because the first word of the
      next line, after a separating space, would not have fitted on it. */
  predicate Greedy(lines: seq<string>) {
    forall i :: 0 <= i < |lines| - 1 ==>
      |lines[i]| + 1 + |FirstWord(lines[i + 1])| > MaxLineLength
  }

  lemma {:induction false} WrapFromGreedy(ws: seq<string>, line: string)
    requires AllWords(ws)
    requires line != "" ==> FirstWord(line) != ""
    ensures Greedy(WrapFrom(ws, line))
    decreases |ws|
  {
    if ws != [] {
      var w := ws[0];
      var rest := ws[1..];
      FirstWordOfWord(w);
      var candidate := if line != "" then line + " " + w else w;
      if |candidate| > MaxLineLength {
        WrapFromGreedy(rest, w);
        if line != "" {
          WrapFromFirstWord(rest, w);
          var tail := WrapFrom(rest, w);
          var lines := [line] + tail;
          assert forall i :: 1 <= i < |lines| ==> lines[i] == tail[i - 1];
        } else {
          assert [] + WrapFrom(rest, w) == WrapFrom(rest, w);
        }
      } else {
        if line != "" {
          FirstWordExtend(line, w);
        }
        WrapFromGreedy(rest, candidate);
      }
    }
  }

  /** Everything the panels promise of the wrapped description of a word list. */
  lemma WrapProperties(ws: seq<string>)
    requires AllWords(ws)
    ensures JoinSpace(Wrap(ws)) == JoinSpace(ws)
    ensures forall i :: 0 <= i < |Wrap(ws)| ==>
      Wrap(ws)[i] != "" && (|Wrap(ws)[i]| <= MaxLineLength || Wrap(ws)[i] in ws)
    ensures Wrap(ws) == [] <==> ws == []
    ensures Greedy(Wrap(ws))
  {
    WrapFromPreservesText(ws, "");
    WrapFromBounded(ws, "", ws);
    WrapFromNonEmpty(ws, "");
    WrapFromGreedy(ws, "");
  }

  /** The wrapped description of a text: the words of the text, in order and
      unbroken, packed greedily into non-empty lines of at most 24 characters
      (or a single longer word); whitespace-only text gives no line at all. */
  lemma WrapTextProperties(text: string)
    ensures SplitWords(JoinSpace(WrapText(text))) == SplitWords(text)
    ensures JoinSpace(WrapText(text)) == JoinSpace(SplitWords(text))
    ensures forall i :: 0 <= i < |WrapText(text)| ==>
      var l := WrapText(text)[i];
      l != "" && (|l| <= MaxLineLength || l in SplitWords(text))
    ensures WrapText(text) == [] <==> SplitWords(text) == []
    ensures Greedy(WrapText(text))
  {
    var ws := SplitWords(text);
    WrapProperties(ws);
    SplitJoinRoundTrip(ws);
  }

  /** The wrap exactly as the panel's draw loop performs it: split the text,
      then walk the words once, keeping the line being filled. */
  method WrapDescription(visual: string) returns (lines: seq<string>)
    ensures lines == WrapText(visual)
    ensures JoinSpace(lines) == JoinSpace(SplitWords(visual))
    ensures forall i :: 0 <= i < |lines| ==>
      lines[i] != "" && (|lines[i]| <= MaxLineLength || lines[i] in SplitWords(visual))
    ensures lines == [] <==> SplitWords(visual) == []
    ensures Greedy(lines)
  {
    var words := SplitWords(visual);
    lines := [];
    var currentLine := "";
    var i := 0;
    while i < |words|
      invariant 0 <= i <= |words|
      invariant lines + WrapFrom(words[i..], currentLine) == Wrap(words)
    {
      var word := words[i];
      var testLine := if currentLine != "" then currentLine + " " + word else word;
      if |testLine| > MaxLineLength {
        if currentLine != "" {
          lines := lines + [currentLine];
        }
        currentLine := word;
      } else {
        currentLine := testLine;
      }
      i := i + 1;
    }
    if currentLine != "" {
      lines := lines + [currentLine];
    }
    WrapTextProperties(visual);
  }
}
