// The text and path layout of server/db_tools/print_instructions.py: the
// greedy word wrap of `draw_wrapped` and the trajectory `draw_instruction`
// draws. The wrap is specified on groups of words: each line is the words of
// its group joined by single spaces, and the groups, read in order, are the
// words of the text after one leading empty word (the empty line the wrap
// starts from).
module InstructionLayout {
  import opened Common

  /** `draw_wrapped`'s default line width, in characters. */
  const DefaultMaxWidth: int := 50

  /** The words of `g` joined by single spaces (`" ".join(g)`). */
  function Join(g: seq<string>): string
    requires |g| > 0
  {
    if |g| == 1 then g[0] else Join(g[..|g| - 1]) + " " + g[|g| - 1]
  }

  /** Python's `s.split(" ")`: the maximal runs between single spaces, empty runs included. */
  function Split(s: string): (words: seq<string>)
    ensures |words| > 0
  {
    if s == [] then [""]
    else
      var init := Split(s[..|s| - 1]);
      if s[|s| - 1] == ' ' then init + [""]
      else init[..|init| - 1] + [init[|init| - 1] + [s[|s| - 1]]]
  }

  /** Splitting on spaces and joining again gives back the text. */
  lemma {:induction false} JoinSplit(s: string)
    ensures Join(Split(s)) == s
    decreases |s|
  {
    if s != [] {
      var init := Split(s[..|s| - 1]);
      JoinSplit(s[..|s| - 1]);
      assert s == s[..|s| - 1] + [s[|s| - 1]];
      if s[|s| - 1] != ' ' {
        JoinSnoc(init, s[|s| - 1]);
      }
    }
  }

  /** Extending the last word of a group extends the joined text by that character. */
  lemma JoinSnoc(g: seq<string>, c: char)
    requires |g| > 0
    ensures Join(g[..|g| - 1] + [g[|g| - 1] + [c]]) == Join(g) + [c]
  {
    var g' := g[..|g| - 1] + [g[|g| - 1] + [c]];
    if |g| > 1 {
      assert g'[..|g'| - 1] == g[..|g| - 1];
    }
  }

  /** Joining words without spaces and splitting again gives back the words. */
  lemma {:induction false} SplitJoin(g: seq<string>)
    requires |g| > 0 && forall i | 0 <= i < |g| :: ' ' !in g[i]
    ensures Split(Join(g)) == g
    decreases |g|
  {
    var last := g[|g| - 1];
    if |g| == 1 {
      SplitWord(last);
    } else {
      var init := g[..|g| - 1];
      SplitJoin(init);
      SplitSpaceWord(Join(init), last);
      assert init + [last] == g;
    }
  }

  /** A space followed by a word without spaces adds that word to the split. */
  lemma SplitSpaceWord(s: string, w: string)
    requires ' ' !in w
    ensures Split(s + " " + w) == Split(s) + [w]
  {
    SplitSpace(s);
    SplitAppendWord(s + " ", w);
    var p := Split(s + " ");
    assert p[..|p| - 1] == Split(s);
    assert p[|p| - 1] + w == w;
  }

  /** No word of a split holds a space. */
  lemma {:induction false} SplitHasNoSpaces(s: string)
    ensures forall w | w in Split(s) :: ' ' !in w
    decreases |s|
  {
    if s != [] {
      SplitHasNoSpaces(s[..|s| - 1]);
      var init := Split(s[..|s| - 1]);
      assert forall w | w in init[..|init| - 1] :: w in init;
    }
  }

  /** A single word without spaces splits into itself. */
  lemma {:induction false} SplitWord(w: string)
    requires ' ' !in w
    ensures Split(w) == [w]
    decreases |w|
  {
    if w != [] {
      assert ' ' !in w[..|w| - 1];
      SplitWord(w[..|w| - 1]);
      assert w == w[..|w| - 1] + [w[|w| - 1]];
    }
  }

  /** A trailing space starts a new, empty word. */
  lemma SplitSpace(s: string)
    ensures Split(s + " ") == Split(s) + [""]
  {
    assert (s + " ")[..|s + " "| - 1] == s;
  }

  /** A character other than a space grows the last word of the split. */
  lemma SplitAppendChar(s: string, c: char)
    requires c != ' '
    ensures var p := Split(s); Split(s + [c]) == p[..|p| - 1] + [p[|p| - 1] + [c]]
  {
    assert (s + [c])[..|s + [c]| - 1] == s;
  }

  /** Appending a word without spaces grows the last word of the split. */
  lemma {:induction false} SplitAppendWord(s: string, w: string)
    requires ' ' !in w
    ensures var p := Split(s); Split(s + w) == p[..|p| - 1] + [p[|p| - 1] + w]
    decreases |w|
  {
    var p := Split(s);
    var front, last := p[..|p| - 1], p[|p| - 1];
    if w == [] {
      assert s + w == s;
      assert last + w == last;
      assert front + [last] == p;
    } else {
      var w', c := w[..|w| - 1], w[|w| - 1];
      assert w == w' + [c];
      assert ' ' !in w';
      SplitAppendWord(s, w');
      SplitGrowLast(s + w', c, front, last + w');
      assert s + w == (s + w') + [c];
      assert (last + w') + [c] == last + w;
    }
  }

  /** `SplitAppendChar` for a split already taken apart into its front and its last word. */
  lemma SplitGrowLast(t: string, c: char, front: seq<string>, last: string)
    requires c != ' ' && Split(t) == front + [last]
    ensures Split(t + [c]) == front + [last + [c]]
  {
    SplitAppendChar(t, c);
    var q := Split(t);
    assert q[..|q| - 1] == front && q[|q| - 1] == last;
  }

  /**
   * The greedy wrap from a point in the loop: `done` holds the finished
   * lines' groups, `current` the group of the line being filled. A word
   * starts a new line exactly when it would not fit by the loop's test,
   * which ignores the joining space.
   */
  function WrapFrom(done: seq<seq<string>>, current: seq<string>, words: seq<string>, maxWidth: int): (groups: seq<seq<string>>)
    requires |current| > 0
    ensures |groups| == |done| + 1 + Breaks(current, words, maxWidth)
    ensures groups[..|done|] == done
    decreases |words|
  {
    if words == [] then done + [current]
    else if |Join(current)| + |words[0]| > maxWidth then WrapFrom(done + [current], [words[0]], words[1..], maxWidth)
    else WrapFrom(done, current + [words[0]], words[1..], maxWidth)
  }

  /** How many new lines the wrap starts from a point in the loop. */
  function Breaks(current: seq<string>, words: seq<string>, maxWidth: int): nat
    requires |current| > 0
    decreases |words|
  {
    if words == [] then 0
    else if |Join(current)| + |words[0]| > maxWidth then 1 + Breaks([words[0]], words[1..], maxWidth)
    else Breaks(current + [words[0]], words[1..], maxWidth)
  }

  /** The groups of the lines `draw_wrapped` draws for a list of words. */
  function WrapGroups(words: seq<string>, maxWidth: int): seq<seq<string>>
  {
    WrapFrom([], [""], words, maxWidth)
  }

  /** The texts of the groups' lines. */
  function Lines(groups: seq<seq<string>>): (lines: seq<string>)
    requires forall g | g in groups :: |g| > 0
    ensures |lines| == |groups|
    ensures forall k | 0 <= k < |groups| :: lines[k] == Join(groups[k])
  {
    if groups == [] then [] else Lines(groups[..|groups| - 1]) + [Join(groups[|groups| - 1])]
  }

  /** The lines `draw_wrapped` draws for `text` at width `maxWidth`. */
  function Wrap(text: string, maxWidth: int): seq<string>
  {
    GroupsNonEmpty([], [""], Split(text), maxWidth);
    Lines(WrapGroups(Split(text), maxWidth))
  }

  /** Every group of the wrap holds at least one word. */
  lemma {:induction false} GroupsNonEmpty(done: seq<seq<string>>, current: seq<string>, words: seq<string>, maxWidth: int)
    requires |current| > 0 && forall g | g in done :: |g| > 0
    ensures forall g | g in WrapFrom(done, current, words, maxWidth) :: |g| > 0
    decreases |words|
  {
    if words != [] {
      if |Join(current)| + |words[0]| > maxWidth {
        GroupsNonEmpty(done + [current], [words[0]], words[1..], maxWidth);
      } else {
        GroupsNonEmpty(done, current + [words[0]], words[1..], maxWidth);
      }
    }
  }

  /** The groups, one after the other. */
  function Concat(groups: seq<seq<string>>): seq<string>
  {
    if groups == [] then [] else Concat(groups[..|groups| - 1]) + groups[|groups| - 1]
  }

  lemma ConcatSnoc(groups: seq<seq<string>>, g: seq<string>)
    ensures Concat(groups + [g]) == Concat(groups) + g
  {
    assert (groups + [g])[..|groups|] == groups;
  }

  /** The wrap keeps every word once and in order: the groups read back the words after the leading empty one. */
  lemma {:induction false} WrapKeepsWords(done: seq<seq<string>>, current: seq<string>, words: seq<string>, maxWidth: int)
    requires |current| > 0
    ensures Concat(WrapFrom(done, current, words, maxWidth)) == Concat(done) + current + words
    decreases |words|
  {
    if words == [] {
      ConcatSnoc(done, current);
    } else if |Join(current)| + |words[0]| > maxWidth {
      WrapKeepsWords(done + [current], [words[0]], words[1..], maxWidth);
      ConcatSnoc(done, current);
      assert [words[0]] + words[1..] == words;
    } else {
      WrapKeepsWords(done, current + [words[0]], words[1..], maxWidth);
      assert current + [words[0]] + words[1..] == current + words;
    }
  }

  /**
   * The shape of the wrap's lines: a line that received a word after its
   * first is at most `maxWidth + 1` long (the test ignores the joining
   * space), and each line after the first starts a word that did not fit
   * behind the line before it.
   */
  predicate WellWrapped(groups: seq<seq<string>>, maxWidth: int)
    requires forall g | g in groups :: |g| > 0
  {
    && (forall k | 0 <= k < |groups| && |groups[k]| > 1 :: |Join(groups[k])| <= maxWidth + 1)
    && (forall k | 0 <= k < |groups| - 1 :: |Join(groups[k])| + |groups[k + 1][0]| > maxWidth)
  }

  /** The greedy wrap produces well-wrapped lines. */
  lemma {:induction false} WrapShape(done: seq<seq<string>>, current: seq<string>, words: seq<string>, maxWidth: int)
    requires |current| > 0 && forall g | g in done :: |g| > 0
    requires WellWrapped(done + [current], maxWidth)
    ensures forall g | g in WrapFrom(done, current, words, maxWidth) :: |g| > 0
    ensures WellWrapped(WrapFrom(done, current, words, maxWidth), maxWidth)
    decreases |words|
  {
    GroupsNonEmpty(done, current, words, maxWidth);
    if words != [] {
      var w := words[0];
      if |Join(current)| + |w| > maxWidth {
        WellWrappedBreak(done + [current], w, maxWidth);
        WrapShape(done + [current], [w], words[1..], maxWidth);
      } else {
        WellWrappedGrow(done, current, w, maxWidth);
        WrapShape(done, current + [w], words[1..], maxWidth);
      }
    }
  }

  /** A word that fits grows the current line and keeps the lines well wrapped. */
  lemma WellWrappedGrow(done: seq<seq<string>>, current: seq<string>, w: string, maxWidth: int)
    requires |current| > 0 && forall g | g in done :: |g| > 0
    requires WellWrapped(done + [current], maxWidth)
    requires |Join(current)| + |w| <= maxWidth
    ensures WellWrapped(done + [current + [w]], maxWidth)
  {
    var grown := current + [w];
    assert grown[..|grown| - 1] == current;
    var before := done + [current];
    var after := done + [grown];
    forall k | 0 <= k < |after| && |after[k]| > 1
      ensures |Join(after[k])| <= maxWidth + 1
    {
      if k < |done| {
        assert after[k] == before[k];
      }
    }
    forall k | 0 <= k < |after| - 1
      ensures |Join(after[k])| + |after[k + 1][0]| > maxWidth
    {
      assert after[k] == before[k] && after[k + 1][0] == before[k + 1][0];
    }
  }

  /** A word that does not fit starts a new line and keeps the lines well wrapped. */
  lemma WellWrappedBreak(groups: seq<seq<string>>, w: string, maxWidth: int)
    requires |groups| > 0 && forall g | g in groups :: |g| > 0
    requires WellWrapped(groups, maxWidth)
    requires |Join(groups[|groups| - 1])| + |w| > maxWidth
    ensures WellWrapped(groups + [[w]], maxWidth)
  {
    var after := groups + [[w]];
    forall k | 0 <= k < |after| && |after[k]| > 1
      ensures |Join(after[k])| <= maxWidth + 1
    {
      assert after[k] == groups[k];
    }
    forall k | 0 <= k < |after| - 1
      ensures |Join(after[k])| + |after[k + 1][0]| > maxWidth
    {
      assert after[k] == groups[k];
    }
  }

  /**
   * What `draw_wrapped` promises about any text: at least one line; the
   * lines' words are the text's words in order, after the empty word the
   * first line starts from; every line that grew past one word fits in
   * `maxWidth + 1` characters; and a line ends only where the next word
   * would not have fitted.
   */
  lemma WrapProperties(text: string, maxWidth: int)
    ensures var groups := WrapGroups(Split(text), maxWidth);
            && (forall g | g in groups :: |g| > 0)
            && |groups| >= 1
            && Concat(groups) == [""] + Split(text)
            && WellWrapped(groups, maxWidth)
            && Wrap(text, maxWidth) == Lines(groups)
  {
    WrapKeepsWords([], [""], Split(text), maxWidth);
    assert Concat([]) == [];
    WrapShape([], [""], Split(text), maxWidth);
  }

  /** The loop of `draw_wrapped` that builds the lines. */
  method WrapLines(text: string, maxWidth: int) returns (lines: seq<string>)
    ensures lines == Wrap(text, maxWidth)
  {
    var words := Split(text);
    lines := [];
    var currentLine := "";
    ghost var done: seq<seq<string>> := [];
    ghost var current: seq<string> := [""];
    GroupsNonEmpty([], [""], words, maxWidth);
    for i := 0 to |words|
      invariant |current| > 0 && forall g | g in done :: |g| > 0
      invariant lines == Lines(done) && currentLine == Join(current)
      invariant WrapFrom(done, current, words[i..], maxWidth) == WrapGroups(words, maxWidth)
    {
      var word := words[i];
      assert words[i..] == [word] + words[i + 1..];
      if |currentLine| + |word| > maxWidth {
        lines := lines + [currentLine];
        currentLine := word;
        done, current := done + [current], [word];
      } else {
        assert (current + [word])[..|current|] == current;
        assert Join(current + [word]) == Join(current) + " " + word;
        currentLine := currentLine + " " + word;
        current := current + [word];
      }
    }
    lines := lines + [currentLine];
    done := done + [current];
  }

  /** The part of `schemas.game.Move` the trajectory uses. */
  datatype Move = Move(positionBefore: HecsCoord, displacement: HecsCoord)

  /**
   * The trajectory `draw_instruction` builds: where each move started, then
   * where the last one ended; no points at all without moves. `add` is
   * `HecsCoord.add`.
   */
  method Trajectory(moves: seq<Move>, add: (HecsCoord, HecsCoord) -> HecsCoord) returns (points: seq<HecsCoord>)
    ensures |points| == if |moves| > 0 then |moves| + 1 else 0
    ensures forall i | 0 <= i < |moves| :: points[i] == moves[i].positionBefore
    ensures |moves| > 0 ==> points[|moves|] == add(moves[|moves| - 1].positionBefore, moves[|moves| - 1].displacement)
  {
    points := [];
    for i := 0 to |moves|
      invariant |points| == i
      invariant forall j | 0 <= j < i :: points[j] == moves[j].positionBefore
    {
      points := points + [moves[i].positionBefore];
    }
    if |moves| > 0 {
      var last := moves[|moves| - 1];
      points := points + [add(last.positionBefore, last.displacement)];
    }
  }

  /** The text `draw_instruction` wraps: the instruction in double quotes. */
  function QuotedText(text: string): (quoted: string)
    ensures |quoted| == |text| + 2 && quoted[0] == '"' && quoted[|quoted| - 1] == '"'
    ensures quoted[1..|quoted| - 1] == text
  {
    "\"" + text + "\""
  }
}
