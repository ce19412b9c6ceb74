/**
 * The text part of the quote-card compositor in services/Service.ts
 * (`createQuoteImage`): a 1200x630 canvas, body text at a fixed 60px with
 * an 80px line height, wrapped greedily at 960px, drawn centred from a
 * start line computed from the line count, and the author line below it.
 * The 2D context's `measureText` is a parameter of the model (any function
 * from text to width), and so is `toDataURL`, as a function of the text
 * drawn. Backgrounds, border, badge and fonts are not modelled.
 */
module Compositor {
  import opened Wrappers
  import opened Text

  const Width: int := 1200
  const Height: int := 630
  const LineHeight: int := 80
  /** The widest a wrapped line may measure: the width less 120px of padding per side. */
  const MaxWidth: int := Width - 240

  /** What `ctx.measureText(s).width` reports for `s`. */
  type Measure = string -> int

  /** One `fillText` of quote text: the string and the y coordinate of its middle. */
  datatype TextDraw = TextDraw(text: string, y: int)

  /**
   * What happens to the rendering surface: creating or drawing it raises,
   * `getContext('2d')` gives null, or a 2D context with its width
   * measure and its PNG encoder.
   */
  datatype Surface =
    | Raises
    | NoContext
    | Context2D(measure: Measure, encode: seq<TextDraw> -> string)

  /** The wrap loop's variables after some words: the committed `lines` and the open `line`. */
  datatype WrapState = WrapState(lines: seq<string>, line: string)

  /**
   * The wrap loop's state after it has consumed `words`: the next word is
   * appended with a trailing space unless the result measures wider than
   * `MaxWidth` and it is not the first word, in which case the open line
   * is committed and the word starts a new one.
   */
  function WrapPrefix(words: seq<string>, measure: Measure): WrapState
    decreases |words|
  {
    if |words| == 0 then WrapState([], "")
    else WrapStep(WrapPrefix(words[..|words| - 1], measure), words[|words| - 1], |words| - 1, measure)
  }

  /** One turn of the wrap loop, for word number `n`. */
  function WrapStep(st: WrapState, word: string, n: nat, measure: Measure): WrapState
  {
    var testLine := st.line + word + " ";
    if measure(testLine) > MaxWidth && n > 0 then WrapState(st.lines + [st.line], word + " ")
    else WrapState(st.lines, testLine)
  }

  /** The lines the wrap produces: the committed ones and the last open line. */
  function WrapLines(words: seq<string>, measure: Measure): (lines: seq<string>)
    ensures |lines| >= 1
    ensures lines[..|lines| - 1] == WrapPrefix(words, measure).lines
  {
    var st := WrapPrefix(words, measure);
    st.lines + [st.line]
  }

  /** True when the line ends in the space the wrap puts after every word. */
  predicate EndsInSpace(line: string)
  {
    |line| > 0 && line[|line| - 1] == ' '
  }

  /** The first word of a wrapped line together with the space after it. */
  function LeadingWord(line: string): string
    decreases |line|
  {
    if |line| == 0 then "" else if line[0] == ' ' then " " else [line[0]] + LeadingWord(line[1..])
  }

  /** `startY`: the y of the first line for `lineCount` lines; exact, since 630 and 80 are even. */
  function StartY(lineCount: nat): (y: int)
    ensures y == 335 - 40 * lineCount
  {
    Height / 2 - (lineCount * LineHeight) / 2 + 20
  }

  /** The y at which line `i` of `lineCount` is drawn. */
  function LineY(lineCount: nat, i: nat): int
  {
    StartY(lineCount) + i * LineHeight
  }

  /** `authorY`: one line height below the block, plus 40. */
  function AuthorY(lineCount: nat): (y: int)
    ensures y == 375 + 40 * lineCount
  {
    StartY(lineCount) + lineCount * LineHeight + 40
  }

  /** Every text draw of the card, in order: the lines, then `- <author>`. */
  function DrawPlan(lines: seq<string>, author: string): (plan: seq<TextDraw>)
    ensures |plan| == |lines| + 1
    ensures forall i :: 0 <= i < |lines| ==> plan[i].text == lines[i]
    ensures plan[|lines|].text == "- " + author
  {
    seq(|lines|, i requires 0 <= i < |lines| => TextDraw(lines[i], LineY(|lines|, i)))
      + [TextDraw("- " + author, AuthorY(|lines|))]
  }

  /** What `createQuoteImage` resolves to: nothing when it raises, `''` without a 2D context, else the encoded card. */
  function Rendered(text: string, author: string, surface: Surface): (image: Option<string>)
    ensures image.None? <==> surface.Raises?
    ensures surface.NoContext? ==> image == Some("")
  {
    match surface
    case Raises => None
    case NoContext => Some("")
    case Context2D(measure, encode) => Some(encode(DrawPlan(WrapLines(Split(text, ' '), measure), author)))
  }

  // ---------------------------------------------------------------------
  // The loops of createQuoteImage

  /** The greedy wrap loop over the words of the text. */
  method WrapText(words: seq<string>, measure: Measure) returns (lines: seq<string>)
    ensures lines == WrapLines(words, measure)
  {
    var line := "";
    lines := [];
    for n := 0 to |words|
      invariant WrapState(lines, line) == WrapPrefix(words[..n], measure)
    {
      assert words[..n + 1][..n] == words[..n];
      var testLine := line + words[n] + " ";
      var testWidth := measure(testLine);
      if testWidth > MaxWidth && n > 0 {
        lines := lines + [line];
        line := words[n] + " ";
      } else {
        line := testLine;
      }
    }
    assert words[..|words|] == words;
    lines := lines + [line];
  }

  /** `createQuoteImage`: wrap the text, lay out and draw the lines and the author, encode. */
  method CreateQuoteImage(text: string, author: string, surface: Surface) returns (image: Option<string>)
    ensures image == Rendered(text, author, surface)
  {
    match surface
    case Raises =>
      image := None;
    case NoContext =>
      image := Some("");
    case Context2D(measure, encode) =>
      var words := Split(text, ' ');
      var lines := WrapText(words, measure);
      var startY := StartY(|lines|);
      var draws: seq<TextDraw> := [];
      for i := 0 to |lines|
        invariant |draws| == i
        invariant forall k :: 0 <= k < i ==> draws[k] == TextDraw(lines[k], LineY(|lines|, k))
      {
        draws := draws + [TextDraw(lines[i], startY + i * LineHeight)];
      }
      var authorY := startY + |lines| * LineHeight + 40;
      draws := draws + [TextDraw("- " + author, authorY)];
      assert draws == DrawPlan(lines, author);
      image := Some(encode(draws));
  }

  // ---------------------------------------------------------------------
  // Properties of the wrap

  lemma ConcatSnoc(parts: seq<string>, last: string)
    ensures Concat(parts + [last]) == Concat(parts) + last
  {
    assert (parts + [last])[..|parts|] == parts;
  }

  /** The committed lines and the open line together spell out every word with its trailing space. */
  lemma {:induction false} WrapPrefixKeepsText(words: seq<string>, measure: Measure)
    ensures Concat(WrapPrefix(words, measure).lines) + WrapPrefix(words, measure).line == Terminated(words, ' ')
    decreases |words|
  {
    if |words| > 0 {
      var n := |words| - 1;
      var st := WrapPrefix(words[..n], measure);
      WrapPrefixKeepsText(words[..n], measure);
      assert words == words[..n] + [words[n]];
      TerminatedSnoc(words[..n], words[n], ' ');
      ConcatSnoc(st.lines, st.line);
    }
  }

  /** No word is lost, split or reordered: the lines concatenate to the words, each followed by one space. */
  lemma WrapKeepsText(words: seq<string>, measure: Measure)
    ensures Concat(WrapLines(words, measure)) == Terminated(words, ' ')
  {
    var st := WrapPrefix(words, measure);
    WrapPrefixKeepsText(words, measure);
    ConcatSnoc(st.lines, st.line);
  }

  /** For a text: the wrapped lines concatenate to the text and one trailing space. */
  lemma WrapKeepsQuoteText(text: string, measure: Measure)
    ensures Concat(WrapLines(Split(text, ' '), measure)) == text + " "
  {
    WrapKeepsText(Split(text, ' '), measure);
    SplitTerminated(text, ' ');
  }

  lemma {:induction false} WrapPrefixShape(words: seq<string>, measure: Measure)
    requires |words| >= 1
    ensures |WrapPrefix(words, measure).lines| < |words|
    ensures EndsInSpace(WrapPrefix(words, measure).line)
    ensures forall i :: 0 <= i < |WrapPrefix(words, measure).lines| ==> EndsInSpace(WrapPrefix(words, measure).lines[i])
    decreases |words|
  {
    if |words| > 1 {
      WrapPrefixShape(words[..|words| - 1], measure);
    }
  }

  /**
   * At least one line is produced, never more lines than words, and (for
   * the at least one word that `split` always yields) every line is
   * non-empty and ends in a space.
   */
  lemma WrapShape(words: seq<string>, measure: Measure)
    ensures 1 <= |WrapLines(words, measure)|
    ensures |words| >= 1 ==> |WrapLines(words, measure)| <= |words|
    ensures |words| >= 1 ==> forall i :: 0 <= i < |WrapLines(words, measure)| ==> EndsInSpace(WrapLines(words, measure)[i])
  {
    if |words| >= 1 {
      WrapPrefixShape(words, measure);
    }
  }

  lemma {:induction false} LeadingWordOfWord(w: string)
    requires ' ' !in w
    ensures LeadingWord(w + " ") == w + " "
    decreases |w|
  {
    if |w| > 0 {
      assert (w + " ")[1..] == w[1..] + " ";
      LeadingWordOfWord(w[1..]);
    }
  }

  lemma {:induction false} LeadingWordAppend(a: string, b: string)
    requires ' ' in a
    ensures LeadingWord(a + b) == LeadingWord(a)
    decreases |a|
  {
    if a[0] != ' ' {
      assert (a + b)[1..] == a[1..] + b;
      LeadingWordAppend(a[1..], b);
    }
  }

  /** Every line holding two or more words (two or more spaces) measures at most `MaxWidth`. */
  predicate LinesFit(lines: seq<string>, measure: Measure)
  {
    forall i :: 0 <= i < |lines| && Occurrences(lines[i], ' ') >= 2 ==> measure(lines[i]) <= MaxWidth
  }

  /** Every line but the last would measure wider than `MaxWidth` with the next line's first word. */
  predicate BreaksForced(lines: seq<string>, measure: Measure)
  {
    forall i :: 0 <= i < |lines| - 1 ==> measure(lines[i] + LeadingWord(lines[i + 1])) > MaxWidth
  }

  /** The invariant of the wrap loop behind WrapGreedy, on the loop's state. */
  predicate GreedyState(st: WrapState, measure: Measure)
  {
    && ' ' in st.line
    && (Occurrences(st.line, ' ') >= 2 ==> measure(st.line) <= MaxWidth)
    && LinesFit(st.lines, measure)
    && BreaksForced(st.lines, measure)
    && (|st.lines| > 0 ==> measure(st.lines[|st.lines| - 1] + LeadingWord(st.line)) > MaxWidth)
  }

  lemma WordLine(w: string)
    requires ' ' !in w
    ensures ' ' in w + " " && Occurrences(w + " ", ' ') == 1
  {
    OccurrencesAppend(w, " ", ' ');
    OccurrencesAbsent(w, ' ');
    assert (w + " ")[|w|] == ' ';
  }

  lemma LinesFitSnoc(lines: seq<string>, line: string, measure: Measure)
    requires LinesFit(lines, measure)
    requires Occurrences(line, ' ') >= 2 ==> measure(line) <= MaxWidth
    ensures LinesFit(lines + [line], measure)
  {
    var all := lines + [line];
    forall i | 0 <= i < |all| && Occurrences(all[i], ' ') >= 2 ensures measure(all[i]) <= MaxWidth {
      if i < |lines| { assert all[i] == lines[i]; }
    }
  }

  lemma BreaksForcedSnoc(lines: seq<string>, line: string, measure: Measure)
    requires BreaksForced(lines, measure)
    requires |lines| > 0 ==> measure(lines[|lines| - 1] + LeadingWord(line)) > MaxWidth
    ensures BreaksForced(lines + [line], measure)
  {
    var all := lines + [line];
    forall i | 0 <= i < |all| - 1 ensures measure(all[i] + LeadingWord(all[i + 1])) > MaxWidth {
      if i + 1 < |lines| { assert all[i] == lines[i] && all[i + 1] == lines[i + 1]; }
    }
  }

  /** A word that breaks the line keeps the invariant. */
  lemma BreakKeepsGreedy(st: WrapState, w: string, measure: Measure)
    requires GreedyState(st, measure) && ' ' !in w
    requires measure(st.line + w + " ") > MaxWidth
    ensures GreedyState(WrapState(st.lines + [st.line], w + " "), measure)
  {
    WordLine(w);
    LeadingWordOfWord(w);
    assert st.line + (w + " ") == st.line + w + " ";
    LinesFitSnoc(st.lines, st.line, measure);
    BreaksForcedSnoc(st.lines, st.line, measure);
  }

  /** A word that joins the open line, not being the first word, keeps the invariant. */
  lemma JoinKeepsGreedy(st: WrapState, w: string, measure: Measure)
    requires GreedyState(st, measure) && ' ' !in w
    requires measure(st.line + w + " ") <= MaxWidth
    ensures GreedyState(WrapState(st.lines, st.line + w + " "), measure)
  {
    var testLine := st.line + w + " ";
    assert testLine == st.line + (w + " ");
    LeadingWordAppend(st.line, w + " ");
    assert ' ' in testLine by { assert testLine[|testLine| - 1] == ' '; }
  }

  lemma {:induction false} WrapPrefixGreedy(words: seq<string>, measure: Measure)
    requires |words| >= 1
    requires forall i :: 0 <= i < |words| ==> ' ' !in words[i]
    ensures GreedyState(WrapPrefix(words, measure), measure)
    decreases |words|
  {
    var n := |words| - 1;
    var w := words[n];
    if n == 0 {
      WordLine(w);
      assert WrapPrefix(words, measure) == WrapState([], w + " ");
    } else {
      var prefix := words[..n];
      WrapPrefixGreedy(prefix, measure);
      var st := WrapPrefix(prefix, measure);
      if measure(st.line + w + " ") > MaxWidth {
        BreakKeepsGreedy(st, w, measure);
      } else {
        JoinKeepsGreedy(st, w, measure);
      }
    }
  }

  /**
   * A word starts a new line exactly when it is not the first word and the
   * open line with it measures wider than `MaxWidth`. Hence every line of
   * two or more words measured at most `MaxWidth` when it was accepted,
   * and every committed line was committed because the next line's first
   * word would have made it measure wider than `MaxWidth`.
   */
  lemma WrapGreedy(words: seq<string>, measure: Measure)
    requires |words| >= 1
    requires forall i :: 0 <= i < |words| ==> ' ' !in words[i]
    ensures var lines := WrapLines(words, measure);
      && (forall i :: 0 <= i < |lines| && Occurrences(lines[i], ' ') >= 2 ==> measure(lines[i]) <= MaxWidth)
      && (forall i :: 0 <= i < |lines| - 1 ==> measure(lines[i] + LeadingWord(lines[i + 1])) > MaxWidth)
  {
    WrapPrefixGreedy(words, measure);
    var st := WrapPrefix(words, measure);
    LinesFitSnoc(st.lines, st.line, measure);
    BreaksForcedSnoc(st.lines, st.line, measure);
  }

  /** The greedy property for the words of a quote text. */
  lemma WrapQuoteGreedy(text: string, measure: Measure)
    ensures var lines := WrapLines(Split(text, ' '), measure);
      && (forall i :: 0 <= i < |lines| && Occurrences(lines[i], ' ') >= 2 ==> measure(lines[i]) <= MaxWidth)
      && (forall i :: 0 <= i < |lines| - 1 ==> measure(lines[i] + LeadingWord(lines[i + 1])) > MaxWidth)
  {
    SplitPiecesFree(text, ' ');
    WrapGreedy(Split(text, ' '), measure);
  }

  // ---------------------------------------------------------------------
  // Properties of the layout

  /**
   * With n lines, line i is drawn at 335 - 40n + 80i and the author at
   * 375 + 40n: consecutive lines 80 apart, the author 40 below the slot
   * after the last line.
   */
  lemma DrawPlanLayout(lines: seq<string>, author: string)
    ensures var plan, n := DrawPlan(lines, author), |lines|;
      && |plan| == n + 1
      && (forall i :: 0 <= i < n ==> plan[i] == TextDraw(lines[i], 335 - 40 * n + 80 * i))
      && (forall i :: 0 <= i < n - 1 ==> plan[i + 1].y - plan[i].y == LineHeight)
      && plan[n] == TextDraw("- " + author, 375 + 40 * n)
      && (n > 0 ==> plan[n].y == plan[n - 1].y + LineHeight + 40)
  {
  }

  /** The first and last line are symmetric about y = 295 whatever the line count. */
  lemma BlockCentre(n: nat)
    requires n >= 1
    ensures LineY(n, 0) + LineY(n, n - 1) == 2 * 295
  {
  }

  /** Nothing keeps a long quote on the card: from 7 lines the author is below the bottom edge, from 9 the first line is above the top. */
  lemma LongQuotesOverflow(n: nat)
    ensures n >= 7 ==> AuthorY(n) > Height
    ensures n >= 9 ==> LineY(n, 0) < 0
  {
  }

  /** The image is missing only when rendering raises; without a 2D context it is the empty string. */
  lemma RenderedOutcomes(text: string, author: string, surface: Surface)
    ensures Rendered(text, author, surface).None? <==> surface.Raises?
    ensures surface.NoContext? ==> Rendered(text, author, surface) == Some("")
  {
  }
}
