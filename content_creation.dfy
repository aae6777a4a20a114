/** The greeting-card studio: a card style supplies a title, a default message and
    colours; the download draws the message wrapped greedily into lines no wider than
    350 pixels.  Text measurement is a parameter `width` standing for the canvas's
    `measureText` in 18px Arial. */
module ContentCreation {
  import opened Common

  datatype CardStyle = Birthday | ThankYou | Thinking | Congrats

  datatype CardTemplate = CardTemplate(title: string, message: string, colors: seq<string>)

  /** The value the style selector uses for each style. */
  function StyleName(style: CardStyle): string {
    match style
    case Birthday => "birthday"
    case ThankYou => "thankyou"
    case Thinking => "thinking"
    case Congrats => "congrats"
  }

  function Template(style: CardStyle): (r: CardTemplate)
    ensures |r.colors| == 3
  {
    match style
    case Birthday => CardTemplate("Happy Birthday!", "Wishing you joy and happiness on your special day",
                                  ["#FFD700", "#FF69B4", "#87CEEB"])
    case ThankYou => CardTemplate("Thank You!", "Your kindness means so much",
                                  ["#98FB98", "#F0E68C", "#DDA0DD"])
    case Thinking => CardTemplate("Thinking of You", "You are in my thoughts and prayers",
                                  ["#F5DEB3", "#E6E6FA", "#FFE4E1"])
    case Congrats => CardTemplate("Congratulations!", "So proud of your achievement",
                                  ["#FFD700", "#FF6347", "#32CD32"])
  }

  /** The text on the card: what the user typed, or the style's message when that is empty. */
  function CardMessage(cardText: string, style: CardStyle): (r: string)
    ensures cardText != "" ==> r == cardText
    ensures cardText == "" ==> r == Template(style).message
    ensures r != ""
  {
    if cardText != "" then cardText else Template(style).message
  }

  /** Every word followed by one space, in order. */
  function Spaced(words: seq<string>): string {
    if words == [] then "" else words[0] + " " + Spaced(words[1..])
  }

  function Concat(lines: seq<string>): string {
    if lines == [] then "" else lines[0] + Concat(lines[1..])
  }

  lemma {:induction false} SpacedJoin(ws: seq<string>)
    requires |ws| >= 1
    ensures Spaced(ws) == JoinOn(ws, ' ') + " "
  {
    if |ws| > 1 {
      SpacedJoin(ws[1..]);
    }
  }

  /** What the wrapped lines spell out together is the message with one trailing space. */
  lemma SpacedSplit(s: string)
    ensures Spaced(SplitOn(s, ' ')) == s + " "
  {
    SplitJoin(s, ' ');
    SpacedJoin(SplitOn(s, ' '));
  }

  lemma {:induction false} SpacedSnoc(words: seq<string>, w: string)
    ensures Spaced(words + [w]) == Spaced(words) + w + " "
  {
    if words != [] {
      assert (words + [w])[1..] == words[1..] + [w];
      SpacedSnoc(words[1..], w);
    }
  }

  lemma {:induction false} ConcatSnoc(lines: seq<string>, l: string)
    ensures Concat(lines + [l]) == Concat(lines) + l
  {
    if lines != [] {
      assert (lines + [l])[1..] == lines[1..] + [l];
      ConcatSnoc(lines[1..], l);
    }
  }

  const MaxLineWidth: real := 350.0
  const FirstLineY: int := 150
  const LineHeight: int := 30

  /** A drawn line is a single word with its space, or it measures at most 350. */
  predicate Fits(line: string, words: seq<string>, width: string -> real) {
    (exists k :: 0 <= k < |words| && line == words[k] + " ") || width(line) <= MaxLineWidth
  }

  /** The line after `a` begins with a word that did not fit at the end of `a`. */
  predicate BrokeBefore(a: string, b: string, words: seq<string>, width: string -> real) {
    exists k :: 0 < k < |words| && width(a + words[k] + " ") > MaxLineWidth && words[k] + " " <= b
  }

  /** What holds of the wrap after `n` words: `lines` are drawn, `line` is pending, and
      `lastBreak` is the word that opened the pending line. */
  ghost predicate WrapState(words: seq<string>, width: string -> real, n: nat,
                            lines: seq<string>, line: string, lastBreak: nat)
  {
    n <= |words| &&
    Concat(lines) + line == Spaced(words[..n]) &&
    (n == 0 ==> line == "" && lines == []) &&
    (n > 0 ==> line != "" && Fits(line, words, width)) &&
    (forall i :: 0 <= i < |lines| ==> lines[i] != "" && Fits(lines[i], words, width)) &&
    (forall i :: 0 <= i < |lines| - 1 ==> BrokeBefore(lines[i], lines[i + 1], words, width)) &&
    (|lines| > 0 ==>
       0 < lastBreak < n && width(lines[|lines| - 1] + words[lastBreak] + " ") > MaxLineWidth &&
       words[lastBreak] + " " <= line)
  }

  /** A word that does not fit (and is not the first) closes the pending line. */
  lemma WrapBreak(words: seq<string>, width: string -> real, n: nat,
                  lines: seq<string>, line: string, lastBreak: nat)
    requires WrapState(words, width, n, lines, line, lastBreak) && n < |words|
    requires width(line + words[n] + " ") > MaxLineWidth && n > 0
    ensures WrapState(words, width, n + 1, lines + [line], words[n] + " ", n)
  {
    assert words[..n + 1] == words[..n] + [words[n]];
    SpacedSnoc(words[..n], words[n]);
    ConcatSnoc(lines, line);
    if |lines| > 0 {
      assert BrokeBefore(lines[|lines| - 1], line, words, width);
    }
    var lines' := lines + [line];
    assert forall i :: 0 <= i < |lines'| ==> lines'[i] != "" && Fits(lines'[i], words, width);
    assert Fits(words[n] + " ", words, width);
  }

  /** Otherwise the word joins the pending line. */
  lemma WrapExtend(words: seq<string>, width: string -> real, n: nat,
                   lines: seq<string>, line: string, lastBreak: nat)
    requires WrapState(words, width, n, lines, line, lastBreak) && n < |words|
    requires !(width(line + words[n] + " ") > MaxLineWidth && n > 0)
    ensures WrapState(words, width, n + 1, lines, line + words[n] + " ", lastBreak)
  {
    var testLine := line + words[n] + " ";
    assert words[..n + 1] == words[..n] + [words[n]];
    SpacedSnoc(words[..n], words[n]);
    if n == 0 {
      assert testLine == words[0] + " ";
    }
    assert Fits(testLine, words, width);
    if |lines| > 0 {
      assert words[lastBreak] + " " <= testLine;
    }
  }

  /** The last pending line is drawn too. */
  lemma WrapFinish(words: seq<string>, width: string -> real,
                   lines: seq<string>, line: string, lastBreak: nat, all: seq<string>)
    requires WrapState(words, width, |words|, lines, line, lastBreak)
    requires all == lines + [line]
    ensures Concat(all) == Spaced(words)
    ensures |words| >= 1 ==> forall i :: 0 <= i < |all| ==> all[i] != "" && Fits(all[i], words, width)
    ensures forall i :: 0 <= i < |all| - 1 ==> BrokeBefore(all[i], all[i + 1], words, width)
  {
    assert words[..|words|] == words;
    ConcatSnoc(lines, line);
    if |lines| > 0 {
      assert BrokeBefore(lines[|lines| - 1], line, words, width);
    }
    FinishBreaks(words, width, lines, line, all);
    if |words| >= 1 {
      FinishFits(words, width, lines, line, all);
    }
  }

  lemma FinishBreaks(words: seq<string>, width: string -> real,
                     lines: seq<string>, line: string, all: seq<string>)
    requires forall i :: 0 <= i < |lines| - 1 ==> BrokeBefore(lines[i], lines[i + 1], words, width)
    requires |lines| > 0 ==> BrokeBefore(lines[|lines| - 1], line, words, width)
    requires all == lines + [line]
    ensures forall i :: 0 <= i < |all| - 1 ==> BrokeBefore(all[i], all[i + 1], words, width)
  {
    forall i | 0 <= i < |all| - 1
      ensures BrokeBefore(all[i], all[i + 1], words, width)
    {
      if i < |lines| - 1 {
        assert all[i] == lines[i] && all[i + 1] == lines[i + 1];
      } else {
        assert all[i] == lines[|lines| - 1] && all[i + 1] == line;
      }
    }
  }

  lemma FinishFits(words: seq<string>, width: string -> real,
                   lines: seq<string>, line: string, all: seq<string>)
    requires forall i :: 0 <= i < |lines| ==> lines[i] != "" && Fits(lines[i], words, width)
    requires line != "" && Fits(line, words, width)
    requires all == lines + [line]
    ensures forall i :: 0 <= i < |all| ==> all[i] != "" && Fits(all[i], words, width)
  {
    forall i | 0 <= i < |all|
      ensures all[i] != "" && Fits(all[i], words, width)
    {
      if i < |lines| {
        assert all[i] == lines[i];
      }
    }
  }

  /** The download's word wrap.  It returns the lines in drawing order and the height of
      the last one. */
  method WrapLines(words: seq<string>, width: string -> real) returns (lines: seq<string>, y: int)
    ensures |lines| >= 1
    ensures Concat(lines) == Spaced(words)
    ensures |words| >= 1 ==> forall i :: 0 <= i < |lines| ==> lines[i] != "" && Fits(lines[i], words, width)
    ensures forall i :: 0 <= i < |lines| - 1 ==> BrokeBefore(lines[i], lines[i + 1], words, width)
    ensures y == FirstLineY + LineHeight * (|lines| - 1)
  {
    lines := [];
    var line := "";
    y := FirstLineY;
    ghost var lastBreak := 0;
    for n := 0 to |words|
      invariant WrapState(words, width, n, lines, line, lastBreak)
      invariant y == FirstLineY + LineHeight * |lines|
    {
      var testLine := line + words[n] + " ";
      if width(testLine) > MaxLineWidth && n > 0 {
        WrapBreak(words, width, n, lines, line, lastBreak);
        lines := lines + [line];
        line := words[n] + " ";
        lastBreak := n;
        y := y + LineHeight;
      } else {
        WrapExtend(words, width, n, lines, line, lastBreak);
        line := testLine;
      }
    }
    WrapFinish(words, width, lines, line, lastBreak, lines + [line]);
    lines := lines + [line];
  }

  datatype Card = Card(title: string, lines: seq<string>, lastY: int,
                       gradient: (string, string), fileName: string)

  function FileName(style: CardStyle): string {
    "daymaker-" + StyleName(style) + "-card.png"
  }

  /** Different styles download under different names. */
  lemma FileNameInjective(a: CardStyle, b: CardStyle)
    ensures FileName(a) == FileName(b) <==> a == b
  {
    if a != b {
      assert FileName(a)[9..17] == StyleName(a) && FileName(b)[9..17] == StyleName(b);
    }
  }

  /** The download: the style's title, the wrapped message, a gradient from the style's
      first to second colour, and a file name after the style. */
  method Download(cardText: string, style: CardStyle, width: string -> real) returns (card: Card)
    ensures card.title == Template(style).title
    ensures card.gradient == (Template(style).colors[0], Template(style).colors[1])
    ensures card.fileName == FileName(style)
    ensures Concat(card.lines) == CardMessage(cardText, style) + " "
    ensures forall i :: 0 <= i < |card.lines| ==> card.lines[i] != ""
    ensures card.lastY == FirstLineY + LineHeight * (|card.lines| - 1)
  {
    var template := Template(style);
    var message := CardMessage(cardText, style);
    var words := SplitOn(message, ' ');
    var lines, y := WrapLines(words, width);
    SpacedSplit(message);
    card := Card(template.title, lines, y, (template.colors[0], template.colors[1]), FileName(style));
  }
}
