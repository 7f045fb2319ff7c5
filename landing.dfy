/** The hero-text splitter of the landing page: every matched element's
    text is replaced by one inline-block span per character (spaces become
    no-break spaces) or one per space-separated word, and the spans of the
    per-character split are returned for animation. */
module Landing {

  const NoBreakSpace: char := '\U{00A0}'
  const HeroChar: string := "hero-char"
  const InlineBlock: string := "inline-block"

  datatype SplitMode = Chars | Words

  /** A created span; className is "" when none was set. */
  datatype Span = Span(text: string, display: string, className: string)

  /** A child of an element: plain text or a span. */
  datatype Node = TextNode(text: string) | SpanNode(span: Span)

  function NodeText(n: Node): string
  {
    match n
    case TextNode(t) => t
    case SpanNode(s) => s.text
  }

  /** The text of a list of children, in order. */
  function NodesText(nodes: seq<Node>): string
    decreases |nodes|
  {
    if nodes == [] then [] else NodesText(nodes[..|nodes| - 1]) + NodeText(nodes[|nodes| - 1])
  }

  class Element {
    var children: seq<Node>

    /** The element's text: its children's texts run together. */
    function InnerText(): string
      reads this
    {
      NodesText(children)
    }
  }

  // ---------------------------------------------------------------------
  // String.prototype.split with a one-character separator

  /** The pieces between occurrences of `sep`; a string with k separators
      has k + 1 pieces, empty ones included. */
  function Split(s: string, sep: char): (pieces: seq<string>)
    ensures |pieces| >= 1
    decreases |s|
  {
    if s == [] then [[]]
    else
      var rest := Split(s[1..], sep);
      if s[0] == sep then [[]] + rest else [[s[0]] + rest[0]] + rest[1..]
  }

  function Join(pieces: seq<string>, sep: char): string
    decreases |pieces|
  {
    if pieces == [] then []
    else if |pieces| == 1 then pieces[0]
    else pieces[0] + [sep] + Join(pieces[1..], sep)
  }

  function Occurrences(s: string, c: char): nat
    decreases |s|
  {
    if s == [] then 0 else (if s[0] == c then 1 else 0) + Occurrences(s[1..], c)
  }

  /** Joining the pieces with the separator gives the string back. */
  lemma {:induction false} JoinSplit(s: string, sep: char)
    ensures Join(Split(s, sep), sep) == s
    decreases |s|
  {
    if s != [] {
      var rest := Split(s[1..], sep);
      JoinSplit(s[1..], sep);
      if s[0] == sep {
        JoinEmptyFirst(rest, sep);
      } else {
        JoinCons(s[0], rest, sep);
      }
      assert s == [s[0]] + s[1..];
    }
  }

  /** A leading empty piece joins to a leading separator. */
  lemma JoinEmptyFirst(rest: seq<string>, sep: char)
    requires |rest| >= 1
    ensures Join([[]] + rest, sep) == [sep] + Join(rest, sep)
  {
    assert ([[]] + rest)[1..] == rest;
  }

  /** A character put in front of the first piece is put in front of the
      joined string. */
  lemma JoinCons(c: char, rest: seq<string>, sep: char)
    requires |rest| >= 1
    ensures Join([[c] + rest[0]] + rest[1..], sep) == [c] + Join(rest, sep)
  {
    var pieces := [[c] + rest[0]] + rest[1..];
    assert pieces[1..] == rest[1..];
  }

  /** No piece holds the separator, and there is one more piece than
      separators. */
  lemma {:induction false} SplitPieces(s: string, sep: char)
    ensures forall p | p in Split(s, sep) :: sep !in p
    ensures |Split(s, sep)| == Occurrences(s, sep) + 1
    decreases |s|
  {
    if s != [] {
      SplitPieces(s[1..], sep);
      var rest := Split(s[1..], sep);
      if s[0] != sep {
        assert rest[0] in rest;
        forall p | p in rest[1..] ensures sep !in p {
          assert p in rest;
        }
      }
    }
  }

  // ---------------------------------------------------------------------
  // The spans one element's text becomes

  function NoBreak(c: char): char
  {
    if c == ' ' then NoBreakSpace else c
  }

  /** The text with every space replaced by a no-break space. */
  function ReplaceSpaces(s: string): string
  {
    seq(|s|, i requires 0 <= i < |s| => NoBreak(s[i]))
  }

  function CharSpan(c: char): Span
  {
    Span([NoBreak(c)], InlineBlock, HeroChar)
  }

  function WordSpan(word: string): Span
  {
    Span(word + [NoBreakSpace], InlineBlock, "")
  }

  /** The spans appended for `text` in the given mode, in order. */
  function Spans(text: string, mode: SplitMode): seq<Span>
  {
    match mode
    case Chars => seq(|text|, i requires 0 <= i < |text| => CharSpan(text[i]))
    case Words =>
      var pieces := Split(text, ' ');
      seq(|pieces|, i requires 0 <= i < |pieces| => WordSpan(pieces[i]))
  }

  function AsNodes(spans: seq<Span>): seq<Node>
  {
    seq(|spans|, i requires 0 <= i < |spans| => SpanNode(spans[i]))
  }

  function SpansText(spans: seq<Span>): string
    decreases |spans|
  {
    if spans == [] then [] else SpansText(spans[..|spans| - 1]) + spans[|spans| - 1].text
  }

  /** Per character: one span per character, each inline-block with class
      hero-char, whose texts run together to the text with its spaces made
      no-break. */
  lemma {:induction false} CharSpansText(text: string)
    ensures |Spans(text, Chars)| == |text|
    ensures forall i | 0 <= i < |text| ::
      Spans(text, Chars)[i].display == InlineBlock && Spans(text, Chars)[i].className == HeroChar
    ensures SpansText(Spans(text, Chars)) == ReplaceSpaces(text)
    decreases |text|
  {
    if text != [] {
      var front := text[..|text| - 1];
      CharSpansText(front);
      assert Spans(text, Chars)[..|text| - 1] == Spans(front, Chars);
      assert ReplaceSpaces(text) == ReplaceSpaces(front) + [NoBreak(text[|text| - 1])];
    }
  }

  lemma {:induction false} WordSpansTextOf(pieces: seq<string>)
    requires |pieces| >= 1
    requires forall p | p in pieces :: ' ' !in p
    ensures SpansText(seq(|pieces|, i requires 0 <= i < |pieces| => WordSpan(pieces[i])))
         == ReplaceSpaces(Join(pieces, ' ')) + [NoBreakSpace]
    decreases |pieces|
  {
    var spans := seq(|pieces|, i requires 0 <= i < |pieces| => WordSpan(pieces[i]));
    if |pieces| == 1 {
      assert spans == [WordSpan(pieces[0])];
      assert SpansText(spans) == SpansText([]) + spans[0].text;
      ReplaceSpacesWithout(pieces[0]);
    } else {
      var last := pieces[|pieces| - 1];
      var front := pieces[..|pieces| - 1];
      assert forall p | p in front :: p in pieces;
      assert last in pieces;
      WordSpansTextOf(front);
      assert spans[..|spans| - 1] == seq(|front|, i requires 0 <= i < |front| => WordSpan(front[i]));
      assert pieces == front + [last];
      ReplaceSpacesJoinSnoc(front, last);
    }
  }

  /** Joining one more space-free piece adds a no-break space and the piece. */
  lemma ReplaceSpacesJoinSnoc(front: seq<string>, last: string)
    requires |front| >= 1 && ' ' !in last
    ensures ReplaceSpaces(Join(front + [last], ' ')) == ReplaceSpaces(Join(front, ' ')) + [NoBreakSpace] + last
  {
    JoinSnoc(front, last, ' ');
    ReplaceSpacesWithout(last);
    ReplaceSpacesAppend(Join(front, ' ') + [' '], last);
    ReplaceSpacesAppend(Join(front, ' '), [' ']);
  }

  lemma ReplaceSpacesWithout(s: string)
    requires ' ' !in s
    ensures ReplaceSpaces(s) == s
  {
  }

  lemma ReplaceSpacesAppend(a: string, b: string)
    ensures ReplaceSpaces(a + b) == ReplaceSpaces(a) + ReplaceSpaces(b)
  {
  }

  lemma {:induction false} JoinSnoc(front: seq<string>, last: string, sep: char)
    requires |front| >= 1
    ensures Join(front + [last], sep) == Join(front, sep) + [sep] + last
    decreases |front|
  {
    if |front| == 1 {
      assert front + [last] == [front[0], last];
    } else {
      assert (front + [last])[1..] == front[1..] + [last];
      JoinSnoc(front[1..], last, sep);
    }
  }

  /** Per word: one span per piece of the split, each inline-block with no
      class, whose texts run together to the text with its spaces made
      no-break, plus one trailing no-break space. */
  lemma WordSpansText(text: string)
    ensures |Spans(text, Words)| == Occurrences(text, ' ') + 1
    ensures forall i | 0 <= i < |Spans(text, Words)| ::
      Spans(text, Words)[i].display == InlineBlock && Spans(text, Words)[i].className == ""
    ensures SpansText(Spans(text, Words)) == ReplaceSpaces(text) + [NoBreakSpace]
  {
    SplitPieces(text, ' ');
    WordSpansTextOf(Split(text, ' '));
    JoinSplit(text, ' ');
  }

  // ---------------------------------------------------------------------
  // The selection the splitter returns

  /** The children that are spans of class hero-char, in order. */
  function HeroSpans(nodes: seq<Node>): seq<Span>
    decreases |nodes|
  {
    if nodes == [] then []
    else
      var last := nodes[|nodes| - 1];
      HeroSpans(nodes[..|nodes| - 1]) +
      (if last.SpanNode? && last.span.className == HeroChar then [last.span] else [])
  }

  /** The query for hero-char spans inside the matched elements, in
      document order. */
  function HeroCharsIn(elements: seq<Element>): seq<Span>
    reads set e | e in elements
    decreases |elements|
  {
    if elements == [] then []
    else HeroCharsIn(elements[..|elements| - 1]) + HeroSpans(elements[|elements| - 1].children)
  }

  function Texts(elements: seq<Element>): (texts: seq<string>)
    reads set e | e in elements
  {
    seq(|elements|, k requires 0 <= k < |elements| reads set e | e in elements => elements[k].InnerText())
  }

  /** The per-character spans of each text, one text after another. */
  function CharSelection(texts: seq<string>): seq<Span>
    decreases |texts|
  {
    if texts == [] then [] else CharSelection(texts[..|texts| - 1]) + Spans(texts[|texts| - 1], Chars)
  }

  /** Per-character spans all carry hero-char; per-word spans none. */
  lemma {:induction false} HeroSpansOfSplit(spans: seq<Span>, className: string)
    requires forall i | 0 <= i < |spans| :: spans[i].className == className
    ensures HeroSpans(AsNodes(spans)) == if className == HeroChar then spans else []
    decreases |spans|
  {
    if spans != [] {
      var n := |spans|;
      var nodes := AsNodes(spans);
      HeroSpansOfSplit(spans[..n - 1], className);
      assert nodes[..n - 1] == AsNodes(spans[..n - 1]);
      assert nodes[n - 1] == SpanNode(spans[n - 1]);
      assert HeroSpans(nodes) == HeroSpans(nodes[..n - 1]) + (if className == HeroChar then [spans[n - 1]] else []);
      assert spans == spans[..n - 1] + [spans[n - 1]];
    }
  }

  lemma HeroSpansOfText(text: string, mode: SplitMode)
    ensures HeroSpans(AsNodes(Spans(text, mode))) == if mode == Chars then Spans(text, Chars) else []
  {
    match mode
    case Chars =>
      CharSpansText(text);
      HeroSpansOfSplit(Spans(text, Chars), HeroChar);
    case Words =>
      WordSpansText(text);
      HeroSpansOfSplit(Spans(text, Words), "");
  }

  lemma {:induction false} HeroCharsAfterSplit(elements: seq<Element>, texts: seq<string>, mode: SplitMode)
    requires |texts| == |elements|
    requires forall k | 0 <= k < |elements| :: elements[k].children == AsNodes(Spans(texts[k], mode))
    ensures HeroCharsIn(elements) == if mode == Chars then CharSelection(texts) else []
    decreases |elements|
  {
    if elements != [] {
      var n := |elements|;
      var init, initTexts := elements[..n - 1], texts[..n - 1];
      assert forall k | 0 <= k < n - 1 :: init[k] == elements[k] && initTexts[k] == texts[k];
      HeroCharsAfterSplit(init, initTexts, mode);
      HeroSpansOfText(texts[n - 1], mode);
      assert HeroCharsIn(elements) == HeroCharsIn(init) + HeroSpans(elements[n - 1].children);
      assert CharSelection(texts) == CharSelection(initTexts) + Spans(texts[n - 1], Chars);
    }
  }

  lemma AsNodesSnoc(spans: seq<Span>, s: Span)
    ensures AsNodes(spans + [s]) == AsNodes(spans) + [SpanNode(s)]
  {
    assert AsNodes(spans + [s])[|spans|] == SpanNode(s);
  }

  /** What the splitter does to one element: drop its children, then
      append the spans of its old text one by one. */
  method SplitElement(el: Element, mode: SplitMode)
    modifies el
    ensures el.children == AsNodes(Spans(old(el.InnerText()), mode))
  {
    var text := el.InnerText();
    el.children := [];
    match mode {
      case Chars => AppendCharSpans(el, text);
      case Words => AppendWordSpans(el, text);
    }
  }

  /** The per-character loop: one span per character of `text`. */
  method AppendCharSpans(el: Element, text: string)
    requires el.children == []
    modifies el
    ensures el.children == AsNodes(Spans(text, Chars))
  {
    ghost var spans := Spans(text, Chars);
    for i := 0 to |text|
      invariant el.children == AsNodes(spans[..i])
    {
      assert spans[..i + 1] == spans[..i] + [CharSpan(text[i])];
      AsNodesSnoc(spans[..i], CharSpan(text[i]));
      el.children := el.children + [SpanNode(CharSpan(text[i]))];
    }
    assert spans[..|text|] == spans;
  }

  /** The per-word loop: one span per piece of `text` split at spaces. */
  method AppendWordSpans(el: Element, text: string)
    requires el.children == []
    modifies el
    ensures el.children == AsNodes(Spans(text, Words))
  {
    ghost var spans := Spans(text, Words);
    var pieces := Split(text, ' ');
    for i := 0 to |pieces|
      invariant el.children == AsNodes(spans[..i])
    {
      assert spans[..i + 1] == spans[..i] + [WordSpan(pieces[i])];
      AsNodesSnoc(spans[..i], WordSpan(pieces[i]));
      el.children := el.children + [SpanNode(WordSpan(pieces[i]))];
    }
    assert spans[..|pieces|] == spans;
  }

  /** Splits the text of every matched element into spans and returns the
      hero-char spans inside them. */
  method SplitText(elements: seq<Element>, mode: SplitMode) returns (selection: seq<Span>)
    requires forall i, j | 0 <= i < j < |elements| :: elements[i] != elements[j]
    modifies set e | e in elements
    ensures forall k | 0 <= k < |elements| ::
      elements[k].children == AsNodes(Spans(old(elements[k].InnerText()), mode))
    ensures mode == Chars ==> selection == CharSelection(old(Texts(elements)))
    ensures mode == Words ==> selection == []
  {
    ghost var texts := Texts(elements);
    assert forall m | 0 <= m < |elements| :: texts[m] == elements[m].InnerText();
    for k := 0 to |elements|
      invariant forall m | 0 <= m < k :: elements[m].children == AsNodes(Spans(texts[m], mode))
      invariant forall m | k <= m < |elements| :: elements[m].children == old(elements[m].children)
    {
      var el := elements[k];
      assert el.InnerText() == NodesText(old(el.children)) == texts[k];
      SplitElement(el, mode);
      assert forall m | 0 <= m < |elements| && m != k :: elements[m] != el;
    }
    selection := HeroCharsIn(elements);
    HeroCharsAfterSplit(elements, texts, mode);
  }
}
