/**
 The parser undoes the printer, exactly on the conversations whose messages are non-empty, trimmed
 and free of line terminators, and it accepts exactly the lines that the speaker pattern describes.
 */
module TranscriptRoundTrip {
  import opened Common
  import opened Transcript

  // ----- Trimming -----------------------------------------------------------------------------------

  lemma {:induction false} TrimStartSkips(w: string, s: string)
    requires AllSpace(w)
    ensures TrimStart(w + s) == TrimStart(s)
  {
    if w == "" {
      assert w + s == s;
    } else {
      assert (w + s)[1..] == w[1..] + s;
      TrimStartSkips(w[1..], s);
    }
  }

  lemma TrimGivesTrimmed(s: string)
    ensures Trimmed(Trim(s))
    ensures forall c | c in Trim(s) :: c in s
  {
    var t := TrimStart(s);
    var u := TrimEnd(t);
    if u != "" {
      assert u[0] == t[0];
    }
  }

  lemma TrimKeepsTrimmed(s: string)
    requires Trimmed(s)
    ensures Trim(s) == s && TrimStart(s) == s
  {
  }

  // ----- The speaker pattern --------------------------------------------------------------------------

  lemma LetterNotSpace(c: char)
    requires 'a' <= Lower(c) <= 'z'
    ensures !IsSpace(c)
  {
  }

  lemma NameFacts(name: string)
    requires name in NAMES
    ensures |name| >= 3 && 'a' <= name[0] <= 'z'
  {
    assert || name == NAMES[0] || name == NAMES[1] || name == NAMES[2]
           || name == NAMES[3] || name == NAMES[4] || name == NAMES[5];
  }

  /** The first two letters tell the names apart, so a text begins with at most one of them. */
  lemma TwoLettersDecide(a: string, b: string)
    requires a in NAMES && b in NAMES && |a| >= 3 && |b| >= 3 && a[0] == b[0] && a[1] == b[1]
    ensures a == b
  {
    assert a == NAMES[0] || a == NAMES[1] || a == NAMES[2] || a == NAMES[3] || a == NAMES[4] || a == NAMES[5];
    assert b == NAMES[0] || b == NAMES[1] || b == NAMES[2] || b == NAMES[3] || b == NAMES[4] || b == NAMES[5];
  }

  lemma OneNameOnly(s: string, a: string, b: string)
    requires a in NAMES && b in NAMES && BeginsWith(s, a) && BeginsWith(s, b)
    ensures a == b
  {
    NameFacts(a);
    NameFacts(b);
    assert a[0] == Lower(s[0]) == b[0] && a[1] == Lower(s[1]) == b[1];
    TwoLettersDecide(a, b);
  }

  lemma NameFound(s: string, name: string)
    requires name in NAMES && BeginsWith(s, name)
    ensures NameAt(s, 0) == Some(name)
  {
    var k :| 0 <= k < |NAMES| && NAMES[k] == name;
    if NameAt(s, 0).Some? {
      OneNameOnly(s, NameAt(s, 0).value, name);
    }
  }

  lemma TakeNameOf(w1: string, name: string, after: string)
    requires AllSpace(w1) && LowerAll(name) in NAMES
    ensures TakeName(w1 + (name + after)) == Some(Named(LowerAll(name), after))
  {
    var body := name + after;
    NameFacts(LowerAll(name));
    LetterNotSpace(name[0]);
    TrimStartSkips(w1, body);
    assert body[0] == name[0];
    assert body[..|name|] == name && body[|name|..] == after;
    NameFound(body, LowerAll(name));
  }

  lemma ColonFirst(tail: string)
    ensures TrimStart(":" + tail) == ":" + tail && (":" + tail)[0] == ':' && (":" + tail)[1..] == tail
  {
    var s := ":" + tail;
    assert s[0] == ':' && !IsSpace(':');
  }

  lemma TakeColonOf(w2: string, w3: string, text: string)
    requires AllSpace(w2) && AllSpace(w3)
    ensures TakeColon(w2 + (":" + (w3 + text))) == Some(TrimStart(text))
  {
    var rest := ":" + (w3 + text);
    TrimStartSkips(w2, rest);
    ColonFirst(w3 + text);
    TrimStartSkips(w3, text);
    TakeColonStep(w2 + rest, rest, text);
  }

  lemma TakeColonStep(after: string, rest: string, text: string)
    requires TrimStart(after) == rest && rest != "" && rest[0] == ':' && TrimStart(rest[1..]) == TrimStart(text)
    ensures TakeColon(after) == Some(TrimStart(text))
  {
  }

  lemma Regroup(w1: string, name: string, w2: string, w3: string, text: string)
    ensures w1 + name + w2 + ":" + w3 + text == w1 + (name + (w2 + (":" + (w3 + text))))
  {
  }

  lemma TrimStartOneLine(text: string)
    requires OneLine(text)
    ensures OneLine(TrimStart(text))
  {
  }

  /** Every decomposition of a line by the pattern yields what MatchSpeaker captures. */
  lemma DecomposedLineMatches(line: string, w1: string, name: string, w2: string, w3: string, text: string)
    requires Decomposes(line, w1, name, w2, w3, text)
    ensures MatchSpeaker(line) == Some(Speaker(RoleOf(LowerAll(name)), TrimStart(text)))
  {
    Regroup(w1, name, w2, w3, text);
    TakeNameOf(w1, name, w2 + (":" + (w3 + text)));
    TakeColonOf(w2, w3, text);
    TrimStartOneLine(text);
  }

  lemma SplitOff(s: string) returns (w: string)
    ensures s == w + TrimStart(s) && AllSpace(w)
  {
    w := s[..|s| - |TrimStart(s)|];
  }

  lemma TakenName(line: string) returns (w1: string, name: string)
    requires TakeName(line).Some?
    ensures AllSpace(w1) && LowerAll(name) == TakeName(line).value.name && LowerAll(name) in NAMES
    ensures line == w1 + (name + TakeName(line).value.after)
  {
    var body := TrimStart(line);
    w1 := SplitOff(line);
    name := NameSplit(body, NameAt(body, 0).value);
  }

  lemma NameSplit(body: string, found: string) returns (name: string)
    requires BeginsWith(body, found)
    ensures LowerAll(name) == found && body == name + body[|found|..]
  {
    name := body[..|found|];
  }

  lemma ColonSplit(rest: string, w: string, tail: string)
    requires rest != "" && rest[0] == ':' && rest[1..] == w + tail
    ensures rest == ":" + (w + tail)
  {
    assert rest == [rest[0]] + rest[1..];
  }

  lemma TakenColon(after: string) returns (w2: string, w3: string)
    requires TakeColon(after).Some?
    ensures AllSpace(w2) && AllSpace(w3) && after == w2 + (":" + (w3 + TakeColon(after).value))
  {
    w2 := SplitOff(after);
    w3 := SplitOff(TrimStart(after)[1..]);
    ColonSplit(TrimStart(after), w3, TakeColon(after).value);
  }

  /** And every captured line has such a decomposition: the match is exactly the pattern's. */
  lemma MatchedLineDecomposes(line: string) returns (w1: string, name: string, w2: string, w3: string, text: string)
    requires MatchSpeaker(line).Some?
    ensures Decomposes(line, w1, name, w2, w3, text)
    ensures MatchSpeaker(line) == Some(Speaker(RoleOf(LowerAll(name)), text))
  {
    w1, name := TakenName(line);
    var after := TakeName(line).value.after;
    w2, w3 := TakenColon(after);
    text := TakeColon(after).value;
    Regroup(w1, name, w2, w3, text);
  }

  /** A matched line is at least made of the characters of its text. */
  lemma TextWithinLine(line: string)
    requires MatchSpeaker(line).Some?
    ensures forall c | c in MatchSpeaker(line).value.text :: c in line
  {
    var w1, name, w2, w3, text := MatchedLineDecomposes(line);
    SuffixWithin(w1 + name + w2 + ":" + w3, text);
  }

  lemma SuffixWithin(before: string, text: string)
    ensures forall c | c in text :: c in before + text
  {
    var line := before + text;
    forall c | c in text
      ensures c in line
    {
      var k :| 0 <= k < |text| && text[k] == c;
      assert line[|before| + k] == c;
    }
  }

  // ----- Lines --------------------------------------------------------------------------------------

  lemma {:induction false} LinesOfFirst(a: string, b: string)
    requires '\n' !in a
    ensures Lines(a) == [a] && Lines(a + "\n" + b) == [a] + Lines(b)
  {
    if a == "" {
      assert a + "\n" + b == ['\n'] + b;
      assert (['\n'] + b)[1..] == b;
    } else {
      LinesOfFirst(a[1..], b);
      assert (a + "\n" + b)[1..] == a[1..] + "\n" + b;
      assert [a[0]] + a[1..] == a;
    }
  }

  lemma {:induction false} LinesOfJoin(lines: seq<string>)
    requires lines != [] && forall k | 0 <= k < |lines| :: '\n' !in lines[k]
    ensures Lines(Join(lines)) == lines
  {
    if |lines| == 1 {
      LinesOfFirst(lines[0], "");
    } else {
      LinesOfJoin(lines[1..]);
      LinesOfFirst(lines[0], Join(lines[1..]));
    }
  }

  // ----- Parsing what was printed -------------------------------------------------------------------

  predicate GoodMessage(m: Message) {
    m.content != "" && Trimmed(m.content) && OneLine(m.content)
  }

  ghost predicate WellFormed(messages: seq<Message>) {
    (forall m | m in messages :: GoodMessage(m)) && HasCustomer(messages)
  }

  lemma LabelIsName(role: Role)
    ensures LowerAll(Label(role)) in NAMES && RoleOf(LowerAll(Label(role))) == role
  {
    match role
    case Customer => assert LowerAll("CUSTOMER") == "customer" == NAMES[0];
    case Agent => assert LowerAll("AGENT") == "agent" == NAMES[1];
  }

  lemma RenderedLineMatches(m: Message)
    requires OneLine(m.content)
    ensures MatchSpeaker(RenderLine(m)) == Some(Speaker(m.role, TrimStart(m.content)))
  {
    LabelIsName(m.role);
    assert RenderLine(m) == "" + Label(m.role) + "" + ":" + " " + m.content;
    DecomposedLineMatches(RenderLine(m), "", Label(m.role), "", " ", m.content);
  }

  lemma RenderedLineSpeaks(m: Message)
    requires GoodMessage(m)
    ensures Classify(RenderLine(m)) == Speaks(m)
  {
    RenderedLineMatches(m);
    TrimKeepsTrimmed(m.content);
  }

  /** Lines that all speak are parsed one message each. */
  lemma {:induction false} SpeakingLinesParse(lines: seq<Line>, ms: seq<Message>, i: nat,
                                              done: seq<Message>, current: Option<Message>)
    requires |lines| == |ms| && i <= |ms| && forall k | 0 <= k < |ms| :: lines[k] == Speaks(ms[k])
    ensures ParseFrom(lines, i, done, current) == Conclude(Flush(done, current) + ms[i..])
    decreases |ms| - i
  {
    if i == |ms| {
      assert Flush(done, current) + ms[i..] == Flush(done, current);
    } else {
      SpeakingLinesParse(lines, ms, i + 1, Flush(done, current), Some(ms[i]));
      assert Flush(done, current) + ms[i..] == Flush(done, current) + [ms[i]] + ms[i + 1..];
    }
  }

  lemma {:induction false} NothingDropped(ms: seq<Message>)
    requires forall m | m in ms :: m.content != ""
    ensures NonEmpty(ms) == ms
  {
    if ms != [] {
      NothingDropped(ms[1..]);
      assert [ms[0]] + ms[1..] == ms;
    }
  }

  lemma LabelOneLine(role: Role)
    ensures OneLine(Label(role)) && '\n' !in Label(role)
  {
  }

  lemma RenderedLineIsOne(m: Message)
    requires '\n' !in m.content
    ensures '\n' !in RenderLine(m)
  {
    LabelOneLine(m.role);
  }

  lemma LinesOfRender(ms: seq<Message>)
    requires ms != [] && forall m | m in ms :: '\n' !in m.content
    ensures Lines(Render(ms)) == RenderLines(ms)
  {
    var lines := RenderLines(ms);
    forall k | 0 <= k < |lines|
      ensures '\n' !in lines[k]
    {
      assert ms[k] in ms;
      RenderedLineIsOne(ms[k]);
    }
    LinesOfJoin(lines);
  }

  lemma GoodHasNoNewline(m: Message)
    requires GoodMessage(m)
    ensures '\n' !in m.content
  {
  }

  lemma WellFormedParses(ms: seq<Message>)
    requires WellFormed(ms)
    ensures Parse(Render(ms)) == ParseResult(ms, None)
  {
    forall m | m in ms
      ensures '\n' !in m.content
    {
      GoodHasNoNewline(m);
    }
    LinesOfRender(ms);
    var kinds := ClassifyAll(RenderLines(ms));
    forall k | 0 <= k < |ms|
      ensures kinds[k] == Speaks(ms[k])
    {
      assert ms[k] in ms;
      RenderedLineSpeaks(ms[k]);
    }
    SpeakingLinesParse(kinds, ms, 0, [], None);
    assert [] + ms[0..] == ms;
    NothingDropped(ms);
  }

  // ----- What every successful parse looks like -----------------------------------------------------

  /** A message under construction or finished, when the text's lines are strict (no terminators left). */
  predicate Built(strict: bool, m: Message) {
    Trimmed(m.content) && '\n' !in m.content && (strict ==> OneLine(m.content))
  }

  predicate LineOk(strict: bool, line: string) {
    '\n' !in line && (strict ==> OneLine(line))
  }

  lemma SubtextOk(strict: bool, line: string, text: string)
    requires LineOk(strict, line) && forall c | c in text :: c in line
    ensures LineOk(strict, text)
  {
    forall i | 0 <= i < |text| && strict
      ensures !IsLineTerminator(text[i])
    {
      assert text[i] in line;
    }
  }

  /** What a line contributes: a message as it will stay, or a continuation with something in it. */
  predicate LineBuilt(strict: bool, line: Line) {
    match line
    case Speaks(m) => Built(strict, m)
    case Continues(text) => text != "" && Built(strict, Message(Customer, text))
    case Blank => true
  }

  lemma TrimBuilt(strict: bool, line: string, text: string, role: Role)
    requires LineOk(strict, line) && forall c | c in text :: c in line
    ensures Built(strict, Message(role, Trim(text)))
  {
    TrimGivesTrimmed(text);
    SubtextOk(strict, line, Trim(text));
  }

  lemma ClassifyBuilt(strict: bool, line: string)
    requires LineOk(strict, line)
    ensures LineBuilt(strict, Classify(line))
  {
    if MatchSpeaker(line).Some? {
      TextWithinLine(line);
      TrimBuilt(strict, line, MatchSpeaker(line).value.text, MatchSpeaker(line).value.role);
    } else {
      TrimBuilt(strict, line, line, Customer);
    }
  }

  lemma ContinuationBuilt(strict: bool, m: Message, text: string)
    requires Built(strict, m) && text != "" && Built(strict, Message(Customer, text))
    ensures Built(strict, m.(content := Joined(m.content, text)))
  {
    if m.content != "" {
      var c := m.content;
      var j := c + " " + text;
      assert j[|j| - 1] == text[|text| - 1] && j[0] == c[0];
      forall i | 0 <= i < |j|
        ensures j[i] != '\n' && (strict ==> !IsLineTerminator(j[i]))
      {
        assert j[i] == if i < |c| then c[i] else if i == |c| then ' ' else text[i - |c| - 1];
      }
    }
  }

  ghost predicate AllBuilt(strict: bool, messages: seq<Message>) {
    forall k | 0 <= k < |messages| :: Built(strict, messages[k])
  }

  ghost predicate GoodOutput(strict: bool, r: ParseResult) {
    if r.error.Some? then r.messages == []
    else HasCustomer(r.messages) && forall m | m in r.messages :: m.content != "" && Built(strict, m)
  }

  lemma {:induction false} ParseGivesGood(strict: bool, lines: seq<Line>, i: nat,
                                          done: seq<Message>, current: Option<Message>)
    requires i <= |lines| && forall k | 0 <= k < |lines| :: LineBuilt(strict, lines[k])
    requires AllBuilt(strict, done) && (current.Some? ==> Built(strict, current.value))
    ensures GoodOutput(strict, ParseFrom(lines, i, done, current))
    decreases |lines| - i
  {
    if i < |lines| {
      assert LineBuilt(strict, lines[i]);
      match lines[i]
      case Speaks(m) => ParseGivesGood(strict, lines, i + 1, Flush(done, current), Some(m));
      case Blank => ParseGivesGood(strict, lines, i + 1, done, current);
      case Continues(text) =>
        if current.Some? {
          var m := current.value;
          ContinuationBuilt(strict, m, text);
          ParseGivesGood(strict, lines, i + 1, done, Some(m.(content := Joined(m.content, text))));
        }
    } else {
      ConcludeGood(strict, Flush(done, current));
    }
  }

  lemma ConcludeGood(strict: bool, messages: seq<Message>)
    requires AllBuilt(strict, messages)
    ensures GoodOutput(strict, Conclude(messages))
  {
  }

  lemma ClassifyAllBuilt(strict: bool, lines: seq<string>)
    requires forall k | 0 <= k < |lines| :: LineOk(strict, lines[k])
    ensures GoodOutput(strict, ParseFrom(ClassifyAll(lines), 0, [], None))
  {
    forall k | 0 <= k < |lines|
      ensures LineBuilt(strict, ClassifyAll(lines)[k])
    {
      ClassifyBuilt(strict, lines[k]);
    }
    ParseGivesGood(strict, ClassifyAll(lines), 0, [], None);
  }

  /** No terminators other than the newlines between lines. */
  predicate OnlyNewlines(raw: string) {
    forall i | 0 <= i < |raw| :: IsLineTerminator(raw[i]) ==> raw[i] == '\n'
  }

  lemma ParseOutput(raw: string)
    ensures GoodOutput(false, Parse(raw))
    ensures OnlyNewlines(raw) ==> GoodOutput(true, Parse(raw))
  {
    var lines := Lines(raw);
    ClassifyAllBuilt(false, lines);
    if OnlyNewlines(raw) {
      forall k | 0 <= k < |lines|
        ensures LineOk(true, lines[k])
      {
        forall j | 0 <= j < |lines[k]|
          ensures !IsLineTerminator(lines[k][j])
        {
          assert lines[k][j] in raw;
        }
      }
      ClassifyAllBuilt(true, lines);
    }
  }

  /** Every error comes with an empty message list, and only errors do. */
  lemma ErrorIffEmpty(raw: string)
    ensures Parse(raw).error.Some? <==> Parse(raw).messages == []
  {
    ParseOutput(raw);
  }

  // ----- Only well-formed conversations survive -----------------------------------------------------

  function SpeakerLines(lines: seq<Line>, i: nat): (n: nat)
    requires i <= |lines|
    ensures n <= |lines| - i
    ensures n == |lines| - i ==> forall k | i <= k < |lines| :: lines[k].Speaks?
    decreases |lines| - i
  {
    if i == |lines| then 0 else (if lines[i].Speaks? then 1 else 0) + SpeakerLines(lines, i + 1)
  }

  /** There are never more messages than speaker lines. */
  lemma {:induction false} MessagesComeFromSpeakers(lines: seq<Line>, i: nat,
                                                    done: seq<Message>, current: Option<Message>)
    requires i <= |lines|
    ensures |ParseFrom(lines, i, done, current).messages| <= |Flush(done, current)| + SpeakerLines(lines, i)
    decreases |lines| - i
  {
    if i < |lines| {
      match lines[i]
      case Speaks(m) => MessagesComeFromSpeakers(lines, i + 1, Flush(done, current), Some(m));
      case Blank => MessagesComeFromSpeakers(lines, i + 1, done, current);
      case Continues(text) =>
        if current.Some? {
          var joined := current.value.(content := Joined(current.value.content, text));
          MessagesComeFromSpeakers(lines, i + 1, done, Some(joined));
        }
    }
  }

  lemma SurvivorIsOneLine(m: Message)
    requires Trimmed(m.content) && m.content != "" && MatchSpeaker(RenderLine(m)).Some?
    ensures OneLine(m.content)
  {
    RenderedText(m);
    TrimKeepsTrimmed(m.content);
  }

  /** Whatever the content, the text after a rendered label is the content without leading white space. */
  lemma RenderedText(m: Message)
    ensures var named := TakeName(RenderLine(m));
            named.Some? && TakeColon(named.value.after) == Some(TrimStart(m.content))
  {
    var after := "" + (":" + (" " + m.content));
    LabelIsName(m.role);
    RenderLineGrouped(m);
    TakeNameOf("", Label(m.role), after);
    TakeColonOf("", " ", m.content);
  }

  lemma RenderLineGrouped(m: Message)
    ensures RenderLine(m) == "" + (Label(m.role) + ("" + (":" + (" " + m.content))))
  {
  }

  lemma SpeakingSurvivorIsGood(m: Message)
    requires Trimmed(m.content) && m.content != "" && Classify(RenderLine(m)).Speaks?
    ensures GoodMessage(m)
  {
    SurvivorIsOneLine(m);
  }

  /** When as many messages come out as lines went in, every line was a speaker's. */
  lemma EveryLineSpeaks(kinds: seq<Line>)
    requires |ParseFrom(kinds, 0, [], None).messages| >= |kinds|
    ensures forall k | 0 <= k < |kinds| :: kinds[k].Speaks?
  {
    MessagesComeFromSpeakers(kinds, 0, [], None);
  }

  lemma SurvivorSpeaks(ms: seq<Message>, k: nat)
    requires Parse(Render(ms)) == ParseResult(ms, None) && Lines(Render(ms)) == RenderLines(ms) && k < |ms|
    ensures Classify(RenderLine(ms[k])).Speaks?
  {
    var kinds := ClassifyAll(RenderLines(ms));
    EveryLineSpeaks(kinds);
    assert kinds[k].Speaks?;
  }

  lemma OnlyWellFormedSurvive(ms: seq<Message>)
    requires Parse(Render(ms)) == ParseResult(ms, None)
    ensures WellFormed(ms)
  {
    ParseOutput(Render(ms));
    LinesOfRender(ms);
    forall k | 0 <= k < |ms|
      ensures GoodMessage(ms[k])
    {
      assert ms[k] in ms;
      SurvivorSpeaks(ms, k);
      SpeakingSurvivorIsGood(ms[k]);
    }
  }

  // ----- Main results -------------------------------------------------------------------------------

  /**
   The parser undoes the printer on a conversation if and only if every message is non-empty, trimmed
   and on one line, and there is a customer message.
   */
  lemma ParserUndoesPrinterIff(ms: seq<Message>)
    ensures Parse(Render(ms)) == ParseResult(ms, None) <==> WellFormed(ms)
  {
    if WellFormed(ms) {
      WellFormedParses(ms);
    }
    if Parse(Render(ms)) == ParseResult(ms, None) {
      OnlyWellFormedSurvive(ms);
    }
  }

  /** Every line of the text names a speaker or has no line terminator inside its trimmed text. */
  predicate NoInnerTerminator(raw: string) {
    forall k | 0 <= k < |Lines(raw)| :: MatchSpeaker(Lines(raw)[k]).Some? || OneLine(Trim(Lines(raw)[k]))
  }

  ghost predicate AllOneLine(ms: seq<Message>) {
    forall m | m in ms :: OneLine(m.content)
  }

  lemma {:induction false} NonEmptyOneLine(ms: seq<Message>)
    ensures AllOneLine(NonEmpty(ms)) <==> AllOneLine(ms)
  {
    if ms != [] {
      NonEmptyOneLine(ms[1..]);
      assert ms == [ms[0]] + ms[1..];
    }
  }

  lemma JoinedOneLine(content: string, text: string)
    ensures OneLine(Joined(content, text)) <==> OneLine(content) && OneLine(text)
  {
    var joined := Joined(content, text);
    if content != "" {
      assert forall j | 0 <= j < |content| :: joined[j] == content[j];
      assert forall j | 0 <= j < |text| :: joined[|content| + 1 + j] == text[j];
    }
  }

  lemma FlushOneLine(done: seq<Message>, m: Message)
    ensures AllOneLine(Flush(done, Some(m))) <==> AllOneLine(done) && OneLine(m.content)
  {
    assert m in Flush(done, Some(m));
  }

  /** The continuation texts from line i on have no terminator. */
  ghost predicate CleanFrom(lines: seq<Line>, i: nat) {
    forall k | i <= k < |lines| && lines[k].Continues? :: OneLine(lines[k].text)
  }

  ghost predicate SpeakersClean(lines: seq<Line>) {
    forall k | 0 <= k < |lines| && lines[k].Speaks? :: OneLine(lines[k].message.content)
  }

  /** A successful parse gives one-line messages exactly when every continuation has no terminator. */
  lemma {:induction false} ParseOneLineIff(lines: seq<Line>, i: nat, done: seq<Message>, current: Option<Message>)
    requires i <= |lines| && SpeakersClean(lines) && ParseFrom(lines, i, done, current).error.None?
    ensures AllOneLine(ParseFrom(lines, i, done, current).messages) <==>
            AllOneLine(Flush(done, current)) && CleanFrom(lines, i)
    decreases |lines| - i
  {
    if i == |lines| {
      NonEmptyOneLine(Flush(done, current));
    } else {
      match lines[i]
      case Speaks(m) =>
        ParseOneLineIff(lines, i + 1, Flush(done, current), Some(m));
        FlushOneLine(Flush(done, current), m);
      case Blank => ParseOneLineIff(lines, i + 1, done, current);
      case Continues(text) =>
        var joined := current.value.(content := Joined(current.value.content, text));
        ParseOneLineIff(lines, i + 1, done, Some(joined));
        JoinedOneLine(current.value.content, text);
        FlushOneLine(done, joined);
        FlushOneLine(done, current.value);
    }
  }

  lemma TrimOneLine(s: string)
    requires OneLine(s)
    ensures OneLine(Trim(s))
  {
    TrimGivesTrimmed(s);
    forall j | 0 <= j < |Trim(s)|
      ensures !IsLineTerminator(Trim(s)[j])
    {
      assert Trim(s)[j] in s;
    }
  }

  /** The condition on the classified lines is the condition on the text itself. */
  lemma CleanIffNoInnerTerminator(raw: string)
    ensures SpeakersClean(ClassifyAll(Lines(raw)))
    ensures CleanFrom(ClassifyAll(Lines(raw)), 0) <==> NoInnerTerminator(raw)
  {
    var lines := Lines(raw);
    var kinds := ClassifyAll(lines);
    forall k | 0 <= k < |lines|
      ensures kinds[k].Speaks? ==> OneLine(kinds[k].message.content)
      ensures (kinds[k].Continues? ==> OneLine(kinds[k].text)) <==>
              MatchSpeaker(lines[k]).Some? || OneLine(Trim(lines[k]))
    {
      if MatchSpeaker(lines[k]).Some? {
        TrimOneLine(MatchSpeaker(lines[k]).value.text);
      }
    }
  }

  lemma NewlinesAreOuter(raw: string)
    requires OnlyNewlines(raw)
    ensures NoInnerTerminator(raw)
  {
    var lines := Lines(raw);
    forall k | 0 <= k < |lines|
      ensures OneLine(Trim(lines[k]))
    {
      forall j | 0 <= j < |lines[k]|
        ensures !IsLineTerminator(lines[k][j])
      {
        assert lines[k][j] in lines[k];
      }
      TrimOneLine(lines[k]);
    }
  }

  /**
   Printing what was parsed and parsing it again gives the same messages if and only if every line of
   the pasted text names a speaker or has no line terminator inside; that is always so for a text
   whose only terminators are newlines.
   */
  lemma ReparseIsStable(raw: string)
    requires Parse(raw).error.None?
    ensures Parse(Render(Parse(raw).messages)) == Parse(raw) <==> NoInnerTerminator(raw)
    ensures OnlyNewlines(raw) ==> Parse(Render(Parse(raw).messages)) == Parse(raw)
  {
    ParseOutput(raw);
    ParserUndoesPrinterIff(Parse(raw).messages);
    CleanIffNoInnerTerminator(raw);
    ParseOneLineIff(ClassifyAll(Lines(raw)), 0, [], None);
    if OnlyNewlines(raw) {
      NewlinesAreOuter(raw);
    }
  }

  // ----- A text that does not survive ---------------------------------------------------------------

  lemma NoName(s: string)
    requires s != "" && s[0] == 'b'
    ensures NameAt(s, 0).None?
  {
    forall name | name in NAMES
      ensures name != "" && name[0] != 'b'
    {
      assert || name == NAMES[0] || name == NAMES[1] || name == NAMES[2]
           || name == NAMES[3] || name == NAMES[4] || name == NAMES[5];
    }
  }

  lemma CustomerSpeaks(line: string, content: string)
    requires line == "Customer: " + content && Trimmed(content) && OneLine(content)
    ensures Classify(line) == Speaks(Message(Customer, content))
  {
    var name := "Customer";
    assert LowerAll(name) == NAMES[0];
    assert line == "" + name + "" + ":" + " " + content;
    DecomposedLineMatches(line, "", name, "", " ", content);
    TrimKeepsTrimmed(content);
  }

  lemma OtherContinues(line: string)
    requires line != "" && line[0] == 'b' && Trimmed(line)
    ensures Classify(line) == Continues(line)
  {
    TrimKeepsTrimmed(line);
    NoName(line);
  }

  lemma TwoKindsParse(kinds: seq<Line>, content: string, text: string)
    requires content != "" && |kinds| == 2
    requires kinds[0] == Speaks(Message(Customer, content)) && kinds[1] == Continues(text)
    ensures ParseFrom(kinds, 0, [], None) == ParseResult([Message(Customer, content + " " + text)], None)
  {
    var m := Message(Customer, content);
    var joined := Message(Customer, content + " " + text);
    assert ParseFrom(kinds, 2, [], Some(joined)) == Conclude([joined]);
    assert ParseFrom(kinds, 1, [], Some(m)) == ParseFrom(kinds, 2, [], Some(joined));
    assert NonEmpty([joined]) == [joined] && [joined][0].role.Customer?;
  }

  lemma TwoLines(first: string, second: string)
    requires '\n' !in first && '\n' !in second
    ensures Lines(first + "\n" + second) == [first, second]
  {
    var lines := [first, second];
    assert lines[1..] == [second];
    assert Join(lines) == first + "\n" + second;
    LinesOfJoin(lines);
  }

  /** A speaker line followed by a line that names no speaker. */
  lemma TwoLinesParse(first: string, content: string, second: string)
    requires first == "Customer: " + content && content != "" && Trimmed(content) && OneLine(content)
    requires second != "" && second[0] == 'b' && Trimmed(second) && '\n' !in second
    ensures Lines(first + "\n" + second) == [first, second]
    ensures Parse(first + "\n" + second) == ParseResult([Message(Customer, content + " " + second)], None)
  {
    forall k | 0 <= k < |first|
      ensures first[k] != '\n'
    {
      assert k >= 10 ==> first[k] == content[k - 10];
    }
    TwoLines(first, second);
    CustomerSpeaks(first, content);
    OtherContinues(second);
    TwoKindsParse(ClassifyAll([first, second]), content, second);
  }

  /** A carriage return inside a line becomes part of a message, which then does not survive. */
  lemma CarriageReturnBreaksReparse(raw: string)
    requires raw == "Customer: a" + "\n" + "b\rc"
    ensures Parse(raw) == ParseResult([Message(Customer, "a" + " " + "b\rc")], None)
    ensures Parse(Render(Parse(raw).messages)) != Parse(raw)
  {
    var first, content, second := "Customer: a", "a", "b\rc";
    assert first == "Customer: " + content;
    TwoLinesParse(first, content, second);
    OtherContinues(second);
    TrimKeepsTrimmed(second);
    assert second[1] == '\r' && !OneLine(second);
    assert Lines(raw)[1] == second;
    ReparseIsStable(raw);
  }
}
