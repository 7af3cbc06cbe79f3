/**
 What a pasted transcript means, without the parser's loop: the text is cut into speeches, one per
 speaker line, each the speaker line's own text followed by the trimmed non-blank lines up to the next
 speaker line. The parser computes exactly that.
 */
module TranscriptMeaning {
  import opened Common
  import opened Transcript
  import opened TranscriptRoundTrip

  // ----- Lines of a text ----------------------------------------------------------------------------

  /** The lines of a text from those of its tail. */
  function Prepend(c: char, rest: seq<string>): seq<string>
    requires rest != []
  {
    if c == '\n' then [""] + rest else [[c] + rest[0]] + rest[1..]
  }

  lemma LinesStep(s: string)
    requires s != ""
    ensures Lines(s) == Prepend(s[0], Lines(s[1..]))
  {
  }

  lemma PrependConcat(c: char, x: seq<string>, y: seq<string>)
    requires x != []
    ensures Prepend(c, x + y) == Prepend(c, x) + y
  {
    assert (x + y)[0] == x[0] && (x + y)[1..] == x[1..] + y;
  }

  lemma {:induction false} LinesConcat(a: string, b: string)
    ensures Lines(a + "\n" + b) == Lines(a) + Lines(b)
  {
    var whole := a + "\n" + b;
    LinesStep(whole);
    if a == "" {
      assert whole[1..] == b && Lines(a) == [""];
    } else {
      LinesStep(a);
      LinesConcat(a[1..], b);
      assert whole[0] == a[0] && whole[1..] == a[1..] + "\n" + b;
      PrependConcat(a[0], Lines(a[1..]), Lines(b));
    }
  }

  /** Cutting a text into lines loses nothing. */
  lemma {:induction false} JoinOfLines(raw: string)
    ensures Join(Lines(raw)) == raw
  {
    if raw != "" {
      var rest := Lines(raw[1..]);
      JoinOfLines(raw[1..]);
      if raw[0] == '\n' {
        JoinHead("", rest);
      } else if |rest| > 1 {
        assert Lines(raw)[1..] == rest[1..];
        assert Join(rest) == rest[0] + "\n" + Join(rest[1..]);
        assert Join(Lines(raw)) == [raw[0]] + rest[0] + "\n" + Join(rest[1..]);
        assert [raw[0]] + rest[0] + "\n" + Join(rest[1..]) == [raw[0]] + (rest[0] + "\n" + Join(rest[1..]));
      }
    }
  }

  lemma JoinHead(first: string, rest: seq<string>)
    requires rest != []
    ensures Join([first] + rest) == first + "\n" + Join(rest)
  {
    assert ([first] + rest)[1..] == rest;
  }

  // ----- Characters ---------------------------------------------------------------------------------

  /** Line terminators and white space by code point, as ECMA-262 lists them in its sections 12.2 and 12.3. */
  lemma CodePoints(c: char)
    ensures IsLineTerminator(c) <==> c as int in [10, 13, 0x2028, 0x2029]
    ensures IsSpace(c) <==>
            || c as int in [9, 10, 11, 12, 13, 32, 0xA0, 0x1680, 0x2028, 0x2029, 0x202F, 0x205F, 0x3000, 0xFEFF]
            || 0x2000 <= c as int <= 0x200A
  {
  }

  // ----- What a line is -----------------------------------------------------------------------------

  lemma {:induction false} TrimEndCutsSpace(s: string)
    ensures AllSpace(s[|TrimEnd(s)|..])
  {
    if s != "" && IsSpace(s[|s| - 1]) {
      TrimEndCutsSpace(s[..|s| - 1]);
      var t := s[..|s| - 1];
      assert forall i | |TrimEnd(s)| <= i < |t| :: t[|TrimEnd(s)|..][i - |TrimEnd(s)|] == s[i];
    }
  }

  lemma Concat3(s: string, a: string, rest: string, b: string, c: string)
    requires s == a + rest && rest == b + c
    ensures s == a + b + c
  {
  }

  lemma EndSplit(t: string) returns (after: string)
    ensures t == TrimEnd(t) + after && AllSpace(after)
  {
    after := t[|TrimEnd(t)|..];
    TrimEndCutsSpace(t);
  }

  /** Trimming cuts white space at both ends, and all of it. */
  lemma TrimMeans(s: string) returns (before: string, after: string)
    ensures s == before + Trim(s) + after && AllSpace(before) && AllSpace(after) && Trimmed(Trim(s))
  {
    before := SplitOff(s);
    after := EndSplit(TrimStart(s));
    TrimGivesTrimmed(s);
    Concat3(s, before, TrimStart(s), Trim(s), after);
  }

  lemma TrimIsEmptyIff(s: string)
    ensures Trim(s) == "" <==> AllSpace(s)
  {
    var before, after := TrimMeans(s);
    CoreDecides(s, before, Trim(s), after);
  }

  lemma CoreDecides(s: string, before: string, core: string, after: string)
    requires s == before + core + after && AllSpace(before) && AllSpace(after) && Trimmed(core)
    ensures core == "" <==> AllSpace(s)
  {
    if core != "" {
      assert s[|before|] == core[0];
    }
  }

  /** A speaker line is not all white space: a name begins with a letter. */
  lemma SpeakersUseLetters(line: string)
    requires MatchSpeaker(line).Some?
    ensures !AllSpace(line)
  {
    var w1, name, w2, w3, text := MatchedLineDecomposes(line);
    NameFacts(LowerAll(name));
    LetterNotSpace(name[0]);
    Regroup(w1, name, w2, w3, text);
    assert line[|w1|] == name[0];
  }

  /**
   A line is a speaker's if the pattern matches, and then carries the trimmed text; otherwise it is
   blank if it is all white space, and else continues with its trimmed text.
   */
  lemma ClassifyMeans(line: string)
    ensures MatchSpeaker(line).Some? ==>
              var speaker := MatchSpeaker(line).value;
              Classify(line) == Speaks(Message(speaker.role, Trim(speaker.text)))
    ensures AllSpace(line) ==> Classify(line) == Blank
    ensures MatchSpeaker(line) == None && !AllSpace(line) ==>
              Classify(line) == Continues(Trim(line)) && Trim(line) != ""
  {
    TrimIsEmptyIff(line);
    if MatchSpeaker(line).Some? {
      SpeakersUseLetters(line);
    }
  }

  // ----- Blank lines do not matter ------------------------------------------------------------------

  /** The rest of a parse depends on the rest of the lines only. */
  lemma {:induction false} RestDecides(a: seq<Line>, i: nat, b: seq<Line>, j: nat,
                                       done: seq<Message>, current: Option<Message>)
    requires i <= |a| && j <= |b| && a[i..] == b[j..]
    ensures ParseFrom(a, i, done, current) == ParseFrom(b, j, done, current)
    decreases |a| - i
  {
    assert |a| - i == |a[i..]| == |b[j..]| == |b| - j;
    if i < |a| {
      assert a[i] == a[i..][0] == b[j..][0] == b[j];
      assert a[i + 1..] == a[i..][1..] == b[j..][1..] == b[j + 1..];
      match a[i]
      case Speaks(m) => RestDecides(a, i + 1, b, j + 1, Flush(done, current), Some(m));
      case Blank => RestDecides(a, i + 1, b, j + 1, done, current);
      case Continues(text) =>
        if current.Some? {
          var joined := current.value.(content := Joined(current.value.content, text));
          RestDecides(a, i + 1, b, j + 1, done, Some(joined));
        }
    }
  }

  lemma {:induction false} BlankDropped(x: seq<Line>, y: seq<Line>, i: nat,
                                        done: seq<Message>, current: Option<Message>)
    requires i <= |x|
    ensures ParseFrom(x + [Blank] + y, i, done, current) == ParseFrom(x + y, i, done, current)
    decreases |x| - i
  {
    var a, b := x + [Blank] + y, x + y;
    if i == |x| {
      assert a[i + 1..] == y == b[i..];
      RestDecides(a, i + 1, b, i, done, current);
    } else {
      assert a[i] == x[i] == b[i];
      match x[i]
      case Speaks(m) => BlankDropped(x, y, i + 1, Flush(done, current), Some(m));
      case Blank => BlankDropped(x, y, i + 1, done, current);
      case Continues(text) =>
        if current.Some? {
          BlankDropped(x, y, i + 1, done, Some(current.value.(content := Joined(current.value.content, text))));
        }
    }
  }

  lemma ClassifyConcat(a: seq<string>, b: seq<string>)
    ensures ClassifyAll(a + b) == ClassifyAll(a) + ClassifyAll(b)
  {
  }

  lemma ClassifyOne(line: string)
    ensures ClassifyAll([line]) == [Classify(line)]
  {
  }

  lemma BlankAmongLines(before: seq<string>, blank: string, after: seq<string>)
    requires AllSpace(blank)
    ensures ParseFrom(ClassifyAll(before + [blank] + after), 0, [], None) ==
            ParseFrom(ClassifyAll(before + after), 0, [], None)
  {
    ClassifyMeans(blank);
    ClassifyOne(blank);
    ClassifyConcat(before + [blank], after);
    ClassifyConcat(before, [blank]);
    ClassifyConcat(before, after);
    BlankDropped(ClassifyAll(before), ClassifyAll(after), 0, [], None);
  }

  lemma OneLineOf(line: string)
    requires '\n' !in line
    ensures Lines(line) == [line]
  {
    LinesOfFirst(line, "");
  }

  /** Inserting a white-space-only line between two lines of a text, or deleting it, changes nothing. */
  lemma BlankLineInside(before: string, blank: string, after: string)
    requires AllSpace(blank) && '\n' !in blank
    ensures Parse(before + "\n" + blank + "\n" + after) == Parse(before + "\n" + after)
  {
    OneLineOf(blank);
    LinesConcat(before + "\n" + blank, after);
    LinesConcat(before, blank);
    LinesConcat(before, after);
    BlankAmongLines(Lines(before), blank, Lines(after));
  }

  lemma EmptyConcat(x: seq<string>, y: seq<string>)
    ensures [] + x + y == x + y && x + y + [] == x + y && [] + y == y && x + [] == x
  {
  }

  /** Nor does one at the beginning... */
  lemma BlankLineFirst(text: string, blank: string)
    requires AllSpace(blank) && '\n' !in blank
    ensures Parse(blank + "\n" + text) == Parse(text)
  {
    OneLineOf(blank);
    LinesConcat(blank, text);
    BlankAmongLines([], blank, Lines(text));
    EmptyConcat([blank], Lines(text));
  }

  /** ...or at the end. */
  lemma BlankLineLast(text: string, blank: string)
    requires AllSpace(blank) && '\n' !in blank
    ensures Parse(text + "\n" + blank) == Parse(text)
  {
    OneLineOf(blank);
    LinesConcat(text, blank);
    BlankAmongLines(Lines(text), blank, []);
    EmptyConcat(Lines(text), [blank]);
  }

  // ----- Speeches -----------------------------------------------------------------------------------

  /** The first speaker line from line i on, or the end. */
  function NextSpeaker(lines: seq<Line>, i: nat): (k: nat)
    requires i <= |lines|
    ensures i <= k <= |lines| && (k < |lines| ==> lines[k].Speaks?)
    ensures forall j | i <= j < k :: !lines[j].Speaks?
    decreases |lines| - i
  {
    if i == |lines| || lines[i].Speaks? then i else NextSpeaker(lines, i + 1)
  }

  /** The texts of the continuation lines among lines i to k. */
  function Texts(lines: seq<Line>, i: nat, k: nat): seq<string>
    requires i <= k <= |lines|
    decreases k - i
  {
    if i == k then []
    else if lines[i].Continues? then [lines[i].text] + Texts(lines, i + 1, k)
    else Texts(lines, i + 1, k)
  }

  /** The non-empty texts, with one space between each two. */
  function Spaced(texts: seq<string>): string {
    if texts == [] then ""
    else
      var rest := Spaced(texts[1..]);
      if texts[0] == "" then rest else if rest == "" then texts[0] else texts[0] + " " + rest
  }

  /** What is said from speaker line i up to line k. */
  function Speech(lines: seq<Line>, i: nat, k: nat): string
    requires i < k <= |lines| && lines[i].Speaks?
  {
    Spaced([lines[i].message.content] + Texts(lines, i + 1, k))
  }

  function IfSaid(role: Role, speech: string): seq<Message> {
    if speech == "" then [] else [Message(role, speech)]
  }

  /** The speeches from speaker line i on; one in which nothing is said is left out. */
  function Speeches(lines: seq<Line>, i: nat): seq<Message>
    requires i <= |lines| && (i < |lines| ==> lines[i].Speaks?)
    decreases |lines| - i
  {
    if i == |lines| then []
    else
      var k := NextSpeaker(lines, i + 1);
      IfSaid(lines[i].message.role, Speech(lines, i, k)) + Speeches(lines, k)
  }

  /** What the caller is given for these speeches. */
  function Answer(speeches: seq<Message>): ParseResult {
    if speeches == [] then ParseResult([], Some(NeedsMessage))
    else if forall k | 0 <= k < |speeches| :: speeches[k].role == Agent then ParseResult([], Some(NeedsCustomer))
    else ParseResult(speeches, None)
  }

  // ----- The loop collects speeches -----------------------------------------------------------------

  /** No continuation line is empty. */
  predicate Proper(lines: seq<Line>) {
    forall k | 0 <= k < |lines| && lines[k].Continues? :: lines[k].text != ""
  }

  lemma ClassifiedIsProper(lines: seq<string>)
    ensures Proper(ClassifyAll(lines))
  {
  }

  lemma SpacedJoined(content: string, text: string, rest: seq<string>)
    requires text != ""
    ensures Spaced([Joined(content, text)] + rest) == Spaced([content] + ([text] + rest))
  {
    var tail := Spaced(rest);
    assert ([Joined(content, text)] + rest)[1..] == rest;
    assert ([content] + ([text] + rest))[1..] == [text] + rest && ([text] + rest)[1..] == rest;
    if content != "" && tail != "" {
      assert (content + " " + text) + " " + tail == content + " " + (text + " " + tail);
    }
  }

  lemma SpacedAlone(content: string)
    ensures Spaced([content]) == content
  {
    assert [content][1..] == [];
  }

  /** Lines without a speaker are all appended to the message being built. */
  lemma {:induction false} LoopAppends(lines: seq<Line>, i: nat, k: nat, done: seq<Message>, m: Message)
    requires Proper(lines) && i <= k <= |lines| && forall j | i <= j < k :: !lines[j].Speaks?
    ensures ParseFrom(lines, i, done, Some(m)) ==
            ParseFrom(lines, k, done, Some(Message(m.role, Spaced([m.content] + Texts(lines, i, k)))))
    decreases k - i
  {
    if i == k {
      assert [m.content] + [] == [m.content];
      SpacedAlone(m.content);
    } else if lines[i].Continues? {
      var text := lines[i].text;
      LoopAppends(lines, i + 1, k, done, m.(content := Joined(m.content, text)));
      SpacedJoined(m.content, text, Texts(lines, i + 1, k));
    } else {
      LoopAppends(lines, i + 1, k, done, m);
    }
  }

  lemma NonEmptyStep(a: seq<Message>)
    requires a != []
    ensures NonEmpty(a) == IfSaid(a[0].role, a[0].content) + NonEmpty(a[1..])
  {
  }

  lemma {:induction false} NonEmptyAdd(a: seq<Message>, m: Message)
    ensures NonEmpty(a + [m]) == NonEmpty(a) + IfSaid(m.role, m.content)
  {
    if a == [] {
      assert a + [m] == [m] && [m][1..] == [];
    } else {
      NonEmptyAdd(a[1..], m);
      NonEmptyStep(a);
      NonEmptyStep(a + [m]);
      assert (a + [m])[0] == a[0] && (a + [m])[1..] == a[1..] + [m];
      Reassociate(IfSaid(a[0].role, a[0].content), NonEmpty(a[1..]), IfSaid(m.role, m.content));
    }
  }

  lemma ConcludeAnswers(messages: seq<Message>)
    ensures Conclude(messages) == Answer(NonEmpty(messages))
  {
    var kept := NonEmpty(messages);
    if HasCustomer(kept) {
      var k :| 0 <= k < |kept| && kept[k].role.Customer?;
      assert kept[k].role != Agent;
    } else {
      assert forall k | 0 <= k < |kept| :: kept[k].role == Agent;
    }
  }

  /** From one speaker line to the next, one speech is built. */
  lemma LoopSpeaks(lines: seq<Line>, i: nat, k: nat, done: seq<Message>, current: Option<Message>)
    requires Proper(lines) && i < k <= |lines| && lines[i].Speaks? && forall j | i + 1 <= j < k :: !lines[j].Speaks?
    ensures ParseFrom(lines, i, done, current) ==
            ParseFrom(lines, k, Flush(done, current), Some(Message(lines[i].message.role, Speech(lines, i, k))))
  {
    LoopAppends(lines, i + 1, k, Flush(done, current), lines[i].message);
  }

  /** At a speaker line, or at the end, the loop is about to add the speeches that are still to come. */
  lemma {:induction false} LoopCollects(lines: seq<Line>, i: nat, done: seq<Message>, current: Option<Message>)
    requires Proper(lines) && i <= |lines| && (i < |lines| ==> lines[i].Speaks?)
    ensures ParseFrom(lines, i, done, current) == Answer(NonEmpty(Flush(done, current)) + Speeches(lines, i))
    decreases |lines| - i
  {
    var flushed := Flush(done, current);
    if i == |lines| {
      ConcludeAnswers(flushed);
      assert NonEmpty(flushed) + [] == NonEmpty(flushed);
    } else {
      var k, role := NextSpeaker(lines, i + 1), lines[i].message.role;
      var said := Message(role, Speech(lines, i, k));
      LoopSpeaks(lines, i, k, done, current);
      LoopCollects(lines, k, flushed, Some(said));
      NonEmptyAdd(flushed, said);
      Reassociate(NonEmpty(flushed), IfSaid(role, said.content), Speeches(lines, k));
    }
  }

  lemma Reassociate(a: seq<Message>, b: seq<Message>, c: seq<Message>)
    ensures a + b + c == a + (b + c)
  {
  }

  /** The first line that is not blank. */
  predicate FirstSaid(lines: seq<Line>, k: nat) {
    k < |lines| && !lines[k].Blank? && forall i | 0 <= i < k :: lines[i].Blank?
  }

  lemma {:induction false} BlankStart(lines: seq<Line>, i: nat, k: nat)
    requires i <= k <= |lines| && forall j | i <= j < k :: lines[j].Blank?
    ensures ParseFrom(lines, i, [], None) == ParseFrom(lines, k, [], None)
    decreases k - i
  {
    if i < k {
      BlankStart(lines, i + 1, k);
    }
  }

  lemma {:induction false} FirstSaidExists(lines: seq<Line>, i: nat) returns (k: nat)
    requires i <= |lines| && forall j | 0 <= j < i :: lines[j].Blank?
    ensures k <= |lines| && (k < |lines| ==> FirstSaid(lines, k))
    ensures k == |lines| ==> forall j | 0 <= j < |lines| :: lines[j].Blank?
    decreases |lines| - i
  {
    if i == |lines| || !lines[i].Blank? {
      k := i;
    } else {
      k := FirstSaidExists(lines, i + 1);
    }
  }

  // ----- Main results -------------------------------------------------------------------------------

  /** A text's lines, as ClassifyMeans describes each of them. */
  function Read(raw: string): seq<Line> {
    ClassifyAll(Lines(raw))
  }

  /**
   What a text means when its first non-blank line names a speaker: its speeches from there on, if
   somebody says something and a customer does.
   */
  lemma ParseMeans(raw: string, k: nat)
    requires FirstSaid(Read(raw), k) && Read(raw)[k].Speaks?
    ensures Parse(raw) == Answer(Speeches(Read(raw), k))
  {
    ClassifiedIsProper(Lines(raw));
    BlankStart(Read(raw), 0, k);
    LoopCollects(Read(raw), k, [], None);
    assert [] + Speeches(Read(raw), k) == Speeches(Read(raw), k);
  }

  /** A text with nothing but white space asks for a message. */
  lemma BlankTextNeedsMessage(raw: string)
    requires forall k | 0 <= k < |Read(raw)| :: Read(raw)[k].Blank?
    ensures Parse(raw) == ParseResult([], Some(NeedsMessage))
  {
    BlankStart(Read(raw), 0, |Read(raw)|);
  }

  lemma UnnamedNeedsSpeaker(raw: string, k: nat)
    requires FirstSaid(Read(raw), k) && Read(raw)[k].Continues?
    ensures Parse(raw) == ParseResult([], Some(NeedsSpeaker))
  {
    BlankStart(Read(raw), 0, k);
  }

  lemma FirstSaidUnique(lines: seq<Line>, i: nat, k: nat)
    requires FirstSaid(lines, i) && FirstSaid(lines, k)
    ensures i == k
  {
  }

  lemma AnswerHasSpeakers(speeches: seq<Message>)
    ensures Answer(speeches).error != Some(NeedsSpeaker)
  {
  }

  /** The error for a missing speaker is given exactly when the first non-blank line names none. */
  lemma NoSpeakerErrorIff(raw: string)
    ensures Parse(raw).error == Some(NeedsSpeaker) <==>
            exists k: nat :: FirstSaid(Read(raw), k) && Read(raw)[k].Continues?
  {
    var k := FirstSaidExists(Read(raw), 0);
    if k == |Read(raw)| {
      BlankTextNeedsMessage(raw);
    } else if Read(raw)[k].Speaks? {
      ParseMeans(raw, k);
      AnswerHasSpeakers(Speeches(Read(raw), k));
      forall l: nat | FirstSaid(Read(raw), l)
        ensures l == k
      {
        FirstSaidUnique(Read(raw), l, k);
      }
    } else {
      UnnamedNeedsSpeaker(raw, k);
    }
  }

  // ----- Speaker names ------------------------------------------------------------------------------

  /** The letter, in either case. */
  predicate SameLetter(c: char, letter: char) {
    c == letter || c as int + 32 == letter as int
  }

  predicate Spells(name: string, word: string) {
    |name| == |word| && forall k | 0 <= k < |word| :: SameLetter(name[k], word[k])
  }

  lemma SpellingIsLower(name: string, word: string)
    requires Spells(name, word) && forall k | 0 <= k < |word| :: 'a' <= word[k] <= 'z'
    ensures LowerAll(name) == word
  {
  }

  predicate CustomerWord(word: string) {
    word == "customer" || word == "user" || word == "client"
  }

  predicate AgentWord(word: string) {
    word == "agent" || word == "support" || word == "rep"
  }

  lemma WordIsName(word: string)
    requires CustomerWord(word) || AgentWord(word)
    ensures word in NAMES
  {
    assert NAMES[0] == "customer" && NAMES[1] == "agent" && NAMES[2] == "user";
    assert NAMES[3] == "support" && NAMES[4] == "client" && NAMES[5] == "rep";
  }

  lemma WordIsLetters(word: string)
    requires CustomerWord(word) || AgentWord(word)
    ensures forall k | 0 <= k < |word| :: 'a' <= word[k] <= 'z'
  {
  }

  lemma WordRole(word: string)
    ensures CustomerWord(word) ==> RoleOf(word) == Customer
    ensures AgentWord(word) ==> RoleOf(word) == Agent
  {
    assert |"customer"| == 8 && |"user"| == 4 && |"client"| == 6;
    assert "agent"[0] == 'a' && "support"[0] == 's' && "rep"[0] == 'r';
  }

  /** Each of the six words, in any case, names its speaker. */
  lemma SpeakerWords(name: string, word: string, text: string)
    requires (CustomerWord(word) || AgentWord(word)) && Spells(name, word) && OneLine(text)
    ensures MatchSpeaker(name + ":" + text) ==
            Some(Speaker(if CustomerWord(word) then Customer else Agent, TrimStart(text)))
  {
    WordIsName(word);
    WordIsLetters(word);
    WordRole(word);
    SpellingIsLower(name, word);
    MatchNamed(name, text);
  }

  lemma MatchNamed(name: string, text: string)
    requires LowerAll(name) in NAMES && OneLine(text)
    ensures MatchSpeaker(name + ":" + text) == Some(Speaker(RoleOf(LowerAll(name)), TrimStart(text)))
  {
    var line := name + ":" + text;
    assert line == "" + name + "" + ":" + "" + text;
    DecomposedLineMatches(line, "", name, "", "", text);
  }

  /** And the printer writes the role's own name in capitals. */
  lemma RenderedOne(content: string)
    ensures Render([Message(Customer, content)]) == "CUSTOMER: " + content
    ensures Render([Message(Agent, content)]) == "AGENT: " + content
  {
    assert RenderLines([Message(Customer, content)]) == [RenderLine(Message(Customer, content))];
    assert RenderLines([Message(Agent, content)]) == [RenderLine(Message(Agent, content))];
  }
}
