/**
 Pasted transcripts: the line parser of the submit form and the printer that renders a stored
 conversation for the model. Characters are Unicode scalar values; white space and line terminators
 are those of ECMAScript regular expressions and String.prototype.trim.
 */
module Transcript {
  import opened Common

  datatype Role = Customer | Agent

  datatype Message = Message(role: Role, content: string)

  // ----- Characters ---------------------------------------------------------------------------------

  predicate IsLineTerminator(c: char) {
    c == '\n' || c == '\r' || c == '\U{2028}' || c == '\U{2029}'
  }

  predicate IsSpace(c: char) {
    || IsLineTerminator(c)
    || c == '\t' || c == '\U{0B}' || c == '\U{0C}' || c == ' ' || c == '\U{A0}' || c == '\U{1680}'
    || '\U{2000}' <= c <= '\U{200A}'
    || c == '\U{202F}' || c == '\U{205F}' || c == '\U{3000}' || c == '\U{FEFF}'
  }

  /** Case folding of the ASCII letters; no other character folds to one of them here. */
  function Lower(c: char): char {
    if 'A' <= c <= 'Z' then (c as int + 32) as char else c
  }

  function LowerAll(s: string): (t: string)
    ensures |t| == |s| && forall i | 0 <= i < |s| :: t[i] == Lower(s[i])
  {
    seq(|s|, i requires 0 <= i < |s| => Lower(s[i]))
  }

  predicate AllSpace(s: string) {
    forall i | 0 <= i < |s| :: IsSpace(s[i])
  }

  predicate OneLine(s: string) {
    forall i | 0 <= i < |s| :: !IsLineTerminator(s[i])
  }

  function TrimStart(s: string): (t: string)
    ensures |t| <= |s| && t == s[|s| - |t|..] && AllSpace(s[..|s| - |t|])
    ensures t != "" ==> !IsSpace(t[0])
  {
    if s != "" && IsSpace(s[0]) then TrimStart(s[1..]) else s
  }

  function TrimEnd(s: string): (t: string)
    ensures |t| <= |s| && t == s[..|t|]
    ensures t != "" ==> !IsSpace(t[|t| - 1])
  {
    if s != "" && IsSpace(s[|s| - 1]) then TrimEnd(s[..|s| - 1]) else s
  }

  function Trim(s: string): string {
    TrimEnd(TrimStart(s))
  }

  /** No white space at either end. */
  predicate Trimmed(s: string) {
    s == "" || (!IsSpace(s[0]) && !IsSpace(s[|s| - 1]))
  }

  // ----- Speaker lines ------------------------------------------------------------------------------

  const NAMES: seq<string> := ["customer", "agent", "user", "support", "client", "rep"]

  function RoleOf(name: string): Role {
    if name == "customer" || name == "user" || name == "client" then Customer else Agent
  }

  /** The line begins with this name, in any case. */
  predicate BeginsWith(s: string, name: string) {
    |name| <= |s| && LowerAll(s[..|name|]) == name
  }

  /** The first of the names from the k-th on that the text begins with. */
  function NameAt(s: string, k: nat): (name: Option<string>)
    requires k <= |NAMES|
    ensures name.Some? ==> name.value in NAMES && BeginsWith(s, name.value)
    ensures name.None? ==> forall i | k <= i < |NAMES| :: !BeginsWith(s, NAMES[i])
    decreases |NAMES| - k
  {
    if k == |NAMES| then None
    else if BeginsWith(s, NAMES[k]) then Some(NAMES[k])
    else NameAt(s, k + 1)
  }

  datatype Named = Named(name: string, after: string)

  /** Leading white space and a speaker name. */
  function TakeName(line: string): Option<Named> {
    var body := TrimStart(line);
    var name := NameAt(body, 0);
    if name.None? then None else Some(Named(name.value, body[|name.value|..]))
  }

  /** White space, a colon, and white space again; what is left is the text. */
  function TakeColon(after: string): Option<string> {
    var rest := TrimStart(after);
    if rest == "" || rest[0] != ':' then None else Some(TrimStart(rest[1..]))
  }

  datatype Speaker = Speaker(role: Role, text: string)

  /** What the speaker pattern captures on a line: the role and the text after the colon. */
  function MatchSpeaker(line: string): Option<Speaker> {
    var named := TakeName(line);
    if named.None? then None
    else
      var text := TakeColon(named.value.after);
      if text.None? || !OneLine(text.value) then None
      else Some(Speaker(RoleOf(named.value.name), text.value))
  }

  /** The pattern itself, as a decomposition of the line. */
  predicate Decomposes(line: string, w1: string, name: string, w2: string, w3: string, text: string) {
    && line == w1 + name + w2 + ":" + w3 + text
    && AllSpace(w1) && AllSpace(w2) && AllSpace(w3)
    && LowerAll(name) in NAMES
    && OneLine(text)
  }

  // ----- The parser ---------------------------------------------------------------------------------

  /** The three error texts, by name. */
  datatype ParseError = NeedsSpeaker | NeedsMessage | NeedsCustomer

  datatype ParseResult = ParseResult(messages: seq<Message>, error: Option<ParseError>)

  /** The text cut at every newline. */
  function Lines(raw: string): (lines: seq<string>)
    ensures |lines| >= 1
    ensures forall k | 0 <= k < |lines| :: '\n' !in lines[k] && forall c | c in lines[k] :: c in raw
  {
    if raw == "" then [""]
    else
      var rest := Lines(raw[1..]);
      if raw[0] == '\n' then [""] + rest else [[raw[0]] + rest[0]] + rest[1..]
  }

  function Flush(messages: seq<Message>, current: Option<Message>): seq<Message> {
    if current.Some? then messages + [current.value] else messages
  }

  function NonEmpty(messages: seq<Message>): (kept: seq<Message>)
    ensures forall m | m in kept :: m in messages && m.content != ""
    ensures |kept| <= |messages|
  {
    if messages == [] then []
    else if messages[0].content != "" then [messages[0]] + NonEmpty(messages[1..])
    else NonEmpty(messages[1..])
  }

  predicate HasCustomer(messages: seq<Message>) {
    exists k :: 0 <= k < |messages| && messages[k].role.Customer?
  }

  function Conclude(messages: seq<Message>): ParseResult {
    var kept := NonEmpty(messages);
    if |kept| == 0 then ParseResult([], Some(NeedsMessage))
    else if !HasCustomer(kept) then ParseResult([], Some(NeedsCustomer))
    else ParseResult(kept, None)
  }

  function Joined(content: string, continuation: string): string {
    if content != "" then content + " " + continuation else continuation
  }

  /** What a line is to the parser. */
  datatype Line = Speaks(message: Message) | Continues(text: string) | Blank

  function Classify(line: string): Line {
    var speaker := MatchSpeaker(line);
    if speaker.Some? then Speaks(Message(speaker.value.role, Trim(speaker.value.text)))
    else if Trim(line) == "" then Blank
    else Continues(Trim(line))
  }

  function ClassifyAll(lines: seq<string>): (kinds: seq<Line>)
    ensures |kinds| == |lines| && forall k | 0 <= k < |lines| :: kinds[k] == Classify(lines[k])
  {
    seq(|lines|, k requires 0 <= k < |lines| => Classify(lines[k]))
  }

  /** The rest of a parse from line i on, with these messages finished and this one being built. */
  function ParseFrom(lines: seq<Line>, i: nat, messages: seq<Message>, current: Option<Message>): ParseResult
    requires i <= |lines|
    decreases |lines| - i
  {
    if i == |lines| then Conclude(Flush(messages, current))
    else
      match lines[i]
      case Speaks(m) => ParseFrom(lines, i + 1, Flush(messages, current), Some(m))
      case Blank => ParseFrom(lines, i + 1, messages, current)
      case Continues(text) =>
        if current.None? then ParseResult([], Some(NeedsSpeaker))
        else ParseFrom(lines, i + 1, messages, Some(current.value.(content := Joined(current.value.content, text))))
  }

  function Parse(raw: string): ParseResult {
    ParseFrom(ClassifyAll(Lines(raw)), 0, [], None)
  }

  /** One turn of the parse, by what the line matches. */
  lemma ParseStep(lines: seq<string>, i: nat, messages: seq<Message>, current: Option<Message>)
    requires i < |lines|
    ensures var speaker := MatchSpeaker(lines[i]);
            ParseFrom(ClassifyAll(lines), i, messages, current) ==
            if speaker.Some? then
              var m := Message(speaker.value.role, Trim(speaker.value.text));
              ParseFrom(ClassifyAll(lines), i + 1, Flush(messages, current), Some(m))
            else if Trim(lines[i]) == "" then ParseFrom(ClassifyAll(lines), i + 1, messages, current)
            else if current.None? then ParseResult([], Some(NeedsSpeaker))
            else
              var joined := Joined(current.value.content, Trim(lines[i]));
              ParseFrom(ClassifyAll(lines), i + 1, messages, Some(current.value.(content := joined)))
  {
    assert ClassifyAll(lines)[i] == Classify(lines[i]);
  }

  method ParseTranscript(raw: string) returns (result: ParseResult)
    ensures result == Parse(raw)
  {
    var messages: seq<Message> := [];
    var current: Option<Message> := None;
    var lines := Lines(raw);
    for i := 0 to |lines|
      invariant ParseFrom(ClassifyAll(lines), i, messages, current) == Parse(raw)
    {
      ParseStep(lines, i, messages, current);
      var speaker := MatchSpeaker(lines[i]);
      if speaker.Some? {
        if current.Some? {
          messages := messages + [current.value];
        }
        current := Some(Message(speaker.value.role, Trim(speaker.value.text)));
        continue;
      }
      var continuation := Trim(lines[i]);
      if continuation == "" {
        continue;
      }
      if current.None? {
        return ParseResult([], Some(NeedsSpeaker));
      }
      current := Some(current.value.(content := Joined(current.value.content, continuation)));
    }
    if current.Some? {
      messages := messages + [current.value];
    }
    var nonEmpty := NonEmpty(messages);
    if |nonEmpty| == 0 {
      return ParseResult([], Some(NeedsMessage));
    }
    if !HasCustomer(nonEmpty) {
      return ParseResult([], Some(NeedsCustomer));
    }
    return ParseResult(nonEmpty, None);
  }

  // ----- The printer --------------------------------------------------------------------------------

  function Label(role: Role): string {
    match role case Customer => "CUSTOMER" case Agent => "AGENT"
  }

  function RenderLine(m: Message): string {
    Label(m.role) + ": " + m.content
  }

  function Join(lines: seq<string>): string {
    if lines == [] then ""
    else if |lines| == 1 then lines[0]
    else lines[0] + "\n" + Join(lines[1..])
  }

  function RenderLines(messages: seq<Message>): (lines: seq<string>)
    ensures |lines| == |messages| && forall k | 0 <= k < |messages| :: lines[k] == RenderLine(messages[k])
  {
    seq(|messages|, k requires 0 <= k < |messages| => RenderLine(messages[k]))
  }

  function Render(messages: seq<Message>): string {
    Join(RenderLines(messages))
  }
}
