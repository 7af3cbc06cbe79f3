/** The server's validity rule for a conversation, and how the submit form's parser meets it. */
module Schemas {
  import opened Transcript
  import opened TranscriptRoundTrip

  const MAX_MESSAGES := 50
  const MAX_TOTAL_CHARS := 8000
  const MAX_MESSAGE_CHARS := 4000

  function TotalChars(messages: seq<Message>): nat {
    if messages == [] then 0 else |messages[0].content| + TotalChars(messages[1..])
  }

  /** What ConversationInput accepts. */
  predicate Accepted(messages: seq<Message>) {
    && 1 <= |messages| <= MAX_MESSAGES
    && (forall k | 0 <= k < |messages| :: 1 <= |messages[k].content| <= MAX_MESSAGE_CHARS)
    && TotalChars(messages) <= MAX_TOTAL_CHARS
    && HasCustomer(messages)
  }

  /** The three size limits, which the form does not check. */
  predicate WithinLimits(messages: seq<Message>) {
    && |messages| <= MAX_MESSAGES
    && (forall k | 0 <= k < |messages| :: |messages[k].content| <= MAX_MESSAGE_CHARS)
    && TotalChars(messages) <= MAX_TOTAL_CHARS
  }

  /**
   A pasted text that parses is accepted by the server exactly when the result is within the size
   limits: the form enforces everything else.
   */
  lemma ParsedIsAcceptedIff(raw: string)
    requires Parse(raw).error.None?
    ensures Accepted(Parse(raw).messages) <==> WithinLimits(Parse(raw).messages)
  {
    ParseOutput(raw);
    var ms := Parse(raw).messages;
    forall k | 0 <= k < |ms|
      ensures |ms[k].content| >= 1
    {
      assert ms[k] in ms;
    }
  }

  /** A text that does not parse yields nothing to submit: no error result would be accepted. */
  lemma ErrorIsNeverAccepted(raw: string)
    ensures Parse(raw).error.Some? ==> !Accepted(Parse(raw).messages)
  {
    ErrorIffEmpty(raw);
  }

  // ----- What the limits are ------------------------------------------------------------------------

  lemma {:induction false} TotalIsAdditive(a: seq<Message>, b: seq<Message>)
    ensures TotalChars(a + b) == TotalChars(a) + TotalChars(b)
  {
    if a == [] {
      assert a + b == b;
    } else {
      TotalIsAdditive(a[1..], b);
      assert (a + b)[0] == a[0] && (a + b)[1..] == a[1..] + b;
    }
  }

  lemma {:induction false} TotalOfEqualLengths(ms: seq<Message>, n: nat)
    requires forall k | 0 <= k < |ms| :: |ms[k].content| == n
    ensures TotalChars(ms) == |ms| * n
  {
    if ms != [] {
      assert forall k | 0 <= k < |ms[1..]| :: ms[1..][k] == ms[k + 1];
      TotalOfEqualLengths(ms[1..], n);
      assert |ms| * n == n + (|ms| - 1) * n;
    }
  }

  /** Customer messages of n characters each: at most fifty, of at most 4000, and at most 8000 together. */
  lemma EqualLengthsAcceptedIff(ms: seq<Message>, n: nat)
    requires forall k | 0 <= k < |ms| :: |ms[k].content| == n && ms[k].role == Customer
    ensures Accepted(ms) <==> 1 <= |ms| <= 50 && 1 <= n <= 4000 && |ms| * n <= 8000
  {
    TotalOfEqualLengths(ms, n);
    if |ms| >= 1 {
      assert |ms[0].content| == n && ms[0].role.Customer?;
    }
  }

  /** A conversation in which only the agent speaks is never accepted. */
  lemma AgentsAloneRejected(ms: seq<Message>)
    requires forall k | 0 <= k < |ms| :: ms[k].role == Agent
    ensures !Accepted(ms)
  {
  }
}
