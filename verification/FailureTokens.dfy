/**
 Deliberate failures: a shared store of tokens, the provider wrapper that consumes them, and the
 exact fate of a job that is scored while tokens are armed.
 */
module FailureTokens {
  import opened Common
  import opened Jobs
  import opened RetryPolicy
  import opened Protocol
  import opened WorkerProcess

  datatype FailureMode = TimeoutMode | Http500Mode | MalformedMode

  /** The order in which consume tries the modes. */
  const MODES: seq<FailureMode> := [TimeoutMode, Http500Mode, MalformedMode]

  /** Remaining tokens per mode; a mode without a row counts as zero. */
  type Tokens = map<FailureMode, nat>

  function Armed(t: Tokens, mode: FailureMode): nat {
    if mode in t then t[mode] else 0
  }

  function Total(t: Tokens): nat {
    Armed(t, TimeoutMode) + Armed(t, Http500Mode) + Armed(t, MalformedMode)
  }

  function Spend(t: Tokens, mode: FailureMode): Tokens
    requires Armed(t, mode) > 0
  {
    t[mode := t[mode] - 1]
  }

  /** The mode whose token the next scoring call takes. */
  function NextMode(t: Tokens): Option<FailureMode> {
    if Armed(t, TimeoutMode) > 0 then Some(TimeoutMode)
    else if Armed(t, Http500Mode) > 0 then Some(Http500Mode)
    else if Armed(t, MalformedMode) > 0 then Some(MalformedMode)
    else None
  }

  function AfterConsume(t: Tokens): (u: Tokens)
    ensures Total(u) == if Total(t) == 0 then 0 else Total(t) - 1
    ensures NextMode(t).None? <==> Total(t) == 0
  {
    match NextMode(t)
    case None => t
    case Some(mode) => Spend(t, mode)
  }

  class TokenStore {
    var remaining: Tokens

    constructor ()
      ensures remaining == map[]
    {
      remaining := map[];
    }

    /** Replaces whatever was armed for this mode. */
    method Arm(mode: FailureMode, count: nat) returns (armed: nat)
      modifies this
      ensures armed == count && Armed(remaining, mode) == count
      ensures forall other | other != mode :: Armed(remaining, other) == Armed(old(remaining), other)
    {
      remaining := remaining[mode := count];
      armed := count;
    }

    method Clear()
      modifies this
      ensures Total(remaining) == 0 && remaining.Keys == old(remaining).Keys
    {
      remaining := map mode | mode in remaining :: 0;
    }

    /** One guarded decrement per mode, in order, until one of them matches a row. */
    method Consume() returns (mode: Option<FailureMode>)
      modifies this
      ensures mode == NextMode(old(remaining)) && remaining == AfterConsume(old(remaining))
    {
      for i := 0 to |MODES|
        invariant remaining == old(remaining)
        invariant forall k | 0 <= k < i :: Armed(remaining, MODES[k]) == 0
      {
        if MODES[i] in remaining && remaining[MODES[i]] > 0 {
          assert i == 0 || Armed(remaining, MODES[0]) == 0;
          assert i <= 1 || Armed(remaining, MODES[1]) == 0;
          remaining := remaining[MODES[i] := remaining[MODES[i]] - 1];
          return Some(MODES[i]);
        }
      }
      assert MODES[0] == TimeoutMode && MODES[1] == Http500Mode && MODES[2] == MalformedMode;
      return None;
    }
  }

  const TIMEOUT_REPLY: Reply := Raised(Transient(Timeout, "simulated provider timeout (demo mode)"))
  const HTTP_500_REPLY: Reply :=
    Raised(Transient(ServerError, "simulated provider 500 Internal Server Error (demo mode)"))

  /** The validator's complaint about the malformed payload is part of the error's text. */
  function MalformedReply(complaint: string): Reply {
    Raised(InvalidResponse("simulated malformed response (demo mode): " + complaint))
  }

  /** The wrapper's reply for a consumed token, or the wrapped provider's own. */
  function Injected(mode: Option<FailureMode>, inner: Reply, complaint: string): Reply {
    match mode
    case None => inner
    case Some(TimeoutMode) => TIMEOUT_REPLY
    case Some(Http500Mode) => HTTP_500_REPLY
    case Some(MalformedMode) => MalformedReply(complaint)
  }

  class FaultInjectingProvider {
    const store: TokenStore

    constructor (store: TokenStore)
      ensures this.store == store
    {
      this.store := store;
    }

    /** When the token check itself fails nothing is consumed and scoring goes on. */
    method NextFailure(storeReachable: bool) returns (mode: Option<FailureMode>)
      modifies store
      ensures mode == (if storeReachable then NextMode(old(store.remaining)) else None)
      ensures store.remaining == if storeReachable then AfterConsume(old(store.remaining)) else old(store.remaining)
    {
      if !storeReachable {
        return None;
      }
      mode := store.Consume();
    }

    /** inner is what the wrapped provider would reply; it is only asked when no token was consumed. */
    method Score(inner: Reply, storeReachable: bool, complaint: string) returns (reply: Reply)
      modifies store
      ensures reply == Injected(if storeReachable then NextMode(old(store.remaining)) else None, inner, complaint)
      ensures store.remaining == if storeReachable then AfterConsume(old(store.remaining)) else old(store.remaining)
    {
      var mode := NextFailure(storeReachable);
      if mode.None? {
        return inner;
      }
      match mode.value
      case TimeoutMode => reply := TIMEOUT_REPLY;
      case Http500Mode => reply := HTTP_500_REPLY;
      case MalformedMode => reply := MalformedReply(complaint);
    }
  }

  // ----- Successive calls -----------------------------------------------------------------------------

  /** The store after k scoring calls. */
  function After(t: Tokens, k: nat): Tokens {
    if k == 0 then t else AfterConsume(After(t, k - 1))
  }

  /** The store holds t timeout, h http_500 and m malformed tokens. */
  predicate Holds(tokens: Tokens, t: nat, h: nat, m: nat) {
    Armed(tokens, TimeoutMode) == t && Armed(tokens, Http500Mode) == h && Armed(tokens, MalformedMode) == m
  }

  function Less(a: nat, b: nat): nat {
    if a >= b then a - b else 0
  }

  /** After k calls the modes have been used up in order. */
  lemma {:induction false} LeftAfter(tokens: Tokens, t: nat, h: nat, m: nat, k: nat)
    requires Holds(tokens, t, h, m)
    ensures Holds(After(tokens, k), Less(t, k), Less(h, Less(k, t)), Less(m, Less(k, t + h)))
  {
    if k > 0 {
      LeftAfter(tokens, t, h, m, k - 1);
    }
  }

  /** The k-th call (from zero) of a provider that would succeed if it were asked. */
  function CallReply(tokens: Tokens, k: nat, o: ScoringOutcome, complaint: string): Reply {
    Injected(NextMode(After(tokens, k)), Scored(o), complaint)
  }

  lemma CallReplyIs(tokens: Tokens, t: nat, h: nat, m: nat, k: nat, o: ScoringOutcome, complaint: string)
    requires Holds(tokens, t, h, m)
    ensures CallReply(tokens, k, o, complaint) ==
            if k < t then TIMEOUT_REPLY
            else if k < t + h then HTTP_500_REPLY
            else if k < t + h + m then MalformedReply(complaint)
            else Scored(o)
  {
    LeftAfter(tokens, t, h, m, k);
  }

  // ----- The fate of one job --------------------------------------------------------------------------

  /** Every delivery's reply is what the wrapper answers to the call that this delivery makes. */
  ghost predicate ScoredThrough(tokens: Tokens, o: ScoringOutcome, complaint: string, ds: seq<Delivery>) {
    NoFaults(ds) && forall k: nat | k < |ds| :: ds[k].reply == CallReply(tokens, k, o, complaint)
  }

  /** The closed form, in the numbers of armed tokens and the attempt cap alone. */
  function TokenFate(t: nat, h: nat, m: nat, maxAttempts: nat): Fate {
    if t + h >= maxAttempts then Fate(Failed, maxAttempts, Some(MaxAttemptsExhausted))
    else if m == 0 then Fate(Completed, t + h + 1, None)
    else if t + h >= 1 || maxAttempts == 1 then Fate(Failed, t + h + 1, Some(InvalidLlmResponse))
    else if m == 1 then Fate(Completed, 2, None)
    else Fate(Failed, 2, Some(InvalidLlmResponse))
  }

  lemma {:induction false} StopsThere(c: Settings, tokens: Tokens, t: nat, h: nat, m: nat, o: ScoringOutcome,
                                      complaint: string, ds: seq<Delivery>)
    requires c.maxAttempts >= 1 && |ds| >= c.maxAttempts
    requires Holds(tokens, t, h, m) && ScoredThrough(tokens, o, complaint, ds)
    ensures var n := TokenFate(t, h, m, c.maxAttempts).attemptCount;
            StopsAt(c, 0, ds, n) && FateAt(n, ds[n - 1].reply) == TokenFate(t, h, m, c.maxAttempts)
  {
    var n := TokenFate(t, h, m, c.maxAttempts).attemptCount;
    CallReplyIs(tokens, t, h, m, n - 1, o, complaint);
    assert ds[n - 1].reply == CallReply(tokens, n - 1, o, complaint);
  }

  lemma {:induction false} NotBefore(c: Settings, tokens: Tokens, t: nat, h: nat, m: nat, o: ScoringOutcome,
                                     complaint: string, ds: seq<Delivery>, k: nat)
    requires c.maxAttempts >= 1 && |ds| >= c.maxAttempts
    requires Holds(tokens, t, h, m) && ScoredThrough(tokens, o, complaint, ds)
    requires 1 <= k < TokenFate(t, h, m, c.maxAttempts).attemptCount
    ensures !StopsAt(c, 0, ds, k)
  {
    CallReplyIs(tokens, t, h, m, k - 1, o, complaint);
    assert ds[k - 1].reply == CallReply(tokens, k - 1, o, complaint);
  }

  lemma {:induction false} StopsWhereTokensSay(c: Settings, tokens: Tokens, t: nat, h: nat, m: nat, o: ScoringOutcome,
                                               complaint: string, ds: seq<Delivery>)
    requires c.maxAttempts >= 1 && |ds| >= c.maxAttempts
    requires Holds(tokens, t, h, m) && ScoredThrough(tokens, o, complaint, ds)
    ensures var n := TokenFate(t, h, m, c.maxAttempts).attemptCount;
            FirstStop(c, 0, ds, n) && FateAt(n, ds[n - 1].reply) == TokenFate(t, h, m, c.maxAttempts)
  {
    StopsThere(c, tokens, t, h, m, o, complaint, ds);
    forall k | 1 <= k < TokenFate(t, h, m, c.maxAttempts).attemptCount
      ensures !StopsAt(c, 0, ds, k)
    {
      NotBefore(c, tokens, t, h, m, o, complaint, ds, k);
    }
  }

  // ----- Worker, wrapper and store together -----------------------------------------------------------

  /** The delivery as the worker sees it, when the wrapped provider would give the delivery's own reply. */
  function Met(tokens: Tokens, d: Delivery, complaint: string): Delivery {
    d.(reply := Injected(NextMode(tokens), d.reply, complaint))
  }

  /** Job, store, number of deliveries and fate of the message. */
  datatype End = End(row: Option<Row>, tokens: Tokens, used: nat, acked: bool)

  /** Redelivery in which each call that the worker makes goes through the wrapper and the shared store. */
  function RedeliveredThrough(c: Settings, row: Option<Row>, tokens: Tokens, ds: seq<Delivery>, complaint: string): End
    decreases |ds|
  {
    if ds == [] then End(row, tokens, 0, false)
    else
      var (after, result) := ProcessRow(c, row, Met(tokens, ds[0], complaint));
      var left := if CallsOf(row, ds[0]) == 1 then AfterConsume(tokens) else tokens;
      if Deleted(result) then End(after, left, 1, true)
      else
        var end := RedeliveredThrough(c, after, left, ds[1..], complaint);
        end.(used := end.used + 1)
  }

  /** The deliveries as seen when each of them takes the next token. */
  function MetAll(tokens: Tokens, ds: seq<Delivery>, complaint: string): (met: seq<Delivery>)
    ensures |met| == |ds| && forall k: nat | k < |ds| :: met[k] == Met(After(tokens, k), ds[k], complaint)
  {
    seq(|ds|, k requires 0 <= k < |ds| => Met(After(tokens, k), ds[k], complaint))
  }

  lemma {:induction false} AfterOneMore(tokens: Tokens, k: nat)
    ensures After(AfterConsume(tokens), k) == After(tokens, k + 1)
  {
    if k > 0 {
      AfterOneMore(tokens, k - 1);
    }
  }

  lemma MetTail(tokens: Tokens, ds: seq<Delivery>, complaint: string)
    requires ds != []
    ensures MetAll(tokens, ds, complaint)[0] == Met(tokens, ds[0], complaint)
    ensures MetAll(tokens, ds, complaint)[1..] == MetAll(AfterConsume(tokens), ds[1..], complaint)
  {
    var tail := MetAll(tokens, ds, complaint)[1..];
    forall k: nat | k < |ds| - 1
      ensures tail[k] == MetAll(AfterConsume(tokens), ds[1..], complaint)[k]
    {
      AfterOneMore(tokens, k);
    }
  }

  /**
   Without errors each delivery of a pending job makes exactly one call, so the k-th delivery meets
   the k-th state of the store, and the store ends as it is after as many calls as deliveries.
   */
  lemma {:induction false} OneCallEach(c: Settings, r: Row, tokens: Tokens, ds: seq<Delivery>, complaint: string)
    requires r.status.Pending? && r.lockedUntil.None? && NoFaults(ds)
    ensures var met := MetAll(tokens, ds, complaint);
            var (row, used, acked) := Redelivered(c, Some(r), met);
            && RedeliveredThrough(c, Some(r), tokens, ds, complaint) == End(row, After(tokens, used), used, acked)
            && CallsMade(c, Some(r), met) == used
    decreases |ds|
  {
    if ds != [] {
      var met := MetAll(tokens, ds, complaint);
      var (after, result) := ProcessRow(c, Some(r), met[0]);
      MetTail(tokens, ds, complaint);
      OneDelivery(c, r, met[0]);
      if !Deleted(result) {
        OneCallEach(c, after.value, AfterConsume(tokens), ds[1..], complaint);
        AfterOneMore(tokens, Redelivered(c, after, met[1..]).1);
      }
    }
  }

  /** A provider that would succeed if it were asked, and no errors but its own. */
  predicate Succeeding(o: ScoringOutcome, ds: seq<Delivery>) {
    NoFaults(ds) && forall k: nat | k < |ds| :: ds[k].reply == Scored(o)
  }

  lemma MetScoresThrough(tokens: Tokens, o: ScoringOutcome, complaint: string, ds: seq<Delivery>)
    requires Succeeding(o, ds)
    ensures ScoredThrough(tokens, o, complaint, MetAll(tokens, ds, complaint))
  {
  }

  lemma {:induction false} ScoredFate(c: Settings, tokens: Tokens, t: nat, h: nat, m: nat, o: ScoringOutcome,
                                      complaint: string, r: Row, met: seq<Delivery>)
    requires c.maxAttempts >= 1 && |met| >= c.maxAttempts
    requires Holds(tokens, t, h, m) && ScoredThrough(tokens, o, complaint, met)
    requires r.status.Pending? && r.lockedUntil.None? && r.attemptCount == 0
    ensures var (row, used, acked) := Redelivered(c, Some(r), met);
            && acked && row.Some? && FateOf(row.value) == TokenFate(t, h, m, c.maxAttempts)
            && used == row.value.attemptCount
  {
    StopsWhereTokensSay(c, tokens, t, h, m, o, complaint, met);
    RedeliveryEndsAtFirstStop(c, r, met, TokenFate(t, h, m, c.maxAttempts).attemptCount);
  }

  /**
   With t timeout, h http_500 and m malformed tokens armed and a provider that would otherwise
   succeed, a fresh job ends with exactly the status, attempt count and error type of the closed form,
   having called the provider once per attempt.
   */
  lemma {:induction false} JobFateUnderTokens(c: Settings, tokens: Tokens, t: nat, h: nat, m: nat, o: ScoringOutcome,
                                              complaint: string, r: Row, ds: seq<Delivery>)
    requires c.maxAttempts >= 1 && |ds| >= c.maxAttempts && Holds(tokens, t, h, m) && Succeeding(o, ds)
    requires r.status.Pending? && r.lockedUntil.None? && r.attemptCount == 0
    ensures var end := RedeliveredThrough(c, Some(r), tokens, ds, complaint);
            && end.acked && end.row.Some? && FateOf(end.row.value) == TokenFate(t, h, m, c.maxAttempts)
            && end.used == end.row.value.attemptCount && end.tokens == After(tokens, end.used)
  {
    OneCallEach(c, r, tokens, ds, complaint);
    MetScoresThrough(tokens, o, complaint, ds);
    ScoredFate(c, tokens, t, h, m, o, complaint, r, MetAll(tokens, ds, complaint));
  }

  lemma {:induction false} TokensLeftAfterFate(tokens: Tokens, t: nat, h: nat, m: nat, maxAttempts: nat)
    requires maxAttempts >= 1 && Holds(tokens, t, h, m)
    ensures var fate := TokenFate(t, h, m, maxAttempts);
            var used := fate.attemptCount;
            && Holds(After(tokens, used), Less(t, used), Less(h, Less(used, t)), Less(m, Less(used, t + h)))
            && Total(tokens) - Total(After(tokens, used)) == Min(used, t + h + m)
            && (m == 0 ==> (fate.status.Completed? <==> t + h < maxAttempts))
            && (m == 0 ==> Total(tokens) - Total(After(tokens, used)) == Min(t + h, maxAttempts))
  {
    LeftAfter(tokens, t, h, m, TokenFate(t, h, m, maxAttempts).attemptCount);
  }

  /**
   The job's calls take one token each while there are any, in mode order. With no malformed token
   the job completes exactly when t + h is below the cap, and uses min(t + h, cap) tokens.
   */
  lemma {:induction false} TokensLeftByJob(c: Settings, tokens: Tokens, t: nat, h: nat, m: nat, o: ScoringOutcome,
                                           complaint: string, r: Row, ds: seq<Delivery>)
    requires c.maxAttempts >= 1 && |ds| >= c.maxAttempts && Holds(tokens, t, h, m) && Succeeding(o, ds)
    requires r.status.Pending? && r.lockedUntil.None? && r.attemptCount == 0
    ensures var end := RedeliveredThrough(c, Some(r), tokens, ds, complaint);
            && end.row.Some?
            && Holds(end.tokens, Less(t, end.used), Less(h, Less(end.used, t)), Less(m, Less(end.used, t + h)))
            && Total(tokens) - Total(end.tokens) == Min(end.used, t + h + m)
            && (m == 0 ==> (end.row.value.status.Completed? <==> t + h < c.maxAttempts))
            && (m == 0 ==> Total(tokens) - Total(end.tokens) == Min(t + h, c.maxAttempts))
  {
    JobFateUnderTokens(c, tokens, t, h, m, o, complaint, r, ds);
    TokensLeftAfterFate(tokens, t, h, m, c.maxAttempts);
  }

  /**
   What a reader sees after the first attempt of a job whose cap allows another: the error that the
   first armed mode stands for.
   */
  lemma FirstTokenShown(c: Settings, tokens: Tokens, r: Row, d: Delivery, complaint: string)
    requires c.maxAttempts >= 2 && Total(tokens) >= 1 && d.fault.NoFault?
    requires r.status.Pending? && r.lockedUntil.None? && r.attemptCount == 0
    ensures var row := ProcessRow(c, Some(r), Met(tokens, d, complaint)).0;
            && row.Some? && row.value.status.Pending? && row.value.attemptCount == 1
            && ToError(row.value) == Some(
                 if Armed(tokens, TimeoutMode) > 0 then
                   JobError(Timeout, Some(Truncate("simulated provider timeout (demo mode)")))
                 else if Armed(tokens, Http500Mode) > 0 then
                   JobError(ServerError, Some(Truncate("simulated provider 500 Internal Server Error (demo mode)")))
                 else
                   var message := "simulated malformed response (demo mode): " + complaint;
                   JobError(InvalidLlmResponse, Some(Truncate(message))))
  {
    RetryLeaves(c, r, Met(tokens, d, complaint));
  }
}
