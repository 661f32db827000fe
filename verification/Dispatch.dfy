/**
 Dispatching one request: the failover loop over reservations, sends and releases, while other
 threads use the registry. A trace of the loop is what every guarantee below is stated on.
 */
module Dispatch {
  import opened Results
  import opened Metering
  import opened Scheduler
  import P = Privacy

  // ---- One attempt --------------------------------------------------------------------------

  /** What a node sends back under the request's id. Absent payloads are legal on the wire. */
  datatype Message =
    | ChunkMessage(content: Option<string>)
    | DoneMessage(done: Option<Done>)
    | ErrorMessage(retryable: Option<bool>)
    | OtherMessage

  datatype SendError = Cancelled | WriteFailed | NodeError(retryable: bool) | UnnamedError

  datatype Sent = Answered(done: Done) | Failed(error: SendError)

  /**
   One round trip as the environment plays it. When `messages` runs out without an answer, the
   request's context has ended. The three call lists are what other threads do to the registry
   before the reservation, while the node works, and before its outcome is recorded.
   */
  datatype Attempt = Attempt(
    reservedAt: int, written: bool, messages: seq<Message>, cancelled: bool, latency: int, firstChunkAfter: int,
    recordedAt: int, recordedLater: int,
    before: seq<Call>, during: seq<Call>, unrecorded: seq<Call>)

  type Script = nat -> Attempt

  predicate Final(m: Message) {
    m.DoneMessage? || m.ErrorMessage?
  }

  /** Everything before the first final message. */
  function Body(ms: seq<Message>): seq<Message> {
    if ms == [] || Final(ms[0]) then [] else [ms[0]] + Body(ms[1..])
  }

  function Contents(ms: seq<Message>): seq<string> {
    if ms == [] then []
    else Contents(ms[..|ms| - 1]) + (if ms[|ms| - 1].ChunkMessage? && ms[|ms| - 1].content.Some? then [ms[|ms| - 1].content.value] else [])
  }

  function Answer(ms: seq<Message>): Sent {
    var n := |Body(ms)|;
    if n >= |ms| then Failed(Cancelled)
    else match ms[n]
      case DoneMessage(done) => Answered(if done.Some? then done.value else Done("stop", 0, 0))
      case ErrorMessage(retryable) => Failed(if retryable.Some? then NodeError(retryable.value) else UnnamedError)
      case _ => Failed(Cancelled)
  }

  /** The chunks an attempt hands to the client. */
  function Emitted(a: Attempt): seq<string> {
    if a.written then Contents(Body(a.messages)) else []
  }

  function OutcomeOf(a: Attempt): Sent {
    if a.written then Answer(a.messages) else Failed(WriteFailed)
  }

  function Chars(chunks: seq<string>): nat {
    if chunks == [] then 0 else Chars(chunks[..|chunks| - 1]) + |chunks[|chunks| - 1]|
  }

  lemma ContentsStep(ms: seq<Message>, i: nat)
    requires i < |ms|
    ensures var before, after := Contents(ms[..i]), Contents(ms[..i + 1]);
            if ms[i].ChunkMessage? && ms[i].content.Some?
            then after == before + [ms[i].content.value] && Chars(after) == Chars(before) + |ms[i].content.value|
            else after == before
  {
    assert ms[..i + 1][..i] == ms[..i];
    var before := Contents(ms[..i]);
    if ms[i].ChunkMessage? && ms[i].content.Some? {
      assert (before + [ms[i].content.value])[..|before|] == before;
    }
  }

  function TokenRate(tokens: int, latency: int): real {
    if tokens <= 0 || latency <= 0 then 0.0 else tokens as real / (latency as real / SECOND as real)
  }

  /** A rate times its time is the tokens counted. */
  lemma RateTimesTime(tokens: int, latency: int)
    requires 0 < tokens && 0 < latency
    ensures TokenRate(tokens, latency) * (latency as real / 1000000000.0) == tokens as real
  {
  }

  /** What the tracker measured: no time to first chunk without one. */
  function Observed(a: Attempt): Observation {
    Observation(a.latency, if Emitted(a) != [] then a.firstChunkAfter else 0,
                TokenRate(EstimateTokens(Chars(Emitted(a))), a.latency))
  }

  function CanRetry(cancelled: bool, error: SendError): bool {
    !cancelled && !error.Cancelled? && (error.NodeError? ==> error.retryable)
  }

  datatype Verdict = Served | BrokenOff | Refused | TryAgain

  /** No retry once a chunk has gone out, nor after an error that forbids it. */
  function VerdictOf(a: Attempt): Verdict {
    match OutcomeOf(a)
    case Answered(_) => Served
    case Failed(error) =>
      if Emitted(a) != [] then BrokenOff else if CanRetry(a.cancelled, error) then TryAgain else Refused
  }

  function Recording(a: Attempt, id: string): Call {
    match VerdictOf(a)
    case Served => RecordSuccess(id, Observed(a))
    case BrokenOff => RecordPostToken(id, a.recordedAt)
    case Refused => RecordTerminal(id, a.recordedAt)
    case TryAgain => RecordPreToken(id, a.recordedAt, a.recordedLater)
  }

  /** All registry calls of one round, the dispatch's own and other threads'. */
  function RoundCalls(a: Attempt, id: string): seq<Call> {
    a.before + [Reserve(id)] + a.during + [Release(id)] + a.unrecorded + [Recording(a, id)]
  }

  lemma {:induction false} ApplyAllAppends(r: RegistryState, calls: seq<Call>, more: seq<Call>)
    ensures ApplyAll(r, calls + more) == ApplyAll(ApplyAll(r, calls), more)
  {
    if more == [] {
      assert calls + more == calls;
    } else {
      var n := |more| - 1;
      assert (calls + more)[..|calls + more| - 1] == calls + more[..n];
      ApplyAllAppends(r, calls, more[..n]);
    }
  }

  lemma ApplyAllOne(r: RegistryState, call: Call)
    ensures ApplyAll(r, [call]) == Apply(r, call)
  {
    assert [call][..0] == [];
    assert ApplyAll(r, []) == r;
  }

  /** The registry after the calls that follow a reservation. */
  function Settled(reserved: RegistryState, a: Attempt, id: string): RegistryState {
    var released := Apply(ApplyAll(reserved, a.during), Release(id));
    Apply(ApplyAll(released, a.unrecorded), Recording(a, id))
  }

  function Recorded(r: RegistryState, a: Attempt, id: string): RegistryState {
    Settled(Apply(ApplyAll(r, a.before), Reserve(id)), a, id)
  }

  lemma RoundInSteps(r: RegistryState, a: Attempt, id: string)
    ensures ApplyAll(r, RoundCalls(a, id)) == Recorded(r, a, id)
  {
    var c1 := a.before + [Reserve(id)];
    var c3 := c1 + a.during + [Release(id)];
    ApplyAllAppends(r, a.before, [Reserve(id)]);
    ApplyAllOne(ApplyAll(r, a.before), Reserve(id));
    ApplyAllAppends(r, c1, a.during);
    ApplyAllAppends(r, c1 + a.during, [Release(id)]);
    ApplyAllOne(ApplyAll(r, c1 + a.during), Release(id));
    ApplyAllAppends(r, c3, a.unrecorded);
    ApplyAllAppends(r, c3 + a.unrecorded, [Recording(a, id)]);
    ApplyAllOne(ApplyAll(r, c3 + a.unrecorded), Recording(a, id));
  }

  lemma HeadAndPrefix<T>(s: seq<T>, n: nat)
    requires 0 < n <= |s|
    ensures s[..n] == [s[0]] + s[1..][..n - 1]
  {
  }

  lemma {:induction false} BodySplits(ms: seq<Message>, n: nat)
    requires n <= |ms| && (forall i :: 0 <= i < n ==> !Final(ms[i])) && (n < |ms| ==> Final(ms[n]))
    ensures Body(ms) == ms[..n]
  {
    if n > 0 {
      BodySplits(ms[1..], n - 1);
      HeadAndPrefix(ms, n);
    }
  }

  /** The client's end of a stream. Both real sinks accept every chunk. */
  class Sink {
    var received: seq<string>

    constructor ()
      ensures received == []
    {
      received := [];
    }

    method Chunk(content: string)
      modifies this
      ensures received == old(received) + [content]
    {
      received := received + [content];
    }
  }

  /** Wraps a sink for one attempt and remembers whether anything went through it. */
  class FirstChunkTracker {
    const inner: Sink
    var sent: bool
    var outputChars: nat

    constructor (inner: Sink)
      ensures this.inner == inner && !sent && outputChars == 0
    {
      this.inner := inner;
      sent, outputChars := false, 0;
    }

    method Chunk(content: string)
      modifies this, inner
      ensures sent && outputChars == old(outputChars) + |content| && inner.received == old(inner.received) + [content]
    {
      sent := true;
      outputChars := outputChars + |content|;
      inner.Chunk(content);
    }
  }

  lemma AppendRegroups<T>(a: seq<T>, b: seq<T>, x: T)
    ensures a + b + [x] == a + (b + [x])
  {
  }

  /** SendInference: forward chunks until the first answer or error; the rest is never read. */
  method SendInference(a: Attempt, tracker: FirstChunkTracker) returns (sent: Sent)
    requires !tracker.sent && tracker.outputChars == 0
    modifies tracker, tracker.inner
    ensures sent == OutcomeOf(a)
    ensures tracker.inner.received == old(tracker.inner.received) + Emitted(a)
    ensures tracker.sent <==> Emitted(a) != []
    ensures tracker.outputChars == Chars(Emitted(a))
  {
    if !a.written { return Failed(WriteFailed); }
    var ms := a.messages;
    for i := 0 to |ms|
      invariant forall j :: 0 <= j < i ==> !Final(ms[j])
      invariant tracker.inner.received == old(tracker.inner.received) + Contents(ms[..i])
      invariant tracker.sent <==> Contents(ms[..i]) != []
      invariant tracker.outputChars == Chars(Contents(ms[..i]))
    {
      AnswersAt(ms, i);
      ContentsStep(ms, i);
      match ms[i] {
        case ChunkMessage(content) =>
          if content.Some? {
            tracker.Chunk(content.value);
            AppendRegroups(old(tracker.inner.received), Contents(ms[..i]), content.value);
          }
        case DoneMessage(done) =>
          return Answered(if done.Some? then done.value else Done("stop", 0, 0));
        case ErrorMessage(retryable) =>
          return Failed(if retryable.Some? then NodeError(retryable.value) else UnnamedError);
        case OtherMessage =>
      }
    }
    BodySplits(ms, |ms|);
    sent := Failed(Cancelled);
  }

  /** The first final message decides the answer; what came before it is the output. */
  lemma AnswersAt(ms: seq<Message>, i: nat)
    requires i < |ms| && forall j :: 0 <= j < i ==> !Final(ms[j])
    ensures Final(ms[i]) ==>
              && Contents(Body(ms)) == Contents(ms[..i])
              && Answer(ms) == match ms[i]
                               case DoneMessage(done) => Answered(if done.Some? then done.value else Done("stop", 0, 0))
                               case ErrorMessage(retryable) => Failed(if retryable.Some? then NodeError(retryable.value) else UnnamedError)
                               case _ => Failed(Cancelled)
  {
    if Final(ms[i]) { BodySplits(ms, i); }
  }

  // ---- Traces of the failover loop ----------------------------------------------------------

  /** The best choice: eligible, untried, and no eligible untried node is cheaper. */
  ghost predicate Chosen(fold: Fold, r: RegistryState, id: string, tried: set<string>, req: Request, providerID: string, now: int) {
    && id in r.view && id !in tried && Eligible(fold, r.view[id], req, providerID, now)
    && forall other :: other in r.view && other !in tried && Eligible(fold, r.view[other], req, providerID, now) ==>
         CostIn(r, id) <= CostIn(r, other)
  }

  /** Nobody left to try. */
  ghost predicate Exhausted(fold: Fold, r: RegistryState, tried: set<string>, req: Request, providerID: string, now: int) {
    forall id :: id in r.view ==> id in tried || !Eligible(fold, r.view[id], req, providerID, now)
  }

  /** `at[k]` is the registry when round k begins, `ids[k]` the node reserved in it. */
  datatype Trace = Trace(at: seq<RegistryState>, ids: seq<string>)

  /** The registry that round k's reservation finds. */
  function Facing(t: Trace, env: Script, k: nat): RegistryState
    requires k < |t.at|
  {
    ApplyAll(t.at[k], env(k).before)
  }

  ghost predicate Round(fold: Fold, t: Trace, env: Script, req: Request, providerID: string, k: nat)
    requires k < |t.ids| && |t.at| == |t.ids| + 1
  {
    && Chosen(fold, Facing(t, env, k), t.ids[k], P.Elements(t.ids[..k]), req, providerID, env(k).reservedAt)
    && t.at[k + 1] == ApplyAll(t.at[k], RoundCalls(env(k), t.ids[k]))
  }

  function Shorter(t: Trace): Trace
    requires |t.ids| > 0 && |t.at| == |t.ids| + 1
  {
    Trace(t.at[..|t.ids|], t.ids[..|t.ids| - 1])
  }

  /** A trace of the loop: every round as the code plays it, and none after one that ends the loop. */
  ghost predicate Follows(fold: Fold, t: Trace, env: Script, req: Request, providerID: string)
    decreases |t.ids|
  {
    var n := |t.ids|;
    && |t.at| == n + 1
    && (n > 0 ==>
          && Follows(fold, Shorter(t), env, req, providerID)
          && Round(fold, t, env, req, providerID, n - 1)
          && (n > 1 ==> VerdictOf(env(n - 2)).TryAgain?))
  }

  lemma RoundLifts(fold: Fold, t: Trace, env: Script, req: Request, providerID: string, k: nat)
    requires |t.at| == |t.ids| + 1 && k < |t.ids| - 1 && Round(fold, Shorter(t), env, req, providerID, k)
    ensures Round(fold, t, env, req, providerID, k)
  {
    assert Shorter(t).ids[..k] == t.ids[..k];
  }

  lemma {:induction false} RoundAt(fold: Fold, t: Trace, env: Script, req: Request, providerID: string, k: nat)
    requires Follows(fold, t, env, req, providerID) && k < |t.ids|
    ensures Round(fold, t, env, req, providerID, k)
    ensures k < |t.ids| - 1 ==> VerdictOf(env(k)).TryAgain?
    decreases |t.ids|
  {
    if k < |t.ids| - 1 {
      RoundAt(fold, Shorter(t), env, req, providerID, k);
      RoundLifts(fold, t, env, req, providerID, k);
    }
  }

  /** Who served whom; `ErrNoNode` when `verdict` is absent. */
  datatype DispatchResult = DispatchResult(verdict: Option<Verdict>, done: Option<Done>, nodeID: string, providerID: string, attempts: nat)

  /** Every id that other threads register during the dispatch lies in `universe`. */
  ghost predicate Within(env: Script, universe: set<string>) {
    forall k: nat, c :: c in env(k).before + env(k).during + env(k).unrecorded && c.Register? ==> c.msg.nodeID in universe
  }

  /** What a stopped loop reports of its last round. */
  ghost predicate Reports(t: Trace, env: Script, result: DispatchResult) {
    var n := |t.ids|;
    && result.attempts == n
    && (result.verdict.None? ==> n > 0 ==> VerdictOf(env(n - 1)).TryAgain?)
    && (result.verdict.Some? ==>
          && n > 0 && result.nodeID == t.ids[n - 1]
          && result.verdict.value == VerdictOf(env(n - 1)) && !result.verdict.value.TryAgain?
          && (result.verdict.value.Served? ==> result.done.Some? && OutcomeOf(env(n - 1)) == Answered(result.done.value)))
  }

  /** How a loop that has stopped reports. */
  ghost predicate Concludes(fold: Fold, t: Trace, env: Script, req: Request, providerID: string, result: DispatchResult) {
    var n := |t.ids|;
    && |t.at| == n + 1
    && Reports(t, env, result)
    && (result.verdict.None? ==> Exhausted(fold, Facing(t, env, n), P.Elements(t.ids), req, providerID, env(n).reservedAt))
    && (result.verdict.Some? ==>
          && result.nodeID in Facing(t, env, n - 1).view
          && result.providerID == Facing(t, env, n - 1).view[result.nodeID].profile.providerID)
  }

  /** A trace grows by one round at a time. */
  function Longer(t: Trace, r: RegistryState, id: string): Trace {
    Trace(t.at + [r], t.ids + [id])
  }

  lemma RoundAppended(fold: Fold, t: Trace, env: Script, req: Request, providerID: string, id: string)
    requires |t.at| == |t.ids| + 1
    requires Chosen(fold, Facing(t, env, |t.ids|), id, P.Elements(t.ids), req, providerID, env(|t.ids|).reservedAt)
    ensures Round(fold, Longer(t, Recorded(t.at[|t.ids|], env(|t.ids|), id), id), env, req, providerID, |t.ids|)
  {
    var n := |t.ids|;
    RoundInSteps(t.at[n], env(n), id);
    assert (t.ids + [id])[..n] == t.ids;
  }

  lemma FollowsOneMore(fold: Fold, t: Trace, env: Script, req: Request, providerID: string, r: RegistryState, id: string)
    requires Follows(fold, t, env, req, providerID)
    requires |t.ids| > 0 ==> VerdictOf(env(|t.ids| - 1)).TryAgain?
    requires Round(fold, Longer(t, r, id), env, req, providerID, |t.ids|)
    ensures Follows(fold, Longer(t, r, id), env, req, providerID)
  {
    assert Shorter(Longer(t, r, id)) == t;
  }

  /** The state of a loop that has only seen failures it may retry. */
  ghost predicate Running(fold: Fold, t: Trace, env: Script, req: Request, providerID: string,
                          start: RegistryState, current: RegistryState, universe: set<string>)
  {
    && Follows(fold, t, env, req, providerID)
    && t.at[0] == start && t.at[|t.ids|] == current && current.view.Keys <= universe
    && (|t.ids| > 0 ==> VerdictOf(env(|t.ids| - 1)).TryAgain?)
  }

  /** A loop that has stopped, with the registry it began from and the one it leaves. */
  ghost predicate Finished(fold: Fold, t: Trace, env: Script, req: Request, providerID: string,
                           start: RegistryState, current: RegistryState, result: DispatchResult)
  {
    && Follows(fold, t, env, req, providerID) && Concludes(fold, t, env, req, providerID, result)
    && t.at[0] == start
    && current == if result.verdict.None? then Facing(t, env, |t.ids|) else t.at[|t.ids|]
  }

  lemma Begins(fold: Fold, env: Script, req: Request, providerID: string, start: RegistryState, universe: set<string>)
    requires start.view.Keys <= universe
    ensures Running(fold, Trace([start], []), env, req, providerID, start, start, universe)
  {
  }

  lemma RunsOn(fold: Fold, t: Trace, env: Script, req: Request, providerID: string,
               start: RegistryState, current: RegistryState, universe: set<string>, id: string)
    requires Running(fold, t, env, req, providerID, start, current, universe) && Within(env, universe)
    requires Chosen(fold, Facing(t, env, |t.ids|), id, P.Elements(t.ids), req, providerID, env(|t.ids|).reservedAt)
    requires VerdictOf(env(|t.ids|)).TryAgain?
    ensures var next := Recorded(current, env(|t.ids|), id);
            Running(fold, Longer(t, next, id), env, req, providerID, start, next, universe)
    ensures id in universe && id !in P.Elements(t.ids) && P.Elements(t.ids + [id]) == P.Elements(t.ids) + {id}
  {
    RoundAppended(fold, t, env, req, providerID, id);
    FollowsOneMore(fold, t, env, req, providerID, Recorded(current, env(|t.ids|), id), id);
    StaysWithin(current, env(|t.ids|), id, universe);
  }

  /** The result that names the last node of a trace and tells its verdict. */
  ghost predicate Tells(t: Trace, env: Script, id: string, result: DispatchResult)
    requires |t.at| == |t.ids| + 1
  {
    && result.verdict == Some(VerdictOf(env(|t.ids|))) && !result.verdict.value.TryAgain?
    && result.attempts == |t.ids| + 1 && result.nodeID == id
    && id in Facing(t, env, |t.ids|).view
    && result.providerID == Facing(t, env, |t.ids|).view[id].profile.providerID
    && (OutcomeOf(env(|t.ids|)).Answered? ==> result.done == Some(OutcomeOf(env(|t.ids|)).done))
  }

  lemma TellingConcludes(fold: Fold, t: Trace, env: Script, req: Request, providerID: string, r: RegistryState, id: string,
                         result: DispatchResult)
    requires |t.at| == |t.ids| + 1 && Tells(t, env, id, result)
    ensures Concludes(fold, Longer(t, r, id), env, req, providerID, result)
  {
    var u := Longer(t, r, id);
    assert u.at[..|t.at|] == t.at && Facing(u, env, |t.ids|) == Facing(t, env, |t.ids|);
  }

  lemma StopsAt(fold: Fold, t: Trace, env: Script, req: Request, providerID: string,
                start: RegistryState, current: RegistryState, universe: set<string>, id: string, result: DispatchResult)
    requires Running(fold, t, env, req, providerID, start, current, universe)
    requires Chosen(fold, Facing(t, env, |t.ids|), id, P.Elements(t.ids), req, providerID, env(|t.ids|).reservedAt)
    requires Tells(t, env, id, result)
    ensures var next := Recorded(current, env(|t.ids|), id);
            Finished(fold, Longer(t, next, id), env, req, providerID, start, next, result)
  {
    var next := Recorded(current, env(|t.ids|), id);
    RoundAppended(fold, t, env, req, providerID, id);
    FollowsOneMore(fold, t, env, req, providerID, next, id);
    TellingConcludes(fold, t, env, req, providerID, next, id, result);
  }

  /** What the client's sink gained over a whole dispatch. */
  function Output(t: Trace, env: Script): seq<string> {
    OutputUpTo(env, |t.ids|)
  }

  function OutputUpTo(env: Script, n: nat): seq<string> {
    if n == 0 then [] else OutputUpTo(env, n - 1) + Emitted(env(n - 1))
  }

  lemma OutputGrows(given: seq<string>, t: Trace, env: Script, r: RegistryState, id: string)
    ensures given + Output(Longer(t, r, id), env) == given + Output(t, env) + Emitted(env(|t.ids|))
  {
  }

  /** Failed attempts that are retried leave no output behind. */
  lemma {:induction false} RetriesAreSilent(env: Script, n: nat)
    requires forall k: nat :: k < n ==> VerdictOf(env(k)).TryAgain?
    ensures OutputUpTo(env, n) == []
  {
    if n > 0 {
      RetriesAreSilent(env, n - 1);
      assert VerdictOf(env(n - 1)).TryAgain?;
    }
  }

  lemma LastSpeaks(env: Script, n: nat)
    requires forall k: nat :: k < n - 1 ==> VerdictOf(env(k)).TryAgain?
    ensures OutputUpTo(env, n) == if n == 0 then [] else Emitted(env(n - 1))
  {
    if n > 0 {
      RetriesAreSilent(env, n - 1);
    }
  }

  /**
   Pinning: all output of a dispatch comes from its last node. A served request got exactly that
   node's chunks in order; with no node, or a refusal, the client got nothing at all.
   */
  lemma OutputIsPinned(fold: Fold, t: Trace, env: Script, req: Request, providerID: string, result: DispatchResult)
    requires Follows(fold, t, env, req, providerID) && Concludes(fold, t, env, req, providerID, result)
    ensures Output(t, env) == if |t.ids| == 0 then [] else Emitted(env(|t.ids| - 1))
    ensures result.verdict.None? || result.verdict.value.Refused? ==> Output(t, env) == []
    ensures Output(t, env) != [] ==> result.verdict == Some(Served) || result.verdict == Some(BrokenOff)
  {
    forall k: nat | k < |t.ids| - 1 ensures VerdictOf(env(k)).TryAgain? {
      RoundAt(fold, t, env, req, providerID, k);
    }
    ReportedOutput(t, env, result);
  }

  lemma VerdictTellsOutput(a: Attempt)
    ensures VerdictOf(a).TryAgain? || VerdictOf(a).Refused? ==> Emitted(a) == []
  {
  }

  lemma ReportedOutput(t: Trace, env: Script, result: DispatchResult)
    requires Reports(t, env, result)
    requires forall k: nat :: k < |t.ids| - 1 ==> VerdictOf(env(k)).TryAgain?
    ensures Output(t, env) == if |t.ids| == 0 then [] else Emitted(env(|t.ids| - 1))
    ensures result.verdict.None? || result.verdict.value.Refused? ==> Output(t, env) == []
    ensures Output(t, env) != [] ==> result.verdict == Some(Served) || result.verdict == Some(BrokenOff)
  {
    var n := |t.ids|;
    LastSpeaks(env, n);
    if n > 0 { VerdictTellsOutput(env(n - 1)); }
  }

  /** A served chat is charged for the serving node's characters alone, however many nodes failed before it. */
  lemma ChargeIsServingNodes(fold: Fold, t: Trace, env: Script, req: Request, providerID: string, result: DispatchResult, work: Work)
    requires Follows(fold, t, env, req, providerID) && Concludes(fold, t, env, req, providerID, result)
    requires result.verdict == Some(Served) && work.Chat?
    ensures MeasuredDone(work, result.done.value.finishReason, Chars(Output(t, env))).outputTokens
         == EstimateTokens(Chars(Emitted(env(|t.ids| - 1))))
  {
    OutputIsPinned(fold, t, env, req, providerID, result);
  }

  /** No node is tried twice. */
  lemma AttemptsAreDistinct(fold: Fold, t: Trace, env: Script, req: Request, providerID: string)
    requires Follows(fold, t, env, req, providerID)
    ensures forall i, j :: 0 <= i < j < |t.ids| ==> t.ids[i] != t.ids[j]
  {
    forall i, j | 0 <= i < j < |t.ids| ensures t.ids[i] != t.ids[j] {
      assert t.ids[..j][i] in P.Elements(t.ids[..j]);
      RoundAt(fold, t, env, req, providerID, j);
    }
  }

  function Registering(calls: seq<Call>): set<string> {
    set c | c in calls && c.Register? :: c.msg.nodeID
  }

  /** One more round keeps the registry inside the universe of node ids, and reserves one of them. */
  lemma StaysWithin(r: RegistryState, a: Attempt, id: string, universe: set<string>)
    requires r.view.Keys <= universe
    requires forall c :: c in a.before + a.during + a.unrecorded && c.Register? ==> c.msg.nodeID in universe
    ensures ApplyAll(r, a.before).view.Keys <= universe
    ensures Recorded(r, a, id).view.Keys <= universe
  {
    KeysGrowByRegistering(r, a.before);
    KeysGrowByRegistering(r, RoundCalls(a, id));
    RoundInSteps(r, a, id);
    forall c | c in RoundCalls(a, id) && c.Register? ensures c in a.before + a.during + a.unrecorded {
    }
  }

  /** Node ids that were connected at the start or registered in the first n rounds. */
  function KnownBy(t: Trace, env: Script, n: nat): set<string>
    requires n <= |t.ids| && |t.at| == |t.ids| + 1
  {
    if n == 0 then t.at[0].view.Keys
    else KnownBy(t, env, n - 1) + Registering(RoundCalls(env(n - 1), t.ids[n - 1]))
  }

  lemma {:induction false} KeysGrowByRegistering(r: RegistryState, calls: seq<Call>)
    ensures ApplyAll(r, calls).view.Keys <= r.view.Keys + Registering(calls)
  {
    if calls != [] {
      var n := |calls| - 1;
      KeysGrowByRegistering(r, calls[..n]);
      assert calls == calls[..n] + [calls[n]];
      OneCallGrows(ApplyAll(r, calls[..n]), calls[n]);
      assert Registering(calls[..n]) <= Registering(calls) by {
        assert forall c :: c in calls[..n] ==> c in calls;
      }
      if calls[n].Register? {
        assert calls[n] in calls && calls[n].msg.nodeID in Registering(calls);
      }
    }
  }

  lemma OneCallGrows(r: RegistryState, call: Call)
    ensures Apply(r, call).view.Keys <= r.view.Keys + if call.Register? then {call.msg.nodeID} else {}
  {
  }

  /** Round k reserves a known node and adds only nodes it registers. */
  ghost predicate Grows(t: Trace, env: Script, k: nat)
    requires k < |t.ids| && |t.at| == |t.ids| + 1
  {
    var known := t.at[k].view.Keys + Registering(RoundCalls(env(k), t.ids[k]));
    t.ids[k] in known && t.at[k + 1].view.Keys <= known
  }

  lemma RoundGrows(fold: Fold, t: Trace, env: Script, req: Request, providerID: string, k: nat)
    requires k < |t.ids| && |t.at| == |t.ids| + 1 && Round(fold, t, env, req, providerID, k)
    ensures Grows(t, env, k)
  {
    var a, id := env(k), t.ids[k];
    KeysGrowByRegistering(t.at[k], RoundCalls(a, id));
    KeysGrowByRegistering(t.at[k], a.before);
    assert Registering(a.before) <= Registering(RoundCalls(a, id)) by {
      assert forall c :: c in a.before ==> c in RoundCalls(a, id);
    }
  }

  lemma {:induction false} ViewsAreKnown(t: Trace, env: Script, n: nat)
    requires |t.at| == |t.ids| + 1 && n <= |t.ids|
    requires forall k: nat :: k < |t.ids| ==> Grows(t, env, k)
    ensures t.at[n].view.Keys <= KnownBy(t, env, n)
    ensures P.Elements(t.ids[..n]) <= KnownBy(t, env, n)
  {
    if n > 0 {
      ViewsAreKnown(t, env, n - 1);
      assert Grows(t, env, n - 1);
      ElementsOfPrefix(t.ids, n);
    }
  }

  lemma ElementsOfPrefix(s: seq<string>, n: nat)
    requires 0 < n <= |s|
    ensures P.Elements(s[..n]) == P.Elements(s[..n - 1]) + {s[n - 1]}
  {
    assert s[..n] == s[..n - 1] + [s[n - 1]];
  }

  lemma {:induction false} DistinctCount(s: seq<string>)
    requires forall i, j :: 0 <= i < j < |s| ==> s[i] != s[j]
    ensures |P.Elements(s)| == |s|
  {
    if s != [] {
      var n := |s| - 1;
      DistinctCount(s[..n]);
      assert s[n] !in s[..n];
      assert P.Elements(s) == P.Elements(s[..n]) + {s[n]};
    }
  }

  lemma SubsetCount(a: set<string>, b: set<string>)
    requires a <= b
    ensures |a| <= |b|
  {
    assert b == a + (b - a);
  }

  /** A dispatch attempts no more than the distinct node ids it could have seen. */
  lemma AttemptsAreBounded(fold: Fold, t: Trace, env: Script, req: Request, providerID: string)
    requires Follows(fold, t, env, req, providerID)
    ensures |t.ids| <= |KnownBy(t, env, |t.ids|)|
  {
    AttemptsAreDistinct(fold, t, env, req, providerID);
    DistinctCount(t.ids);
    forall k: nat | k < |t.ids| ensures Grows(t, env, k) {
      RoundAt(fold, t, env, req, providerID, k);
      RoundGrows(fold, t, env, req, providerID, k);
    }
    ViewsAreKnown(t, env, |t.ids|);
    assert t.ids[..|t.ids|] == t.ids;
    SubsetCount(P.Elements(t.ids), KnownBy(t, env, |t.ids|));
  }
}
