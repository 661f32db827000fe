/** Which rounds of a dispatch are followed by another, told from what the node sent and nothing else. */
module Failover {
  import opened Results
  import opened Scheduler
  import opened Dispatch
  import P = Privacy

  /** The j-th message of a round is read: the request went out, and nothing before the message ended the round. */
  ghost predicate Read(a: Attempt, j: nat) {
    a.written && j < |a.messages| && forall i :: 0 <= i < j ==> !Ends(a.messages[i])
  }

  predicate Ends(m: Message) {
    match m
    case DoneMessage(_) => true
    case ErrorMessage(_) => true
    case _ => false
  }

  /** A chunk with a payload was read. */
  ghost predicate Spoke(a: Attempt) {
    exists j: nat :: Read(a, j) && a.messages[j].ChunkMessage? && a.messages[j].content.Some?
  }

  ghost predicate Replied(a: Attempt) {
    exists j: nat :: Read(a, j) && a.messages[j].DoneMessage?
  }

  /** The node sent an error that says not to retry. */
  ghost predicate Forbidden(a: Attempt) {
    exists j: nat :: Read(a, j) && a.messages[j] == ErrorMessage(Some(false))
  }

  /** The request's context had ended: noticed while waiting for a message that never came, or at the check after the failure. */
  ghost predicate ContextEnded(a: Attempt) {
    a.cancelled || (a.written && forall j: nat :: Read(a, j) ==> !Ends(a.messages[j]))
  }

  /** Where a round stops reading. */
  lemma {:induction false} ReadsUpTo(ms: seq<Message>) returns (n: nat)
    ensures n <= |ms| && (forall i :: 0 <= i < n ==> !Ends(ms[i])) && (n < |ms| ==> Ends(ms[n]))
    ensures Body(ms) == ms[..n]
  {
    if ms == [] || Ends(ms[0]) {
      n := 0;
    } else {
      var m := ReadsUpTo(ms[1..]);
      n := m + 1;
      HeadAndPrefix(ms, n);
    }
  }

  lemma {:induction false} ContentsAreChunks(ms: seq<Message>)
    ensures Contents(ms) != [] <==> exists j :: 0 <= j < |ms| && ms[j].ChunkMessage? && ms[j].content.Some?
  {
    if ms != [] {
      var n := |ms| - 1;
      ContentsAreChunks(ms[..n]);
      if j :| 0 <= j < |ms| && ms[j].ChunkMessage? && ms[j].content.Some? {
        assert j < n ==> ms[..n][j] == ms[j];
      }
    }
  }

  lemma OutputIsSpeech(a: Attempt, n: nat)
    requires a.written && n <= |a.messages| && Body(a.messages) == a.messages[..n]
    requires (forall i :: 0 <= i < n ==> !Ends(a.messages[i])) && (n < |a.messages| ==> Ends(a.messages[n]))
    ensures Emitted(a) != [] <==> Spoke(a)
  {
    var ms := a.messages;
    ContentsAreChunks(ms[..n]);
    if j :| 0 <= j < n && ms[..n][j].ChunkMessage? && ms[..n][j].content.Some? {
      assert Read(a, j);
    }
    if j: nat :| Read(a, j) && ms[j].ChunkMessage? && ms[j].content.Some? {
      assert j < n && ms[..n][j] == ms[j];
    }
  }

  /**
   All four verdicts, from the messages: served exactly if a done was read; otherwise broken off
   exactly if a chunk had been read; otherwise refused exactly if the context had ended or the node
   said not to retry; and tried again exactly if none of these holds.
   */
  lemma VerdictFromMessages(a: Attempt)
    ensures VerdictOf(a).Served? <==> Replied(a)
    ensures VerdictOf(a).BrokenOff? <==> !Replied(a) && Spoke(a)
    ensures VerdictOf(a).Refused? <==> !Replied(a) && !Spoke(a) && (ContextEnded(a) || Forbidden(a))
    ensures VerdictOf(a).TryAgain? <==> !Replied(a) && !Spoke(a) && !ContextEnded(a) && !Forbidden(a)
  {
    if a.written {
      var n := ReadsUpTo(a.messages);
      OutputIsSpeech(a, n);
      assert |Body(a.messages)| == n;
      assert n < |a.messages| ==> Read(a, n);
      assert forall j: nat :: Read(a, j) && Ends(a.messages[j]) ==> j == n;
    }
  }

  /** The dispatch goes looking for another node after round k. */
  ghost predicate LooksAgain(t: Trace, result: DispatchResult, k: nat) {
    k < |t.ids| - 1 || (k == |t.ids| - 1 && result.verdict.None?)
  }

  /**
   In every dispatch, a round is followed by another attempt to reserve if and only if it brought
   neither an answer nor a chunk, its context had not ended, and the node did not say not to retry.
   */
  lemma RetriedExactly(fold: Fold, t: Trace, env: Script, req: Request, providerID: string, result: DispatchResult, k: nat)
    requires Follows(fold, t, env, req, providerID) && Concludes(fold, t, env, req, providerID, result) && k < |t.ids|
    ensures LooksAgain(t, result, k) <==>
              !Replied(env(k)) && !Spoke(env(k)) && !ContextEnded(env(k)) && !Forbidden(env(k))
  {
    RoundAt(fold, t, env, req, providerID, k);
    VerdictFromMessages(env(k));
  }

  /** A dispatch reports a refusal exactly when its last round was silent and the context had ended or the node forbade a retry. */
  lemma RefusedExactly(fold: Fold, t: Trace, env: Script, req: Request, providerID: string, result: DispatchResult)
    requires Follows(fold, t, env, req, providerID) && Concludes(fold, t, env, req, providerID, result)
    ensures result.verdict == Some(Refused) <==>
              && |t.ids| > 0
              && var last := env(|t.ids| - 1);
                 !Replied(last) && !Spoke(last) && (ContextEnded(last) || Forbidden(last))
    ensures result.verdict == Some(Served) <==> |t.ids| > 0 && Replied(env(|t.ids| - 1))
  {
    if |t.ids| > 0 { VerdictFromMessages(env(|t.ids| - 1)); }
  }

  /** The answer that is returned is the first done message's payload, or a bare stop. */
  lemma AnswerIsTheDone(fold: Fold, t: Trace, env: Script, req: Request, providerID: string, result: DispatchResult, j: nat)
    requires Follows(fold, t, env, req, providerID) && Concludes(fold, t, env, req, providerID, result)
    requires |t.ids| > 0 && Read(env(|t.ids| - 1), j) && env(|t.ids| - 1).messages[j].DoneMessage?
    ensures result.verdict == Some(Served) && result.done.Some?
    ensures match env(|t.ids| - 1).messages[j].done
            case Some(done) => result.done.value == done
            case None => result.done.value.finishReason == "stop" && result.done.value.promptTokens == result.done.value.outputTokens == 0
  {
    var a := env(|t.ids| - 1);
    VerdictFromMessages(a);
    var n := ReadsUpTo(a.messages);
    assert |Body(a.messages)| == n && j == n;
  }

  function B(b: bool): int {
    if b then 1 else 0
  }

  /** What a round leaves in its node's record, and in no other. */
  lemma OutcomeIsRecorded(r: RegistryState, a: Attempt, id: string)
    requires id in r.view
    ensures id in Apply(r, Recording(a, id)).view
    ensures var (n, n') := (r.view[id], Apply(r, Recording(a, id)).view[id]);
            && n'.completed == n.completed + B(Replied(a))
            && n'.postToken == n.postToken + B(!Replied(a) && Spoke(a))
            && n'.preToken == n.preToken + B(!Replied(a) && !Spoke(a))
            && n'.failed == n.failed + B(!Replied(a))
            && n'.active == n.active && n'.profile == n.profile
            && n'.errorStreak == (if Replied(a) then 0
                                  else if !Spoke(a) && !ContextEnded(a) && !Forbidden(a) then n.errorStreak + 1 else n.errorStreak)
    ensures forall other :: other != id ==>
              && (other in Apply(r, Recording(a, id)).view <==> other in r.view)
              && (other in r.view ==> Apply(r, Recording(a, id)).view[other] == r.view[other])
  {
    VerdictFromMessages(a);
  }
}
