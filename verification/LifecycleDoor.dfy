/** What comes in: which requests reach the protocol, and with which keys. */
module LifecycleDoor {
  import opened Results
  import opened Metering
  import opened Lifecycle
  import opened LifecycleLimits

  /** Something to answer: a chat has a message, an embedding a text, and none of its texts is empty. */
  ghost predicate Answerable(work: Work) {
    match work
    case Chat(messages, _) => |messages| > 0
    case Embedding(input) => |input| > 0 && forall i :: 0 <= i < |input| ==> |input[i]| > 0
  }

  /**
   At every reachable state an arrival changes nothing but the list of requests, and that by at most
   the one that came: exactly if it names an account, is answerable, and brings a key only as a chat.
   It keeps its key exactly if the store is on, and owns, owes and holds nothing.
   */
  lemma ArrivalIsAdmitted(cfg: Config, evs: seq<Event>, account: string, key: Option<string>, work: Work)
    ensures var s, s' := Run(cfg, evs), Run(cfg, evs + [Arrive(account, key, work)]);
            && s'.world == s.world && s'.now == s.now && s.reqs <= s'.reqs && |s'.reqs| <= |s.reqs| + 1
            && (|s'.reqs| == |s.reqs| + 1 <==> account != "" && Answerable(work) && (key == None || work.Chat?))
            && (|s'.reqs| == |s.reqs| + 1 ==>
                  var r := s'.reqs[|s.reqs|];
                  && r.stage.Arrived? && r.account == account && r.work == work
                  && r.key == (if cfg.idempotencyOn then key else None)
                  && !r.owner && !r.tookOver && !r.charged && !r.settled && r.granted == None)
  {
    RunAppend(cfg, evs, Arrive(account, key, work));
    if work.Embedding? && "" !in work.input {
      assert forall i :: 0 <= i < |work.input| ==> work.input[i] in work.input;
    }
  }

  ghost predicate Keyless(s: State) {
    s.world.table == map[] && forall i :: 0 <= i < |s.reqs| ==> s.reqs[i].key == None && !s.reqs[i].owner
  }

  lemma ActKeepsKeyless(cfg: Config, now: int, w: World, r: Request, action: Action)
    requires r.key == None && !r.owner
    ensures var (w', r') := Act(cfg, now, w, r, action); w'.table == w.table && r'.key == None && !r'.owner
  {
  }

  /** Without an idempotency store no key is ever claimed: every request is served, and may be charged, on its own. */
  lemma {:induction false} NoStoreNoKeys(cfg: Config, evs: seq<Event>)
    requires !cfg.idempotencyOn
    ensures Keyless(Run(cfg, evs))
  {
    if evs != [] {
      var n := |evs| - 1;
      NoStoreNoKeys(cfg, evs[..n]);
      StepKeepsKeyless(cfg, Run(cfg, evs[..n]), evs[n]);
    }
  }

  lemma StepKeepsKeyless(cfg: Config, s: State, ev: Event)
    requires !cfg.idempotencyOn && Keyless(s)
    ensures Keyless(Step(cfg, s, ev))
  {
    if ev.Do? && ev.index < |s.reqs| {
      ActKeepsKeyless(cfg, s.now, s.world, s.reqs[ev.index], ev.action);
    }
  }
}
