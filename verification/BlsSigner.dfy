// The signer as an object: its handlers update the vote maps message by message.
module BlsSigner {
  import opened Common
  import opened Sets
  import opened BlsVote
  import opened BlsSession

  class Signer {
    const keys: Keys
    var sigMap: map<string, VoteMap>
    var sigTimeoutMap: map<string, int>
    ghost var sessions: map<string, nat>
    ghost var started: nat
    ghost var submissions: seq<Submission>
    ghost var outbox: seq<Ballot>

    ghost function View(): State
      reads this
    {
      State(sigMap, sigTimeoutMap, sessions, started, submissions, outbox)
    }

    ghost predicate Ok()
      reads this
    {
      sigMap.Keys == sessions.Keys
    }

    constructor (keys: Keys)
      ensures View() == EMPTY && Ok() && this.keys == keys
    {
      this.keys, sigMap, sigTimeoutMap := keys, map[], map[];
      sessions, started, submissions, outbox := map[], 0, [], [];
    }

    method RemoveSigMap(id: string)
      modifies this
      ensures View() == Removed(old(View()), id)
    {
      sigMap := sigMap - {id};
      sigTimeoutMap := sigTimeoutMap - {id};
      sessions := sessions - {id};
    }

    method ExpiredRequests(now: int) returns (expired: seq<string>)
      ensures Elements(expired) == Expired(View(), now)
    {
      expired := [];
      var rest := sigTimeoutMap.Keys;
      while rest != {}
        invariant rest <= sigTimeoutMap.Keys
        invariant forall id :: id in expired <==> id in sigTimeoutMap && id !in rest && now > sigTimeoutMap[id]
        decreases |rest|
      {
        var id: string :| id in rest;
        rest := rest - {id};
        if now > sigTimeoutMap[id] {
          expired := expired + [id];
        }
      }
    }

    method CheckTimeouts(now: int)
      requires Ok()
      modifies this
      ensures View() == BlsSession.CheckTimeouts(old(View()), now) && Ok()
    {
      var expired := ExpiredRequests(now);
      for i := 0 to |expired|
        invariant View() == RemovedAll(old(View()), Elements(expired[..i]))
      {
        RemovedNext(old(View()), expired, i);
        RemoveSigMap(expired[i]);
      }
      assert expired[..|expired|] == expired;
    }

    // Tallies the session and submits the outcome, if there is one.
    method Submit(id: string, env: Env) returns (err: Option<BlsError>, ghost order: seq<string>)
      requires Ok() && id in sigMap
      modifies this
      ensures Enumerates(order, old(sigMap)[id].Keys) && Ok()
      ensures (View(), err) == Finish(keys, old(View()), id, env, order)
    {
      var r := AggregateBallots(sigMap[id], env.ev, keys.aggregate);
      order :| Enumerates(order, sigMap[id].Keys) && r == Tally(sigMap[id], env.ev, keys.aggregate, order);
      if r.Err? {
        return None, order;
      }
      submissions := submissions + [Submission(sessions[id], id, env.ev.voters, sigMap[id], r.value)];
      RemoveSigMap(id);
      err := if env.accepted then None else Some(NotAccepted);
    }

    method HandleSigStartNewBlock(e: Ballot, env: Env) returns (err: Option<BlsError>)
      requires Ok()
      modifies this
      ensures (View(), err) == Start(keys, old(View()), e, env) && Ok()
    {
      if env.syncing || !EqualFold(keys.address, env.ev.proposer) {
        return Some(CannotSign);
      }
      if env.latestBtcHeight + 1 != e.startBlockNumber {
        return Some(WrongHeight);
      }
      if e.requestId in sigMap {
        return Some(SessionExists);
      }
      var signature := keys.sign(e.startBlockNumber, e.blockHash, env.ev);
      var newSign := Ballot(e.requestId, e.sequence, e.epoch, keys.address, true, signature, e.startBlockNumber, e.blockHash);
      if !env.published {
        return Some(NotPublished);
      }
      outbox := outbox + [newSign];
      sigMap := sigMap[e.requestId := map[keys.address := newSign]];
      sigTimeoutMap := sigTimeoutMap[e.requestId := env.now + env.timeout];
      sessions, started := sessions[e.requestId := started], started + 1;
      // With a single voter the block can be submitted at once.
      ghost var order;
      err, order := Submit(e.requestId, env);
      OnlyOrder(order, keys.address);
    }

    method HandleSigReceiveNewBlock(e: Ballot, env: Env) returns (err: Option<BlsError>)
      requires Ok()
      modifies this
      ensures Ok()
      ensures exists order ::
                Possible(keys, old(View()), SigReceive(e, env, order))
                && (View(), err) == Receive(keys, old(View()), e, env, order)
    {
      ghost var order: seq<string> := [];
      if env.syncing {
        err := Some(CannotSign);
      } else if EqualFold(keys.address, env.ev.proposer) {
        err, order := CollectVote(e, env);
      } else {
        err := AnswerProposal(e, env);
      }
      assert Possible(keys, old(View()), SigReceive(e, env, order));
      assert (View(), err) == Receive(keys, old(View()), e, env, order);
    }

    method CollectVote(e: Ballot, env: Env) returns (err: Option<BlsError>, ghost order: seq<string>)
      requires Ok() && !env.syncing && IsProposer(keys, env)
      modifies this
      ensures Ok() && Possible(keys, old(View()), SigReceive(e, env, order))
      ensures (View(), err) == Receive(keys, old(View()), e, env, order)
    {
      err, order := None, [];
      if e.isProposer {
        return;
      }
      if e.requestId !in sigMap {
        return Some(NoSession), [];
      }
      if e.voterAddress in sigMap[e.requestId] {
        return;
      }
      sigMap := sigMap[e.requestId := sigMap[e.requestId][e.voterAddress := e]];
      err, order := Submit(e.requestId, env);
    }

    method AnswerProposal(e: Ballot, env: Env) returns (err: Option<BlsError>)
      requires Ok() && !env.syncing && !IsProposer(keys, env)
      modifies `outbox
      ensures (View(), err) == Receive(keys, old(View()), e, env, [])
    {
      if !e.isProposer {
        return None;
      }
      if env.latestBtcHeight + 1 != e.startBlockNumber {
        return Some(WrongHeight);
      }
      if e.epoch != env.ev.epoch {
        return Some(OtherEpoch);
      }
      if |e.blockHash| > 16 {
        return Some(TooManyHashes);
      }
      if |e.blockHash| == 0 {
        return Some(NoHashes);
      }
      for i := 0 to |e.blockHash|
        invariant forall j :: 0 <= j < i ==> |e.blockHash[j]| == 32
      {
        if |e.blockHash[i]| != 32 {
          return Some(BadHash);
        }
      }
      var foundCount := FoundCount(env.unprocessed, e.blockHash);
      if foundCount != |e.blockHash| {
        return Some(UnknownHashes);
      }
      var signature := keys.sign(e.startBlockNumber, e.blockHash, env.ev);
      var newSign := Ballot(e.requestId, e.sequence, e.epoch, keys.address, false, signature, e.startBlockNumber, e.blockHash);
      if !env.published {
        return Some(NotPublished);
      }
      outbox := outbox + [newSign];
      err := None;
    }
  }

  lemma OnlyOrder(order: seq<string>, a: string)
    requires Enumerates(order, {a})
    ensures order == [a]
  {
    ElementsSize(order);
    assert order[0] in Elements(order);
  }
}
