// Voting sessions for new blocks, as functions on the signer's state: opening, collecting, submitting,
// timing out.  A handler runs as one step.
module BlsSession {
  import opened Common
  import opened Sets
  import opened BlsVote

  // A submission to the layer-2 chain; session numbers the sessions in the order they were opened,
  // votes holds the ballots it was tallied from.
  datatype Submission = Submission(session: nat, requestId: string, voters: seq<string>, votes: VoteMap, msg: NewBlockHashes)

  // sessions and started number the sessions; submissions and outbox record what was sent.
  datatype State = State(
    sigMap: map<string, VoteMap>, deadlines: map<string, int>,
    sessions: map<string, nat>, started: nat, submissions: seq<Submission>, outbox: seq<Ballot>)

  // What a handler finds around it.  unprocessed lists the hashes of the known blocks that are not processed;
  // published and accepted say how sending ends.
  datatype Env = Env(
    syncing: bool, latestBtcHeight: nat, ev: EpochVoter, unprocessed: seq<Bytes>, now: int, timeout: int,
    published: bool, accepted: bool)

  // The signer's own address and keys.
  datatype Keys = Keys(address: string, sign: (nat, seq<Bytes>, EpochVoter) -> Bytes, aggregate: Aggregate)

  datatype BlsError =
    | CannotSign | WrongHeight | SessionExists | NoSession | NotPublished | NotAccepted
    | OtherEpoch | TooManyHashes | NoHashes | BadHash | UnknownHashes

  // ---------- Steps ----------

  function Lower(c: char): char {
    if 'A' <= c <= 'Z' then c - 'A' + 'a' else c
  }

  // Equality up to the case of ASCII letters.
  predicate EqualFold(a: string, b: string) {
    |a| == |b| && forall i :: 0 <= i < |a| ==> Lower(a[i]) == Lower(b[i])
  }

  predicate IsProposer(keys: Keys, env: Env) {
    EqualFold(keys.address, env.ev.proposer)
  }

  function RemovedAll(s: State, ids: set<string>): State {
    s.(sigMap := s.sigMap - ids, deadlines := s.deadlines - ids, sessions := s.sessions - ids)
  }

  function Removed(s: State, id: string): State {
    RemovedAll(s, {id})
  }

  lemma RemovedNext(s: State, ids: seq<string>, i: nat)
    requires i < |ids|
    ensures Removed(RemovedAll(s, Elements(ids[..i])), ids[i]) == RemovedAll(s, Elements(ids[..i + 1]))
  {
    assert Elements(ids[..i + 1]) == Elements(ids[..i]) + {ids[i]};
    var a, b := Removed(RemovedAll(s, Elements(ids[..i])), ids[i]), RemovedAll(s, Elements(ids[..i + 1]));
    assert a.sigMap == b.sigMap && a.deadlines == b.deadlines && a.sessions == b.sessions;
  }

  // Tallies a session; a message is submitted and its session removed, whatever becomes of it.
  function Finish(keys: Keys, s: State, id: string, env: Env, order: seq<string>): (State, Option<BlsError>)
    requires id in s.sigMap && id in s.sessions
  {
    match Tally(s.sigMap[id], env.ev, keys.aggregate, order)
    case Err(_) => (s, None)
    case Ok(msg) =>
      (Removed(s, id).(submissions := s.submissions + [Submission(s.sessions[id], id, env.ev.voters, s.sigMap[id], msg)]),
       if env.accepted then None else Some(NotAccepted))
  }

  function OwnBallot(keys: Keys, e: Ballot, env: Env, isProposer: bool): Ballot {
    Ballot(e.requestId, e.sequence, e.epoch, keys.address, isProposer,
           keys.sign(e.startBlockNumber, e.blockHash, env.ev), e.startBlockNumber, e.blockHash)
  }

  function Opened(keys: Keys, s: State, e: Ballot, env: Env): State {
    var own := OwnBallot(keys, e, env, true);
    s.(outbox := s.outbox + [own],
       sigMap := s.sigMap[e.requestId := map[keys.address := own]],
       deadlines := s.deadlines[e.requestId := env.now + env.timeout],
       sessions := s.sessions[e.requestId := s.started], started := s.started + 1)
  }

  function StartError(keys: Keys, s: State, e: Ballot, env: Env): Option<BlsError> {
    if env.syncing || !IsProposer(keys, env) then Some(CannotSign)
    else if e.startBlockNumber != env.latestBtcHeight + 1 then Some(WrongHeight)
    else if e.requestId in s.sigMap then Some(SessionExists)
    else if !env.published then Some(NotPublished)
    else None
  }

  // A new session holds the proposer's ballot alone.
  function Start(keys: Keys, s: State, e: Ballot, env: Env): (State, Option<BlsError>) {
    var err := StartError(keys, s, e, env);
    if err.Some? then (s, err) else Finish(keys, Opened(keys, s, e, env), e.requestId, env, [keys.address])
  }

  // The known blocks that have one of the hashes, and how many they are.
  function FoundAt(unprocessed: seq<Bytes>, hashes: seq<Bytes>): set<nat> {
    set i | 0 <= i < |unprocessed| && unprocessed[i] in hashes
  }

  function FoundCount(unprocessed: seq<Bytes>, hashes: seq<Bytes>): nat {
    |FoundAt(unprocessed, hashes)|
  }

  function ReplyError(e: Ballot, env: Env): Option<BlsError> {
    if e.startBlockNumber != env.latestBtcHeight + 1 then Some(WrongHeight)
    else if e.epoch != env.ev.epoch then Some(OtherEpoch)
    else if |e.blockHash| > 16 then Some(TooManyHashes)
    else if |e.blockHash| == 0 then Some(NoHashes)
    else if exists i :: 0 <= i < |e.blockHash| && |e.blockHash[i]| != 32 then Some(BadHash)
    else if FoundCount(env.unprocessed, e.blockHash) != |e.blockHash| then Some(UnknownHashes)
    else if !env.published then Some(NotPublished)
    else None
  }

  // Whether the proposer adds the ballot to a session.
  predicate Collects(keys: Keys, s: State, e: Ballot, env: Env) {
    && !env.syncing && IsProposer(keys, env) && !e.isProposer
    && e.requestId in s.sigMap && e.voterAddress !in s.sigMap[e.requestId]
  }

  function Collected(s: State, e: Ballot): State
    requires e.requestId in s.sigMap
  {
    s.(sigMap := s.sigMap[e.requestId := s.sigMap[e.requestId][e.voterAddress := e]])
  }

  // The proposer collects the ballots of voters; a voter answers the ballot of the proposer.
  function Receive(keys: Keys, s: State, e: Ballot, env: Env, order: seq<string>): (State, Option<BlsError>)
    requires s.sigMap.Keys == s.sessions.Keys
  {
    if env.syncing then (s, Some(CannotSign))
    else if IsProposer(keys, env) then
      if !e.isProposer && e.requestId !in s.sigMap then (s, Some(NoSession))
      else if !Collects(keys, s, e, env) then (s, None)
      else Finish(keys, Collected(s, e), e.requestId, env, order)
    else if !e.isProposer then (s, None)
    else
      var err := ReplyError(e, env);
      if err.Some? then (s, err) else (s.(outbox := s.outbox + [OwnBallot(keys, e, env, false)]), None)
  }

  function Expired(s: State, now: int): set<string> {
    set id | id in s.deadlines && now > s.deadlines[id]
  }

  function CheckTimeouts(s: State, now: int): State {
    RemovedAll(s, Expired(s, now))
  }

  // ---------- Runs ----------

  datatype Event =
    | SigStart(e: Ballot, env: Env)
    | SigReceive(e: Ballot, env: Env, order: seq<string>)
    | Ticked(now: int)

  // The map of a session is visited in some order of its ballots.
  ghost predicate Possible(keys: Keys, s: State, ev: Event) {
    ev.SigReceive? && Collects(keys, s, ev.e, ev.env) ==> Enumerates(ev.order, Collected(s, ev.e).sigMap[ev.e.requestId].Keys)
  }

  function Apply(keys: Keys, s: State, ev: Event): State
    requires s.sigMap.Keys == s.sessions.Keys
  {
    match ev
    case SigStart(e, env) => Start(keys, s, e, env).0
    case SigReceive(e, env, order) => Receive(keys, s, e, env, order).0
    case Ticked(now) => CheckTimeouts(s, now)
  }

  const EMPTY := State(map[], map[], map[], 0, [], [])

  // ---------- Invariant ----------

  // The proposer's own ballot is the one proposer ballot of a session, and each ballot is that of its sender, for the
  // session's request.
  ghost predicate ProperSession(keys: Keys, id: string, votes: VoteMap) {
    && keys.address in votes
    && forall a :: a in votes ==>
         (votes[a].isProposer <==> a == keys.address) && votes[a].voterAddress == a && votes[a].requestId == id
  }

  ghost predicate SessionsOk(keys: Keys, s: State) {
    && s.sigMap.Keys == s.sessions.Keys == s.deadlines.Keys
    && (forall id :: id in s.sigMap ==> ProperSession(keys, id, s.sigMap[id]) && s.sessions[id] < s.started)
    && (forall a, b :: a in s.sessions && b in s.sessions && s.sessions[a] == s.sessions[b] ==> a == b)
  }

  ghost predicate SubmissionOk(keys: Keys, sub: Submission) {
    && Quorum(sub.msg, sub.voters) && sub.msg.proposer == keys.address
    && ProperSession(keys, sub.requestId, sub.votes) && Signed(sub.msg, sub.votes, sub.voters, keys.aggregate)
  }

  // No session is submitted twice, none that was submitted is still open, and every submission is a quorum whose
  // signature aggregates exactly the signatures of its signers' ballots.
  ghost predicate SubmissionsOk(keys: Keys, s: State) {
    && (forall i, j :: 0 <= i < j < |s.submissions| ==> s.submissions[i].session != s.submissions[j].session)
    && (forall i :: 0 <= i < |s.submissions| ==> s.submissions[i].session < s.started && SubmissionOk(keys, s.submissions[i]))
    && (forall i, id :: 0 <= i < |s.submissions| && id in s.sessions ==> s.submissions[i].session != s.sessions[id])
  }

  ghost predicate Valid(keys: Keys, s: State) {
    SessionsOk(keys, s) && SubmissionsOk(keys, s)
  }

  lemma RemovedIsValid(keys: Keys, s: State, ids: set<string>)
    requires Valid(keys, s)
    ensures Valid(keys, RemovedAll(s, ids))
  {
  }

  lemma FinishIsValid(keys: Keys, s: State, id: string, env: Env, order: seq<string>)
    requires Valid(keys, s) && id in s.sigMap && Enumerates(order, s.sigMap[id].Keys)
    ensures Valid(keys, Finish(keys, s, id, env, order).0)
  {
    var r := Tally(s.sigMap[id], env.ev, keys.aggregate, order);
    if r.Ok? {
      TallyIsQuorum(s.sigMap[id], env.ev, keys.aggregate, order);
      TallyIsSigned(s.sigMap[id], env.ev, keys.aggregate, order);
      assert ProperSession(keys, id, s.sigMap[id]);
      RemovedIsValid(keys, s, {id});
      SubmittedIsValid(keys, s, id, Submission(s.sessions[id], id, env.ev.voters, s.sigMap[id], r.value));
    }
  }

  lemma SubmittedIsValid(keys: Keys, s: State, id: string, sub: Submission)
    requires Valid(keys, s) && Valid(keys, Removed(s, id)) && id in s.sessions
    requires SubmissionOk(keys, sub) && sub.session == s.sessions[id]
    ensures Valid(keys, Removed(s, id).(submissions := s.submissions + [sub]))
  {
    var r := Removed(s, id);
    NotSubmitted(keys, s, id);
    AddedSubmission(keys, r, sub);
    assert SessionsOk(keys, r.(submissions := r.submissions + [sub]));
  }

  // An open session is on no submission, and its number is gone with it.
  lemma NotSubmitted(keys: Keys, s: State, id: string)
    requires SessionsOk(keys, s) && SubmissionsOk(keys, s) && id in s.sessions
    ensures s.sessions[id] < s.started
    ensures forall i :: 0 <= i < |s.submissions| ==> s.submissions[i].session != s.sessions[id]
    ensures forall x :: x in Removed(s, id).sessions ==> Removed(s, id).sessions[x] != s.sessions[id]
  {
  }

  lemma AddedSubmission(keys: Keys, s: State, sub: Submission)
    requires SubmissionsOk(keys, s) && SubmissionOk(keys, sub) && sub.session < s.started
    requires forall i :: 0 <= i < |s.submissions| ==> s.submissions[i].session != sub.session
    requires forall x :: x in s.sessions ==> s.sessions[x] != sub.session
    ensures SubmissionsOk(keys, s.(submissions := s.submissions + [sub]))
  {
  }

  lemma OpenedSessions(keys: Keys, s: State, e: Ballot, env: Env)
    requires SessionsOk(keys, s) && e.requestId !in s.sigMap
    ensures SessionsOk(keys, Opened(keys, s, e, env))
  {
    assert ProperSession(keys, e.requestId, map[keys.address := OwnBallot(keys, e, env, true)]);
  }

  lemma OpenedIsValid(keys: Keys, s: State, e: Ballot, env: Env)
    requires Valid(keys, s) && e.requestId !in s.sigMap
    ensures Valid(keys, Opened(keys, s, e, env))
  {
    OpenedSessions(keys, s, e, env);
    OpenedSubmissions(keys, s, Opened(keys, s, e, env), e.requestId);
  }

  lemma OpenedSubmissions(keys: Keys, s: State, s': State, id: string)
    requires SubmissionsOk(keys, s) && s'.submissions == s.submissions && s'.started == s.started + 1
    requires s'.sessions == s.sessions[id := s.started]
    ensures SubmissionsOk(keys, s')
  {
  }

  lemma CollectedIsValid(keys: Keys, s: State, e: Ballot, env: Env)
    requires Valid(keys, s) && Collects(keys, s, e, env)
    ensures Valid(keys, Collected(s, e))
  {
    CollectedSession(keys, s.sigMap[e.requestId], e);
    SameSubmissions(keys, s, Collected(s, e));
  }

  lemma CollectedSession(keys: Keys, votes: VoteMap, e: Ballot)
    requires ProperSession(keys, e.requestId, votes) && !e.isProposer && e.voterAddress !in votes
    ensures ProperSession(keys, e.requestId, votes[e.voterAddress := e])
  {
  }

  lemma SameSubmissions(keys: Keys, s: State, s': State)
    requires SubmissionsOk(keys, s)
    requires s'.submissions == s.submissions && s'.started == s.started && s'.sessions == s.sessions
    ensures SubmissionsOk(keys, s')
  {
  }

  lemma OpenedOrder(keys: Keys, s: State, e: Ballot, env: Env)
    ensures Enumerates([keys.address], Opened(keys, s, e, env).sigMap[e.requestId].Keys)
  {
    assert Elements([keys.address]) == {keys.address};
  }

  lemma StartIsValid(keys: Keys, s: State, e: Ballot, env: Env)
    requires Valid(keys, s)
    ensures Valid(keys, Start(keys, s, e, env).0)
  {
    if StartError(keys, s, e, env).None? {
      OpenedIsValid(keys, s, e, env);
      OpenedOrder(keys, s, e, env);
      FinishIsValid(keys, Opened(keys, s, e, env), e.requestId, env, [keys.address]);
    }
  }

  lemma ReceiveIsValid(keys: Keys, s: State, e: Ballot, env: Env, order: seq<string>)
    requires Valid(keys, s) && Possible(keys, s, SigReceive(e, env, order))
    ensures Valid(keys, Receive(keys, s, e, env, order).0)
  {
    if Collects(keys, s, e, env) {
      CollectedIsValid(keys, s, e, env);
      FinishIsValid(keys, Collected(s, e), e.requestId, env, order);
    }
  }

  lemma StepIsValid(keys: Keys, s: State, ev: Event)
    requires Valid(keys, s) && Possible(keys, s, ev)
    ensures Valid(keys, Apply(keys, s, ev))
  {
    match ev {
      case SigStart(e, env) => StartIsValid(keys, s, e, env);
      case SigReceive(e, env, order) => ReceiveIsValid(keys, s, e, env, order);
      case Ticked(now) => RemovedIsValid(keys, s, Expired(s, now));
    }
  }

  // The states of a run from the empty signer.
  ghost predicate IsRun(keys: Keys, states: seq<State>, es: seq<Event>) {
    && |states| == |es| + 1 && states[0] == EMPTY
    && forall i :: 0 <= i < |es| ==>
         states[i].sigMap.Keys == states[i].sessions.Keys && Possible(keys, states[i], es[i])
         && states[i + 1] == Apply(keys, states[i], es[i])
  }

  // In every reachable state each open session has exactly one proposer ballot, every session was submitted
  // at most once and is gone afterwards, and every submission is a quorum of its epoch's voters.
  lemma {:induction false} ReachableIsValid(keys: Keys, states: seq<State>, es: seq<Event>)
    requires IsRun(keys, states, es)
    ensures Valid(keys, states[|es|])
    decreases |es|
  {
    if es != [] {
      var n := |es| - 1;
      ReachableIsValid(keys, states[..n + 1], es[..n]);
      StepIsValid(keys, states[n], es[n]);
    }
  }

  // So whatever was ever submitted carries an aggregate of ballot signatures: first the proposer's, then one of each
  // voter on the bitmap, from the ballot that this voter sent for the request.
  lemma SubmissionsAreSigned(keys: Keys, states: seq<State>, es: seq<Event>, i: nat)
    returns (names: seq<string>, sigs: seq<Bytes>)
    requires IsRun(keys, states, es) && i < |states[|es|].submissions|
    ensures var sub := states[|es|].submissions[i];
            && |sigs| == |names| && keys.aggregate(sigs) == Some(sub.msg.vote.signature)
            && names != [] && names[0] == sub.msg.proposer == keys.address
            && (forall j, k :: 0 <= j < k < |names| ==> names[j] != names[k])
            && (forall a :: a in names <==>
                  a == keys.address || exists b :: b in sub.msg.vote.voters && b < |sub.voters| && sub.voters[b] == a)
            && forall j :: 0 <= j < |names| ==>
                 && names[j] in sub.votes && sigs[j] == sub.votes[names[j]].sigData
                 && sub.votes[names[j]].voterAddress == names[j] && sub.votes[names[j]].requestId == sub.requestId
  {
    ReachableIsValid(keys, states, es);
    var sub := states[|es|].submissions[i];
    assert SubmissionOk(keys, sub);
    names :| SignedInTurn(sub.msg, sub.votes, sub.voters, keys.aggregate, names);
    sigs := SignaturesOf(sub.votes, names);
    forall a ensures a in names <==> a in Signers(sub.msg, sub.voters) {
      assert a in names <==> a in Elements(names);
    }
  }

  // Submissions stay on record, and a session that is gone does not come back under its number.
  ghost predicate KeepsRecord(s: State, s': State) {
    && s.submissions <= s'.submissions
    && forall id :: id in s'.sessions ==>
         (id in s.sessions && s'.sessions[id] == s.sessions[id]) || s'.sessions[id] >= s.started
  }

  lemma FinishKeepsRecord(keys: Keys, s: State, id: string, env: Env, order: seq<string>)
    requires Valid(keys, s) && id in s.sigMap
    ensures KeepsRecord(s, Finish(keys, s, id, env, order).0)
  {
  }

  lemma StepKeepsRecord(keys: Keys, s: State, ev: Event)
    requires Valid(keys, s)
    ensures KeepsRecord(s, Apply(keys, s, ev))
  {
    match ev {
      case SigStart(e, env) => StartKeepsRecord(keys, s, e, env);
      case SigReceive(e, env, order) => ReceiveKeepsRecord(keys, s, e, env, order);
      case Ticked(now) =>
    }
  }

  lemma StartKeepsRecord(keys: Keys, s: State, e: Ballot, env: Env)
    requires Valid(keys, s)
    ensures KeepsRecord(s, Start(keys, s, e, env).0)
  {
    if StartError(keys, s, e, env).None? {
      OpenedIsValid(keys, s, e, env);
      FinishKeepsRecord(keys, Opened(keys, s, e, env), e.requestId, env, [keys.address]);
    }
  }

  lemma ReceiveKeepsRecord(keys: Keys, s: State, e: Ballot, env: Env, order: seq<string>)
    requires Valid(keys, s)
    ensures KeepsRecord(s, Receive(keys, s, e, env, order).0)
  {
    if Collects(keys, s, e, env) {
      CollectedIsValid(keys, s, e, env);
      FinishKeepsRecord(keys, Collected(s, e), e.requestId, env, order);
    }
  }

  // ---------- Answering as a voter ----------

  lemma FoundCountSnoc(front: seq<Bytes>, last: Bytes, hashes: seq<Bytes>)
    ensures FoundCount(front + [last], hashes) == FoundCount(front, hashes) + (if last in hashes then 1 else 0)
  {
    assert FoundAt(front + [last], hashes) == FoundAt(front, hashes) + (if last in hashes then {|front|} else {});
  }

  lemma {:induction false} FoundCountIs(unprocessed: seq<Bytes>, hashes: seq<Bytes>)
    requires Distinct(unprocessed)
    ensures FoundCount(unprocessed, hashes) == |Elements(unprocessed) * Elements(hashes)|
    decreases |unprocessed|
  {
    if unprocessed == [] {
      assert FoundAt(unprocessed, hashes) == {};
      assert Elements(unprocessed) * Elements(hashes) == {};
    } else {
      var front, last := unprocessed[..|unprocessed| - 1], unprocessed[|unprocessed| - 1];
      FoundCountIs(front, hashes);
      FoundCountSnoc(front, last, hashes);
      assert unprocessed == front + [last];
      CommonSnoc(front, last, hashes);
    }
  }

  lemma CommonSnoc(front: seq<Bytes>, last: Bytes, hashes: seq<Bytes>)
    requires last !in front
    ensures |Elements(front + [last]) * Elements(hashes)|
            == |Elements(front) * Elements(hashes)| + (if last in hashes then 1 else 0)
  {
    assert Elements(front + [last]) * Elements(hashes)
           == Elements(front) * Elements(hashes) + (if last in hashes then {last} else {});
  }

  // Counting the known blocks finds exactly the lists of distinct known hashes.
  lemma FoundCountIff(unprocessed: seq<Bytes>, hashes: seq<Bytes>)
    requires Distinct(unprocessed)
    ensures FoundCount(unprocessed, hashes) == |hashes|
            <==> Distinct(hashes) && forall i :: 0 <= i < |hashes| ==> hashes[i] in unprocessed
  {
    FoundCountIs(unprocessed, hashes);
    ElementsSize(hashes);
    SubsetSize(Elements(unprocessed) * Elements(hashes), Elements(hashes));
    if forall i :: 0 <= i < |hashes| ==> hashes[i] in unprocessed {
      assert Elements(unprocessed) * Elements(hashes) == Elements(hashes);
    }
    if Elements(unprocessed) * Elements(hashes) == Elements(hashes) {
      forall i | 0 <= i < |hashes| ensures hashes[i] in unprocessed {
        assert hashes[i] in Elements(unprocessed) * Elements(hashes);
      }
    }
  }

  // A voter signs exactly the proposals for the next height and its own epoch that list between 1 and 16
  // different hashes of known blocks that are not processed.
  lemma VoterSignsIff(keys: Keys, s: State, e: Ballot, env: Env, order: seq<string>)
    requires s.sigMap.Keys == s.sessions.Keys && !env.syncing && !IsProposer(keys, env) && env.published
    requires Distinct(env.unprocessed) && forall i :: 0 <= i < |env.unprocessed| ==> |env.unprocessed[i]| == 32
    ensures Receive(keys, s, e, env, order).0 != s
            <==> && e.isProposer && e.startBlockNumber == env.latestBtcHeight + 1 && e.epoch == env.ev.epoch
                 && 1 <= |e.blockHash| <= 16 && Distinct(e.blockHash)
                 && forall i :: 0 <= i < |e.blockHash| ==> e.blockHash[i] in env.unprocessed
  {
    FoundCountIff(env.unprocessed, e.blockHash);
    assert |(s.outbox + [OwnBallot(keys, e, env, false)])| != |s.outbox|;
  }

  // ---------- What single steps do ----------

  // The proposer opens a session exactly for the next height, under a new request, when it can sign and publish.  Its
  // ballot repeats the request under its own address and signature, and stays alone until the session ends.
  lemma OpensIff(keys: Keys, s: State, e: Ballot, env: Env)
    requires s.sigMap.Keys == s.sessions.Keys
    ensures var s' := Start(keys, s, e, env).0;
            if && !env.syncing && EqualFold(keys.address, env.ev.proposer) && e.startBlockNumber == env.latestBtcHeight + 1
               && e.requestId !in s.sigMap && env.published
            then var own := Ballot(e.requestId, e.sequence, e.epoch, keys.address, true,
                                   keys.sign(e.startBlockNumber, e.blockHash, env.ev), e.startBlockNumber, e.blockHash);
                 && s'.outbox == s.outbox + [own] && s'.started == s.started + 1
                 && (forall id :: id in s.sigMap ==> id in s'.sigMap && s'.sigMap[id] == s.sigMap[id])
                 && (if e.requestId in s'.sigMap
                     then && s'.sigMap[e.requestId] == map[keys.address := own] && s'.submissions == s.submissions
                          && s'.deadlines == s.deadlines[e.requestId := env.now + env.timeout]
                     else |s'.submissions| == |s.submissions| + 1)
            else s' == s && Start(keys, s, e, env).1.Some?
  {
    if StartError(keys, s, e, env).None? {
      var o := Opened(keys, s, e, env);
      var r := Tally(o.sigMap[e.requestId], env.ev, keys.aggregate, [keys.address]);
      assert o.outbox == s.outbox + [OwnBallot(keys, e, env, true)];
    }
  }

  // The proposer adds the first ballot of each other voter to an open session; nothing else changes a session that
  // stays open.
  lemma CollectsFirstBallot(keys: Keys, s: State, e: Ballot, env: Env, order: seq<string>)
    requires s.sigMap.Keys == s.sessions.Keys && !env.syncing && EqualFold(keys.address, env.ev.proposer)
    ensures var s' := Receive(keys, s, e, env, order).0;
            if !e.isProposer && e.requestId in s.sigMap && e.voterAddress !in s.sigMap[e.requestId]
            then && s'.outbox == s.outbox && s'.started == s.started
                 && (forall id :: id in s.sigMap && id != e.requestId ==> id in s'.sigMap && s'.sigMap[id] == s.sigMap[id])
                 && (if e.requestId in s'.sigMap
                     then s'.sigMap[e.requestId] == s.sigMap[e.requestId][e.voterAddress := e] && s'.submissions == s.submissions
                     else |s'.submissions| == |s.submissions| + 1)
            else s' == s
  {
    if Collects(keys, s, e, env) {
      var c := Collected(s, e);
      var r := Tally(c.sigMap[e.requestId], env.ev, keys.aggregate, order);
      assert forall id :: id in s.sigMap && id != e.requestId ==> c.sigMap[id] == s.sigMap[id];
    }
  }

  // A voter that answers publishes one ballot: the proposal's, under its own address and signature.
  lemma AnswersOnce(keys: Keys, s: State, e: Ballot, env: Env, order: seq<string>)
    requires s.sigMap.Keys == s.sessions.Keys && !EqualFold(keys.address, env.ev.proposer)
    ensures var s' := Receive(keys, s, e, env, order).0;
            s' == s || s' == s.(outbox := s.outbox + [
              Ballot(e.requestId, e.sequence, e.epoch, keys.address, false,
                     keys.sign(e.startBlockNumber, e.blockHash, env.ev), e.startBlockNumber, e.blockHash)])
  {
  }

  // Addresses are compared up to the case of their letters: 'A' to 'Z' are 65 to 90, 'a' to 'z' 32 more.
  lemma FoldIff(a: string, b: string)
    ensures EqualFold(a, b)
            <==> |a| == |b| && forall i :: 0 <= i < |a| ==>
                   || a[i] == b[i]
                   || (65 <= a[i] as int <= 90 && b[i] as int == a[i] as int + 32)
                   || (65 <= b[i] as int <= 90 && a[i] as int == b[i] as int + 32)
  {
  }

  // The timeout check ends exactly the sessions whose deadline is past.
  lemma TimeoutIff(s: State, now: int, id: string)
    requires s.sigMap.Keys == s.sessions.Keys == s.deadlines.Keys && id in s.sigMap
    ensures var s' := CheckTimeouts(s, now);
            && (id in s'.sigMap <==> now <= s.deadlines[id])
            && (id in s'.sigMap ==> s'.sigMap[id] == s.sigMap[id] && s'.deadlines[id] == s.deadlines[id])
            && s'.submissions == s.submissions && s'.outbox == s.outbox
  {
  }

  // The listed voters other than the proposer that a session has heard from.
  function Heard(keys: Keys, votes: VoteMap, voters: seq<string>): set<string> {
    set a | a in votes && a != keys.address && a in voters
  }

  lemma HeardBits(keys: Keys, id: string, votes: VoteMap, voters: seq<string>, order: seq<string>)
    requires ProperSession(keys, id, votes) && Enumerates(order, votes.Keys)
    ensures Bits(votes, voters, order) == set a | a in votes && Counts(votes, voters, a) :: IndexOf(voters, a)
    ensures |Bits(votes, voters, order)| == |Heard(keys, votes, voters)|
    ensures (set i | i in Bits(votes, voters, order) && i < |voters| :: voters[i]) == Heard(keys, votes, voters)
  {
    var bits, heard := Bits(votes, voters, order), Heard(keys, votes, voters);
    BitsOfAll(votes, voters, order);
    BitsAreVoters(votes, voters, order);
    forall a | a in heard ensures a in Named(voters, bits) {
      assert a in order && Counts(votes, voters, a);
      assert IndexOf(voters, a) in bits;
    }
    assert Named(voters, bits) == heard;
    NamesOfBits(voters, bits);
  }

  // While aggregation works, a session is submitted exactly when its proposal is for the current epoch and sequence and
  // the proposer and the listed voters heard from are two thirds of the voters.  It is then gone, and the message
  // proposes what the proposer's own ballot does, with exactly those voters on its bitmap.
  lemma SubmitsIff(keys: Keys, s: State, id: string, env: Env, order: seq<string>)
    requires SessionsOk(keys, s) && id in s.sigMap && Enumerates(order, s.sigMap[id].Keys) && keys.address != ""
    requires forall sigs :: keys.aggregate(sigs).Some?
    ensures var s', votes := Finish(keys, s, id, env, order).0, s.sigMap[id];
            var own := votes[keys.address];
            if && own.epoch == env.ev.epoch && own.sequence == env.ev.sequence
               && 3 * (1 + |Heard(keys, votes, env.ev.voters)|) >= 2 * |env.ev.voters|
            then && id !in s'.sigMap && |s'.submissions| == |s.submissions| + 1
                 && var sub := s'.submissions[|s.submissions|];
                    && sub.requestId == id && sub.session == s.sessions[id] && sub.votes == votes
                    && sub.msg.proposer == keys.address
                    && sub.msg.startBlockNumber == own.startBlockNumber && sub.msg.blockHash == own.blockHash
                    && (set i | i in sub.msg.vote.voters && i < |env.ev.voters| :: env.ev.voters[i])
                       == Heard(keys, votes, env.ev.voters)
            else s' == s
  {
    var votes := s.sigMap[id];
    assert ProperSession(keys, id, votes);
    HeardBits(keys, id, votes, env.ev.voters, order);
    TallyIff(votes, env.ev, keys.aggregate, order, keys.address);
    NoBadSignature(votes, env.ev, keys.aggregate, order);
  }

  lemma NoBadSignature(votes: VoteMap, ev: EpochVoter, aggregate: Aggregate, order: seq<string>)
    requires forall sigs :: aggregate(sigs).Some?
    ensures Tally(votes, ev, aggregate, order) != Err(BadSignature)
  {
  }
}
