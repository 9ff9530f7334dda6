// Voting on new bitcoin blocks: ballots, their tally, and what a quorum of them is.
module BlsVote {
  import opened Common
  import opened Sets

  type Bytes = seq<byte>

  datatype Ballot = Ballot(
    requestId: string, sequence: nat, epoch: nat, voterAddress: string, isProposer: bool, sigData: Bytes,
    startBlockNumber: nat, blockHash: seq<Bytes>)

  // The ballots of one session, by voter address.
  type VoteMap = map<string, Ballot>

  // voters is the comma-separated list of the epoch, split.
  datatype EpochVoter = EpochVoter(epoch: nat, sequence: nat, proposer: string, voters: seq<string>)

  // voters is the bitmap: the positions in the epoch's list that are set.
  datatype Votes = Votes(sequence: nat, epoch: nat, voters: set<nat>, signature: Bytes)

  datatype NewBlockHashes = NewBlockHashes(proposer: string, vote: Votes, startBlockNumber: nat, blockHash: seq<Bytes>)

  // Signature aggregation is kept abstract; it fails on malformed signatures.
  type Aggregate = seq<Bytes> -> Option<Bytes>

  datatype TallyError = MissingProposer | WrongEpoch | WrongSequence | BelowThreshold | BadSignature

  // ---------- Threshold and positions ----------

  // Two thirds, rounded up.
  function Threshold(total: nat): (t: nat)
    ensures 2 * total <= 3 * t < 2 * total + 3
  {
    (total * 2 + 2) / 3
  }

  function IndexOf(sl: seq<string>, s: string): (r: int)
    ensures r == -1 <==> s !in sl
    ensures r != -1 ==> 0 <= r < |sl| && sl[r] == s && s !in sl[..r]
  {
    if sl == [] then -1
    else if sl[0] == s then 0
    else
      var r := IndexOf(sl[1..], s);
      assert sl == [sl[0]] + sl[1..];
      if r == -1 then -1 else 1 + r
  }

  method IndexOfSlice(sl: seq<string>, s: string) returns (r: int)
    ensures r == IndexOf(sl, s)
  {
    for i := 0 to |sl|
      invariant s !in sl[..i]
    {
      if sl[i] == s {
        return i;
      }
    }
    r := -1;
  }

  // ---------- The tally ----------

  // An order in which the ballots of a map may be visited.
  ghost predicate Enumerates(order: seq<string>, addresses: set<string>) {
    Distinct(order) && Elements(order) == addresses
  }

  predicate Counts(votes: VoteMap, voters: seq<string>, a: string) {
    a in votes && !votes[a].isProposer && a in voters
  }

  // The proposer's address: that of the last proposer ballot visited.
  function LastProposer(votes: VoteMap, order: seq<string>): string {
    if order == [] then ""
    else
      var a := order[|order| - 1];
      if a in votes && votes[a].isProposer then a else LastProposer(votes, order[..|order| - 1])
  }

  // The positions of the listed voters that sent a ballot, and their signatures as visited.
  function Bits(votes: VoteMap, voters: seq<string>, order: seq<string>): set<nat> {
    set a | a in order && Counts(votes, voters, a) :: IndexOf(voters, a)
  }

  function Signatures(votes: VoteMap, voters: seq<string>, order: seq<string>): seq<Bytes> {
    if order == [] then []
    else
      var a := order[|order| - 1];
      Signatures(votes, voters, order[..|order| - 1]) + (if Counts(votes, voters, a) then [votes[a].sigData] else [])
  }

  function Tally(votes: VoteMap, ev: EpochVoter, aggregate: Aggregate, order: seq<string>): Result<NewBlockHashes, TallyError> {
    var p := LastProposer(votes, order);
    if p == "" || p !in votes then Err(MissingProposer)
    else
      var b := votes[p];
      var sigs := [b.sigData] + Signatures(votes, ev.voters, order);
      if b.epoch != ev.epoch then Err(WrongEpoch)
      else if b.sequence != ev.sequence then Err(WrongSequence)
      else if |sigs| < Threshold(|ev.voters|) then Err(BelowThreshold)
      else
        match aggregate(sigs)
        case None => Err(BadSignature)
        case Some(sig) =>
          Ok(NewBlockHashes(p, Votes(b.sequence, b.epoch, Bits(votes, ev.voters, order), sig), b.startBlockNumber, b.blockHash))
  }

  lemma {:induction false} LastProposerIsProposer(votes: VoteMap, order: seq<string>)
    ensures var p := LastProposer(votes, order); p != "" ==> p in order && p in votes && votes[p].isProposer
    decreases |order|
  {
    if order != [] {
      LastProposerIsProposer(votes, order[..|order| - 1]);
    }
  }

  lemma BitsOfLonger(votes: VoteMap, voters: seq<string>, order: seq<string>, a: string)
    ensures Bits(votes, voters, order + [a])
            == Bits(votes, voters, order) + (if Counts(votes, voters, a) then {IndexOf(voters, a)} else {})
  {
    assert forall x :: x in order + [a] <==> x in order || x == a;
  }

  // What one more ballot adds.
  lemma OneMoreBallot(votes: VoteMap, voters: seq<string>, order: seq<string>, a: string)
    requires a in votes
    ensures LastProposer(votes, order + [a]) == if votes[a].isProposer then a else LastProposer(votes, order)
    ensures Signatures(votes, voters, order + [a])
            == if Counts(votes, voters, a) then Signatures(votes, voters, order) + [votes[a].sigData]
               else Signatures(votes, voters, order)
  {
    assert (order + [a])[..|order|] == order;
  }

  lemma EnumeratesMore(order: seq<string>, seen: set<string>, a: string)
    requires Enumerates(order, seen) && a !in seen
    ensures forall all: set<string> :: seen + {a} == all ==> Enumerates(order + [a], all)
  {
    assert Elements(order + [a]) == seen + {a};
    assert forall i :: 0 <= i < |order| ==> order[i] in Elements(order);
  }

  // Goes over the ballots of a session in any order.
  method CollectBallots(votes: VoteMap, voters: seq<string>)
    returns (proposer: string, bitmap: set<nat>, voteSig: seq<Bytes>, ghost order: seq<string>)
    ensures Enumerates(order, votes.Keys)
    ensures proposer == LastProposer(votes, order)
    ensures bitmap == Bits(votes, voters, order) && voteSig == Signatures(votes, voters, order)
  {
    proposer, bitmap, voteSig, order := "", {}, [], [];
    var rest := votes.Keys;
    while rest != {}
      invariant rest <= votes.Keys && Enumerates(order, votes.Keys - rest)
      invariant proposer == LastProposer(votes, order)
      invariant bitmap == Bits(votes, voters, order)
      invariant voteSig == Signatures(votes, voters, order)
      decreases |rest|
    {
      var address: string :| address in rest;
      EnumeratesMore(order, votes.Keys - rest, address);
      rest := rest - {address};
      OneMoreBallot(votes, voters, order, address);
      BitsOfLonger(votes, voters, order, address);
      order := order + [address];
      assert Enumerates(order, votes.Keys - rest);
      if votes[address].isProposer {
        proposer := address;
      } else {
        var pos := IndexOfSlice(voters, address);
        if pos >= 0 {
          bitmap := bitmap + {pos};
          voteSig := voteSig + [votes[address].sigData];
        }
      }
    }
  }

  method AggregateBallots(votes: VoteMap, ev: EpochVoter, aggregate: Aggregate)
    returns (r: Result<NewBlockHashes, TallyError>)
    ensures exists order :: Enumerates(order, votes.Keys) && r == Tally(votes, ev, aggregate, order)
  {
    var proposer, bitmap, voteSig, order := CollectBallots(votes, ev.voters);
    LastProposerIsProposer(votes, order);
    if proposer == "" {
      return Err(MissingProposer);
    }
    var ballot := votes[proposer];
    if ballot.epoch != ev.epoch {
      return Err(WrongEpoch);
    }
    if ballot.sequence != ev.sequence {
      return Err(WrongSequence);
    }
    voteSig := [ballot.sigData] + voteSig;
    if |voteSig| < Threshold(|ev.voters|) {
      return Err(BelowThreshold);
    }
    var aggSig := aggregate(voteSig);
    if aggSig.None? {
      return Err(BadSignature);
    }
    var vote := Votes(ballot.sequence, ballot.epoch, bitmap, aggSig.value);
    r := Ok(NewBlockHashes(proposer, vote, ballot.startBlockNumber, ballot.blockHash));
  }

  // ---------- Quorum ----------

  // Different listed addresses have different positions, so each counted ballot sets a bit of its own.
  lemma {:induction false} OneBitPerSignature(votes: VoteMap, voters: seq<string>, order: seq<string>)
    requires Distinct(order)
    ensures |Signatures(votes, voters, order)| == |Bits(votes, voters, order)|
    decreases |order|
  {
    if order != [] {
      var front, a := order[..|order| - 1], order[|order| - 1];
      assert order == front + [a];
      BitsOfLonger(votes, voters, front, a);
      OneBitPerSignature(votes, voters, front);
    }
  }

  // Who signed a message: its proposer and the voters on its bitmap.
  function Signers(msg: NewBlockHashes, voters: seq<string>): set<string> {
    {msg.proposer} + set i | i in msg.vote.voters && i < |voters| :: voters[i]
  }

  // A message carries the signatures of at least two thirds, rounded up, of distinct parties: one for its
  // proposer and one for each bit, every one of them from a ballot of the session.
  ghost predicate Quorum(msg: NewBlockHashes, voters: seq<string>) {
    && (forall i :: i in msg.vote.voters ==> i < |voters|)
    && |Signers(msg, voters)| == 1 + |msg.vote.voters|
    && 1 + |msg.vote.voters| >= Threshold(|voters|)
  }

  // Each bit is the first position of a voter that sent a ballot.
  lemma BitsAreVoters(votes: VoteMap, voters: seq<string>, order: seq<string>)
    ensures forall i :: i in Bits(votes, voters, order) ==>
              i < |voters| && voters[i] in votes && !votes[voters[i]].isProposer && IndexOf(voters, voters[i]) == i
  {
    forall i | i in Bits(votes, voters, order)
      ensures i < |voters| && voters[i] in votes && !votes[voters[i]].isProposer && IndexOf(voters, voters[i]) == i
    {
      var a :| a in order && Counts(votes, voters, a) && IndexOf(voters, a) == i;
    }
  }

  lemma TallyIsQuorum(votes: VoteMap, ev: EpochVoter, aggregate: Aggregate, order: seq<string>)
    requires Enumerates(order, votes.Keys) && Tally(votes, ev, aggregate, order).Ok?
    ensures var msg := Tally(votes, ev, aggregate, order).value;
            && Quorum(msg, ev.voters)
            && Signers(msg, ev.voters) <= votes.Keys
            && votes[msg.proposer].isProposer
            && (forall i :: i in msg.vote.voters ==> !votes[ev.voters[i]].isProposer)
            && (forall a :: a in votes && !votes[a].isProposer && a in ev.voters ==> a in Signers(msg, ev.voters))
  {
    var msg := Tally(votes, ev, aggregate, order).value;
    LastProposerIsProposer(votes, order);
    OneBitPerSignature(votes, ev.voters, order);
    var bits := msg.vote.voters;
    BitsAreVoters(votes, ev.voters, order);
    forall a | a in votes && !votes[a].isProposer && a in ev.voters ensures a in Signers(msg, ev.voters) {
      assert a in order;
      assert IndexOf(ev.voters, a) in bits;
    }
    NamesOfBits(ev.voters, bits);
    assert Signers(msg, ev.voters) == {msg.proposer} + Named(ev.voters, bits);
  }

  function Named(voters: seq<string>, bits: set<nat>): set<string> {
    set i | i in bits && i < |voters| :: voters[i]
  }

  lemma {:induction false} NamesOfBits(voters: seq<string>, bits: set<nat>)
    requires forall i :: i in bits ==> i < |voters| && IndexOf(voters, voters[i]) == i
    ensures |Named(voters, bits)| == |bits|
    decreases |bits|
  {
    if i :| i in bits {
      NamesOfBits(voters, bits - {i});
      assert Named(voters, bits) == Named(voters, bits - {i}) + {voters[i]};
      assert forall j :: j in bits - {i} ==> voters[j] != voters[i] by {
        forall j | j in bits - {i} ensures voters[j] != voters[i] {
          assert IndexOf(voters, voters[j]) == j;
        }
      }
    } else {
      assert Named(voters, bits) == {};
    }
  }

  // All signers are listed voters exactly when the proposer is.
  lemma SignersAreListed(msg: NewBlockHashes, voters: seq<string>)
    requires Quorum(msg, voters)
    ensures Signers(msg, voters) <= Elements(voters) <==> msg.proposer in voters
  {
    assert msg.proposer in Signers(msg, voters);
  }

  // With distinct voters that include the proposers, two quorums share at least 2 * ceil(2n/3) - n >= n/3 of the n voters.
  lemma QuorumsOverlap(m1: NewBlockHashes, m2: NewBlockHashes, voters: seq<string>)
    requires Quorum(m1, voters) && Quorum(m2, voters) && Distinct(voters)
    requires m1.proposer in voters && m2.proposer in voters
    ensures var common := Signers(m1, voters) * Signers(m2, voters);
            |common| >= 2 * Threshold(|voters|) - |voters| && 3 * |common| >= |voters| > 0
  {
    SignersAreListed(m1, voters);
    SignersAreListed(m2, voters);
    ElementsSize(voters);
    Overlap(Elements(voters), Signers(m1, voters), Signers(m2, voters));
  }

  // ---------- What is signed ----------

  // One signature for each name.
  function SignaturesOf(votes: VoteMap, names: seq<string>): seq<Bytes>
    requires forall i :: 0 <= i < |names| ==> names[i] in votes
  {
    seq(|names|, i requires 0 <= i < |names| => votes[names[i]].sigData)
  }

  // The signature of a message aggregates the ballot signatures of its signers, each once, the proposer's first.
  ghost predicate SignedInTurn(msg: NewBlockHashes, votes: VoteMap, voters: seq<string>, aggregate: Aggregate, names: seq<string>) {
    && names != [] && names[0] == msg.proposer
    && Distinct(names) && Elements(names) == Signers(msg, voters)
    && (forall i :: 0 <= i < |names| ==> names[i] in votes)
    && aggregate(SignaturesOf(votes, names)) == Some(msg.vote.signature)
  }

  ghost predicate Signed(msg: NewBlockHashes, votes: VoteMap, voters: seq<string>, aggregate: Aggregate) {
    exists names :: SignedInTurn(msg, votes, voters, aggregate, names)
  }

  // The voters whose signatures are counted, as visited.
  function Counted(votes: VoteMap, voters: seq<string>, order: seq<string>): (names: seq<string>)
    ensures forall i :: 0 <= i < |names| ==> names[i] in votes && names[i] in order && Counts(votes, voters, names[i])
  {
    if order == [] then []
    else
      var a := order[|order| - 1];
      Counted(votes, voters, order[..|order| - 1]) + (if Counts(votes, voters, a) then [a] else [])
  }

  lemma {:induction false} CountedSignatures(votes: VoteMap, voters: seq<string>, order: seq<string>)
    requires Distinct(order)
    ensures Signatures(votes, voters, order) == SignaturesOf(votes, Counted(votes, voters, order))
    ensures Distinct(Counted(votes, voters, order))
    ensures forall a :: a in order && Counts(votes, voters, a) ==> a in Counted(votes, voters, order)
    decreases |order|
  {
    if order != [] {
      var front, a := order[..|order| - 1], order[|order| - 1];
      assert order == front + [a];
      CountedSignatures(votes, voters, front);
      assert a !in front;
    }
  }

  lemma BitsNameCounted(votes: VoteMap, voters: seq<string>, order: seq<string>)
    requires Distinct(order)
    ensures (set i | i in Bits(votes, voters, order) && i < |voters| :: voters[i]) == Elements(Counted(votes, voters, order))
  {
    var names, bits := Counted(votes, voters, order), Bits(votes, voters, order);
    CountedSignatures(votes, voters, order);
    forall a | a in Elements(names) ensures a in (set i | i in bits && i < |voters| :: voters[i]) {
      assert IndexOf(voters, a) in bits;
    }
    forall i | i in bits && i < |voters| ensures voters[i] in Elements(names) {
      var a :| a in order && Counts(votes, voters, a) && IndexOf(voters, a) == i;
    }
  }

  lemma TallyIsSigned(votes: VoteMap, ev: EpochVoter, aggregate: Aggregate, order: seq<string>)
    requires Enumerates(order, votes.Keys) && Tally(votes, ev, aggregate, order).Ok?
    ensures var msg := Tally(votes, ev, aggregate, order).value;
            && Signed(msg, votes, ev.voters, aggregate)
            && msg.vote.epoch == ev.epoch && msg.vote.sequence == ev.sequence
  {
    var msg, counted := Tally(votes, ev, aggregate, order).value, Counted(votes, ev.voters, order);
    var names := [msg.proposer] + counted;
    LastProposerIsProposer(votes, order);
    CountedSignatures(votes, ev.voters, order);
    BitsNameCounted(votes, ev.voters, order);
    assert SignaturesOf(votes, names) == [votes[msg.proposer].sigData] + SignaturesOf(votes, counted);
    assert Elements(names) == {msg.proposer} + Elements(counted);
    assert Signers(msg, ev.voters) == Elements(names);
    assert SignedInTurn(msg, votes, ev.voters, aggregate, names);
  }

  // As a multiset, what is aggregated are the signatures of the signers' ballots.
  lemma SignedIsExact(msg: NewBlockHashes, votes: VoteMap, voters: seq<string>, aggregate: Aggregate, names: seq<string>)
    requires SignedInTurn(msg, votes, voters, aggregate, names)
    ensures |SignaturesOf(votes, names)| == |Signers(msg, voters)|
    ensures SignaturesOf(votes, names)[0] == votes[msg.proposer].sigData
    ensures forall a :: a in Signers(msg, voters) ==> a in votes && votes[a].sigData in SignaturesOf(votes, names)
  {
    ElementsSize(names);
    forall a | a in Signers(msg, voters) ensures a in votes && votes[a].sigData in SignaturesOf(votes, names) {
      assert a in Elements(names);
      var i :| 0 <= i < |names| && names[i] == a;
      assert SignaturesOf(votes, names)[i] == votes[a].sigData;
    }
  }

  // A session with one proposer, whose address is not empty, is decided by its ballots alone, up to the signature.
  lemma {:induction false} TheProposer(votes: VoteMap, order: seq<string>, p: string)
    requires p in order && p in votes && votes[p].isProposer && p != ""
    requires forall a :: a in order && a in votes && votes[a].isProposer ==> a == p
    ensures LastProposer(votes, order) == p
    decreases |order|
  {
    var front, a := order[..|order| - 1], order[|order| - 1];
    assert order == front + [a];
    if a != p {
      TheProposer(votes, front, p);
    }
  }

  lemma BitsOfAll(votes: VoteMap, voters: seq<string>, order: seq<string>)
    requires Enumerates(order, votes.Keys)
    ensures Bits(votes, voters, order) == set a | a in votes && Counts(votes, voters, a) :: IndexOf(voters, a)
  {
    assert forall a :: a in votes <==> a in order;
  }

  // The ballots reach the aggregation of their signatures exactly when the proposer's epoch and sequence are
  // current and the proposer with the listed voters heard from meet the threshold.
  lemma TallyIff(votes: VoteMap, ev: EpochVoter, aggregate: Aggregate, order: seq<string>, p: string)
    requires Enumerates(order, votes.Keys)
    requires p in votes && votes[p].isProposer && p != ""
    requires forall a :: a in votes && votes[a].isProposer ==> a == p
    ensures var r := Tally(votes, ev, aggregate, order);
            (r.Ok? || r.error == BadSignature)
            <==> && votes[p].epoch == ev.epoch && votes[p].sequence == ev.sequence
                 && 1 + |set a | a in votes && Counts(votes, ev.voters, a) :: IndexOf(ev.voters, a)| >= Threshold(|ev.voters|)
    ensures Tally(votes, ev, aggregate, order).Ok? ==>
              var msg := Tally(votes, ev, aggregate, order).value;
              && msg.proposer == p && msg.startBlockNumber == votes[p].startBlockNumber && msg.blockHash == votes[p].blockHash
              && msg.vote.voters == set a | a in votes && Counts(votes, ev.voters, a) :: IndexOf(ev.voters, a)
  {
    assert p in Elements(order);
    assert forall a :: a in order ==> a in votes;
    TheProposer(votes, order, p);
    BitsOfAll(votes, ev.voters, order);
    OneBitPerSignature(votes, ev.voters, order);
  }
}
