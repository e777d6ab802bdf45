/** Votes, vote sets and the two-thirds quorum. */
module Consensus {
  import opened Wrappers
  import opened Core

  datatype ConsensusError =
    | UnsupportedVoteVersion | WrongVoteChain | WrongVoteHeight | WrongVoteRound | WrongVoteBlock
    | UnknownValidator | InvalidVoteSignature | DuplicateVote

  /** No Rust collection holds more elements than this. */
  const ISIZE_MAX: nat := 0x7FFF_FFFF_FFFF_FFFF
  const USIZE_MAX: nat := U64_MAX

  function SaturatingMul(a: nat, b: nat): nat {
    if a * b > USIZE_MAX then USIZE_MAX else a * b
  }

  /** The public keys of a validator list, each counted once. */
  function KeysOf(validators: seq<Validator>): set<PublicKey> {
    set v | v in validators :: v.publicKey
  }

  predicate IsQuorum(members: nat, votes: nat) {
    members > 0 && SaturatingMul(votes, 3) >= SaturatingMul(members, 2)
  }

  function ProposerForHeight(validators: seq<Validator>, height: nat, round: nat): Option<Validator> {
    if validators == [] then None else Some(validators[(height + round) % |validators|])
  }

  function ValidateVote(env: Env, members: set<PublicKey>, vote: Vote, chainId: string, height: nat, round: nat,
      hash: Hash)
    : Result<(), ConsensusError>
  {
    if vote.chainId != chainId then Err(WrongVoteChain)
    else if vote.height != height then Err(WrongVoteHeight)
    else if vote.round != round then Err(WrongVoteRound)
    else if vote.blockHash != hash then Err(WrongVoteBlock)
    else if vote.validator !in members then Err(UnknownValidator)
    else if vote.version != 1 then Err(UnsupportedVoteVersion)
    else if !env.voteSigned(vote) then Err(InvalidVoteSignature)
    else Ok(())
  }

  datatype Ballot = Ballot(chainId: string, height: nat, round: nat, blockHash: Hash, votes: map<PublicKey, Vote>)

  datatype Recorded = Recorded(ballot: Ballot, result: Result<bool, ConsensusError>)

  function Cast(env: Env, b: Ballot, members: set<PublicKey>, vote: Vote): Recorded {
    var valid := ValidateVote(env, members, vote, b.chainId, b.height, b.round, b.blockHash);
    if valid.Err? then Recorded(b, Err(valid.error))
    else if vote.validator in b.votes then Recorded(b, Err(DuplicateVote))
    else
      var b' := b.(votes := b.votes[vote.validator := vote]);
      Recorded(b', Ok(IsQuorum(|members|, |b'.votes|)))
  }

  class VoteSet {
    const env: Env
    const chainId: string
    const height: nat
    const round: nat
    const blockHash: Hash
    var votes: map<PublicKey, Vote>

    constructor (env: Env, chainId: string, height: nat, round: nat, blockHash: Hash)
      ensures this.env == env && View() == Ballot(chainId, height, round, blockHash, map[])
    {
      this.env, this.chainId, this.height, this.round, this.blockHash := env, chainId, height, round, blockHash;
      votes := map[];
    }

    function View(): Ballot
      reads this
    {
      Ballot(chainId, height, round, blockHash, votes)
    }

    method Record(members: set<PublicKey>, vote: Vote) returns (r: Result<bool, ConsensusError>)
      modifies this
      ensures Recorded(View(), r) == Cast(env, old(View()), members, vote)
    {
      var valid := ValidateVote(env, members, vote, chainId, height, round, blockHash);
      if valid.Err? {
        return Err(valid.error);
      }
      if vote.validator in votes {
        return Err(DuplicateVote);
      }
      votes := votes[vote.validator := vote];
      return Ok(IsQuorum(|members|, |votes|));
    }
  }

  /** Every vote in the ballot is for the ballot's own block, from a member, signed, filed under its signer. */
  ghost predicate BallotSound(env: Env, b: Ballot, members: set<PublicKey>) {
    forall k | k in b.votes ::
      b.votes[k].validator == k && ValidateVote(env, members, b.votes[k], b.chainId, b.height, b.round, b.blockHash).Ok?
  }

  lemma ValidVoterIsMember(env: Env, members: set<PublicKey>, vote: Vote, chainId: string, height: nat, round: nat,
      hash: Hash)
    requires ValidateVote(env, members, vote, chainId, height, round, hash).Ok?
    ensures vote.validator in members && vote.version == 1 && env.voteSigned(vote)
    ensures vote.chainId == chainId && vote.height == height && vote.round == round && vote.blockHash == hash
  {
  }

  lemma SignersAreMembers(env: Env, b: Ballot, members: set<PublicKey>)
    requires BallotSound(env, b, members)
    ensures b.votes.Keys <= members
  {
    forall k | k in b.votes ensures k in members {
      ValidVoterIsMember(env, members, b.votes[k], b.chainId, b.height, b.round, b.blockHash);
    }
  }

  /** Recording keeps the ballot sound and counts every signer once: the answer is whether two thirds of the
      members have signed. */
  lemma CastKeepsSound(env: Env, b: Ballot, members: set<PublicKey>, vote: Vote)
    requires BallotSound(env, b, members)
    ensures var r := Cast(env, b, members, vote);
            && BallotSound(env, r.ballot, members)
            && r.ballot.votes.Keys <= members
            && (r.result.Ok? ==>
                  r.ballot.votes.Keys == b.votes.Keys + {vote.validator} && |r.ballot.votes| == |b.votes| + 1)
  {
    var b' := Cast(env, b, members, vote).ballot;
    hide ValidateVote;
    assert BallotSound(env, b', members);
    SignersAreMembers(env, b', members);
  }

  /** For collections that fit in memory the saturating test is the two-thirds test on integers. */
  lemma QuorumIsTwoThirds(members: nat, votes: nat)
    requires members <= ISIZE_MAX && votes <= members
    ensures IsQuorum(members, votes) <==> members > 0 && 3 * votes >= 2 * members
  {
  }

  lemma SetSizes<T>(a: set<T>, b: set<T>, all: set<T>)
    requires a <= all && b <= all
    ensures |a| + |b| <= |all| + |a * b|
  {
    assert |a + b| == |a| + |b| - |a * b|;
    SubsetSize(a + b, all);
  }

  lemma SubsetSize<T>(a: set<T>, b: set<T>)
    requires a <= b
    ensures |a| <= |b|
  {
    assert b == a + (b - a);
  }

  /** Two quorums share at least a third of the members. */
  lemma QuorumsIntersect(members: set<PublicKey>, a: set<PublicKey>, b: set<PublicKey>)
    requires a <= members && b <= members && |members| <= ISIZE_MAX
    requires IsQuorum(|members|, |a|) && IsQuorum(|members|, |b|)
    ensures 3 * |a * b| >= |members|
  {
    SetSizes(a, b, members);
    SubsetSize(a, members);
    SubsetSize(b, members);
    QuorumIsTwoThirds(|members|, |a|);
    QuorumIsTwoThirds(|members|, |b|);
  }

  /** With fewer than a third of the members faulty, two quorums share an honest member. */
  lemma QuorumsShareHonest(members: set<PublicKey>, a: set<PublicKey>, b: set<PublicKey>, faulty: set<PublicKey>)
      returns (common: PublicKey)
    requires a <= members && b <= members && |members| <= ISIZE_MAX
    requires IsQuorum(|members|, |a|) && IsQuorum(|members|, |b|)
    requires 3 * |faulty * members| < |members|
    ensures common in a && common in b && common !in faulty
  {
    QuorumsIntersect(members, a, b);
    if a * b <= faulty * members {
      SubsetSize(a * b, faulty * members);
      assert false;
    }
    common :| common in a * b && common !in faulty * members;
  }
}
