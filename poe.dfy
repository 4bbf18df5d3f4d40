/**
 * The proof-of-existence pallet: a registry that maps a proof (the bytes of a
 * content hash) to the account that owns it and the block at which it was
 * last assigned.
 *
 * The three dispatchable calls are given twice: once as pure step functions
 * over a snapshot of the pallet (used by the lemmas in PoeProperties), and
 * once as methods of the class Pallet, which updates the `Proofs` storage map
 * and the event log in place, as the calls do, and whose postconditions tie
 * the new state to the step functions.
 *
 * Accounts are a type parameter; the calling account and the destination
 * account are taken as already authenticated and resolved; the current block
 * number is a parameter.
 */
module Poe {

  /** A proof: the opaque bytes of a content hash. */
  type Proof = seq<bv8>

  datatype Option<T> = None | Some(value: T)

  /** The pallet's three errors. */
  datatype Error = ProofAlreadyClaimed | NoSuchProof | NotProofOwner

  /** What a call returns: `Ok(())`, or the error that made it fail. */
  datatype DispatchResult = Ok | Err(error: Error)

  /** The events the pallet deposits, one per successful call. */
  datatype Event<A> =
    | ClaimCreated(who: A, claim: Proof)
    | ClaimRevoked(who: A, claim: Proof)
    | ClaimTransferred(from: A, to: A, claim: Proof)

  /** The value stored under a proof: `(owner, block number)`. */
  datatype Claim<A> = Claim(owner: A, block: nat)

  /** The `Proofs` storage map together with the events deposited so far. */
  datatype State<A> = State(proofs: map<Proof, Claim<A>>, events: seq<Event<A>>)

  /** The outcome of one call: what it returned and the state after it. */
  datatype Step<A> = Step(result: DispatchResult, post: State<A>)

  /** A call as submitted in a block: the signed sender and the arguments. */
  datatype Call<A> =
    | Create(sender: A, proof: Proof)
    | Revoke(sender: A, proof: Proof)
    | Transfer(sender: A, proof: Proof, dest: A)

  /** A call together with the number of the block it is executed in. */
  datatype Extrinsic<A> = Extrinsic(call: Call<A>, block: nat)

  /** `Proofs::get` on an `OptionQuery` storage map. */
  function Get<A>(m: map<Proof, Claim<A>>, p: Proof): (r: Option<Claim<A>>)
    ensures r.Some? <==> p in m
    ensures r.Some? ==> r.value == m[p]
  {
    if p in m then Some(m[p]) else None
  }

  /** The event a call deposits when it succeeds. */
  function EventOf<A>(c: Call<A>): Event<A>
  {
    match c
    case Create(sender, proof) => ClaimCreated(sender, proof)
    case Revoke(sender, proof) => ClaimRevoked(sender, proof)
    case Transfer(sender, proof, dest) => ClaimTransferred(sender, dest, proof)
  }

  /**
   * `create_claim`: fails with ProofAlreadyClaimed exactly when the proof is
   * already stored; otherwise stores `(sender, now)` under it, touches no
   * other key, and deposits ClaimCreated.
   */
  function CreateClaimStep<A>(s: State<A>, sender: A, proof: Proof, now: nat): (r: Step<A>)
    ensures r.result == Err(ProofAlreadyClaimed) <==> proof in s.proofs
    ensures r.result == Ok <==> proof !in s.proofs
    ensures r.result.Err? ==> r.post == s
    ensures r.result.Ok? ==> r.post.proofs.Keys == s.proofs.Keys + {proof}
    ensures r.result.Ok? ==> r.post.proofs[proof] == Claim(sender, now)
    ensures forall q :: q != proof ==> Get(r.post.proofs, q) == Get(s.proofs, q)
    ensures r.result.Ok? ==> r.post.events == s.events + [ClaimCreated(sender, proof)]
  {
    if proof in s.proofs then
      Step(Err(ProofAlreadyClaimed), s)
    else
      Step(Ok, State(s.proofs[proof := Claim(sender, now)], s.events + [ClaimCreated(sender, proof)]))
  }

  /**
   * `revoke_claim`: an absent proof fails with NoSuchProof whoever asks; a
   * present proof owned by someone else fails with NotProofOwner; otherwise
   * the proof is removed, nothing else changes, and ClaimRevoked is deposited.
   */
  function RevokeClaimStep<A(==)>(s: State<A>, sender: A, proof: Proof): (r: Step<A>)
    ensures proof !in s.proofs ==> r.result == Err(NoSuchProof)
    ensures r.result == Err(NotProofOwner) <==> proof in s.proofs && s.proofs[proof].owner != sender
    ensures r.result == Ok <==> proof in s.proofs && s.proofs[proof].owner == sender
    ensures r.result.Err? ==> r.post == s
    ensures r.result.Ok? ==> r.post.proofs.Keys == s.proofs.Keys - {proof}
    ensures forall q :: q != proof ==> Get(r.post.proofs, q) == Get(s.proofs, q)
    ensures r.result.Ok? ==> r.post.events == s.events + [ClaimRevoked(sender, proof)]
  {
    if proof !in s.proofs then
      Step(Err(NoSuchProof), s)
    else
      // the `expect` on the stored value: Dafny checks that `Get` returned Some
      var owner := Get(s.proofs, proof).value.owner;
      if sender != owner then
        Step(Err(NotProofOwner), s)
      else
        Step(Ok, State(s.proofs - {proof}, s.events + [ClaimRevoked(sender, proof)]))
  }

  /**
   * `transfer_claim`: the same two checks in the same order as revoke; on
   * success the stored value becomes `(dest, now)` whatever it was, the set
   * of stored proofs is unchanged, and ClaimTransferred is deposited.
   */
  function TransferClaimStep<A(==)>(s: State<A>, sender: A, proof: Proof, dest: A, now: nat): (r: Step<A>)
    ensures proof !in s.proofs ==> r.result == Err(NoSuchProof)
    ensures r.result == Err(NotProofOwner) <==> proof in s.proofs && s.proofs[proof].owner != sender
    ensures r.result == Ok <==> proof in s.proofs && s.proofs[proof].owner == sender
    ensures r.result.Err? ==> r.post == s
    ensures r.post.proofs.Keys == s.proofs.Keys
    ensures r.result.Ok? ==> r.post.proofs[proof] == Claim(dest, now)
    ensures forall q :: q != proof ==> Get(r.post.proofs, q) == Get(s.proofs, q)
    ensures r.result.Ok? ==> r.post.events == s.events + [ClaimTransferred(sender, dest, proof)]
  {
    if proof !in s.proofs then
      Step(Err(NoSuchProof), s)
    else
      var owner := Get(s.proofs, proof).value.owner;
      if sender != owner then
        Step(Err(NotProofOwner), s)
      else
        // `Proofs::mutate`: the closure's None arm cannot be reached
        var proofs' := match Get(s.proofs, proof)
          case None => assert false; s.proofs
          case Some(_) => s.proofs[proof := Claim(dest, now)];
        Step(Ok, State(proofs', s.events + [ClaimTransferred(sender, dest, proof)]))
  }

  /** Executes one call at block `now`. */
  function Dispatch<A(==)>(s: State<A>, c: Call<A>, now: nat): (r: Step<A>)
    ensures r.result.Err? ==> r.post == s
    ensures r.result.Ok? ==> r.post.events == s.events + [EventOf(c)]
  {
    match c
    case Create(sender, proof) => CreateClaimStep(s, sender, proof, now)
    case Revoke(sender, proof) => RevokeClaimStep(s, sender, proof)
    case Transfer(sender, proof, dest) => TransferClaimStep(s, sender, proof, dest, now)
  }

  /** Executes a sequence of calls, in order, each in its own block. */
  function Run<A(==)>(s: State<A>, xs: seq<Extrinsic<A>>): State<A>
    decreases |xs|
  {
    if xs == [] then s else Run(Dispatch(s, xs[0].call, xs[0].block).post, xs[1..])
  }

  /** The pallet, with its storage and the events it has deposited. */
  class Pallet<A(==)> {
    /** `MaxBytesInHash`: the bound on the length of a proof. */
    const maxBytesInHash: nat
    /** The `Proofs` storage map. */
    var proofs: map<Proof, Claim<A>>
    /** The events deposited so far, oldest first. */
    var events: seq<Event<A>>

    /** Every stored proof fits in a `BoundedVec<u8, MaxBytesInHash>`. */
    ghost predicate Valid()
      reads this
    {
      forall p :: p in proofs ==> |p| <= maxBytesInHash
    }

    /** The storage and the event log as a value. */
    function Snapshot(): State<A>
      reads this
    {
      State(proofs, events)
    }

    /** Genesis: no proofs, no events. */
    constructor (maxBytesInHash: nat)
      ensures Valid() && this.maxBytesInHash == maxBytesInHash
      ensures proofs == map[] && events == []
    {
      this.maxBytesInHash := maxBytesInHash;
      proofs := map[];
      events := [];
    }

    method CreateClaim(sender: A, proof: Proof, now: nat) returns (r: DispatchResult)
      requires Valid() && |proof| <= maxBytesInHash
      modifies this
      ensures Valid()
      ensures r == Err(ProofAlreadyClaimed) <==> proof in old(proofs)
      ensures Step(r, Snapshot()) == CreateClaimStep(old(Snapshot()), sender, proof, now)
    {
      if proof in proofs {
        return Err(ProofAlreadyClaimed);
      }
      proofs := proofs[proof := Claim(sender, now)];
      events := events + [ClaimCreated(sender, proof)];
      r := Ok;
    }

    method RevokeClaim(sender: A, proof: Proof) returns (r: DispatchResult)
      requires Valid()
      modifies this
      ensures Valid()
      ensures r == Ok <==> proof in old(proofs) && old(proofs)[proof].owner == sender
      ensures Step(r, Snapshot()) == RevokeClaimStep(old(Snapshot()), sender, proof)
    {
      if proof !in proofs {
        return Err(NoSuchProof);
      }
      var stored := Get(proofs, proof);
      var owner := stored.value.owner;
      if sender != owner {
        return Err(NotProofOwner);
      }
      proofs := proofs - {proof};
      events := events + [ClaimRevoked(sender, proof)];
      r := Ok;
    }

    method TransferClaim(sender: A, proof: Proof, dest: A, now: nat) returns (r: DispatchResult)
      requires Valid()
      modifies this
      ensures Valid()
      ensures r == Ok <==> proof in old(proofs) && old(proofs)[proof].owner == sender
      ensures Step(r, Snapshot()) == TransferClaimStep(old(Snapshot()), sender, proof, dest, now)
    {
      if proof !in proofs {
        return Err(NoSuchProof);
      }
      var stored := Get(proofs, proof);
      var owner := stored.value.owner;
      if sender != owner {
        return Err(NotProofOwner);
      }
      match Get(proofs, proof) {
        case None =>
          assert false;
        case Some(_) =>
          proofs := proofs[proof := Claim(dest, now)];
      }
      events := events + [ClaimTransferred(sender, dest, proof)];
      r := Ok;
    }
  }
}
