/**
 * Properties of the proof-of-existence pallet that relate several calls, or
 * that hold of every call: the per-proof state machine, error precedence,
 * atomicity of failing calls, and the invariants kept over any sequence of
 * calls (the event log mirrors ownership, block numbers never run ahead of
 * the chain, the log is append-only).
 */
module PoeProperties {
  import opened Poe

  // ---------------------------------------------------------------------------
  // Single calls

  /** Registration is exactly-once: a second create of the same proof fails and changes nothing. */
  lemma CreateTwiceFails<A>(s: State<A>, a: A, b: A, p: Proof, n1: nat, n2: nat)
    requires CreateClaimStep(s, a, p, n1).result == Ok
    ensures var s1 := CreateClaimStep(s, a, p, n1).post;
      CreateClaimStep(s1, b, p, n2) == Step(Err(ProofAlreadyClaimed), s1)
  {
  }

  /** Existence is checked before ownership: an absent proof gives NoSuchProof to every caller. */
  lemma AbsentProofIsNoSuchProof<A>(s: State<A>, who: A, p: Proof, dest: A, now: nat)
    requires p !in s.proofs
    ensures RevokeClaimStep(s, who, p) == Step(Err(NoSuchProof), s)
    ensures TransferClaimStep(s, who, p, dest, now) == Step(Err(NoSuchProof), s)
  {
  }

  /** Ownership gate: someone other than the owner can neither revoke nor transfer, and changes nothing. */
  lemma OwnershipGate<A>(s: State<A>, b: A, p: Proof, dest: A, now: nat)
    requires p in s.proofs && s.proofs[p].owner != b
    ensures RevokeClaimStep(s, b, p) == Step(Err(NotProofOwner), s)
    ensures TransferClaimStep(s, b, p, dest, now) == Step(Err(NotProofOwner), s)
  {
  }

  /** After a successful revoke, anyone can register the proof again. */
  lemma RevokeThenCreate<A>(s: State<A>, a: A, b: A, p: Proof, now: nat)
    requires RevokeClaimStep(s, a, p).result == Ok
    ensures var s1 := RevokeClaimStep(s, a, p).post;
      var r := CreateClaimStep(s1, b, p, now);
      r.result == Ok && r.post.proofs[p] == Claim(b, now)
  {
  }

  /** Revoke undoes create: registering a fresh proof and revoking it restores storage. */
  lemma CreateThenRevoke<A>(s: State<A>, a: A, p: Proof, now: nat)
    requires p !in s.proofs
    ensures var s1 := CreateClaimStep(s, a, p, now).post;
      var r := RevokeClaimStep(s1, a, p);
      r.result == Ok && r.post.proofs == s.proofs
  {
  }

  /** A self-transfer succeeds: the owner stays, the block number is refreshed. */
  lemma SelfTransfer<A>(s: State<A>, a: A, p: Proof, now: nat)
    requires p in s.proofs && s.proofs[p].owner == a
    ensures var r := TransferClaimStep(s, a, p, a, now);
      && r.result == Ok
      && r.post.proofs == s.proofs[p := Claim(a, now)]
      && r.post.events == s.events + [ClaimTransferred(a, a, p)]
  {
  }

  /** Every call touches at most the proof it names: the stored value of every other proof is unchanged. */
  lemma CallTouchesOnlyItsProof<A>(s: State<A>, c: Call<A>, now: nat)
    ensures forall q :: q != c.proof ==> Get(Dispatch(s, c, now).post.proofs, q) == Get(s.proofs, q)
  {
  }

  // ---------------------------------------------------------------------------
  // The state machine of one proof

  /** What the pallet records about one proof. */
  datatype KeyState<A> = Unclaimed | Claimed(owner: A, block: nat)

  function KeyStateOf<A>(s: State<A>, p: Proof): KeyState<A>
  {
    if p in s.proofs then Claimed(s.proofs[p].owner, s.proofs[p].block) else Unclaimed
  }

  /**
   * The transitions a call may make on proof `p`: Unclaimed -> Claimed by a
   * create of `p`, Claimed -> Unclaimed by a revoke of `p` by its owner,
   * Claimed -> Claimed(dest, now) by a transfer of `p` by its owner; and no
   * change at all.
   */
  predicate Allowed<A(==)>(before: KeyState<A>, after: KeyState<A>, c: Call<A>, p: Proof, now: nat)
  {
    || after == before
    || (before.Unclaimed? && c.Create? && c.proof == p && after == Claimed(c.sender, now))
    || (before.Claimed? && c.Revoke? && c.proof == p && c.sender == before.owner && after.Unclaimed?)
    || (before.Claimed? && c.Transfer? && c.proof == p && c.sender == before.owner && after == Claimed(c.dest, now))
  }

  lemma StepFollowsStateMachine<A>(s: State<A>, c: Call<A>, now: nat, p: Proof)
    ensures Allowed(KeyStateOf(s, p), KeyStateOf(Dispatch(s, c, now).post, p), c, p, now)
  {
  }

  // ---------------------------------------------------------------------------
  // Invariants over sequences of calls

  /** Who owns each stored proof. */
  function Owners<A>(m: map<Proof, Claim<A>>): (o: map<Proof, A>)
    ensures o.Keys == m.Keys
  {
    map p | p in m :: m[p].owner
  }

  /** What an observer of one event learns about ownership. */
  function ApplyEvent<A>(o: map<Proof, A>, e: Event<A>): map<Proof, A>
  {
    match e
    case ClaimCreated(who, p) => o[p := who]
    case ClaimRevoked(_, p) => o - {p}
    case ClaimTransferred(_, to, p) => o[p := to]
  }

  /** The ownership an observer reconstructs from an event log, from genesis. */
  function Replay<A>(es: seq<Event<A>>): map<Proof, A>
  {
    if es == [] then map[] else ApplyEvent(Replay(es[..|es| - 1]), es[|es| - 1])
  }

  /** The event log accounts for exactly the stored owners. */
  ghost predicate EventsMirrorOwners<A>(s: State<A>)
  {
    Replay(s.events) == Owners(s.proofs)
  }

  /** One successful call changes the owners exactly as its event says. */
  lemma OwnersFollowEvent<A>(s: State<A>, c: Call<A>, now: nat)
    requires Dispatch(s, c, now).result == Ok
    ensures Owners(Dispatch(s, c, now).post.proofs) == ApplyEvent(Owners(s.proofs), EventOf(c))
  {
  }

  /** One call keeps the event log accounting for the stored owners. */
  lemma StepKeepsEventsMirrorOwners<A>(s: State<A>, c: Call<A>, now: nat)
    requires EventsMirrorOwners(s)
    ensures EventsMirrorOwners(Dispatch(s, c, now).post)
  {
  }

  /** Genesis (empty storage, empty log) satisfies the invariant. */
  lemma GenesisEventsMirrorOwners<A>()
    ensures EventsMirrorOwners<A>(State(map[], []))
  {
  }

  /**
   * From any state whose log accounts for its owners (genesis among them),
   * every sequence of calls keeps the log accounting for the owners: an
   * observer of the events alone knows who owns every proof.
   */
  lemma {:induction false} RunKeepsEventsMirrorOwners<A>(s: State<A>, xs: seq<Extrinsic<A>>)
    requires EventsMirrorOwners(s)
    ensures EventsMirrorOwners(Run(s, xs))
    decreases |xs|
  {
    if xs != [] {
      StepKeepsEventsMirrorOwners(s, xs[0].call, xs[0].block);
      RunKeepsEventsMirrorOwners(Dispatch(s, xs[0].call, xs[0].block).post, xs[1..]);
    }
  }

  /** The event log is append-only over any sequence of calls. */
  lemma {:induction false} RunOnlyAppendsEvents<A>(s: State<A>, xs: seq<Extrinsic<A>>)
    ensures |s.events| <= |Run(s, xs).events| <= |s.events| + |xs|
    ensures Run(s, xs).events[..|s.events|] == s.events
    decreases |xs|
  {
    if xs != [] {
      var t := Dispatch(s, xs[0].call, xs[0].block).post;
      RunOnlyAppendsEvents(t, xs[1..]);
      assert Run(s, xs) == Run(t, xs[1..]);
      assert t.events[..|s.events|] == s.events;
    }
  }

  /** Every stored block number is at most `n`. */
  ghost predicate BlocksAtMost<A>(s: State<A>, n: nat)
  {
    forall p :: p in s.proofs ==> s.proofs[p].block <= n
  }

  /**
   * When every stored block number is at most an earlier block `prev` and
   * `prev <= now`, a call at `now` keeps every stored block number at most
   * `now` and never lowers the block number of a proof that stays stored.
   */
  lemma StepKeepsBlocksBounded<A>(s: State<A>, c: Call<A>, prev: nat, now: nat)
    requires BlocksAtMost(s, prev) && prev <= now
    ensures var t := Dispatch(s, c, now).post;
      && BlocksAtMost(t, now)
      && forall p :: p in s.proofs && p in t.proofs ==> s.proofs[p].block <= t.proofs[p].block
  {
  }

  /** The block numbers of a sequence of calls never decrease, starting from `n`. */
  ghost predicate BlocksFrom<A>(n: nat, xs: seq<Extrinsic<A>>)
  {
    && (forall i :: 0 <= i < |xs| ==> n <= xs[i].block)
    && (forall i, j :: 0 <= i < j < |xs| ==> xs[i].block <= xs[j].block)
  }

  function LastBlock<A>(n: nat, xs: seq<Extrinsic<A>>): nat
  {
    if xs == [] then n else xs[|xs| - 1].block
  }

  /**
   * On a chain whose block numbers do not decrease, no stored block number
   * is ever ahead of the block of the latest call.
   */
  lemma {:induction false} RunKeepsBlocksBounded<A>(s: State<A>, n: nat, xs: seq<Extrinsic<A>>)
    requires BlocksAtMost(s, n) && BlocksFrom(n, xs)
    ensures BlocksAtMost(Run(s, xs), LastBlock(n, xs))
    decreases |xs|
  {
    if xs != [] {
      var x := xs[0];
      StepKeepsBlocksBounded(s, x.call, n, x.block);
      var rest := xs[1..];
      assert BlocksFrom(x.block, rest) by {
        forall i | 0 <= i < |rest|
          ensures x.block <= rest[i].block
        {
          assert rest[i] == xs[i + 1];
        }
      }
      RunKeepsBlocksBounded(Dispatch(s, x.call, x.block).post, x.block, rest);
      assert LastBlock(x.block, rest) == LastBlock(n, xs);
    }
  }

  /** The key bound of `BoundedVec<u8, MaxBytesInHash>` holds of storage after any calls on bounded proofs. */
  ghost predicate KeysBounded<A>(s: State<A>, max: nat)
  {
    forall p :: p in s.proofs ==> |p| <= max
  }

  lemma {:induction false} RunKeepsKeysBounded<A>(s: State<A>, max: nat, xs: seq<Extrinsic<A>>)
    requires KeysBounded(s, max)
    requires forall i :: 0 <= i < |xs| ==> |xs[i].call.proof| <= max
    ensures KeysBounded(Run(s, xs), max)
    decreases |xs|
  {
    if xs != [] {
      var t := Dispatch(s, xs[0].call, xs[0].block).post;
      assert KeysBounded(t, max) by {
        forall p | p in t.proofs
          ensures |p| <= max
        {
          if p != xs[0].call.proof {
            assert Get(t.proofs, p) == Get(s.proofs, p);
          }
        }
      }
      RunKeepsKeysBounded(t, max, xs[1..]);
    }
  }

  // ---------------------------------------------------------------------------
  // A concrete run

  /**
   * Starting empty: Alice registers x; Bob's register of x is refused;
   * Bob's revoke of x is refused; Alice's revoke of x succeeds and empties
   * storage; a transfer of x then finds no proof.
   */
  lemma Scenario<A>(alice: A, bob: A, x: Proof, h0: nat, h1: nat)
    requires alice != bob
    ensures var s0 := State(map[], []);
      var r1 := CreateClaimStep(s0, alice, x, h0);
      var r2 := CreateClaimStep(r1.post, bob, x, h1);
      var r3 := RevokeClaimStep(r2.post, bob, x);
      var r4 := RevokeClaimStep(r3.post, alice, x);
      var r5 := TransferClaimStep(r4.post, alice, x, bob, h1);
      && r1.result == Ok && r1.post.proofs == map[x := Claim(alice, h0)]
      && r2.result == Err(ProofAlreadyClaimed)
      && r3.result == Err(NotProofOwner)
      && r4.result == Ok && r4.post.proofs == map[]
      && r5.result == Err(NoSuchProof)
      && r5.post.events == [ClaimCreated(alice, x), ClaimRevoked(alice, x)]
  {
  }
}
