/** The ping-pong pair of framebuffers, seen through the one boolean that
    decides their roles.

    `swapState` true means frame buffer A is the source (it holds the latest
    result) and B the target (scratch for the next pass); false means the
    reverse. Every effect pass reads the source, writes the target, and is
    followed by one swap.
 */
module PingPong {

  /** The two backing buffers of the pair. */
  datatype Slot = A | B

  /** The buffer that holds the latest result. */
  function Source(swapState: bool): Slot { if swapState then A else B }

  /** The buffer the next pass writes. */
  function Target(swapState: bool): (t: Slot)
    ensures t != Source(swapState)
    ensures t == Source(!swapState)
  {
    if swapState then B else A
  }

  /** The swap state after `n` swaps. */
  function Swaps(swapState: bool, n: nat): bool
    decreases n
  {
    if n == 0 then swapState else Swaps(!swapState, n - 1)
  }

  /** The (source, target) roles of `n` passes run one after another, each
      followed by a swap, starting from `swapState`. */
  function Passes(swapState: bool, n: nat): (p: seq<(Slot, Slot)>)
    ensures |p| == n
    decreases n
  {
    if n == 0 then [] else [(Source(swapState), Target(swapState))] + Passes(!swapState, n - 1)
  }

  /** Only the parity of the number of swaps matters. */
  lemma {:induction false} SwapParity(swapState: bool, n: nat)
    ensures Swaps(swapState, n) == (if n % 2 == 0 then swapState else !swapState)
    decreases n
  {
    if n > 0 {
      SwapParity(!swapState, n - 1);
    }
  }

  /** Two consecutive swaps restore the original assignment of roles. */
  lemma SwapTwice(swapState: bool)
    ensures Swaps(swapState, 2) == swapState
    ensures Source(Swaps(swapState, 2)) == Source(swapState)
    ensures Target(Swaps(swapState, 2)) == Target(swapState)
  {
    SwapParity(swapState, 2);
  }

  /** Three passes (outline, shadow, colour grade) leave the roles exchanged. */
  lemma ThreeSwaps(swapState: bool)
    ensures Swaps(swapState, 3) == !swapState
    ensures Source(Swaps(swapState, 3)) == Target(swapState)
    ensures Target(Swaps(swapState, 3)) == Source(swapState)
  {
    SwapParity(swapState, 3);
  }

  /** The roles of the three passes of one piece: the second pass runs
      backwards relative to the first and third. */
  lemma ThreePasses(swapState: bool)
    ensures Passes(swapState, 3) == [
      (Source(swapState), Target(swapState)),
      (Target(swapState), Source(swapState)),
      (Source(swapState), Target(swapState))]
  {
    assert Passes(swapState, 3) == [(Source(swapState), Target(swapState))] + Passes(!swapState, 2);
    assert Passes(!swapState, 2) == [(Source(!swapState), Target(!swapState))] + Passes(swapState, 1);
  }

  /** The ping-pong discipline: no pass reads the buffer it writes, every pass
      reads what the previous pass wrote, and after the last swap the source
      is the buffer the last pass wrote. */
  lemma {:induction false} PassesChain(swapState: bool, n: nat)
    ensures forall i :: 0 <= i < n ==> Passes(swapState, n)[i].0 != Passes(swapState, n)[i].1
    ensures forall i :: 0 <= i < n - 1 ==> Passes(swapState, n)[i].1 == Passes(swapState, n)[i + 1].0
    ensures n > 0 ==> Passes(swapState, n)[n - 1].1 == Source(Swaps(swapState, n))
    decreases n
  {
    if n > 0 {
      PassesChain(!swapState, n - 1);
      var p, q := Passes(swapState, n), Passes(!swapState, n - 1);
      assert p == [(Source(swapState), Target(swapState))] + q;
      forall i | 0 <= i < n - 1
        ensures p[i].1 == p[i + 1].0
      {
        if i > 0 {
          assert p[i] == q[i - 1] && p[i + 1] == q[i];
        }
      }
    }
  }
}
