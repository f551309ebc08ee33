/** The smallest DVM in which a fence can succeed without a living participant.

    Daemon 1 relays for daemon 2, which takes part and dies; daemon 3 takes
    part and need not have entered the fence. Restarting, daemon 1 awaits
    nobody, answers with nothing, and the master counts that answer for
    daemon 3's. */
module FenceShortRun {
  import opened RoutingTree
  import opened Fence
  import opened FenceContent
  import opened FenceSystem
  import opened FenceRelays
  import opened FenceRuns
  import opened FenceEmptied

  const WHOLE := Tree({0, 1, 2, 3}, map[1 := 0, 2 := 1, 3 := 0], map[0 := 0, 1 := 1, 2 := 2, 3 := 1])
  const REPAIRED := Tree({0, 1, 3}, map[1 := 0, 3 := 0], map[0 := 0, 1 := 1, 3 := 1])

  function TreeAt(e: nat): Tree { if e == 0 then WHOLE else REPAIRED }

  function Hosts(sig: Sig): set<nat> { {2, 3} }

  function Dvm(): Config { Config({0, 1, 2, 3}, TreeAt, Hosts) }

  lemma DvmValid()
    ensures Dvm().Valid() && Shrinks(Dvm())
  {
    forall e: nat ensures TreeAt(e).Valid() && TreeAt(e).living <= {0, 1, 2, 3} { }
  }

  /** Daemon 1 has participant 2 below it in the first tree, and nobody in the second. */
  lemma RelayEmptied(sig: Sig)
    ensures Dvm().Valid() && Relays(Dvm(), 0, 1, sig) && !Relays(Dvm(), 1, 1, sig) && Dvm().Part(1, sig) == {3}
  {
    DvmValid();
    assert WHOLE.Below(2, 1) && 2 in Due(Dvm(), 0, 1, sig);
    assert !REPAIRED.Below(0, 1) && !REPAIRED.Below(3, 1);
    assert Due(Dvm(), 1, 1, sig) == {};
  }

  /** A fence can succeed, at the second tree, without daemon 3. */
  lemma SuccessWithoutParticipant(sig: Sig) returns (s: State, r: Release)
    ensures Dvm().Valid() && Shrinks(Dvm()) && Reachable(Dvm(), s)
    ensures r in s.log && r.status == Success && r.key.sig == sig
    ensures 3 in Dvm().Part(r.epoch, sig) && 3 !in r.arrived
  {
    DvmValid();
    RelayEmptied(sig);
    s, r := EmptiedRelayFails(Dvm(), 1, 0, 1, sig);
  }
}
