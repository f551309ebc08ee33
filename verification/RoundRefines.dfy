/** The bounded list of numbers stamps what the fence's step system stamps. */
module RoundRefines {
  import opened Fence
  import opened FenceSystem
  import opened FenceRuns
  import opened Generations
  import opened RoundNumbers

  function Ends(log: seq<Release>): (es: seq<Ended>)
    ensures |es| == |log| && forall i :: 0 <= i < |log| ==> es[i] == Ended(log[i].key.sig, log[i].key.gen)
  {
    seq(|log|, i requires 0 <= i < |log| => Ended(log[i].key.sig, log[i].key.gen))
  }

  lemma {:induction false} CountIsRounds(log: seq<Release>, n: nat, sig: Sig)
    requires n <= |log|
    ensures Generations.Rounds(Ends(log)[..n], sig) == Count(log, n, sig)
  {
    if n > 0 {
      CountIsRounds(log, n - 1, sig);
      assert Ends(log)[..n][..n - 1] == Ends(log)[..n - 1];
    }
  }

  /** On any run over at most 64 signatures and short of 2^32 - 1 releases, the
      list a daemon keeps gives the round number the fence takes it to be at. */
  lemma ListStampsTheRound(cfg: Config, s: State, d: nat, sigs: set<Sig>, sig: Sig)
    requires cfg.Valid() && Reachable(cfg, s) && d in s.ds
    requires |sigs| <= MEMO_MAX && |s.log| < UNKNOWN && forall r :: r in s.log ==> r.key.sig in sigs
    ensures s.ds[d].seen <= |s.log|
    ensures NextGen(false, Process(Ends(s.log)[..s.ds[d].seen]), sig) == GenNext(s.ds[d], sig)
  {
    ReachableKeeps(cfg, s);
    ListCounts(s.log, s.ds[d], sigs, sig);
  }

  lemma ListCounts(log: seq<Release>, d: Daemon, sigs: set<Sig>, sig: Sig)
    requires LogOrdered(log) && InStep(log, d)
    requires |sigs| <= MEMO_MAX && |log| < UNKNOWN && forall r :: r in log ==> r.key.sig in sigs
    ensures NextGen(false, Process(Ends(log)[..d.seen]), sig) == GenNext(d, sig)
  {
    EndsInOrder(log);
    InOrderPrefix(Ends(log), d.seen);
    FounderNumber(Ends(log)[..d.seen], sigs, sig, 0);
    CountIsRounds(log, d.seen, sig);
  }

  lemma EndsInOrder(log: seq<Release>)
    requires LogOrdered(log) && |log| < UNKNOWN
    ensures InOrder(Ends(log))
  {
    forall i | 0 <= i < |log| ensures InOrderAt(Ends(log), i) {
      assert OrderedAt(log, i);
      CountIsRounds(log, i, log[i].key.sig);
    }
  }
}
