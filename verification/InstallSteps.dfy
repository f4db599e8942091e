/** A follower installs a snapshot, keeping whatever its log holds above it. */
module InstallSteps {
  import opened Logs
  import opened Cluster
  import opened Invariants
  import opened Consequences
  import opened Frames
  import opened FollowerFrame
  import opened AppendSteps

  /** Effective installs never go backwards: a snapshot that passes the staleness guard is at
      least as far as everything the follower committed or applied. */
  lemma InstallForward(s: State, p: Id, r: SnapshotRequest)
    requires NodesOk(s) && MessagesOk(s) && CanInstall(s, p, r) && s.nodes[p].snap < r.Index()
    ensures s.nodes[p].applied <= s.nodes[p].commit <= r.Index()
    ensures Installed(s.nodes[p], r).applied == Installed(s.nodes[p], r).disk == r.Index()
  {
    assert NodeOk(s, p, s.nodes[p]) && SnapshotOk(s, r);
  }

  // ---------------------------------------------------------------- the kept tail

  /** The overlay is the old log, the snapshot alone, or the snapshot under a left-over tail that
      disagrees with the leader from its first entry on. */
  lemma OverlayImproves(log: seq<Entry>, leader: seq<Entry>, history: seq<Entry>, from: nat)
    requires history <= leader && from < |history| && TermsDecide(log, leader, from)
    ensures Agree(Overlay(log, history), leader, |history|)
    ensures Agree(log, leader, |history|) ==> Overlay(log, history) == log
    ensures !Agree(log, leader, |history|) && |log| > |history| ==>
              !Agree(Overlay(log, history), leader, |history| + 1)
    ensures Improves(log, Overlay(log, history), leader, |history|)
  {
    var i, log2 := |history|, Overlay(log, history);
    assert log2[..i] == history == leader[..i];
    if Agree(log, leader, i) {
      assert log == log[..i] + log[i..];
    } else if |log| <= i {
      if Agree(log, leader, i + 1) {
        assert false;
      }
      ImprovesToPrefix(log, leader, i, i);
      assert log2 == leader[..i];
    } else {
      TailImproves(log, leader, history, from);
    }
  }

  lemma SameEntryAgrees(log: seq<Entry>, log2: seq<Entry>, leader: seq<Entry>, i: nat, from: nat)
    requires from <= i < |log| && i < |log2| && log2[i] == log[i] && TermsDecide(log, leader, from)
    requires Agree(log2, leader, i + 1)
    ensures Agree(log, leader, i)
  {
    AgreeTerm(log2, leader, i + 1, i + 1);
    assert TermAt(log, i + 1) == TermAt(leader, i + 1);
    AgreeLower(log, leader, i + 1, i);
  }

  lemma TailImproves(log: seq<Entry>, leader: seq<Entry>, history: seq<Entry>, from: nat)
    requires history <= leader && from < |history| < |log| && TermsDecide(log, leader, from)
    requires !Agree(log, leader, |history|)
    ensures !Agree(Overlay(log, history), leader, |history| + 1)
    ensures Improves(log, Overlay(log, history), leader, |history|)
  {
    var i, log2 := |history|, Overlay(log, history);
    assert log2[..i] == history == leader[..i];
    if Agree(log2, leader, i + 1) {
      SameEntryAgrees(log, log2, leader, i, from);
    }
    forall x: nat | Agree(log2, leader, x)
      ensures x <= i
    {
      if x > i {
        AgreeLower(log2, leader, x, i + 1);
      }
    }
    forall x: nat | Agree(log, leader, x)
      ensures Agree(log2, leader, x)
    {
      if x > i {
        AgreeLower(log, leader, x, i);
      } else {
        AgreeLower(log2, leader, i, x);
      }
    }
    forall j: nat | 1 <= j <= |log2|
      ensures Agree(log2, leader, j) || (j <= |log| && TermAt(log2, j) == TermAt(log, j))
    {
      if j <= i {
        AgreeLower(log2, leader, i, j);
      }
    }
  }

  // ---------------------------------------------------------------- the step

  lemma InstallKeeps(s: State, p: Id, r: SnapshotRequest)
    requires Inv(s) && CanInstall(s, p, r)
    ensures Inv(DoInstall(s, p, r))
  {
    if r.Index() <= s.nodes[p].snap {
      StaleKeeps(s, p, r);
    } else {
      EffectiveKeeps(s, p, r);
    }
  }

  lemma StaleKeeps(s: State, p: Id, r: SnapshotRequest)
    requires Inv(s) && CanInstall(s, p, r) && r.Index() <= s.nodes[p].snap
    ensures Inv(DoInstall(s, p, r))
  {
    hide ReignsOk, VotesOk, AcksOk, Complete, Extends, PairOk, NodeOk;
    hide AppendOk, ReplyOk, SnapshotOk, SnapshotPairOk, InstalledOk;
    var s2 := DoInstall(s, p, r);
    assert s2.nodes == s.nodes[p := s.nodes[p]];
    QuietByNode(s, s2, p);
    CoreKept(s, s2);
    LeadersInReigns(s);
    StaleNode(s, s2, p);
    NodesKept(s, s2, p);
    MessagesQuiet(s, s2);
    StaleInstalled(s, s2, p, r);
    PairsOfOthers(s, s2, p);
  }

  lemma StaleNode(s: State, s2: State, p: Id)
    requires NodesOk(s) && p in s.nodes && s.nodes[p].role == Follower && Extends(s, s2)
    requires s2.nodes[p] == s.nodes[p]
    ensures NodeOk(s2, p, s2.nodes[p])
  {
    assert NodeOk(s, p, s.nodes[p]);
    NodeKept(s, s2, p, s.nodes[p]);
  }

  lemma StaleInstalled(s: State, s2: State, p: Id, r: SnapshotRequest)
    requires CanInstall(s, p, r) && s2.snapshots == s.snapshots && p in s2.nodes
    requires s2.nodes[p].term == s.nodes[p].term && r.Index() <= s2.nodes[p].snap
    ensures InstalledOk(s2, r)
  {}

  lemma EffectiveLog(s: State, p: Id, r: SnapshotRequest)
    requires ReignsOk(s) && Complete(s) && NodesOk(s) && SnapshotOk(s, r) && CanInstall(s, p, r)
    requires s.nodes[p].snap < r.Index()
    ensures var n, leader := s.nodes[p], s.reigns[r.term].log;
            var log2 := Overlay(n.log, r.history);
            && Agree(log2, leader, r.Index())
            && (Agree(n.log, leader, r.Index()) ==> log2 == n.log)
            && Improves(n.log, log2, leader, r.Index())
  {
    hide ReignsOk, Complete, Improves;
    var n := s.nodes[p];
    assert NodeOk(s, p, n);
    TermsDecideNode(s, p);
    OverlayImproves(n.log, s.reigns[r.term].log, r.history, n.snap);
  }

  lemma EffectiveStep(s: State, p: Id, r: SnapshotRequest)
    requires ReignsOk(s) && Complete(s) && NodesOk(s) && SnapshotOk(s, r) && CanInstall(s, p, r)
    requires s.nodes[p].snap < r.Index()
    ensures FollowerStep(s, DoInstall(s, p, r), p) && AnswersOwn(s, DoInstall(s, p, r), p)
  {
    hide ReignsOk, Complete, NodesOk, Improves;
    EffectiveLog(s, p, r);
  }

  lemma EffectiveNode(s: State, s2: State, p: Id, r: SnapshotRequest)
    requires ReignsOk(s) && Complete(s) && NodesOk(s) && MessagesOk(s) && CanInstall(s, p, r)
    requires s.nodes[p].snap < r.Index() && Extends(s, s2) && s2.reigns == s.reigns
    ensures NodeOk(s2, p, Installed(s.nodes[p], r))
  {
    hide Extends, ReignsOk, Complete;
    var n, n2 := s.nodes[p], Installed(s.nodes[p], r);
    assert NodeOk(s, p, n) && SnapshotOk(s, r);
    InstallForward(s, p, r);
    EffectiveLog(s, p, r);
    CommittedStays(s, s2, r.history, r.term, r.term);
    assert n2.log[..r.Index()] == r.history;
    forall k | n2.snap < k <= |n2.log|
      ensures StoredOk(s2, n2, k)
    {
      assert StoredOk(s, n, k);
      KeptStored(s, s2, n, n2, k);
    }
  }

  /** Entries kept above the snapshot still come from the leader that wrote them. */
  lemma KeptStored(s: State, s2: State, n: Node, n2: Node, k: nat)
    requires n.snap < n2.snap < k <= |n.log| && StoredOk(s, n, k) && s2.reigns == s.reigns
    requires |n2.log| == |n.log| && n2.log[n2.snap..] == n.log[n2.snap..] && n2.term == n.term
    ensures StoredOk(s2, n2, k)
  {
    assert n2.log[k - 1] == n2.log[n2.snap..][k - 1 - n2.snap];
    assert n.log[k - 1] == n.log[n2.snap..][k - 1 - n2.snap];
    var log := s.reigns[TermAt(n.log, k)].log;
    assert n2.log[n2.snap..k] == n2.log[n2.snap..][..k - n2.snap];
    assert n.log[n2.snap..k] == n.log[n2.snap..][..k - n2.snap];
    assert n.log[n2.snap..k] == n.log[n.snap..k][n2.snap - n.snap..];
    assert log[n2.snap..k] == log[n.snap..k][n2.snap - n.snap..];
  }

  lemma EffectiveKeeps(s: State, p: Id, r: SnapshotRequest)
    requires Inv(s) && CanInstall(s, p, r) && s.nodes[p].snap < r.Index()
    ensures Inv(DoInstall(s, p, r))
  {
    hide ReignsOk, VotesOk, AcksOk, Complete, Extends, PairsOk, NodeOk, FollowerStep, AnswersOwn;
    hide AppendOk, ReplyOk, SnapshotOk, SnapshotPairOk;
    var s2 := DoInstall(s, p, r);
    assert SnapshotOk(s, r);
    SnapshotTerm(s, r);
    EffectiveStep(s, p, r);
    FollowerExtends(s, s2, p);
    EffectiveNode(s, s2, p, r);
    FollowerCore(s, s2, p);
    LeadersInReigns(s);
    NodesKept(s, s2, p);
    EffectiveCaps(s, p, r);
    FollowerMessages(s, s2, p);
    EffectivePairs(s, p, r);
  }

  lemma SnapshotTerm(s: State, r: SnapshotRequest)
    requires SnapshotOk(s, r)
    ensures r.term in s.reigns
  {}

  lemma EffectiveCaps(s: State, p: Id, r: SnapshotRequest)
    requires NodesOk(s) && MessagesOk(s) && CanInstall(s, p, r) && s.nodes[p].snap < r.Index()
    requires r.term in s.reigns
    ensures CapsKept(s, DoInstall(s, p, r), p)
  {
    hide NodesOk;
    var s2 := DoInstall(s, p, r);
    InstallForward(s, p, r);
    forall x | x in s.snapshots && x.to == p && x.term == r.term && s2.nodes[p].snap < x.Index()
      ensures Capped(s2, p, r.term, x.Index())
    {
      assert SnapshotPairOk(s, r, x);
      assert CommitsUpTo(s2, p, r.term, x.Index());
    }
  }

  lemma EffectivePairs(s: State, p: Id, r: SnapshotRequest)
    requires ReignsOk(s) && Complete(s) && NodesOk(s) && MessagesOk(s) && PairsOk(s) && CanInstall(s, p, r)
    requires s.nodes[p].snap < r.Index() && SnapshotOk(s, r)
    ensures PairsOk(DoInstall(s, p, r))
  {
    hide ReignsOk, Complete, NodesOk, MessagesOk, FollowerStep, AnswersOwn, SnapshotOk, PairOk;
    var s2 := DoInstall(s, p, r);
    EffectiveStep(s, p, r);
    forall l, q | IsLeader(s2, l) && IsPeer(s2, l, q)
      ensures PairOk(s2, l, q)
    {
      assert PairOk(s, l, q);
      if q == p && s.nodes[l].term == s.nodes[p].term {
        EffectivePair(s, p, r, l);
      } else {
        FollowerOtherPair(s, s2, p, l, q);
      }
    }
  }

  lemma EffectivePair(s: State, p: Id, r: SnapshotRequest, l: Id)
    requires ReignsOk(s) && Complete(s) && NodesOk(s) && MessagesOk(s) && CanInstall(s, p, r)
    requires s.nodes[p].snap < r.Index() && SnapshotOk(s, r)
    requires l != p && PairOk(s, l, p) && s.nodes[l].term == r.term
    ensures PairOk(DoInstall(s, p, r), l, p)
  {
    hide ReignsOk, Complete, MessagesOk, FollowerStep, AnswersOwn, SnapshotOk;
    hide ProgressOk, PassedOk, ConfirmedOk;
    var s2, n, t := DoInstall(s, p, r), s.nodes[l], r.term;
    assert NodeOk(s, l, n);
    InstallForward(s, p, r);
    EffectiveStep(s, p, r);
    EffectiveLog(s, p, r);
    assert ShippedOk(s, l, p, r);
    AgreeLower(s2.nodes[p].log, s.reigns[t].log, r.Index(), NextIndex(n, p) - 1);
    FollowerProgress(s, s2, p, l);
    if s2.nodes[p].snap < n.snap {
      assert CommitsUpTo(s2, p, t, n.snap);
    }
    FollowerSent(s, s2, p, l);
    assert WaitingOk(s2, l, p);
  }
}
