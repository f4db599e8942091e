/** How states grow, and what the invariants say together. */
module Consequences {
  import opened Logs
  import opened Cluster
  import opened Invariants

  // ---------------------------------------------------------------- quorums

  lemma QuorumsMeet(ids: set<Id>, a: set<Id>, b: set<Id>) returns (q: Id)
    requires Quorum(ids, a) && Quorum(ids, b)
    ensures q in a && q in b
  {
    if a * b == {} {
      assert |a + b| == |a| + |b|;
      SubsetSize(a + b, ids);
      assert false;
    }
    q :| q in a * b;
  }

  lemma {:induction false} SubsetSize<T>(a: set<T>, b: set<T>)
    requires a <= b
    ensures |a| <= |b|
  {
    if a != {} {
      var x :| x in a;
      SubsetSize(a - {x}, b - {x});
    }
  }

  // ---------------------------------------------------------------- growth

  ghost predicate SameReign(r: Reign, r2: Reign) {
    r2.leader == r.leader && r2.base == r.base && r2.voters == r.voters && r.log <= r2.log
  }

  ghost predicate AckGrows(s: State, s2: State, q: Id, t: nat) {
    && Ack(s, q, t) <= Ack(s2, q, t)
    && (Ack(s, q, t) < Ack(s2, q, t) ==> q in s.nodes && s.nodes[q].term <= t)
  }

  /** What no step ever takes back. */
  ghost predicate Extends(s: State, s2: State) {
    && s2.nodes.Keys == s.nodes.Keys
    && (forall p :: p in s.nodes ==> s.nodes[p].term <= s2.nodes[p].term)
    && (forall t :: t in s.reigns ==> t in s2.reigns && SameReign(s.reigns[t], s2.reigns[t]))
    && (forall q, t :: AckGrows(s, s2, q, t))
    && s.voteRequests <= s2.voteRequests && s.votes <= s2.votes
    && s.appends <= s2.appends && s.replies <= s2.replies
    && s.snapshots <= s2.snapshots && s.installed <= s2.installed
    && s.calls <= s2.calls
  }

  /** One node changed without lowering its term, and messages were added. */
  lemma ExtendsByNode(s: State, s2: State, p: Id)
    requires p in s.nodes && p in s2.nodes && s2.nodes == s.nodes[p := s2.nodes[p]]
    requires s.nodes[p].term <= s2.nodes[p].term
    requires s2.reigns == s.reigns && s2.acks == s.acks
    requires s.voteRequests <= s2.voteRequests && s.votes <= s2.votes
    requires s.appends <= s2.appends && s.replies <= s2.replies
    requires s.snapshots <= s2.snapshots && s.installed <= s2.installed && s.calls <= s2.calls
    ensures Extends(s, s2)
  {}

  lemma ChoosableEarlier(s: State, s2: State, t: nat, k: nat)
    requires Extends(s, s2) && Choosable(s2, t, k)
    ensures Choosable(s, t, k)
  {
    var q :| MayAck(s2, q, t, k);
    assert MayAck(s, q, t, k) by {
      forall p | p in q
        ensures Ack(s, p, t) >= k || s.nodes[p].term <= t
      {
        assert AckGrows(s, s2, p, t);
      }
    }
  }

  lemma ChosenStays(s: State, s2: State, t: nat, k: nat)
    requires Extends(s, s2) && Chosen(s, t, k)
    ensures Chosen(s2, t, k)
  {
    var q :| AckedBy(s, q, t, k);
    assert AckedBy(s2, q, t, k) by {
      forall p | p in q
        ensures Ack(s2, p, t) >= k
      {
        assert AckGrows(s, s2, p, t);
      }
    }
  }

  lemma CommittedStays(s: State, s2: State, log: seq<Entry>, t: nat, t2: nat)
    requires Extends(s, s2) && IsCommitted(s, log, t) && t <= t2
    ensures IsCommitted(s2, log, t2)
  {
    if log != [] {
      var u: nat, k: nat :| Commits(s, log, t, u, k);
      ChosenStays(s, s2, u, k);
      assert Commits(s2, log, t2, u, k);
    }
  }

  lemma CommittedPrefix(s: State, log: seq<Entry>, t: nat, k: nat)
    requires IsCommitted(s, log, t) && k <= |log|
    ensures IsCommitted(s, log[..k], t)
  {
    if k > 0 {
      var u: nat, j: nat :| Commits(s, log, t, u, j);
      assert Commits(s, log[..k], t, u, j);
    }
  }

  lemma ChosenIsChoosable(s: State, t: nat, k: nat)
    requires Chosen(s, t, k)
    ensures Choosable(s, t, k)
  {
    var q :| AckedBy(s, q, t, k);
    assert MayAck(s, q, t, k);
  }

  // ---------------------------------------------------------------- committed logs and leaders

  /** What terms up to `t` committed is in the log of the leader of any term from `t` on, and
      below the log it was elected with if that term is later. */
  lemma CommittedInReign(s: State, log: seq<Entry>, t: nat, u: nat)
    requires ReignsOk(s) && Complete(s)
    requires IsCommitted(s, log, t) && u in s.reigns && t <= u
    ensures log <= s.reigns[u].log
    ensures t < u ==> |log| <= s.reigns[u].base
  {
    if log != [] {
      var v: nat, k: nat :| Commits(s, log, t, v, k);
      if v < u {
        ChosenIsChoosable(s, v, k);
        assert Carries(s, u, v, k);
        AgreeLower(s.reigns[u].log, s.reigns[v].log, k, |log|);
        AgreeTerm(s.reigns[u].log, s.reigns[v].log, k, k);
        assert ReignOk(s, u) && ReignOk(s, v);
        assert EntryOk(s, v, k) && EntryOk(s, u, k);
      }
    }
  }

  /** Any two committed logs are comparable, whichever terms committed them. */
  lemma CommittedComparable(s: State, a: seq<Entry>, t: nat, b: seq<Entry>, u: nat)
    requires ReignsOk(s) && Complete(s)
    requires IsCommitted(s, a, t) && IsCommitted(s, b, u)
    ensures a <= b || b <= a
  {
    if a != [] && b != [] {
      var v: nat, k: nat :| Commits(s, a, t, v, k);
      var w: nat, j: nat :| Commits(s, b, u, w, j);
      assert Commits(s, a, v, v, k) && Commits(s, b, w, w, j);
      if v <= w {
        CommittedInReign(s, a, v, w);
      } else {
        CommittedInReign(s, b, w, v);
      }
    }
  }

  /** A node agrees with the leader of its term through its commit index. */
  lemma CommitAgrees(s: State, p: Id)
    requires ReignsOk(s) && Complete(s) && p in s.nodes && NodeOk(s, p, s.nodes[p])
    requires s.nodes[p].term in s.reigns
    ensures Agree(s.nodes[p].log, s.reigns[s.nodes[p].term].log, s.nodes[p].commit)
  {
    var n := s.nodes[p];
    CommittedInReign(s, n.log[..n.commit], n.term, n.term);
  }

  /** The commit index of a node that has yet to reach term `t` lies in the log that term's
      leader was elected with. */
  lemma CommitBelowBase(s: State, p: Id, t: nat)
    requires ReignsOk(s) && Complete(s) && p in s.nodes && NodeOk(s, p, s.nodes[p])
    requires t in s.reigns && s.nodes[p].term < t
    ensures s.nodes[p].commit <= s.reigns[t].base
  {
    var n := s.nodes[p];
    CommittedInReign(s, n.log[..n.commit], n.term, t);
  }

  /** Log matching against a leader: equal terms at an index above the agreed snapshot mean equal
      logs through that index. */
  lemma MatchAgrees(s: State, n: Node, t: nat, k: nat)
    requires ReignsOk(s) && t in s.reigns
    requires Agree(n.log, s.reigns[t].log, n.snap)
    requires n.snap <= k <= |n.log| && k <= |s.reigns[t].log|
    requires n.snap < k ==> StoredOk(s, n, k)
    requires TermAt(n.log, k) == TermAt(s.reigns[t].log, k)
    ensures Agree(n.log, s.reigns[t].log, k)
  {
    if n.snap < k {
      var u := TermAt(n.log, k);
      var log := s.reigns[t].log;
      assert ReignOk(s, t) && EntryOk(s, t, k);
      AgreeStretch(log, s.reigns[u].log, n.snap, k);
      AgreeJoin(n.log, log, n.snap, k);
    }
  }

  /** Terms never fall along the part of a log that is still stored. */
  lemma StoredSorted(s: State, n: Node, j: nat, k: nat)
    requires ReignsOk(s) && n.snap < j <= k <= |n.log| && StoredOk(s, n, k)
    ensures TermAt(n.log, j) <= TermAt(n.log, k)
    ensures TermAt(n.log, k) >= 1
    ensures n.log[j - 1] == s.reigns[TermAt(n.log, k)].log[j - 1]
  {
    var u := TermAt(n.log, k);
    var log := s.reigns[u].log;
    assert ReignOk(s, u);
    assert n.log[j - 1] == n.log[n.snap..k][j - 1 - n.snap];
    assert log[j - 1] == log[n.snap..k][j - 1 - n.snap];
    assert n.log[k - 1] == n.log[n.snap..k][k - 1 - n.snap];
    assert log[k - 1] == log[n.snap..k][k - 1 - n.snap];
    assert TermAt(log, j) <= TermAt(log, k);
  }

  /** An entry of a term that has been won is in that leader's log. */
  lemma OwnTermEntry(s: State, n: Node, k: nat)
    requires ReignsOk(s) && n.commit <= |n.log| && IsCommitted(s, n.log[..n.commit], n.term) && n.snap <= n.commit
    requires 1 <= k <= |n.log| && (n.snap < k ==> StoredOk(s, n, k))
    ensures TermAt(n.log, k) in s.reigns && k <= |s.reigns[TermAt(n.log, k)].log|
    ensures 1 <= TermAt(n.log, k) <= n.term
  {
    if k <= n.snap {
      var log := n.log[..n.commit];
      var u: nat, j: nat :| Commits(s, log, n.term, u, j);
      assert log[k - 1] == n.log[k - 1];
      assert ReignOk(s, u) && EntryOk(s, u, k);
    } else {
      StoredSorted(s, n, k, k);
    }
  }

  lemma NodeIsOk(s: State, p: Id)
    requires NodesOk(s) && p in s.nodes
    ensures NodeOk(s, p, s.nodes[p])
  {}

  lemma NodesInv(s: State, p: Id)
    requires Inv(s) && p in s.nodes
    ensures NodesOk(s) && NodeOk(s, p, s.nodes[p])
  {}
}
