/**
 Raft without its mechanics: full logs, persisted terms, and the history of elections, votes and
 acknowledgements.  Five transitions change this history; they keep `Inv`, and `Inv` alone gives
 log matching, and that every later leader was elected with every committed entry in its log.
 */
module RaftCore {
  import opened Sequences

  datatype LogEntry = LogEntry(term: nat, command: Option<int>)

  type Log = seq<LogEntry>

  /** The entry at index 0 of every full log. */
  const Sentinel := LogEntry(0, None)

  /** An election: the winner, its log at that moment, and the counted voters with theirs. */
  datatype Election = Election(leader: nat, log: Log, voters: map<nat, Log>)

  /** A vote granted: to whom, and the voter's log at that moment. */
  datatype Grant = Grant(candidate: nat, log: Log)

  datatype Core = Core(
    n: nat,
    logs: seq<Log>,                       // each server's full log
    pterm: seq<nat>,                      // each server's persisted term
    elect: map<nat, Election>,            // by term
    llog: map<nat, Log>,                  // the leader's log of each term, as far as it got
    grants: map<(nat, nat), Grant>,       // by (voter, term)
    acks: map<(nat, nat), nat>)           // by (server, term): leader log held up to this index

  // ----- logs

  function LastTerm(l: Log): nat
    requires l != []
  {
    l[|l| - 1].term
  }

  predicate UpToDate(a: Log, b: Log)
    requires a != [] && b != []
  {
    LastTerm(a) > LastTerm(b) || (LastTerm(a) == LastTerm(b) && |a| >= |b|)
  }

  /** Every entry came from the leader of its term, and so did everything before it. */
  ghost predicate Origin(c: Core, l: Log)
  {
    forall j :: 0 < j < |l| ==> l[j].term in c.llog && l[..j + 1] <= c.llog[l[j].term]
  }

  ghost predicate Ordered(l: Log)
  {
    forall i, j :: 0 <= i <= j < |l| ==> l[i].term <= l[j].term
  }

  ghost predicate GoodLog(c: Core, l: Log)
  {
    && l != [] && l[0] == Sentinel
    && Origin(c, l) && Ordered(l)
    && forall j :: 0 < j < |l| ==> l[j].term > 0
  }

  // ----- quorums

  ghost predicate IsQuorum(n: nat, q: set<nat>)
  {
    2 * |q| > n && forall i :: i in q ==> i < n
  }

  lemma QuorumsMeet(n: nat, a: set<nat>, b: set<nat>) returns (i: nat)
    requires IsQuorum(n, a) && IsQuorum(n, b)
    ensures i in a && i in b
  {
    if a * b == {} {
      assert |a + b| == |a| + |b|;
      BelowCard(n);
      SubsetCard(a + b, Below(n));
      assert false;
    }
    i :| i in a * b;
  }

  // ----- acknowledged prefixes

  /** Some leader elected after term `t`, up to term `bound`, was elected without `p`. */
  ghost predicate Superseded(c: Core, p: Log, t: nat, bound: nat)
  {
    exists u :: t < u <= bound && u in c.elect && !(p <= c.elect[u].log)
  }

  ghost predicate AckInRange(c: Core, i: nat, t: nat)
  {
    (i, t) in c.acks && t in c.llog && c.acks[(i, t)] < |c.llog[t]|
  }

  /** `l` still has the first `k + 1` entries of the leader log of term `t`, unless superseded. */
  ghost predicate Keeps(c: Core, t: nat, k: nat, l: Log, bound: nat)
    requires t in c.llog && k < |c.llog[t]|
  {
    c.llog[t][..k + 1] <= l || Superseded(c, c.llog[t][..k + 1], t, bound)
  }

  /** Every prefix of the leader log of term `t` that server `i` acknowledged is kept by `l`. */
  ghost predicate KeepsAcked(c: Core, i: nat, t: nat, l: Log, bound: nat)
    requires AckInRange(c, i, t)
  {
    forall k: nat :: k <= c.acks[(i, t)] ==> Keeps(c, t, k, l, bound)
  }

  ghost predicate AckOk(c: Core, i: nat, t: nat)
    requires (i, t) in c.acks && |c.logs| == |c.pterm| == c.n
  {
    && i < c.n && t <= c.pterm[i] && AckInRange(c, i, t)
    && KeepsAcked(c, i, t, c.logs[i], c.pterm[i])
  }

  // ----- the invariant

  ghost predicate LogOk(c: Core, i: nat)
    requires i < |c.logs| == |c.pterm|
  {
    && GoodLog(c, c.logs[i])
    && forall j :: 0 <= j < |c.logs[i]| ==> c.logs[i][j].term <= c.pterm[i]
  }

  ghost predicate ElectOk(c: Core, u: nat)
    requires u in c.elect && |c.pterm| == c.n
  {
    var e := c.elect[u];
    && u > 0 && e.leader < c.n
    && u in c.llog && e.log <= c.llog[u] && GoodLog(c, e.log) && GoodLog(c, c.llog[u])
    && (forall j :: 0 <= j < |e.log| ==> e.log[j].term < u)
    && (forall j :: |e.log| <= j < |c.llog[u]| ==> c.llog[u][j].term == u)
    && IsQuorum(c.n, e.voters.Keys)
    && forall i {:trigger VoterOk(c, u, i)} :: i in e.voters ==> VoterOk(c, u, i)
  }

  ghost predicate VoterOk(c: Core, u: nat, i: nat)
    requires u in c.elect && i in c.elect[u].voters && |c.pterm| == c.n
  {
    var l := c.elect[u].voters[i];
    && i < c.n && u <= c.pterm[i]
    && (i, u) in c.grants && c.grants[(i, u)].candidate == c.elect[u].leader
    && l != [] && GoodLog(c, l) && c.elect[u].log != [] && UpToDate(c.elect[u].log, l)
    && forall t: nat {:trigger AckInRange(c, i, t)} :: AckInRange(c, i, t) && t < u ==> KeepsAcked(c, i, t, l, u - 1)
  }

  ghost predicate GrantOk(c: Core, i: nat, u: nat)
    requires (i, u) in c.grants && |c.pterm| == c.n
  {
    var g := c.grants[(i, u)];
    && i < c.n && u <= c.pterm[i] && GoodLog(c, g.log)
    && g.candidate < c.n && u <= c.pterm[g.candidate]
    && forall t: nat {:trigger AckInRange(c, i, t)} :: AckInRange(c, i, t) && t < u ==> KeepsAcked(c, i, t, g.log, u)
  }

  ghost predicate Inv(c: Core)
  {
    && |c.logs| == |c.pterm| == c.n
    && c.elect.Keys == c.llog.Keys
    && (forall i: nat {:trigger LogOk(c, i)} :: i < c.n ==> LogOk(c, i))
    && (forall u {:trigger ElectOk(c, u)} :: u in c.elect ==> ElectOk(c, u))
    && (forall i, t {:trigger AckOk(c, i, t)} :: (i, t) in c.acks ==> AckOk(c, i, t))
    && (forall i, u {:trigger GrantOk(c, i, u)} :: (i, u) in c.grants ==> GrantOk(c, i, u))
  }

  // ----- log matching

  /** Two good logs that agree on the term at an index agree on everything up to it. */
  lemma LogMatching(c: Core, a: Log, b: Log, j: nat)
    requires GoodLog(c, a) && GoodLog(c, b) && j < |a| && j < |b| && a[j].term == b[j].term
    ensures a[..j + 1] == b[..j + 1]
  {
    if j == 0 {
      assert a[..1] == [Sentinel] == b[..1];
    }
  }

  // ----- election safety

  /** Whoever has the votes of a quorum in a term is the leader of that term, if there is one. */
  lemma OneWinner(c: Core, u: nat, candidate: nat, q: set<nat>)
    requires Inv(c) && u in c.elect && IsQuorum(c.n, q)
    requires forall i :: i in q ==> (i, u) in c.grants && c.grants[(i, u)].candidate == candidate
    ensures candidate == c.elect[u].leader
  {
    assert ElectOk(c, u);
    var i := QuorumsMeet(c.n, q, c.elect[u].voters.Keys);
    assert VoterOk(c, u, i);
  }

  // ----- leader completeness

  ghost predicate AckedBy(c: Core, t: nat, k: nat, q: set<nat>)
  {
    forall i :: i in q ==> (i, t) in c.acks && c.acks[(i, t)] >= k
  }

  /** Entry `k` of the leader log of term `t` is committed: it is of that term and a quorum has it. */
  ghost predicate Committed(c: Core, t: nat, k: nat)
  {
    && t in c.llog && k < |c.llog[t]| && c.llog[t][k].term == t
    && exists q :: IsQuorum(c.n, q) && AckedBy(c, t, k, q)
  }

  lemma PrefixTrans(a: Log, b: Log, d: Log)
    requires a <= b <= d
    ensures a <= d
  {}

  lemma PrefixesNest(a: Log, b: Log, l: Log)
    requires a <= l && b <= l && |a| <= |b|
    ensures a <= b
  {}

  /** The winner's log, at least as up to date as a voter's log that has the entry, has it too. */
  lemma WinnerHas(c: Core, u: nat, i: nat, t: nat, k: nat)
    requires Inv(c) && u in c.elect && i in c.elect[u].voters && 0 < t < u
    requires t in c.llog && k < |c.llog[t]| && c.llog[t][k].term == t
    requires c.llog[t][..k + 1] <= c.elect[u].voters[i]
    requires forall u' :: t < u' < u && u' in c.elect ==> c.llog[t][..k + 1] <= c.elect[u'].log
    ensures c.llog[t][..k + 1] <= c.elect[u].log
  {
    var p := c.llog[t][..k + 1];
    var w := c.elect[u].log;
    var v := c.elect[u].voters[i];
    assert ElectOk(c, u) && VoterOk(c, u, i);
    assert v[k] == p[k];
    var s := LastTerm(w);
    var last: nat := |w| - 1;
    assert LastTerm(v) >= t;
    assert last > 0;
    assert w[..last + 1] == w;
    assert w <= c.llog[s];
    if s == LastTerm(v) {
      assert v[..|v|] == v;
      assert v <= c.llog[s];
      PrefixesNest(v, w, c.llog[s]);
      PrefixTrans(p, v, w);
    } else {
      assert ElectOk(c, s);
      assert t < s < u;
      assert p <= c.elect[s].log;
      PrefixTrans(p, c.elect[s].log, c.llog[s]);
      assert c.llog[s][last] == w[last];
      assert last >= |c.elect[s].log|;
      PrefixesNest(p, w, c.llog[s]);
    }
  }

  /** Every leader of a later term was elected with every committed entry in its log. */
  lemma {:induction false} LeaderCompleteness(c: Core, t: nat, k: nat, u: nat)
    requires Inv(c) && Committed(c, t, k) && u in c.elect && t < u
    ensures c.llog[t][..k + 1] <= c.elect[u].log
    decreases u
  {
    forall u' | t < u' < u && u' in c.elect ensures c.llog[t][..k + 1] <= c.elect[u'].log {
      LeaderCompleteness(c, t, k, u');
    }
    assert ElectOk(c, t) && ElectOk(c, u);
    var q :| IsQuorum(c.n, q) && AckedBy(c, t, k, q);
    var i := QuorumsMeet(c.n, q, c.elect[u].voters.Keys);
    VoterKept(c, t, k, u, i);
    WinnerHas(c, u, i, t, k);
  }

  lemma VoterKept(c: Core, t: nat, k: nat, u: nat, i: nat)
    requires Inv(c) && u in c.elect && t < u && i in c.elect[u].voters
    requires (i, t) in c.acks && t in c.llog && k <= c.acks[(i, t)] && k < |c.llog[t]|
    requires forall u' :: t < u' < u && u' in c.elect ==> c.llog[t][..k + 1] <= c.elect[u'].log
    requires c.llog[t][k].term == t
    ensures c.llog[t][..k + 1] <= c.elect[u].voters[i]
  {
    assert ElectOk(c, u) && VoterOk(c, u, i) && AckOk(c, i, t);
    assert KeepsAcked(c, i, t, c.elect[u].voters[i], u - 1);
    assert Keeps(c, t, k, c.elect[u].voters[i], u - 1);
  }
}
