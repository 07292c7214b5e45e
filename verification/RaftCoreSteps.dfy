/** The five transitions of the core and the proofs that they keep its invariant. */
module RaftCoreSteps {
  import opened RaftCore

  // ----- history only grows

  ghost predicate Grows(c: Core, c': Core)
  {
    && c'.n == c.n && |c.logs| == |c'.logs| == |c.pterm| == |c'.pterm| == c.n
    && (forall u :: u in c.elect ==> u in c'.elect && c'.elect[u] == c.elect[u])
    && (forall u :: u in c.llog ==> u in c'.llog && c.llog[u] <= c'.llog[u])
    && (forall x :: x in c.acks ==> x in c'.acks && c.acks[x] <= c'.acks[x])
    && (forall x :: x in c.grants ==> x in c'.grants && c'.grants[x] == c.grants[x])
    && (forall i :: 0 <= i < c.n ==> c.pterm[i] <= c'.pterm[i])
  }

  lemma GrowsTrans(a: Core, b: Core, c: Core)
    requires Grows(a, b) && Grows(b, c)
    ensures Grows(a, c)
  {}

  lemma GoodLogGrows(c: Core, c': Core, l: Log)
    requires Grows(c, c') && GoodLog(c, l)
    ensures GoodLog(c', l)
  {
    forall j | 0 < j < |l| ensures l[j].term in c'.llog && l[..j + 1] <= c'.llog[l[j].term] {
      PrefixTrans(l[..j + 1], c.llog[l[j].term], c'.llog[l[j].term]);
    }
  }

  lemma SupersededGrows(c: Core, c': Core, p: Log, t: nat, bound: nat, bound': nat)
    requires Grows(c, c') && Superseded(c, p, t, bound) && bound <= bound'
    ensures Superseded(c', p, t, bound')
  {
    var u :| t < u <= bound && u in c.elect && !(p <= c.elect[u].log);
    assert u in c'.elect && !(p <= c'.elect[u].log);
  }

  lemma KeepsGrows(c: Core, c': Core, t: nat, k: nat, l: Log, bound: nat, bound': nat)
    requires Grows(c, c') && t in c.llog && k < |c.llog[t]| && Keeps(c, t, k, l, bound) && bound <= bound'
    ensures t in c'.llog && k < |c'.llog[t]| && c'.llog[t][..k + 1] == c.llog[t][..k + 1] && Keeps(c', t, k, l, bound')
  {
    assert c.llog[t] <= c'.llog[t];
    if !(c.llog[t][..k + 1] <= l) {
      SupersededGrows(c, c', c.llog[t][..k + 1], t, bound, bound');
    }
  }

  lemma KeepsAckedGrows(c: Core, c': Core, i: nat, t: nat, l: Log, bound: nat, bound': nat)
    requires Grows(c, c') && AckInRange(c, i, t) && KeepsAcked(c, i, t, l, bound) && bound <= bound'
    requires c'.acks[(i, t)] == c.acks[(i, t)]
    ensures AckInRange(c', i, t) && KeepsAcked(c', i, t, l, bound')
  {
    assert c.llog[t] <= c'.llog[t];
    forall k: nat | k <= c'.acks[(i, t)] ensures Keeps(c', t, k, l, bound') {
      assert Keeps(c, t, k, l, bound);
      KeepsGrows(c, c', t, k, l, bound, bound');
    }
  }

  // ----- what is not touched stays in order

  lemma LogOkGrows(c: Core, c': Core, i: nat)
    requires Grows(c, c') && i < c.n && LogOk(c, i) && c'.logs[i] == c.logs[i]
    ensures LogOk(c', i)
  {
    GoodLogGrows(c, c', c.logs[i]);
  }

  lemma AckOkGrows(c: Core, c': Core, i: nat, t: nat)
    requires Grows(c, c') && (i, t) in c.acks && AckOk(c, i, t) && c'.logs[i] == c.logs[i]
    requires c'.acks[(i, t)] == c.acks[(i, t)]
    ensures AckOk(c', i, t)
  {
    KeepsAckedGrows(c, c', i, t, c.logs[i], c.pterm[i], c'.pterm[i]);
  }

  /** Acknowledgements change only at a server's persisted term, so older votes need not care. */
  ghost predicate AcksFresh(c: Core, c': Core)
    requires |c.pterm| == c.n
  {
    forall i: nat, t: nat :: (i, t) in c'.acks ==>
      i < c.n && (((i, t) in c.acks && c'.acks[(i, t)] == c.acks[(i, t)]) || t >= c.pterm[i])
  }

  lemma GrantOkGrows(c: Core, c': Core, i: nat, u: nat)
    requires Grows(c, c') && AcksFresh(c, c') && (i, u) in c.grants && GrantOk(c, i, u)
    requires forall t :: (i, t) in c.acks ==> AckOk(c, i, t)
    ensures GrantOk(c', i, u)
  {
    var l := c.grants[(i, u)].log;
    GoodLogGrows(c, c', l);
    forall t: nat | AckInRange(c', i, t) && t < u ensures KeepsAcked(c', i, t, l, u) {
      assert (i, t) in c.acks && AckOk(c, i, t);
      assert AckInRange(c, i, t) && KeepsAcked(c, i, t, l, u);
      KeepsAckedGrows(c, c', i, t, l, u, u);
    }
  }

  lemma VoterOkGrows(c: Core, c': Core, u: nat, i: nat)
    requires Grows(c, c') && AcksFresh(c, c') && u in c.elect && i in c.elect[u].voters && VoterOk(c, u, i)
    requires forall t :: (i, t) in c.acks ==> AckOk(c, i, t)
    requires u > 0
    ensures VoterOk(c', u, i)
  {
    var l := c.elect[u].voters[i];
    GoodLogGrows(c, c', l);
    forall t: nat | AckInRange(c', i, t) && t < u ensures KeepsAcked(c', i, t, l, u - 1) {
      assert (i, t) in c.acks && AckOk(c, i, t);
      assert AckInRange(c, i, t) && KeepsAcked(c, i, t, l, u - 1);
      KeepsAckedGrows(c, c', i, t, l, u - 1, u - 1);
    }
  }

  /** An election whose leader log is extended only by entries of its own term stays in order. */
  lemma ElectOkGrows(c: Core, c': Core, u: nat)
    requires Inv(c) && Grows(c, c') && AcksFresh(c, c') && u in c.elect
    requires GoodLog(c', c'.llog[u])
    requires forall j :: |c.llog[u]| <= j < |c'.llog[u]| ==> c'.llog[u][j].term == u
    ensures ElectOk(c', u)
  {
    assert ElectOk(c, u);
    var e := c.elect[u];
    PrefixTrans(e.log, c.llog[u], c'.llog[u]);
    GoodLogGrows(c, c', e.log);
    forall i | i in e.voters ensures VoterOk(c', u, i) {
      assert VoterOk(c, u, i);
      forall t | (i, t) in c.acks ensures AckOk(c, i, t) {}
      VoterOkGrows(c, c', u, i);
    }
  }

  lemma GrantsGrow(c: Core, c': Core)
    requires Inv(c) && Grows(c, c') && AcksFresh(c, c') && c'.grants == c.grants
    ensures forall i, u {:trigger GrantOk(c', i, u)} :: (i, u) in c'.grants ==> GrantOk(c', i, u)
  {
    forall i, u | (i, u) in c'.grants ensures GrantOk(c', i, u) {
      assert GrantOk(c, i, u);
      forall t | (i, t) in c.acks ensures AckOk(c, i, t) {}
      GrantOkGrows(c, c', i, u);
    }
  }

  lemma LogsGrow(c: Core, c': Core, except: set<nat>)
    requires Inv(c) && Grows(c, c') && forall i: nat :: i < c.n && i !in except ==> c'.logs[i] == c.logs[i]
    ensures forall i: nat {:trigger LogOk(c', i)} :: i < c'.n && i !in except ==> LogOk(c', i)
  {
    forall i: nat | i < c'.n && i !in except ensures LogOk(c', i) {
      assert LogOk(c, i);
      LogOkGrows(c, c', i);
    }
  }

  lemma ElectionsGrow(c: Core, c': Core, except: set<nat>)
    requires Inv(c) && Grows(c, c') && AcksFresh(c, c')
    requires forall u :: u in c.llog && u !in except ==> c'.llog[u] == c.llog[u]
    ensures forall u {:trigger ElectOk(c', u)} :: u in c.elect && u !in except ==> ElectOk(c', u)
  {
    forall u | u in c.elect && u !in except ensures ElectOk(c', u) {
      assert ElectOk(c, u);
      GoodLogGrows(c, c', c.llog[u]);
      ElectOkGrows(c, c', u);
    }
  }

  /** Everything but the log and the new acknowledgement of server `i`. */
  lemma InvExcept(c: Core, c': Core, i: nat)
    requires Inv(c) && Grows(c, c') && AcksFresh(c, c') && i < c.n
    requires c'.elect == c.elect && c'.llog == c.llog && c'.grants == c.grants
    requires forall j :: 0 <= j < c.n && j != i ==> c'.logs[j] == c.logs[j] && c'.pterm[j] == c.pterm[j]
    requires forall j: nat, t: nat :: (j, t) in c'.acks && j != i ==>
      (j, t) in c.acks && c'.acks[(j, t)] == c.acks[(j, t)]
    requires LogOk(c', i)
    requires forall t: nat :: (i, t) in c'.acks ==> AckOk(c', i, t)
    ensures Inv(c')
  {
    LogsGrow(c, c', {i});
    ElectionsGrow(c, c', {});
    forall j, t | (j, t) in c'.acks ensures AckOk(c', j, t) {
      if j != i {
        assert AckOk(c, j, t);
        AckOkGrows(c, c', j, t);
      }
    }
    GrantsGrow(c, c');
  }

  // ----- a server persists a higher term

  function Raise(c: Core, i: nat, t: nat): Core
    requires i < |c.pterm|
  {
    c.(pterm := c.pterm[i := t])
  }

  lemma RaiseKeepsInv(c: Core, i: nat, t: nat)
    requires Inv(c) && i < c.n && c.pterm[i] <= t
    ensures Inv(Raise(c, i, t)) && Grows(c, Raise(c, i, t))
  {
    var c' := Raise(c, i, t);
    assert AcksFresh(c, c') by {
      forall j: nat, u: nat | (j, u) in c'.acks ensures j < c.n {
        assert AckOk(c, j, u);
      }
    }
    assert LogOk(c, i);
    LogOkGrows(c, c', i);
    forall u: nat | (i, u) in c'.acks ensures AckOk(c', i, u) {
      assert AckOk(c, i, u);
      AckOkGrows(c, c', i, u);
    }
    InvExcept(c, c', i);
  }

  // ----- a server grants its vote in term `u`

  function GrantVote(c: Core, i: nat, u: nat, candidate: nat): Core
    requires i < |c.pterm| && i < |c.logs|
  {
    c.(pterm := c.pterm[i := u], grants := c.grants[(i, u) := Grant(candidate, c.logs[i])])
  }

  lemma GrantVoteKeepsInv(c: Core, i: nat, u: nat, candidate: nat)
    requires Inv(c) && i < c.n && c.pterm[i] <= u && (i, u) !in c.grants
    requires candidate < c.n && (candidate == i || u <= c.pterm[candidate])
    ensures Inv(GrantVote(c, i, u, candidate)) && Grows(c, GrantVote(c, i, u, candidate))
  {
    var mid := Raise(c, i, u);
    var c' := GrantVote(c, i, u, candidate);
    RaiseKeepsInv(c, i, u);
    assert c' == mid.(grants := c'.grants);
    assert LogOk(c, i);
    forall t: nat | (i, t) in c.acks ensures AckOk(c, i, t) {}
    NewGrantOk(c, c', i, u);
    GrantsOnly(mid, c', i, u);
  }

  lemma NewGrantOk(c: Core, c': Core, i: nat, u: nat)
    requires Grows(c, c') && i < c.n && (i, u) in c'.grants && c'.grants[(i, u)].log == c.logs[i] && c'.pterm[i] == u
    requires c'.grants[(i, u)].candidate < c.n && u <= c'.pterm[c'.grants[(i, u)].candidate]
    requires c'.acks == c.acks && c'.llog == c.llog && LogOk(c, i)
    requires forall t: nat :: (i, t) in c.acks ==> AckOk(c, i, t)
    ensures GrantOk(c', i, u)
  {
    GoodLogGrows(c, c', c.logs[i]);
    forall t: nat | AckInRange(c', i, t) && t < u ensures KeepsAcked(c', i, t, c.logs[i], u) {
      assert AckOk(c, i, t);
      KeepsAckedGrows(c, c', i, t, c.logs[i], c.pterm[i], u);
    }
  }

  lemma GrantsOnly(c: Core, c': Core, i: nat, u: nat)
    requires Inv(c) && Grows(c, c') && c' == c.(grants := c'.grants)
    requires c'.grants.Keys == c.grants.Keys + {(i, u)} && GrantOk(c', i, u)
    ensures Inv(c')
  {
    assert AcksFresh(c, c') by {
      forall j: nat, t: nat | (j, t) in c'.acks ensures j < c.n {
        assert AckOk(c, j, t);
      }
    }
    LogsGrow(c, c', {});
    ElectionsGrow(c, c', {});
    forall j, t | (j, t) in c'.acks ensures AckOk(c', j, t) {
      assert AckOk(c, j, t);
      AckOkGrows(c, c', j, t);
    }
    forall j, v | (j, v) in c'.grants ensures GrantOk(c', j, v) {
      if (j, v) != (i, u) {
        assert GrantOk(c, j, v);
        forall t | (j, t) in c.acks ensures AckOk(c, j, t) {}
        GrantOkGrows(c, c', j, v);
      }
    }
  }

  // ----- a server takes over the first `m` entries of the leader's log, and acknowledges them

  function Max(a: nat, b: nat): nat
  {
    if a >= b then a else b
  }

  function AckedSoFar(c: Core, i: nat, u: nat): nat
  {
    if (i, u) in c.acks then c.acks[(i, u)] else 0
  }

  ghost function Merged(l: Log, p: Log): Log
  {
    if p <= l then l else p
  }

  ghost function Adopt(c: Core, i: nat, u: nat, m: nat): Core
    requires i < |c.logs| && i < |c.pterm| && u in c.llog && 0 < m <= |c.llog[u]|
  {
    c.(logs := c.logs[i := Merged(c.logs[i], c.llog[u][..m])],
       pterm := c.pterm[i := u],
       acks := c.acks[(i, u) := Max(AckedSoFar(c, i, u), m - 1)])
  }

  /** A prefix of the leader's log that was there before is there after taking over. */
  lemma MergedKeeps(l: Log, p: Log, kept: Log, leaderLog: Log)
    requires kept <= l && kept <= leaderLog && p <= leaderLog
    ensures kept <= Merged(l, p)
  {
    if !(p <= l) && |p| <= |kept| {
      PrefixesNest(p, kept, leaderLog);
      PrefixTrans(p, kept, l);
      assert false;
    }
  }

  lemma AdoptKeeps(c: Core, i: nat, u: nat, m: nat, t: nat, k: nat)
    requires Inv(c) && i < c.n && c.pterm[i] <= u && u in c.elect && 0 < m <= |c.llog[u]|
    requires AckInRange(c, i, t) && t <= u && k <= c.acks[(i, t)]
    ensures Keeps(Adopt(c, i, u, m), t, k, Adopt(c, i, u, m).logs[i], u)
  {
    var c' := Adopt(c, i, u, m);
    var p := c.llog[t][..k + 1];
    assert AckOk(c, i, t) && ElectOk(c, u);
    assert Keeps(c, t, k, c.logs[i], c.pterm[i]);
    if Superseded(c, p, t, c.pterm[i]) {
      var v :| t < v <= c.pterm[i] && v in c.elect && !(p <= c.elect[v].log);
      assert v in c'.elect && !(p <= c'.elect[v].log);
      assert Superseded(c', p, t, u);
    } else if t < u && !(p <= c.elect[u].log) {
      assert u in c'.elect && !(p <= c'.elect[u].log);
      assert Superseded(c', p, t, u);
    } else {
      assert p <= c.llog[u] by {
        if t < u {
          PrefixTrans(p, c.elect[u].log, c.llog[u]);
        }
      }
      MergedKeeps(c.logs[i], c.llog[u][..m], p, c.llog[u]);
    }
  }

  lemma AdoptAck(c: Core, i: nat, u: nat, m: nat, t: nat)
    requires Inv(c) && i < c.n && c.pterm[i] <= u && u in c.elect && 0 < m <= |c.llog[u]|
    requires (i, t) in Adopt(c, i, u, m).acks
    ensures AckOk(Adopt(c, i, u, m), i, t)
  {
    var c' := Adopt(c, i, u, m);
    if (i, t) in c.acks {
      assert AckOk(c, i, t);
    }
    forall k: nat | k <= c'.acks[(i, t)] ensures t in c'.llog && k < |c'.llog[t]| && Keeps(c', t, k, c'.logs[i], u) {
      if (i, t) in c.acks && k <= c.acks[(i, t)] {
        AdoptKeeps(c, i, u, m, t, k);
      } else {
        assert t == u && k < m;
        PrefixTrans(c.llog[u][..k + 1], c.llog[u][..m], c'.logs[i]);
      }
    }
  }

  lemma LeaderLogTerms(c: Core, u: nat, j: nat)
    requires Inv(c) && u in c.elect && j < |c.llog[u]|
    ensures c.llog[u][j].term <= u
  {
    assert ElectOk(c, u);
    if j < |c.elect[u].log| {
      assert c.elect[u].log[j] == c.llog[u][j];
    }
  }

  lemma PrefixGood(c: Core, l: Log, m: nat)
    requires GoodLog(c, l) && 0 < m <= |l|
    ensures GoodLog(c, l[..m])
  {
    forall j | 0 < j < m ensures l[..m][..j + 1] <= c.llog[l[j].term] {
      assert l[..m][..j + 1] == l[..j + 1];
    }
  }

  lemma AdoptLog(c: Core, i: nat, u: nat, m: nat)
    requires Inv(c) && i < c.n && c.pterm[i] <= u && u in c.elect && 0 < m <= |c.llog[u]|
    ensures LogOk(Adopt(c, i, u, m), i)
  {
    var c' := Adopt(c, i, u, m);
    assert LogOk(c, i) && ElectOk(c, u);
    PrefixGood(c, c.llog[u], m);
    assert Grows(c, c');
    GoodLogGrows(c, c', c'.logs[i]);
    forall j | 0 <= j < |c'.logs[i]| ensures c'.logs[i][j].term <= u {
      if c'.logs[i] != c.logs[i] {
        LeaderLogTerms(c, u, j);
      }
    }
  }

  lemma AdoptKeepsInv(c: Core, i: nat, u: nat, m: nat)
    requires Inv(c) && i < c.n && c.pterm[i] <= u && u in c.elect && 0 < m <= |c.llog[u]|
    ensures Inv(Adopt(c, i, u, m)) && Grows(c, Adopt(c, i, u, m))
  {
    var c' := Adopt(c, i, u, m);
    AdoptLog(c, i, u, m);
    assert AcksFresh(c, c') by {
      forall j: nat, t: nat | (j, t) in c'.acks ensures j < c.n {
        if (j, t) in c.acks {
          assert AckOk(c, j, t);
        }
      }
    }
    forall t: nat | (i, t) in c'.acks ensures AckOk(c', i, t) {
      AdoptAck(c, i, u, m, t);
    }
    InvExcept(c, c', i);
  }

  // ----- the leader of term `u` appends an entry

  function Extend(c: Core, u: nat, x: LogEntry): Core
    requires u in c.elect && u in c.llog && c.elect[u].leader < |c.logs|
  {
    var i := c.elect[u].leader;
    c.(logs := c.logs[i := c.llog[u] + [x]],
       llog := c.llog[u := c.llog[u] + [x]],
       acks := c.acks[(i, u) := |c.llog[u]|])
  }

  ghost predicate Leads(c: Core, u: nat)
  {
    && u in c.elect && u in c.llog && c.elect[u].leader < |c.logs| == |c.pterm|
    && c.logs[c.elect[u].leader] == c.llog[u] && c.pterm[c.elect[u].leader] == u
  }

  lemma ExtendGrows(c: Core, u: nat, x: LogEntry)
    requires Inv(c) && Leads(c, u)
    ensures Grows(c, Extend(c, u, x)) && AcksFresh(c, Extend(c, u, x))
  {
    var i := c.elect[u].leader;
    var c' := Extend(c, u, x);
    if (i, u) in c.acks {
      assert AckOk(c, i, u);
    }
    forall j: nat, t: nat | (j, t) in c'.acks ensures j < c.n {
      if (j, t) in c.acks {
        assert AckOk(c, j, t);
      }
    }
  }

  lemma ExtendedGood(c: Core, u: nat, x: LogEntry)
    requires Inv(c) && Leads(c, u) && x.term == u && Grows(c, Extend(c, u, x))
    ensures GoodLog(Extend(c, u, x), c.llog[u] + [x])
  {
    var c' := Extend(c, u, x);
    var l := c.llog[u];
    assert ElectOk(c, u);
    GoodLogGrows(c, c', l);
    var l' := l + [x];
    forall j | 0 < j < |l'| ensures l'[j].term in c'.llog && l'[..j + 1] <= c'.llog[l'[j].term] {
      if j < |l| {
        assert l'[..j + 1] == l[..j + 1];
      }
    }
    forall a, b | 0 <= a <= b < |l'| ensures l'[a].term <= l'[b].term {
      if a < |l| {
        LeaderLogTerms(c, u, a);
      }
    }
  }

  lemma ExtendAck(c: Core, u: nat, x: LogEntry, j: nat, t: nat)
    requires Inv(c) && Leads(c, u) && x.term == u && Grows(c, Extend(c, u, x))
    requires (j, t) in Extend(c, u, x).acks
    ensures AckOk(Extend(c, u, x), j, t)
  {
    var i := c.elect[u].leader;
    var c' := Extend(c, u, x);
    if (j, t) == (i, u) {
      forall k: nat | k <= c'.acks[(i, u)] ensures Keeps(c', u, k, c'.logs[i], u) {
        assert c'.llog[u][..k + 1] <= c'.logs[i];
      }
      if (i, u) in c.acks {
        assert AckOk(c, i, u);
      }
    } else {
      assert AckOk(c, j, t);
      if j == i {
        forall k: nat | k <= c'.acks[(i, t)]
          ensures t in c'.llog && k < |c'.llog[t]| && Keeps(c', t, k, c'.logs[i], u)
        {
          assert Keeps(c, t, k, c.logs[i], u);
          KeepsGrows(c, c', t, k, c.logs[i], u, u);
          if c'.llog[t][..k + 1] <= c.logs[i] {
            PrefixTrans(c'.llog[t][..k + 1], c.logs[i], c'.logs[i]);
          }
        }
      } else {
        AckOkGrows(c, c', j, t);
      }
    }
  }

  lemma ExtendKeepsInv(c: Core, u: nat, x: LogEntry)
    requires Inv(c) && Leads(c, u) && x.term == u && u > 0
    ensures Inv(Extend(c, u, x)) && Grows(c, Extend(c, u, x))
  {
    var i := c.elect[u].leader;
    var c' := Extend(c, u, x);
    hide ElectOk, AckOk, GrantOk, AcksFresh, Origin, Ordered;
    ExtendGrows(c, u, x);
    ExtendedGood(c, u, x);
    LogsGrow(c, c', {i});
    assert LogOk(c', i) by {
      assert LogOk(c, i);
    }
    ElectionsGrow(c, c', {u});
    ElectOkGrows(c, c', u);
    forall j, t | (j, t) in c'.acks ensures AckOk(c', j, t) {
      ExtendAck(c, u, x, j, t);
    }
    GrantsGrow(c, c');
  }

  // ----- a candidate wins term `u` with the votes of `q`

  ghost predicate Won(c: Core, u: nat, cand: nat, q: set<nat>)
  {
    && u > 0 && u !in c.elect && cand < |c.logs| == |c.pterm| && c.pterm[cand] == u
    && IsQuorum(c.n, q)
    && (forall j :: 0 <= j < |c.logs[cand]| ==> c.logs[cand][j].term < u)
    && forall i :: i in q ==> VotedFor(c, u, cand, i)
  }

  ghost predicate VotedFor(c: Core, u: nat, cand: nat, i: nat)
    requires cand < |c.logs|
  {
    && (i, u) in c.grants && c.grants[(i, u)].candidate == cand
    && c.logs[cand] != [] && c.grants[(i, u)].log != [] && UpToDate(c.logs[cand], c.grants[(i, u)].log)
  }

  ghost function Win(c: Core, u: nat, cand: nat, q: set<nat>): Core
    requires Won(c, u, cand, q)
  {
    var l := c.logs[cand];
    c.(elect := c.elect[u := Election(cand, l, map i | i in q && (i, u) in c.grants :: c.grants[(i, u)].log)],
       llog := c.llog[u := l],
       acks := c.acks[(cand, u) := if l == [] then 0 else |l| - 1])
  }

  lemma WinGrows(c: Core, u: nat, cand: nat, q: set<nat>)
    requires Inv(c) && Won(c, u, cand, q)
    ensures Grows(c, Win(c, u, cand, q)) && AcksFresh(c, Win(c, u, cand, q)) && (cand, u) !in c.acks
  {
    var c' := Win(c, u, cand, q);
    assert (cand, u) in c.acks ==> AckOk(c, cand, u);
    forall j: nat, t: nat | (j, t) in c'.acks ensures j < c.n {
      if (j, t) in c.acks {
        assert AckOk(c, j, t);
      }
    }
  }

  /** No leader of term `u` existed when the counted votes were granted. */
  lemma WinnerVoter(c: Core, u: nat, cand: nat, q: set<nat>, i: nat)
    requires Inv(c) && Won(c, u, cand, q) && i in q && Grows(c, Win(c, u, cand, q)) && (cand, u) !in c.acks
    ensures VoterOk(Win(c, u, cand, q), u, i)
  {
    var c' := Win(c, u, cand, q);
    assert VotedFor(c, u, cand, i) && GrantOk(c, i, u);
    var l := c.grants[(i, u)].log;
    GoodLogGrows(c, c', l);
    forall t: nat | AckInRange(c', i, t) && t < u ensures KeepsAcked(c', i, t, l, u - 1) {
      assert (i, t) in c.acks && AckOk(c, i, t);
      assert AckInRange(c, i, t) && KeepsAcked(c, i, t, l, u);
      var before := u - 1;
      forall k: nat | k <= c'.acks[(i, t)] ensures Keeps(c', t, k, l, before) {
        assert Keeps(c, t, k, l, u);
        NotByTheWinner(c, c', t, k, l, u);
      }
    }
  }

  lemma NotByTheWinner(c: Core, c': Core, t: nat, k: nat, l: Log, u: nat)
    requires Grows(c, c') && u > 0 && u !in c.elect && t in c.llog && k < |c.llog[t]| && Keeps(c, t, k, l, u)
    ensures t in c'.llog && k < |c'.llog[t]| && Keeps(c', t, k, l, u - 1)
  {
    var p := c.llog[t][..k + 1];
    if Superseded(c, p, t, u) {
      var v :| t < v <= u && v in c.elect && !(p <= c.elect[v].log);
      assert v != u;
      assert Superseded(c, p, t, u - 1);
    }
    KeepsGrows(c, c', t, k, l, u - 1, u - 1);
  }

  lemma WinnerElect(c: Core, u: nat, cand: nat, q: set<nat>)
    requires Inv(c) && Won(c, u, cand, q) && Grows(c, Win(c, u, cand, q)) && (cand, u) !in c.acks
    ensures ElectOk(Win(c, u, cand, q), u)
  {
    var c' := Win(c, u, cand, q);
    assert LogOk(c, cand);
    GoodLogGrows(c, c', c.logs[cand]);
    forall i | i in q ensures i in c'.elect[u].voters && VoterOk(c', u, i) {
      assert VotedFor(c, u, cand, i);
      WinnerVoter(c, u, cand, q, i);
    }
    assert c'.elect[u].voters.Keys == q;
  }

  lemma WinAcks(c: Core, u: nat, cand: nat, q: set<nat>, j: nat, t: nat)
    requires Inv(c) && Won(c, u, cand, q) && Grows(c, Win(c, u, cand, q)) && (j, t) in Win(c, u, cand, q).acks
    ensures AckOk(Win(c, u, cand, q), j, t)
  {
    if (j, t) == (cand, u) {
      WinnerAck(c, u, cand, q);
    } else {
      assert AckOk(c, j, t);
      AckOkGrows(c, Win(c, u, cand, q), j, t);
    }
  }

  lemma WinShape(c: Core, u: nat, cand: nat, q: set<nat>)
    requires Inv(c) && Won(c, u, cand, q)
    ensures var c' := Win(c, u, cand, q);
      && c'.n == c.n && c'.logs == c.logs && c'.pterm == c.pterm && c'.grants == c.grants
      && |c.logs| == |c.pterm| == c.n
      && c'.elect.Keys == c'.llog.Keys == c.elect.Keys + {u}
      && (forall v :: v in c.llog ==> v in c'.llog && c'.llog[v] == c.llog[v])
  {}

  lemma WinKeepsInv(c: Core, u: nat, cand: nat, q: set<nat>)
    requires Inv(c) && Won(c, u, cand, q)
    ensures Inv(Win(c, u, cand, q)) && Grows(c, Win(c, u, cand, q))
  {
    hide *;
    var c' := Win(c, u, cand, q);
    WinShape(c, u, cand, q);
    WinGrows(c, u, cand, q);
    WinnerElect(c, u, cand, q);
    LogsGrow(c, c', {});
    ElectionsGrow(c, c', {});
    forall j, t | (j, t) in c'.acks ensures AckOk(c', j, t) {
      WinAcks(c, u, cand, q, j, t);
    }
    GrantsGrow(c, c');
    InvParts(c');
  }

  lemma InvParts(c: Core)
    requires |c.logs| == |c.pterm| == c.n && c.elect.Keys == c.llog.Keys
    requires forall i: nat {:trigger LogOk(c, i)} :: i < c.n ==> LogOk(c, i)
    requires forall u {:trigger ElectOk(c, u)} :: u in c.elect ==> ElectOk(c, u)
    requires forall i, t {:trigger AckOk(c, i, t)} :: (i, t) in c.acks ==> AckOk(c, i, t)
    requires forall i, u {:trigger GrantOk(c, i, u)} :: (i, u) in c.grants ==> GrantOk(c, i, u)
    ensures Inv(c)
  {}

  lemma WinnerAck(c: Core, u: nat, cand: nat, q: set<nat>)
    requires Inv(c) && Won(c, u, cand, q)
    ensures AckOk(Win(c, u, cand, q), cand, u)
  {
    var c' := Win(c, u, cand, q);
    assert LogOk(c, cand);
    forall k: nat | k <= c'.acks[(cand, u)] ensures Keeps(c', u, k, c'.logs[cand], u) {
      assert c'.llog[u][..k + 1] <= c'.logs[cand];
    }
  }
}
