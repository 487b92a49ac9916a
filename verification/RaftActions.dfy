/**
 The seven ways in which a step of the cluster changes a core, and the proof that
 each keeps the invariants.
 */
module RaftActions {
  import opened RaftTypes
  import opened Quorums
  import opened RaftCore

  // ----- the actions -----

  ghost function Bump(c: Core, i: Id, t: nat): Core {
    c.(term := c.term[i := t])
  }

  /** Stand for election in the next term, voting for oneself. */
  ghost function Stand(c: Core, i: Id): Core
    requires i in c.term && i in c.log
  {
    var t := c.term[i] + 1;
    c.(term := c.term[i := t], ballots := c.ballots[(i, t) := i], cands := c.cands[(i, t) := c.log[i]])
  }

  ghost function Grant(c: Core, v: Id, cand: Id): Core
    requires v in c.term
  {
    c.(ballots := c.ballots[(v, c.term[v]) := cand])
  }

  /** Win the election of one's term and append the entry that opens it. */
  ghost function Elect(c: Core, i: Id, voters: set<Id>): Core
    requires i in c.term && i in c.log
  {
    var t := c.term[i];
    var l := c.log[i] + [Entry(t, Noop)];
    c.(log := c.log[i := l],
       elections := c.elections[t := Election(i, voters, c.log[i], l)],
       acked := c.acked[(i, t) := |l|])
  }

  /** The leader appends an entry of its term. */
  ghost function LeaderWrite(c: Core, i: Id, e: Entry): Core
    requires i in c.term && i in c.log && c.term[i] in c.elections
  {
    var t := c.term[i];
    var l := c.log[i] + [e];
    c.(log := c.log[i := l],
       elections := c.elections[t := c.elections[t].(log := l)],
       acked := c.acked[(i, t) := |l|])
  }

  /** A follower gives up its last entry. */
  ghost function Drop(c: Core, f: Id): Core
    requires f in c.log && c.log[f] != []
  {
    c.(log := c.log[f := c.log[f][..|c.log[f]| - 1]])
  }

  /** A follower takes on the leader's log up to n and acknowledges it. */
  ghost function Extend(c: Core, f: Id, n: nat): Core
    requires f in c.term && f in c.log && c.term[f] in c.elections && n <= |c.elections[c.term[f]].log|
  {
    var t := c.term[f];
    c.(log := c.log[f := c.elections[t].log[..n]], acked := c.acked[(f, t) := n])
  }

  // ----- what all actions have in common -----

  /** Elections are only added, and only their logs grow. */
  ghost predicate ElectionsGrow(a: map<nat, Election>, b: map<nat, Election>) {
    forall t :: t in a ==>
      t in b && a[t].base == b[t].base && a[t].voters == b[t].voters && a[t].log <= b[t].log
  }

  /** Terms only rise, and a node acknowledges only the leader of its own term. */
  ghost predicate Evolves(c: Core, d: Core)
    requires Shape(c) && Shape(d)
  {
    && c.members == d.members
    && ElectionsGrow(c.elections, d.elections)
    && (forall i :: i in c.members ==> c.term[i] <= d.term[i])
    && (forall f, t :: (f, t) in d.acked ==>
          || ((f, t) in c.acked && d.acked[(f, t)] == c.acked[(f, t)])
          || (f in d.members && t == d.term[f]))
  }

  ghost predicate LogsGrow(c: Core, d: Core)
    requires Shape(c) && Shape(d) && c.members == d.members
  {
    forall f :: f in c.members ==> c.log[f] <= d.log[f]
  }

  lemma CoversKept(c: Core, d: Core, v: Id, u: nat, holder: Log)
    requires Shape(c) && Shape(d) && AcksOk(c) && AcksOk(d)
    requires Evolves(c, d) && v in d.members && u <= d.term[v]
    requires Covers(c, v, u, holder)
    ensures Covers(d, v, u, holder)
  {
    forall t: nat, k: nat |
      Acked(d, v, t, k) && t < u && d.elections[t].log[k - 1].term == t
      && Kept(d.elections, t, d.elections[t].log[..k], u - 1)
      ensures d.elections[t].log[..k] <= holder
    {
      assert Acked(c, v, t, k);
      assert AckOk(c, v, t, c.acked[(v, t)]);
      assert c.elections[t].log[..k] == d.elections[t].log[..k];
      assert c.elections[t].log[k - 1] == d.elections[t].log[k - 1];
      assert Kept(c.elections, t, c.elections[t].log[..k], u - 1);
    }
  }

  /** Votes that were there before, for the same candidate log, still cover. */
  lemma VotesKept(c: Core, d: Core, except: (Id, nat))
    requires Shape(c) && Shape(d) && AcksOk(c) && AcksOk(d) && BallotsOk(c) && BallotsOk(d)
    requires Evolves(c, d) && VotesCover(c)
    requires forall v, u :: (v, u) in d.ballots && (v, u) != except ==>
      && (v, u) in c.ballots && c.ballots[(v, u)] == d.ballots[(v, u)]
      && c.cands[(c.ballots[(v, u)], u)] == d.cands[(c.ballots[(v, u)], u)]
    requires except in d.ballots && except.1 !in d.elections ==>
      Covers(d, except.0, except.1, d.cands[(d.ballots[except], except.1)])
    ensures VotesCover(d)
  {
    forall v, u | (v, u) in d.ballots && u !in d.elections
      ensures Covers(d, v, u, d.cands[(d.ballots[(v, u)], u)])
    {
      if (v, u) != except {
        CoversKept(c, d, v, u, c.cands[(c.ballots[(v, u)], u)]);
      }
    }
  }

  lemma ElectionsKept(c: Core, d: Core, t: nat)
    requires Shape(c) && Shape(d) && AcksOk(c) && AcksOk(d) && BallotsOk(d) && ElectionsOk(d)
    requires Evolves(c, d) && ElectionsCover(c)
    requires forall u :: u in d.elections && u != t ==> u in c.elections
    requires t in d.elections && t !in c.elections ==>
      forall v :: v in d.elections[t].voters ==> Covers(d, v, t, d.elections[t].base)
    ensures ElectionsCover(d)
  {
    forall u, v | u in d.elections && v in d.elections[u].voters
      ensures Covers(d, v, u, d.elections[u].base)
    {
      if u in c.elections {
        assert ElectionOk(d, u, d.elections[u]);
        CoversKept(c, d, v, u, c.elections[u].base);
      }
    }
  }

  /** Acknowledged prefixes stay held when logs only grow. */
  lemma HeldKept(c: Core, d: Core)
    requires Shape(c) && Shape(d) && AcksOk(c) && AcksOk(d)
    requires Evolves(c, d) && AcksHeld(c)
    requires LogsGrow(c, d)
    ensures AcksHeld(d)
  {
    forall f: Id, t: nat, k: nat |
      Acked(d, f, t, k) && Kept(d.elections, t, d.elections[t].log[..k], d.term[f])
      ensures d.elections[t].log[..k] <= d.log[f]
    {
      assert AckOk(d, f, t, d.acked[(f, t)]);
      if t != d.term[f] {
        assert Acked(c, f, t, k);
        assert AckOk(c, f, t, c.acked[(f, t)]);
        assert c.elections[t].log[..k] == d.elections[t].log[..k];
        assert Kept(c.elections, t, c.elections[t].log[..k], c.term[f]);
      }
    }
  }

  lemma OriginKept(a: map<nat, Election>, b: map<nat, Election>, l: Log)
    requires forall t :: Authored(a, t) <= Authored(b, t)
    requires Origin(a, l)
    ensures Origin(b, l)
  {
    forall k | 0 <= k < |l| ensures l[..k + 1] <= Authored(b, l[k].term) {
      assert l[..k + 1] <= Authored(a, l[k].term) <= Authored(b, l[k].term);
    }
  }

  /** The voting history is untouched. */
  lemma BallotsKept(c: Core, d: Core)
    requires Shape(c) && Shape(d) && BallotsOk(c) && Evolves(c, d)
    requires c.ballots == d.ballots && c.cands == d.cands
    ensures BallotsOk(d)
  {
  }

  /** Votes and wins stay covered when the voting history is untouched and nobody wins. */
  lemma CoverKept(c: Core, d: Core)
    requires Shape(c) && Shape(d) && AcksOk(c) && AcksOk(d) && BallotsOk(c) && BallotsOk(d) && ElectionsOk(d)
    requires Evolves(c, d) && VotesCover(c) && ElectionsCover(c)
    requires c.ballots == d.ballots && c.cands == d.cands && c.elections.Keys == d.elections.Keys
    ensures VotesCover(d) && ElectionsCover(d)
  {
    forall v, u | (v, u) in d.ballots && u !in d.elections
      ensures Covers(d, v, u, d.cands[(d.ballots[(v, u)], u)])
    {
      CoversKept(c, d, v, u, c.cands[(c.ballots[(v, u)], u)]);
    }
    ElectionsKept(c, d, 0);
  }

  lemma AppendOrdered(l: Log, e: Entry)
    requires Ordered(l) && TermsWithin(l, e.term) && e.term >= 1
    ensures Ordered(l + [e]) && TermsWithin(l + [e], e.term)
  {
  }

  // ----- Bump -----

  lemma BumpElections(c: Core, i: Id, t: nat)
    requires Shape(c) && ElectionsOk(c) && i in c.members && c.term[i] <= t
    ensures ElectionsOk(Bump(c, i, t))
  {
    var d := Bump(c, i, t);
    forall u | u in d.elections ensures ElectionOk(d, u, d.elections[u]) {
      assert ElectionOk(c, u, c.elections[u]);
    }
  }

  lemma BumpAcks(c: Core, i: Id, t: nat)
    requires Shape(c) && AcksOk(c) && i in c.members && c.term[i] <= t
    ensures AcksOk(Bump(c, i, t))
  {
    var d := Bump(c, i, t);
    forall f, u | (f, u) in d.acked ensures AckOk(d, f, u, d.acked[(f, u)]) {
      assert AckOk(c, f, u, c.acked[(f, u)]);
    }
  }

  lemma BumpShapes(c: Core, i: Id, t: nat)
    requires Shape(c) && LogTerms(c) && BallotsOk(c) && i in c.members && c.term[i] <= t
    ensures var d := Bump(c, i, t); Shape(d) && LogTerms(d) && Evolves(c, d) && LogsGrow(c, d)
    ensures c.elections.Keys == Bump(c, i, t).elections.Keys
  {
  }

  lemma BumpInv(c: Core, i: Id, t: nat)
    requires Inv(c) && i in c.members && c.term[i] <= t
    ensures Inv(Bump(c, i, t))
  {
    var d := Bump(c, i, t);
    BumpShapes(c, i, t);
    BallotsKept(c, d);
    BumpElections(c, i, t);
    BumpAcks(c, i, t);
    HeldKept(c, d);
    CoverKept(c, d);
  }

  // ----- Stand -----

  lemma StandShapes(c: Core, i: Id)
    requires Shape(c) && LogTerms(c) && i in c.members
    ensures var d := Stand(c, i); Shape(d) && LogTerms(d) && Evolves(c, d) && LogsGrow(c, d)
  {
  }

  lemma StandBallots(c: Core, i: Id)
    requires Shape(c) && LogTerms(c) && BallotsOk(c) && i in c.members
    ensures BallotsOk(Stand(c, i))
  {
  }

  lemma StandOrigins(c: Core, i: Id)
    requires Shape(c) && OriginsOk(c) && i in c.members
    ensures OriginsOk(Stand(c, i))
  {
  }

  lemma StandElections(c: Core, i: Id)
    requires Shape(c) && BallotsOk(c) && ElectionsOk(c) && i in c.members
    ensures ElectionsOk(Stand(c, i))
  {
    var d := Stand(c, i);
    forall u | u in d.elections ensures ElectionOk(d, u, d.elections[u]) {
      assert ElectionOk(c, u, c.elections[u]);
    }
  }

  lemma StandAcks(c: Core, i: Id)
    requires Shape(c) && AcksOk(c) && i in c.members
    ensures AcksOk(Stand(c, i))
  {
    var d := Stand(c, i);
    forall f, u | (f, u) in d.acked ensures AckOk(d, f, u, d.acked[(f, u)]) {
      assert AckOk(c, f, u, c.acked[(f, u)]);
    }
  }

  /** One's own log covers one's own acknowledgements. */
  lemma StandCovers(c: Core, i: Id)
    requires Shape(c) && AcksOk(c) && AcksHeld(c) && i in c.members
    ensures Covers(c, i, c.term[i] + 1, c.log[i])
  {
  }

  lemma StandInv(c: Core, i: Id)
    requires Inv(c) && i in c.members
    ensures Inv(Stand(c, i))
  {
    var d := Stand(c, i);
    StandShapes(c, i);
    StandBallots(c, i);
    StandOrigins(c, i);
    StandElections(c, i);
    StandAcks(c, i);
    HeldKept(c, d);
    StandCovers(c, i);
    CoversKept(c, d, i, d.term[i], c.log[i]);
    VotesKept(c, d, (i, d.term[i]));
    ElectionsKept(c, d, 0);
  }

  // ----- Grant -----

  /** What a voter may grant: its term's candidate, with a log at least as good as its own. */
  ghost predicate CanGrant(c: Core, v: Id, cand: Id)
    requires Shape(c)
  {
    && v in c.members
    && (cand, c.term[v]) in c.cands
    && LogOk(LastTerm(c.cands[(cand, c.term[v])]), |c.cands[(cand, c.term[v])]|, c.log[v])
    && ((v, c.term[v]) in c.ballots ==> c.ballots[(v, c.term[v])] == cand)
  }

  /** A prefix of a leader's log that ends in its term goes beyond its base. */
  lemma PastBase(base: Log, l: Log, log: Log, t: nat)
    requires base <= log && l <= log && l != []
    requires TermsWithin(base, t - 1) && l[|l| - 1].term == t
    ensures |base| < |l|
  {
    assert log[|l| - 1] == l[|l| - 1];
  }

  /** A log that passes the vote comparison has every prefix p of the voter's log that
      ends in term t and that no leader between t and u lacked. */
  lemma BetterLogHas(es: map<nat, Election>, mine: Log, better: Log, t: nat, p: Log, u: nat)
    requires Origin(es, mine) && Origin(es, better) && Ordered(mine)
    requires forall w :: w in es ==> TermsWithin(es[w].base, w - 1) && es[w].base <= es[w].log
    requires TermsWithin(better, u - 1) && t >= 1
    requires LogOk(LastTerm(better), |better|, mine)
    requires p != [] && p <= mine && p[|p| - 1].term == t
    requires Kept(es, t, p, u - 1)
    ensures p <= better
  {
    var lt := LastTerm(better);
    assert mine[|p| - 1].term == t <= LastTerm(mine) <= lt;
    assert better != [] && better == better[..|better|] <= Authored(es, lt);
    if lt == LastTerm(mine) {
      assert mine == mine[..|mine|] <= Authored(es, lt);
      assert mine <= better;
    } else {
      assert lt in es;
      var b := es[lt].base;
      PastBase(b, better, es[lt].log, lt);
      assert p <= b <= better;
    }
  }

  lemma GrantCoversAt(c: Core, v: Id, cand: Id, t: nat, k: nat)
    requires Shape(c) && LogTerms(c) && ElectionsOk(c) && BallotsOk(c) && OriginsOk(c) && AcksOk(c) && AcksHeld(c)
    requires CanGrant(c, v, cand) && c.term[v] !in c.elections
    requires Acked(c, v, t, k) && t < c.term[v] && c.elections[t].log[k - 1].term == t
    requires Kept(c.elections, t, c.elections[t].log[..k], c.term[v] - 1)
    ensures c.elections[t].log[..k] <= c.cands[(cand, c.term[v])]
  {
    hide AcksHeld, Kept, Origin, Ordered, TermsWithin;
    BasesWithin(c);
    AckedHeld(c, v, t, k);
    BetterLogHas(c.elections, c.log[v], c.cands[(cand, c.term[v])], t, c.elections[t].log[..k], c.term[v]);
  }

  lemma GrantCovers(c: Core, v: Id, cand: Id)
    requires Shape(c) && LogTerms(c) && ElectionsOk(c) && BallotsOk(c) && OriginsOk(c) && AcksOk(c) && AcksHeld(c)
    requires CanGrant(c, v, cand) && c.term[v] !in c.elections
    ensures Covers(c, v, c.term[v], c.cands[(cand, c.term[v])])
  {
    forall t: nat, k: nat |
      Acked(c, v, t, k) && t < c.term[v] && c.elections[t].log[k - 1].term == t
      && Kept(c.elections, t, c.elections[t].log[..k], c.term[v] - 1)
      ensures c.elections[t].log[..k] <= c.cands[(cand, c.term[v])]
    {
      GrantCoversAt(c, v, cand, t, k);
    }
  }

  lemma BasesWithin(c: Core)
    requires Shape(c) && ElectionsOk(c)
    ensures forall w :: w in c.elections ==>
      w >= 1 && TermsWithin(c.elections[w].base, w - 1) && c.elections[w].base <= c.elections[w].log
  {
    forall w | w in c.elections
      ensures w >= 1 && TermsWithin(c.elections[w].base, w - 1) && c.elections[w].base <= c.elections[w].log
    {
      assert ElectionOk(c, w, c.elections[w]);
    }
  }

  /** In an undecided term a node holds what it acknowledged, if no earlier leader lacked it. */
  lemma AckedHeld(c: Core, v: Id, t: nat, k: nat)
    requires Shape(c) && AcksOk(c) && AcksHeld(c)
    requires Acked(c, v, t, k) && c.term[v] !in c.elections
    requires Kept(c.elections, t, c.elections[t].log[..k], c.term[v] - 1)
    ensures c.elections[t].log[..k] <= c.log[v]
  {
    assert Kept(c.elections, t, c.elections[t].log[..k], c.term[v]);
  }

  lemma GrantShapes(c: Core, v: Id, cand: Id)
    requires Shape(c) && LogTerms(c) && BallotsOk(c) && CanGrant(c, v, cand)
    ensures var d := Grant(c, v, cand); Shape(d) && LogTerms(d) && BallotsOk(d) && Evolves(c, d) && LogsGrow(c, d)
  {
  }

  lemma GrantElections(c: Core, v: Id, cand: Id)
    requires Shape(c) && ElectionsOk(c) && CanGrant(c, v, cand)
    ensures ElectionsOk(Grant(c, v, cand))
  {
    var d := Grant(c, v, cand);
    forall u | u in d.elections ensures ElectionOk(d, u, d.elections[u]) {
      assert ElectionOk(c, u, c.elections[u]);
    }
  }

  lemma GrantInv(c: Core, v: Id, cand: Id)
    requires Inv(c) && CanGrant(c, v, cand)
    ensures Inv(Grant(c, v, cand))
  {
    var d := Grant(c, v, cand);
    GrantShapes(c, v, cand);
    GrantElections(c, v, cand);
    HeldKept(c, d);
    if c.term[v] !in c.elections {
      GrantCovers(c, v, cand);
      CoversKept(c, d, v, c.term[v], c.cands[(cand, c.term[v])]);
    }
    VotesKept(c, d, (v, c.term[v]));
    ElectionsKept(c, d, 0);
  }

  // ----- Elect -----

  ghost predicate CanElect(c: Core, i: Id, voters: set<Id>)
    requires Shape(c)
  {
    && i in c.members
    && c.term[i] !in c.elections
    && (i, c.term[i]) in c.cands && c.cands[(i, c.term[i])] == c.log[i]
    && Majority(voters, c.members)
    && (forall v :: v in voters ==> (v, c.term[i]) in c.ballots && c.ballots[(v, c.term[i])] == i)
  }

  lemma ElectShapes(c: Core, i: Id, voters: set<Id>)
    requires Shape(c) && LogTerms(c) && BallotsOk(c) && CanElect(c, i, voters)
    ensures var d := Elect(c, i, voters); Shape(d) && LogTerms(d) && BallotsOk(d) && Evolves(c, d) && LogsGrow(c, d)
  {
    AppendOrdered(c.log[i], Entry(c.term[i], Noop));
  }

  lemma ElectElections(c: Core, i: Id, voters: set<Id>)
    requires Shape(c) && LogTerms(c) && BallotsOk(c) && ElectionsOk(c) && CanElect(c, i, voters)
    ensures ElectionsOk(Elect(c, i, voters))
  {
    var d := Elect(c, i, voters);
    AppendOrdered(c.log[i], Entry(c.term[i], Noop));
    forall u | u in d.elections ensures ElectionOk(d, u, d.elections[u]) {
      if u != c.term[i] {
        assert ElectionOk(c, u, c.elections[u]);
      }
    }
  }

  lemma HasTerm(l: Log)
    requires l != []
    ensures !TermsWithin(l, 0)
  {
    assert l[0].term >= 0;
  }

  /** The first entry of a term's leader extends what the term held before, if anything. */
  lemma ElectAuthored(c: Core, i: Id, voters: set<Id>)
    requires Shape(c) && BallotsOk(c) && CanElect(c, i, voters)
    ensures forall t :: Authored(c.elections, t) <= Authored(Elect(c, i, voters).elections, t)
  {
    var d := Elect(c, i, voters);
    if c.term[i] == 1 && c.log[i] != [] {
      HasTerm(c.log[i]);
      assert false;
    }
  }

  lemma OwnLogOrigin(es: map<nat, Election>, l: Log, e: Entry)
    requires Origin(es, l)
    requires Authored(es, e.term) == l + [e]
    ensures Origin(es, l + [e])
  {
    var m := l + [e];
    forall k | 0 <= k < |m| ensures m[..k + 1] <= Authored(es, m[k].term) {
      if k < |l| {
        assert m[..k + 1] == l[..k + 1] && m[k] == l[k];
      } else {
        assert m[..k + 1] == m;
      }
    }
  }

  lemma ElectOrigins(c: Core, i: Id, voters: set<Id>)
    requires Shape(c) && BallotsOk(c) && OriginsOk(c) && CanElect(c, i, voters)
    ensures OriginsOk(Elect(c, i, voters))
  {
    var d := Elect(c, i, voters);
    ElectAuthored(c, i, voters);
    OriginsCarry(c, d, i);
    OwnLogOrigin(d.elections, c.log[i], Entry(c.term[i], Noop));
  }

  /** Every log of c keeps its origin once more has been authored. */
  lemma OriginsCarry(c: Core, d: Core, i: Id)
    requires Shape(c) && Shape(d) && OriginsOk(c) && c.members == d.members
    requires forall t :: Authored(c.elections, t) <= Authored(d.elections, t)
    ensures forall j :: j in c.members ==> Origin(d.elections, c.log[j])
    ensures forall t :: t in c.elections ==> Origin(d.elections, c.elections[t].log)
    ensures forall v, t :: (v, t) in c.cands ==> Origin(d.elections, c.cands[(v, t)])
  {
    forall j | j in c.members ensures Origin(d.elections, c.log[j]) {
      OriginKept(c.elections, d.elections, c.log[j]);
    }
    forall t | t in c.elections ensures Origin(d.elections, c.elections[t].log) {
      OriginKept(c.elections, d.elections, c.elections[t].log);
    }
    forall v, t | (v, t) in c.cands ensures Origin(d.elections, c.cands[(v, t)]) {
      OriginKept(c.elections, d.elections, c.cands[(v, t)]);
    }
  }

  lemma ElectAcks(c: Core, i: Id, voters: set<Id>)
    requires Shape(c) && AcksOk(c) && CanElect(c, i, voters)
    ensures AcksOk(Elect(c, i, voters))
  {
    var d := Elect(c, i, voters);
    forall f, u | (f, u) in d.acked ensures AckOk(d, f, u, d.acked[(f, u)]) {
      if (f, u) != (i, c.term[i]) {
        assert AckOk(c, f, u, c.acked[(f, u)]);
      }
    }
  }

  lemma ElectCovers(c: Core, i: Id, voters: set<Id>)
    requires Shape(c) && BallotsOk(c) && AcksOk(c) && VotesCover(c) && CanElect(c, i, voters)
    requires var d := Elect(c, i, voters); Shape(d) && AcksOk(d) && Evolves(c, d)
    ensures var d := Elect(c, i, voters);
      forall v :: v in voters ==> Covers(d, v, c.term[i], c.log[i])
  {
    var d := Elect(c, i, voters);
    forall v | v in voters ensures Covers(d, v, c.term[i], c.log[i]) {
      assert (v, c.term[i]) in c.ballots;
      CoversKept(c, d, v, c.term[i], c.log[i]);
    }
  }

  lemma ElectInv(c: Core, i: Id, voters: set<Id>)
    requires Inv(c) && CanElect(c, i, voters)
    ensures Inv(Elect(c, i, voters))
  {
    var d := Elect(c, i, voters);
    ElectShapes(c, i, voters);
    ElectElections(c, i, voters);
    ElectOrigins(c, i, voters);
    ElectAcks(c, i, voters);
    HeldKept(c, d);
    ElectCovers(c, i, voters);
    VotesKept(c, d, (i, c.term[i] + 1));
    ElectionsKept(c, d, c.term[i]);
  }

  // ----- LeaderWrite -----

  ghost predicate CanWrite(c: Core, i: Id, e: Entry)
    requires Shape(c)
  {
    && i in c.members
    && c.term[i] in c.elections && c.elections[c.term[i]].leader == i
    && e.term == c.term[i]
  }

  lemma LeaderWriteShapes(c: Core, i: Id, e: Entry)
    requires Shape(c) && LogTerms(c) && ElectionsOk(c) && CanWrite(c, i, e)
    ensures var d := LeaderWrite(c, i, e); Shape(d) && LogTerms(d) && Evolves(c, d) && LogsGrow(c, d)
    ensures c.elections.Keys == LeaderWrite(c, i, e).elections.Keys
  {
    hide LogTerms, ElectionsOk, Evolves, LogsGrow;
    LeaderWriteTerms(c, i, e);
    LeaderWriteEvolves(c, i, e);
  }

  lemma LeaderWriteTerms(c: Core, i: Id, e: Entry)
    requires Shape(c) && LogTerms(c) && ElectionsOk(c) && CanWrite(c, i, e)
    ensures var d := LeaderWrite(c, i, e); Shape(d) && LogTerms(d)
  {
    assert ElectionOk(c, c.term[i], c.elections[c.term[i]]);
    AppendOrdered(c.log[i], e);
  }

  lemma LeaderWriteEvolves(c: Core, i: Id, e: Entry)
    requires Shape(c) && ElectionsOk(c) && CanWrite(c, i, e)
    ensures
      var d := LeaderWrite(c, i, e);
      Shape(d) && Evolves(c, d) && LogsGrow(c, d) && c.elections.Keys == d.elections.Keys
  {
    assert ElectionOk(c, c.term[i], c.elections[c.term[i]]);
  }

  lemma LeaderWriteElectionsAt(c: Core, i: Id, e: Entry, u: nat)
    requires Shape(c) && LogTerms(c) && ElectionsOk(c) && CanWrite(c, i, e) && u in c.elections
    ensures var d := LeaderWrite(c, i, e); ElectionOk(d, u, d.elections[u])
  {
    assert ElectionOk(c, u, c.elections[u]);
    assert ElectionOk(c, c.term[i], c.elections[c.term[i]]);
    AppendOrdered(c.log[i], e);
  }

  lemma LeaderWriteElections(c: Core, i: Id, e: Entry)
    requires Shape(c) && LogTerms(c) && ElectionsOk(c) && CanWrite(c, i, e)
    ensures ElectionsOk(LeaderWrite(c, i, e))
  {
    var d := LeaderWrite(c, i, e);
    forall u | u in d.elections ensures ElectionOk(d, u, d.elections[u]) {
      LeaderWriteElectionsAt(c, i, e, u);
    }
  }

  lemma LeaderWriteOrigins(c: Core, i: Id, e: Entry)
    requires Shape(c) && ElectionsOk(c) && OriginsOk(c) && CanWrite(c, i, e)
    ensures OriginsOk(LeaderWrite(c, i, e))
  {
    var d := LeaderWrite(c, i, e);
    assert ElectionOk(c, c.term[i], c.elections[c.term[i]]);
    OriginsCarry(c, d, i);
    OwnLogOrigin(d.elections, c.log[i], e);
  }

  lemma LeaderWriteAcks(c: Core, i: Id, e: Entry)
    requires Shape(c) && AcksOk(c) && ElectionsOk(c) && CanWrite(c, i, e)
    ensures AcksOk(LeaderWrite(c, i, e))
  {
    var d := LeaderWrite(c, i, e);
    assert ElectionOk(c, c.term[i], c.elections[c.term[i]]);
    forall f, u | (f, u) in d.acked ensures AckOk(d, f, u, d.acked[(f, u)]) {
      if (f, u) != (i, c.term[i]) {
        assert AckOk(c, f, u, c.acked[(f, u)]);
      }
    }
  }

  lemma LeaderWriteInv(c: Core, i: Id, e: Entry)
    requires Inv(c) && CanWrite(c, i, e)
    ensures Inv(LeaderWrite(c, i, e))
  {
    var d := LeaderWrite(c, i, e);
    LeaderWriteShapes(c, i, e);
    BallotsKept(c, d);
    LeaderWriteElections(c, i, e);
    LeaderWriteOrigins(c, i, e);
    LeaderWriteAcks(c, i, e);
    HeldKept(c, d);
    CoverKept(c, d);
  }

  // ----- Drop -----

  /** The follower's entry at x is not of the term the leader has there. */
  ghost predicate CanDrop(c: Core, f: Id, x: nat)
    requires Shape(c)
  {
    && f in c.members
    && c.term[f] in c.elections
    && 1 <= x <= |c.log[f]|
    && x <= |c.elections[c.term[f]].log|
    && c.log[f][x - 1].term != c.elections[c.term[f]].log[x - 1].term
  }

  lemma DropShapes(c: Core, f: Id, x: nat)
    requires Shape(c) && LogTerms(c) && BallotsOk(c) && CanDrop(c, f, x)
    ensures var d := Drop(c, f); Shape(d) && LogTerms(d) && Evolves(c, d)
  {
  }

  lemma DropElections(c: Core, f: Id, x: nat)
    requires Shape(c) && ElectionsOk(c) && CanDrop(c, f, x)
    ensures ElectionsOk(Drop(c, f))
  {
    var d := Drop(c, f);
    forall u | u in d.elections ensures ElectionOk(d, u, d.elections[u]) {
      assert ElectionOk(c, u, c.elections[u]);
    }
  }

  lemma DropOrigins(c: Core, f: Id, x: nat)
    requires Shape(c) && OriginsOk(c) && CanDrop(c, f, x)
    ensures OriginsOk(Drop(c, f))
  {
    var d := Drop(c, f);
    forall k | 0 <= k < |d.log[f]| ensures d.log[f][..k + 1] <= Authored(d.elections, d.log[f][k].term) {
      assert d.log[f][..k + 1] == c.log[f][..k + 1] && d.log[f][k] == c.log[f][k];
    }
  }

  lemma DropAcks(c: Core, f: Id, x: nat)
    requires Shape(c) && AcksOk(c) && CanDrop(c, f, x)
    ensures AcksOk(Drop(c, f))
  {
    var d := Drop(c, f);
    forall g, u | (g, u) in d.acked ensures AckOk(d, g, u, d.acked[(g, u)]) {
      assert AckOk(c, g, u, c.acked[(g, u)]);
    }
  }

  lemma MismatchBeyond(p: Log, a: Log, b: Log, x: nat)
    requires p <= a && p <= b && 1 <= x <= |a| && x <= |b| && a[x - 1].term != b[x - 1].term
    ensures |p| < x
  {
  }

  /** Dropping the tail never loses an acknowledged prefix that the present leader has. */
  lemma DropHeld(c: Core, f: Id, x: nat)
    requires Shape(c) && ElectionsOk(c) && AcksOk(c) && AcksHeld(c) && CanDrop(c, f, x)
    requires AcksOk(Drop(c, f))
    ensures AcksHeld(Drop(c, f))
  {
    var d := Drop(c, f);
    var u := c.term[f];
    assert ElectionOk(c, u, c.elections[u]);
    forall g: Id, t: nat, k: nat |
      Acked(d, g, t, k) && Kept(d.elections, t, d.elections[t].log[..k], d.term[g])
      ensures d.elections[t].log[..k] <= d.log[g]
    {
      assert Acked(c, g, t, k);
      assert AckOk(c, g, t, c.acked[(g, t)]);
      var p := c.elections[t].log[..k];
      assert p <= c.log[g];
      if g == f {
        assert t < u;
        assert p <= c.elections[u].base <= c.elections[u].log;
        MismatchBeyond(p, c.log[f], c.elections[u].log, x);
      }
    }
  }

  lemma DropInv(c: Core, f: Id, x: nat)
    requires Inv(c) && CanDrop(c, f, x)
    ensures Inv(Drop(c, f))
  {
    var d := Drop(c, f);
    DropShapes(c, f, x);
    BallotsKept(c, d);
    DropElections(c, f, x);
    DropOrigins(c, f, x);
    DropAcks(c, f, x);
    DropHeld(c, f, x);
    CoverKept(c, d);
  }

  // ----- Extend -----

  ghost predicate CanExtend(c: Core, f: Id, n: nat)
    requires Shape(c)
  {
    && f in c.members
    && c.term[f] in c.elections
    && c.log[f] <= c.elections[c.term[f]].log
    && |c.log[f]| <= n <= |c.elections[c.term[f]].log|
  }

  lemma PrefixTerms(c: Core, t: nat, n: nat)
    requires Shape(c) && ElectionsOk(c) && t in c.elections && n <= |c.elections[t].log|
    ensures Ordered(c.elections[t].log[..n]) && TermsWithin(c.elections[t].log[..n], t)
  {
    var e := c.elections[t];
    assert ElectionOk(c, t, e);
    forall k | 0 <= k < n ensures 1 <= e.log[..n][k].term <= t {
      assert k < |e.base| ==> e.log[k] == e.base[k];
    }
  }

  lemma ExtendShapes(c: Core, f: Id, n: nat)
    requires Shape(c) && LogTerms(c) && ElectionsOk(c) && CanExtend(c, f, n)
    ensures var d := Extend(c, f, n); Shape(d) && LogTerms(d) && Evolves(c, d) && LogsGrow(c, d)
    ensures c.elections.Keys == Extend(c, f, n).elections.Keys
  {
    PrefixTerms(c, c.term[f], n);
  }

  lemma ExtendElections(c: Core, f: Id, n: nat)
    requires Shape(c) && ElectionsOk(c) && CanExtend(c, f, n)
    ensures ElectionsOk(Extend(c, f, n))
  {
    var d := Extend(c, f, n);
    forall u | u in d.elections ensures ElectionOk(d, u, d.elections[u]) {
      assert ElectionOk(c, u, c.elections[u]);
    }
  }

  lemma ExtendOrigins(c: Core, f: Id, n: nat)
    requires Shape(c) && OriginsOk(c) && CanExtend(c, f, n)
    ensures OriginsOk(Extend(c, f, n))
  {
    var d := Extend(c, f, n);
    var l := c.elections[c.term[f]].log;
    forall k | 0 <= k < n ensures d.log[f][..k + 1] <= Authored(d.elections, d.log[f][k].term) {
      assert d.log[f][..k + 1] == l[..k + 1] && d.log[f][k] == l[k];
    }
  }

  lemma ExtendAcks(c: Core, f: Id, n: nat)
    requires Shape(c) && AcksOk(c) && CanExtend(c, f, n)
    ensures AcksOk(Extend(c, f, n))
  {
    var d := Extend(c, f, n);
    forall g, u | (g, u) in d.acked ensures AckOk(d, g, u, d.acked[(g, u)]) {
      if (g, u) != (f, c.term[f]) {
        assert AckOk(c, g, u, c.acked[(g, u)]);
      }
    }
  }

  lemma ExtendInv(c: Core, f: Id, n: nat)
    requires Inv(c) && CanExtend(c, f, n)
    ensures Inv(Extend(c, f, n))
  {
    var d := Extend(c, f, n);
    ExtendShapes(c, f, n);
    BallotsKept(c, d);
    ExtendElections(c, f, n);
    ExtendOrigins(c, f, n);
    ExtendAcks(c, f, n);
    HeldKept(c, d);
    CoverKept(c, d);
  }
}
