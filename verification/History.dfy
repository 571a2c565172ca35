/**
 What the version compare-and-swap guarantees, over every run. Within one life of a record the version
 names its value, whoever committed to it. Versions restart when a record is deleted, so an update can
 have read another life than the one it is committed to; `Incarnations` shows when.
 */
module History {
  import opened Types
  import opened Codecs
  import opened Etcd
  import opened FixedIPOps
  import opened Protocol
  import opened Ownership

  /** The record that results from the committed updates, in version order. */
  function Fold(birth: IPInfo, commits: seq<Commit>): IPInfo
    decreases |commits|
  {
    if commits == [] then birth
    else Modify(commits[|commits| - 1].op, Fold(birth, commits[..|commits| - 1]))
  }

  /** The updates committed at these places of incarnation i had read incarnation i. */
  predicate CleanIn(incs: seq<Incarnation>, i: nat, a: nat, b: nat)
    requires i < |incs| && b <= |incs[i].commits|
  {
    forall j :: a <= j < b ==> incs[i].commits[j].readInc == i
  }

  predicate Clean(incs: seq<Incarnation>, i: nat)
    requires i < |incs|
  {
    CleanIn(incs, i, 0, |incs[i].commits|)
  }

  /** The record after n commits: what the last of them made of the record it had read. */
  function ValueAt(inc: Incarnation, n: nat): IPInfo
    requires n <= |inc.commits|
  {
    if n == 0 then inc.birth else Modify(inc.commits[n - 1].op, inc.commits[n - 1].read)
  }

  predicate LiveSound(s: State, k: string)
    requires k in s.world.kv && k in s.live
  {
    var i := s.live[k];
    && i < |s.incs|
    && s.incs[i].key == k
    && s.world.kv[k] == Entry(ValueAt(s.incs[i], |s.incs[i].commits|), |s.incs[i].commits| + 1)
  }

  /** The version names the record: what was read at version n is the record after n - 1 commits. */
  predicate ReadSound(incs: seq<Incarnation>, client: Client) {
    client.local.Swapping? ==>
      var i, n := client.readInc, client.local.version;
      && i < |incs|
      && incs[i].key == IPInfoKey(client.local.read)
      && 1 <= n <= |incs[i].commits| + 1
      && client.local.read == ValueAt(incs[i], n - 1)
      && Proceeds(client.op, client.local.read)
  }

  /**
   A commit passed its guard on what it had read; if it had read this incarnation, that was the record it
   replaced.
   */
  predicate CommitSound(incs: seq<Incarnation>, i: nat, j: nat)
    requires i < |incs| && j < |incs[i].commits|
  {
    var commit := incs[i].commits[j];
    && Proceeds(commit.op, commit.read)
    && (commit.readInc == i ==> commit.read == ValueAt(incs[i], j))
  }

  predicate CommitsSound(incs: seq<Incarnation>, i: nat)
    requires i < |incs|
  {
    forall j :: 0 <= j < |incs[i].commits| ==> CommitSound(incs, i, j)
  }

  predicate BornFresh(inc: Incarnation) {
    inc.birth.status == {} && inc.birth.attrs == None
  }

  predicate Traced(s: State) {
    && s.live.Keys == s.world.kv.Keys
    && (forall k :: k in s.world.kv ==> LiveSound(s, k))
    && (forall c :: c in s.clients ==> ReadSound(s.incs, s.clients[c]))
    && (forall i :: 0 <= i < |s.incs| ==> CommitsSound(s.incs, i) && BornFresh(s.incs[i]))
  }

  /** Between clean commits the record is the fold of the commits. */
  lemma {:induction false} ValueIsFold(incs: seq<Incarnation>, i: nat, a: nat, b: nat)
    requires i < |incs| && a <= b <= |incs[i].commits| && CommitsSound(incs, i) && CleanIn(incs, i, a, b)
    ensures ValueAt(incs[i], b) == Fold(ValueAt(incs[i], a), incs[i].commits[a..b])
    decreases b
  {
    if a < b {
      ValueIsFold(incs, i, a, b - 1);
      assert CommitSound(incs, i, b - 1);
      assert incs[i].commits[a..b][..b - a - 1] == incs[i].commits[a..b - 1];
    }
  }

  /** Extending an incarnation by a commit keeps all that was true of its past. */
  lemma ExtendKeepsPast(incs: seq<Incarnation>, i: nat, commit: Commit, span: (nat, nat), incs': seq<Incarnation>)
    requires i < |incs| && incs' == incs[i := Extended(incs[i], commit, span)]
    ensures forall j :: 0 <= j < |incs[i].commits| ==> incs'[i].commits[j] == incs[i].commits[j]
    ensures forall n :: 0 <= n <= |incs[i].commits| ==> incs'[i].commits[..n] == incs[i].commits[..n]
    ensures forall n :: 0 <= n <= |incs[i].commits| ==> ValueAt(incs'[i], n) == ValueAt(incs[i], n)
  {
  }

  lemma ReadSurvives(
      incs: seq<Incarnation>, i: nat, commit: Commit, span: (nat, nat), incs': seq<Incarnation>, client: Client)
    requires i < |incs| && incs' == incs[i := Extended(incs[i], commit, span)] && ReadSound(incs, client)
    ensures ReadSound(incs', client)
  {
    ExtendKeepsPast(incs, i, commit, span, incs');
  }

  lemma CommitsSurvive(incs: seq<Incarnation>, i: nat, commit: Commit, span: (nat, nat), incs': seq<Incarnation>)
    requires i < |incs| && incs' == incs[i := Extended(incs[i], commit, span)] && CommitsSound(incs, i)
    requires Proceeds(commit.op, commit.read)
    requires commit.readInc == i ==> commit.read == ValueAt(incs[i], |incs[i].commits|)
    ensures CommitsSound(incs', i)
  {
    hide Modify;
    ExtendKeepsPast(incs, i, commit, span, incs');
    forall j | 0 <= j < |incs'[i].commits| ensures CommitSound(incs', i, j) {
      if j < |incs[i].commits| {
        assert CommitSound(incs, i, j);
      }
    }
  }

  lemma SameIncarnation(incs: seq<Incarnation>, i: nat, incs': seq<Incarnation>)
    requires i < |incs| && i < |incs'| && incs'[i] == incs[i] && CommitsSound(incs, i)
    ensures CommitsSound(incs', i)
  {
    hide Modify, ValueAt, Proceeds;
    forall j | 0 <= j < |incs'[i].commits| ensures CommitSound(incs', i, j) {
      assert CommitSound(incs, i, j);
    }
  }

  lemma CommittedLives(inc: Incarnation, commit: Commit, span: (nat, nat), entry: Entry<IPInfo>)
    requires entry.version == |inc.commits| + 1
    ensures var inc' := Extended(inc, commit, span);
      Entry(Modify(commit.op, commit.read), entry.version + 1)
      == Entry(ValueAt(inc', |inc'.commits|), |inc'.commits| + 1)
  {
  }

  /** A step that commits nothing and creates nothing. */
  lemma QuietStepTraced(s: State, s': State, c: nat)
    requires Traced(s) && c in s.clients && s'.incs == s.incs
    requires s'.clients.Keys == s.clients.Keys && forall d :: d in s.clients && d != c ==> s'.clients[d] == s.clients[d]
    requires ReadSound(s.incs, s'.clients[c])
    requires s'.live.Keys == s'.world.kv.Keys && s'.live.Keys <= s.live.Keys
    requires forall k :: k in s'.world.kv ==> s'.world.kv[k] == s.world.kv[k] && s'.live[k] == s.live[k]
    ensures Traced(s')
  {
    forall k | k in s'.world.kv ensures LiveSound(s', k) {
      assert LiveSound(s, k);
    }
  }

  lemma GetKeepsTraced(s: State, c: nat, fails: bool, offer: Option<IP>)
    requires Owned(s) && Traced(s) && CanAct(s, c) && s.clients[c].local.Getting?
    ensures Traced(Next(s, Act(c, fails, offer)))
  {
    hide Next;
    ActShape(s, c, fails, offer);
    GetShape(s, c, fails, offer);
    var s' := Next(s, Act(c, fails, offer));
    var k := NextCall(s, c).key;
    if k in s.world.kv {
      assert RecordSound(s, k) && LiveSound(s, k);
    }
    QuietStepTraced(s, s', c);
  }

  /** A creating Put starts a new incarnation at version 1. */
  lemma PutKeepsTraced(s: State, c: nat, k: string, birth: IPInfo, s': State)
    requires Traced(s) && c in s.clients && k !in s.world.kv
    requires birth.status == {} && birth.attrs == None
    requires s'.world.kv == Written(s.world.kv, k, birth)
    requires s'.incs == s.incs + [Incarnation(k, birth, [], [])] && s'.live == s.live[k := |s.incs|]
    requires s'.clients.Keys == s.clients.Keys && forall d :: d in s.clients && d != c ==> s'.clients[d] == s.clients[d]
    requires !s'.clients[c].local.Swapping?
    ensures Traced(s')
  {
    assert forall i :: 0 <= i < |s.incs| ==> s'.incs[i] == s.incs[i];
    forall d | d in s'.clients ensures ReadSound(s'.incs, s'.clients[d]) {
      assert ReadSound(s.incs, s.clients[d]);
    }
    forall j | j in s'.world.kv ensures LiveSound(s', j) {
      assert j != k ==> LiveSound(s, j);
    }
    forall i | 0 <= i < |s'.incs| ensures CommitsSound(s'.incs, i) && BornFresh(s'.incs[i]) {
      if i < |s.incs| {
        SameIncarnation(s.incs, i, s'.incs);
      }
    }
  }

  lemma CommitKeepsTraced(s: State, c: nat, s': State)
    requires Traced(s) && c in s.clients && s.clients[c].local.Swapping?
    requires var client := s.clients[c];
      var k := IPInfoKey(client.local.read);
      && k in s.world.kv && s.world.kv[k].version == client.local.version
      && s'.world.kv == Written(s.world.kv, k, Modify(client.op, client.local.read))
      && s'.live == s.live
      && (k in s.live && s.live[k] < |s.incs| ==>
          s'.incs == s.incs[s.live[k] := Extended(s.incs[s.live[k]], CommitOf(s, c), (client.mark, |s.writes|))])
    requires s'.clients.Keys == s.clients.Keys && forall d :: d in s.clients && d != c ==> s'.clients[d] == s.clients[d]
    requires !s'.clients[c].local.Swapping?
    ensures Traced(s')
  {
    var client := s.clients[c];
    var k := IPInfoKey(client.local.read);
    assert LiveSound(s, k) && ReadSound(s.incs, client);
    var i := s.live[k];
    var commit, span := CommitOf(s, c), (client.mark, |s.writes|);
    ExtendKeepsPast(s.incs, i, commit, span, s'.incs);
    hide Modify, ValueAt, Proceeds, CommitsSound;
    CommitsSurvive(s.incs, i, commit, span, s'.incs);
    CommittedLives(s.incs[i], commit, span, s.world.kv[k]);
    forall j | j in s'.world.kv ensures LiveSound(s', j) {
      assert LiveSound(s, j);
      assert j != k ==> s.live[j] != i;
    }
    forall d | d in s'.clients ensures ReadSound(s'.incs, s'.clients[d]) {
      if s'.clients[d].local.Swapping? {
        ReadSurvives(s.incs, i, commit, span, s'.incs, s.clients[d]);
      }
    }
    forall j | 0 <= j < |s'.incs| ensures CommitsSound(s'.incs, j) && BornFresh(s'.incs[j]) {
      if j != i {
        SameIncarnation(s.incs, j, s'.incs);
      }
    }
  }

  lemma ActKeepsTraced(s: State, c: nat, fails: bool, offer: Option<IP>)
    requires Owned(s) && Traced(s) && CanAct(s, c)
    ensures Traced(Next(s, Act(c, fails, offer)))
  {
    hide Next;
    var s' := Next(s, Act(c, fails, offer));
    ActShape(s, c, fails, offer);
    match s.clients[c].local {
      case Getting(_) => GetKeepsTraced(s, c, fails, offer);
      case Putting(_) =>
        KeyIsFree(s, c);
        PutShape(s, c, fails, offer);
        if s'.writes == s.writes {
          QuietStepTraced(s, s', c);
        } else {
          PutKeepsTraced(s, c, NextCall(s, c).key, NextCall(s, c).value, s');
        }
      case Swapping(_, _, _) =>
        if Answered(s, c, fails, offer) == FromStore(Swapped) {
          CommitShape(s, c, fails, offer);
          CommitKeepsTraced(s, c, s');
        } else {
          assert ClientSound(s.clients[c]);
          LostShape(s, c, fails, offer);
          QuietStepTraced(s, s', c);
        }
      case Deleting(_) =>
        DeleteShape(s, c, fails, offer);
        QuietStepTraced(s, s', c);
      case _ =>
        CalicoShape(s, c, fails, offer);
        QuietStepTraced(s, s', c);
    }
  }

  lemma BeginKeepsTraced(s: State, c: nat, op: Op)
    requires Traced(s)
    ensures Traced(Next(s, Begin(c, op)))
  {
    var s' := Next(s, Begin(c, op));
    forall k | k in s'.world.kv ensures LiveSound(s', k) {
      assert LiveSound(s, k);
    }
    forall d | d in s'.clients ensures ReadSound(s'.incs, s'.clients[d]) {
      assert d in s.clients ==> ReadSound(s.incs, s.clients[d]);
    }
  }

  lemma NextKeepsTraced(s: State, e: Event)
    requires Owned(s) && Traced(s)
    ensures Traced(Next(s, e))
  {
    match e
    case Begin(c, op) => BeginKeepsTraced(s, c, op);
    case Act(c, fails, offer) =>
      if CanAct(s, c) {
        ActKeepsTraced(s, c, fails, offer);
      }
  }

  lemma KeyIsFree(s: State, c: nat)
    requires Owned(s) && CanAct(s, c) && s.clients[c].local.Putting?
    ensures NextCall(s, c).key !in s.world.kv
  {
    assert HolderSound(s, c) && ClientSound(s.clients[c]);
    var k := NextCall(s, c).key;
    if k in s.world.kv {
      assert RecordSound(s, k);
      SameKeySameIP(s.world.kv[k].value, s.clients[c].local.ip);
    }
  }

  lemma {:induction false} RunKeepsTraced(taken: set<string>, events: seq<Event>)
    requires ValidEvents(events)
    ensures Owned(Run(Initial(taken), events)) && Traced(Run(Initial(taken), events))
    decreases |events|
  {
    RunKeepsOwned(taken, events);
    if events != [] {
      var front := events[..|events| - 1];
      RunKeepsTraced(taken, front);
      NextKeepsTraced(Run(Initial(taken), front), events[|events| - 1]);
    }
  }

  lemma ReachableTraced(s: State)
    requires Reachable(s)
    ensures Owned(s) && Traced(s)
  {
    var taken, events :| ValidEvents(events) && s == Run(Initial(taken), events);
    RunKeepsTraced(taken, events);
  }
}
