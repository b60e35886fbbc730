/** The replicated store: log entries, the state machine that applies them, snapshots and their restoration. */
module Store {
  datatype Option<T> = None | Some(value: T)

  /* ---- log entries ---- */

  datatype Command = Command(op: string, key: string, value: string)

  /** A log entry's bytes: a JSON object with its members in order, or something that is not one. */
  datatype Data = Object(members: seq<(string, string)>) | Malformed

  function Member(name: string, value: string): seq<(string, string)> {
    if value == "" then [] else [(name, value)]
  }

  /** `json.Marshal`: every field is tagged `omitempty`. */
  function Marshal(c: Command): Data {
    Object(Member("op", c.op) + Member("key", c.key) + Member("value", c.value))
  }

  function With(c: Command, m: (string, string)): Command {
    if m.0 == "op" then c.(op := m.1)
    else if m.0 == "key" then c.(key := m.1)
    else if m.0 == "value" then c.(value := m.1)
    else c
  }

  /** Members fill fields one after the other; unknown members are skipped. */
  function Filled(c: Command, members: seq<(string, string)>): Command
    decreases |members|
  {
    if members == [] then c else Filled(With(c, members[0]), members[1..])
  }

  function Unmarshal(d: Data): Option<Command> {
    match d
    case Object(members) => Some(Filled(Command("", "", ""), members))
    case Malformed => None
  }

  /** The encoding has a member for each field that is not empty, in the order of the fields, and no others. */
  lemma MarshalOmits(c: Command)
    ensures var ms := Marshal(c).members;
      && (forall m | m in ms :: m.1 != "")
      && (("op", c.op) in ms <==> c.op != "") && (("key", c.key) in ms <==> c.key != "")
      && (("value", c.value) in ms <==> c.value != "")
      && (forall j, k | 0 <= j < k < |ms| ::
            (ms[j].0 == "op" && (ms[k].0 == "key" || ms[k].0 == "value")) || (ms[j].0 == "key" && ms[k].0 == "value"))
  {
  }

  lemma {:induction false} FilledSum(c: Command, x: seq<(string, string)>, y: seq<(string, string)>)
    ensures Filled(c, x + y) == Filled(Filled(c, x), y)
    decreases |x|
  {
    if x == [] {
      assert x + y == y;
    } else {
      assert (x + y)[1..] == x[1..] + y;
      FilledSum(With(c, x[0]), x[1..], y);
    }
  }

  lemma FilledOne(c: Command, name: string, value: string)
    ensures Filled(c, Member(name, value)) == if value == "" then c else With(c, (name, value))
  {
    assert Member(name, value) != [] ==> Member(name, value)[1..] == [];
  }

  /** Encoding with empty fields left out decodes back exactly. */
  lemma CommandRoundTrip(c: Command)
    ensures Unmarshal(Marshal(c)) == Some(c)
  {
    hide Filled, Member;
    var start := Command("", "", "");
    var o, k, v := Member("op", c.op), Member("key", c.key), Member("value", c.value);
    FilledSum(start, o + k, v);
    FilledSum(start, o, k);
    FilledOne(start, "op", c.op);
    FilledOne(Command(c.op, "", ""), "key", c.key);
    FilledOne(Command(c.op, c.key, ""), "value", c.value);
    assert start.(op := c.op) == Command(c.op, "", "");
  }

  /** The entries `Set` and `Delete` propose. */
  ghost predicate Proposed(d: Data) {
    || (exists key, value :: d == Marshal(Command("set", key, value)))
    || (exists key :: d == Marshal(Command("delete", key, "")))
  }

  /* ---- the meaning of a log ---- */

  type Contents = map<string, string>

  function Step(m: Contents, d: Data): Contents {
    match Unmarshal(d)
    case None => m
    case Some(c) => if c.op == "set" then m[c.key := c.value] else if c.op == "delete" then m - {c.key} else m
  }

  /** The map after a log prefix. */
  function Fold(log: seq<Data>): Contents {
    if log == [] then map[] else Step(Fold(log[..|log| - 1]), log[|log| - 1])
  }

  lemma FoldMore(log: seq<Data>, n: nat)
    requires n < |log|
    ensures Fold(log[..n + 1]) == Step(Fold(log[..n]), log[n])
  {
    assert log[..n + 1][..n] == log[..n];
  }

  /** What the last entry about a key says of it: its value, or that it is gone. */
  function Latest(log: seq<Data>, key: string): Option<string> {
    if log == [] then None
    else
      match Unmarshal(log[|log| - 1])
      case Some(c) =>
        if c.key == key && c.op == "set" then Some(c.value)
        else if c.key == key && c.op == "delete" then None
        else Latest(log[..|log| - 1], key)
      case None => Latest(log[..|log| - 1], key)
  }

  /** The fold answers every key with the last word on it. */
  lemma {:induction false} LastWordWins(log: seq<Data>, key: string)
    ensures Latest(log, key) == if key in Fold(log) then Some(Fold(log)[key]) else None
  {
    if log != [] {
      LastWordWins(log[..|log| - 1], key);
    }
  }

  /** What a set or delete adds to the log changes what is said of its own key only. */
  lemma SaidOfKeys(log: seq<Data>, c: Command)
    requires c.op == "set" || c.op == "delete"
    ensures Latest(log + [Marshal(c)], c.key) == if c.op == "set" then Some(c.value) else None
    ensures forall k | k != c.key :: Latest(log + [Marshal(c)], k) == Latest(log, k)
  {
    hide Marshal, Unmarshal;
    CommandRoundTrip(c);
    assert (log + [Marshal(c)])[..|log|] == log;
  }

  /* ---- the state machine ---- */

  /** A Go map: a reference that several variables may share. `home` is the node it was made for, or `CLONE`. */
  class GoMap {
    var entries: Contents
    ghost const home: int

    constructor (entries: Contents, ghost home: int)
      ensures this.entries == entries && this.home == home
    {
      this.entries, this.home := entries, home;
    }
  }

  ghost const CLONE := -1

  /** What `Apply` does: return, or panic. */
  datatype Outcome = Returned | CannotUnmarshal | UnrecognizedOp(op: string)

  class Fsm {
    var m: GoMap
    ghost const id: nat

    constructor (ghost id: nat)
      ensures fresh(m) && m.entries == map[] && m.home == id == this.id
    {
      this.id := id;
      m := new GoMap(map[], id);
    }

    method ApplySet(key: string, value: string)
      modifies m
      ensures m.entries == old(m.entries)[key := value]
    {
      m.entries := m.entries[key := value];
    }

    method ApplyDelete(key: string)
      modifies m
      ensures m.entries == old(m.entries) - {key}
    {
      m.entries := m.entries - {key};
    }

    /** `Apply`, on any entry. */
    method Apply(data: Data) returns (r: Outcome)
      modifies m
      ensures m.entries == Step(old(m.entries), data)
      ensures r.Returned? <==> Unmarshal(data).Some? && Unmarshal(data).value.op in {"set", "delete"}
      ensures !r.Returned? ==> m.entries == old(m.entries)
      ensures Proposed(data) ==> r.Returned?
    {
      ProposedUnmarshals(data);
      var c := Unmarshal(data);
      match c
      case None => return CannotUnmarshal;
      case Some(command) =>
        if command.op == "set" {
          ApplySet(command.key, command.value);
        } else if command.op == "delete" {
          ApplyDelete(command.key);
        } else {
          return UnrecognizedOp(command.op);
        }
        r := Returned;
    }

    /** `Snapshot`: the map cloned key by key into a new one. */
    method Snapshot() returns (snapshot: FsmSnapshot)
      ensures fresh(snapshot) && fresh(snapshot.store)
      ensures snapshot.store.entries == m.entries && snapshot.store.home == CLONE
    {
      var o := new GoMap(map[], CLONE);
      var keys := m.entries.Keys;
      while keys != {}
        invariant keys <= m.entries.Keys && fresh(o) && m.entries == old(m.entries)
        invariant o.entries.Keys == m.entries.Keys - keys
        invariant forall k | k in o.entries :: o.entries[k] == m.entries[k]
        decreases |keys|
      {
        var k :| k in keys;
        o.entries := o.entries[k := m.entries[k]];
        keys := keys - {k};
      }
      snapshot := new FsmSnapshot(o);
    }

    /** `Restore`: a new map, or an error that leaves the old one. */
    method Restore(image: Option<Contents>) returns (ok: bool)
      modifies this
      ensures ok == image.Some?
      ensures ok ==> fresh(m) && m.entries == image.value && m.home == id
      ensures !ok ==> m == old(m)
    {
      if image.None? {
        return false;
      }
      m := new GoMap(image.value, id);
      ok := true;
    }

    /** `Get`: Go's map index, which gives the empty string for a missing key. */
    method Get(key: string) returns (value: string)
      ensures key in m.entries ==> value == m.entries[key]
      ensures key !in m.entries ==> value == ""
    {
      value := if key in m.entries then m.entries[key] else "";
    }
  }

  lemma ProposedUnmarshals(d: Data)
    ensures Proposed(d) ==> Unmarshal(d).Some? && (Unmarshal(d).value.op == "set" || Unmarshal(d).value.op == "delete")
  {
    hide Marshal, Unmarshal;
    if Proposed(d) {
      if exists key, value :: d == Marshal(Command("set", key, value)) {
        var key, value :| d == Marshal(Command("set", key, value));
        CommandRoundTrip(Command("set", key, value));
      } else {
        var key :| d == Marshal(Command("delete", key, ""));
        CommandRoundTrip(Command("delete", key, ""));
      }
    }
  }

  class FsmSnapshot {
    const store: GoMap

    constructor (store: GoMap)
      ensures this.store == store
    {
      this.store := store;
    }

    /** `Persist`: written and closed, or cancelled. */
    method Persist(writes: bool, closes: bool) returns (image: Option<Contents>, cancelled: bool)
      ensures writes && closes ==> image == Some(store.entries) && !cancelled
      ensures !(writes && closes) ==> image == None && cancelled
    {
      if !writes || !closes {
        return None, true;
      }
      return Some(store.entries), false;
    }
  }

  /* ---- every interleaving ---- */

  /**
   What becomes of a call of `Set` or `Delete`: refused by a node that is not the leader; proposed, and the
   future reports no error; or proposed, and the future reports an error, by which time the entry may be in the log.
   */
  datatype Proposal = NotLeader | Accepted | Failed(logged: bool)

  /** What can happen next, to the node `i` or the snapshot `k`. */
  datatype Event =
    | Set(p: Proposal, key: string, value: string)
    | Delete(p: Proposal, key: string)
    | ApplyNext(i: nat)
    | TakeSnapshot(i: nat)
    | PersistSnapshot(k: nat, writes: bool, closes: bool)
    | RestoreFrom(i: nat, k: nat)
    | RestoreCorrupt(i: nat)
    | Restart(i: nat)

  /** How far everything is: the log, and the places in it of the nodes, the snapshots and the persisted images. */
  datatype View = View(log: seq<Data>, applied: seq<nat>, takenAt: seq<nat>, imagesAt: seq<nat>)

  function Places(images: seq<(Contents, nat)>): (r: seq<nat>)
    ensures |r| == |images| && forall k | 0 <= k < |r| :: r[k] == images[k].1
  {
    seq(|images|, k requires 0 <= k < |images| => images[k].1)
  }

  /** What each event makes of that; an event that is not possible changes nothing. */
  predicate Follows(v: View, e: Event, now: View) {
    match e
    case Set(p, key, value) =>
      now == v.(log := v.log + if p == Accepted || p == Failed(true) then [Marshal(Command("set", key, value))] else [])
    case Delete(p, key) =>
      now == v.(log := v.log + if p == Accepted || p == Failed(true) then [Marshal(Command("delete", key, ""))] else [])
    case ApplyNext(i) =>
      now == if i < |v.applied| && v.applied[i] < |v.log| then v.(applied := v.applied[i := v.applied[i] + 1]) else v
    case TakeSnapshot(i) =>
      now == if i < |v.applied| then v.(takenAt := v.takenAt + [v.applied[i]]) else v
    case PersistSnapshot(k, writes, closes) =>
      now == if k < |v.takenAt| && writes && closes then v.(imagesAt := v.imagesAt + [v.takenAt[k]]) else v
    case RestoreFrom(i, k) =>
      now == if i < |v.applied| && k < |v.imagesAt| then v.(applied := v.applied[i := v.imagesAt[k]]) else v
    case RestoreCorrupt(_) => now == v
    case Restart(i) =>
      now == if i < |v.applied| then v.(applied := v.applied[i := 0]) else v
  }

  /** The states between events. */
  predicate IsTrace(vs: seq<View>, events: seq<Event>) {
    |vs| == |events| + 1 && forall n | 0 <= n < |events| :: Follows(vs[n], events[n], vs[n + 1])
  }

  lemma TraceMore(vs: seq<View>, events: seq<Event>, n: nat, v: View)
    requires n < |events| && IsTrace(vs, events[..n]) && Follows(vs[n], events[n], v)
    ensures IsTrace(vs + [v], events[..n + 1])
  {
    hide Follows;
    var us := vs + [v];
    forall k | 0 <= k < n + 1 ensures Follows(us[k], events[..n + 1][k], us[k + 1]) {
      if k < n {
        assert Follows(vs[k], events[..n][k], vs[k + 1]);
      }
    }
  }

  /** The nodes over one committed log, the snapshots still to be persisted, and the persisted images. */
  class Cluster {
    var log: seq<Data>
    var nodes: seq<Fsm>
    var applied: seq<nat>
    var snapshots: seq<FsmSnapshot>
    var takenAt: seq<nat>
    var images: seq<(Contents, nat)>

    /** A node's map is the fold of the entries it has applied. */
    ghost predicate NodeOk(i: int)
      requires 0 <= i < |nodes| == |applied|
      reads `log, `nodes, `applied, nodes[i], nodes[i].m
    {
      nodes[i].id == i && nodes[i].m.home == i && applied[i] <= |log| && nodes[i].m.entries == Fold(log[..applied[i]])
    }

    ghost predicate SnapshotOk(k: int)
      requires 0 <= k < |snapshots| == |takenAt|
      reads `log, `snapshots, `takenAt, snapshots[k].store
    {
      snapshots[k].store.home == CLONE && takenAt[k] <= |log| && snapshots[k].store.entries == Fold(log[..takenAt[k]])
    }

    ghost predicate Valid()
      reads this, nodes, set i | 0 <= i < |nodes| :: nodes[i].m, set k | 0 <= k < |snapshots| :: snapshots[k].store
    {
      && |nodes| == |applied| && |snapshots| == |takenAt|
      && (forall i | 0 <= i < |nodes| :: NodeOk(i))
      && (forall k | 0 <= k < |snapshots| :: SnapshotOk(k))
      && (forall k | 0 <= k < |images| :: images[k].1 <= |log| && images[k].0 == Fold(log[..images[k].1]))
      && (forall d | d in log :: Proposed(d))
    }

    ghost function Seen(): View
      reads this
    {
      View(log, applied, takenAt, Places(images))
    }

    constructor (n: nat)
      ensures Valid() && |nodes| == n && log == [] && snapshots == [] && images == []
      ensures forall i | 0 <= i < n :: fresh(nodes[i]) && fresh(nodes[i].m)
    {
      log, nodes, applied, snapshots, takenAt, images := [], [], [], [], [], [];
      new;
      for i := 0 to n
        invariant Valid() && |nodes| == i && log == [] && snapshots == [] && images == []
        invariant forall j | 0 <= j < i :: fresh(nodes[j]) && fresh(nodes[j].m)
      {
        var fsm := new Fsm(i);
        label before:
        nodes := nodes + [fsm];
        applied := applied + [0];
        forall j | 0 <= j < |nodes| ensures NodeOk(j) {
          if j == i {
            assert Fold(log[..0]) == map[];
          } else {
            assert old@before(NodeOk(j));
          }
        }
      }
    }

    /** `Set`: without an error, the entry is in the log and reads back as the value; with one, it may be. */
    method Set(p: Proposal, key: string, value: string) returns (ok: bool)
      requires Valid()
      modifies this`log
      ensures Valid() && ok == p.Accepted?
      ensures p == Accepted || p == Failed(true) ==> log == old(log) + [Marshal(Command("set", key, value))]
      ensures p == NotLeader || p == Failed(false) ==> log == old(log)
      ensures ok ==> Latest(log, key) == Some(value)
      ensures forall k | k != key :: Latest(log, k) == old(Latest(log, k))
    {
      var c := Command("set", key, value);
      SaidOfKeys(log, c);
      hide Latest, Fold, Marshal;
      if p == Accepted || p == Failed(true) {
        Propose(Marshal(c));
      }
      ok := p.Accepted?;
    }

    /** `Delete`: without an error, the entry is in the log and the key is gone; with one, it may be. */
    method Delete(p: Proposal, key: string) returns (ok: bool)
      requires Valid()
      modifies this`log
      ensures Valid() && ok == p.Accepted?
      ensures p == Accepted || p == Failed(true) ==> log == old(log) + [Marshal(Command("delete", key, ""))]
      ensures p == NotLeader || p == Failed(false) ==> log == old(log)
      ensures ok ==> Latest(log, key) == None
      ensures forall k | k != key :: Latest(log, k) == old(Latest(log, k))
    {
      var c := Command("delete", key, "");
      SaidOfKeys(log, c);
      hide Latest, Fold, Marshal;
      if p == Accepted || p == Failed(true) {
        Propose(Marshal(c));
      }
      ok := p.Accepted?;
    }

    /** The committed log grows. */
    method Propose(d: Data)
      requires Valid() && Proposed(d)
      modifies this`log
      ensures Valid() && log == old(log) + [d]
    {
      hide Fold, Proposed;
      ghost var was := log;
      log := log + [d];
      PrefixesStay(was, d);
      forall i | 0 <= i < |nodes| ensures NodeOk(i) {
        assert old(NodeOk(i));
        assert log[..applied[i]] == was[..applied[i]];
      }
      forall k | 0 <= k < |snapshots| ensures SnapshotOk(k) {
        assert old(SnapshotOk(k));
        assert log[..takenAt[k]] == was[..takenAt[k]];
      }
      forall k | 0 <= k < |images| ensures images[k].1 <= |log| && images[k].0 == Fold(log[..images[k].1]) {
        assert log[..images[k].1] == was[..images[k].1];
      }
    }

    /** `Get` at a node: the last word on the key among the entries the node has applied. */
    method Get(i: nat, key: string) returns (value: string)
      requires Valid() && i < |nodes|
      ensures i < |applied| && applied[i] <= |log|
      ensures value == match Latest(log[..applied[i]], key) case Some(v) => v case None => ""
    {
      assert NodeOk(i);
      LastWordWins(log[..applied[i]], key);
      hide Fold, Latest;
      value := nodes[i].Get(key);
    }

    /** A node applies its next entry; it never panics. */
    method ApplyNext(i: nat) returns (r: Outcome)
      requires Valid() && i < |nodes| && applied[i] < |log|
      modifies this`applied, nodes[i].m
      ensures Valid() && r.Returned? && applied == old(applied)[i := old(applied[i]) + 1]
    {
      hide Fold, Unmarshal, Proposed, Step;
      assert NodeOk(i) && log[applied[i]] in log;
      FoldMore(log, applied[i]);
      NodesApart();
      SnapshotsApart(i);
      r := nodes[i].Apply(log[applied[i]]);
      applied := applied[i := applied[i] + 1];
      forall j | 0 <= j < |nodes| ensures NodeOk(j) {
        assert j != i ==> old(NodeOk(j));
      }
      forall k | 0 <= k < |snapshots| ensures SnapshotOk(k) {
        assert old(SnapshotOk(k));
      }
    }

    method TakeSnapshot(i: nat)
      requires Valid() && i < |nodes|
      modifies this`snapshots, this`takenAt
      ensures Valid() && |snapshots| == |old(snapshots)| + 1 && snapshots[..|old(snapshots)|] == old(snapshots)
      ensures fresh(snapshots[|old(snapshots)|]) && fresh(snapshots[|old(snapshots)|].store)
      ensures |applied| == |nodes| && takenAt == old(takenAt) + [applied[i]]
    {
      assert NodeOk(i);
      var snapshot := nodes[i].Snapshot();
      snapshots := snapshots + [snapshot];
      takenAt := takenAt + [applied[i]];
      forall k | 0 <= k < |snapshots| ensures SnapshotOk(k) {
        assert k < |snapshots| - 1 ==> old(SnapshotOk(k));
      }
    }

    /** However much was applied since, the image is of the moment the snapshot was taken. */
    method PersistSnapshot(k: nat, writes: bool, closes: bool)
      requires Valid() && k < |snapshots|
      modifies this`images
      ensures Valid() && k < |takenAt| && takenAt[k] <= |log|
      ensures images == old(images) + if writes && closes then [(Fold(log[..takenAt[k]]), takenAt[k])] else []
    {
      assert SnapshotOk(k);
      var image, cancelled := snapshots[k].Persist(writes, closes);
      if image.Some? {
        images := images + [(image.value, takenAt[k])];
      }
    }

    /** A node is set back, or forward, to a persisted image; the log is replayed from there. */
    method RestoreFrom(i: nat, k: nat)
      requires Valid() && i < |nodes| && k < |images|
      modifies this`applied, nodes[i]
      ensures Valid() && applied == old(applied)[i := images[k].1] && fresh(nodes[i].m)
    {
      assert NodeOk(i);
      NodesApart();
      var ok := nodes[i].Restore(Some(images[k].0));
      applied := applied[i := images[k].1];
      forall j | 0 <= j < |nodes| ensures NodeOk(j) {
        assert j != i ==> old(NodeOk(j));
      }
    }

    /** An unreadable image changes nothing. */
    method RestoreCorrupt(i: nat)
      requires Valid() && i < |nodes|
      modifies nodes[i]
      ensures Valid() && nodes[i].m == old(nodes[i].m)
    {
      hide Fold, Proposed;
      NodesApart();
      var ok := nodes[i].Restore(None);
      forall j | 0 <= j < |nodes| ensures NodeOk(j) {
        assert old(NodeOk(j));
      }
      forall k | 0 <= k < |snapshots| ensures SnapshotOk(k) {
        assert old(SnapshotOk(k));
      }
    }

    /** A node starts again with an empty map. */
    method Restart(i: nat)
      requires Valid() && i < |nodes|
      modifies this`applied, this`nodes
      ensures Valid() && |nodes| == |old(nodes)| && fresh(nodes[i]) && fresh(nodes[i].m)
      ensures forall j | 0 <= j < |nodes| && j != i :: nodes[j] == old(nodes[j])
      ensures i < |old(applied)| && applied == old(applied)[i := 0]
    {
      assert NodeOk(i);
      var fsm := new Fsm(i);
      assert Fold(log[..0]) == map[];
      hide Fold;
      nodes := nodes[i := fsm];
      applied := applied[i := 0];
      forall j | 0 <= j < |nodes| ensures NodeOk(j) {
        assert j != i ==> old(NodeOk(j));
      }
    }

    lemma Sizes()
      requires Valid()
      ensures |nodes| == |applied| && |snapshots| == |takenAt|
    {
      hide NodeOk, SnapshotOk;
    }

    /** One event, if it is possible. */
    method Happen(e: Event) returns (panicked: bool)
      requires Valid()
      modifies this, nodes, set i | 0 <= i < |nodes| :: nodes[i].m
      ensures Valid() && !panicked && |nodes| == |old(nodes)| && Follows(old(Seen()), e, Seen())
      ensures forall i | 0 <= i < |nodes| :: nodes[i] == old(nodes[i]) || fresh(nodes[i])
      ensures forall i | 0 <= i < |nodes| :: nodes[i].m == old(nodes[i].m) || fresh(nodes[i].m)
    {
      hide Valid, Fold, Marshal;
      Sizes();
      panicked := false;
      match e
      case Set(p, key, value) =>
        var ok := Set(p, key, value);
      case Delete(p, key) =>
        var ok := Delete(p, key);
      case ApplyNext(i) =>
        if i < |nodes| && applied[i] < |log| {
          var r := ApplyNext(i);
          panicked := !r.Returned?;
        }
      case TakeSnapshot(i) =>
        if i < |nodes| {
          TakeSnapshot(i);
        }
      case PersistSnapshot(k, writes, closes) =>
        if k < |snapshots| {
          PersistSnapshot(k, writes, closes);
        }
      case RestoreFrom(i, k) =>
        if i < |nodes| && k < |images| {
          RestoreFrom(i, k);
        }
      case RestoreCorrupt(i) =>
        if i < |nodes| {
          RestoreCorrupt(i);
        }
      case Restart(i) =>
        if i < |nodes| {
          Restart(i);
        }
    }

    /**
     In every interleaving no node panics, each event does what it should, and in the end each node's map is the fold
     of the entries it has applied.
     */
    method Run(events: seq<Event>) returns (panicked: bool)
      requires Valid()
      modifies this, nodes, set i | 0 <= i < |nodes| :: nodes[i].m
      ensures Valid() && !panicked && |nodes| == |old(nodes)| == |applied|
      ensures exists vs :: IsTrace(vs, events) && vs[0] == old(Seen()) && vs[|events|] == Seen()
      ensures forall i | 0 <= i < |nodes| :: applied[i] <= |log| && nodes[i].m.entries == Fold(log[..applied[i]])
    {
      hide Fold, Follows, Proposed;
      panicked := false;
      ghost var vs := [Seen()];
      for n := 0 to |events|
        invariant Valid() && !panicked && |nodes| == |old(nodes)|
        invariant IsTrace(vs, events[..n]) && vs[0] == old(Seen()) && vs[n] == Seen()
        invariant forall i | 0 <= i < |nodes| :: nodes[i] == old(nodes[i]) || fresh(nodes[i])
        invariant forall i | 0 <= i < |nodes| :: nodes[i].m == old(nodes[i].m) || fresh(nodes[i].m)
      {
        panicked := Happen(events[n]);
        TraceMore(vs, events, n, Seen());
        vs := vs + [Seen()];
      }
      assert events[..|events|] == events;
      forall i | 0 <= i < |nodes| ensures applied[i] <= |log| && nodes[i].m.entries == Fold(log[..applied[i]]) {
        assert NodeOk(i);
      }
    }

    /** What was set is read at any node, once the node has applied what there is to apply. */
    method WriteThenRead(i: nat, key: string, value: string) returns (read: string)
      requires Valid() && i < |nodes|
      modifies this, nodes, set i | 0 <= i < |nodes| :: nodes[i].m
      ensures Valid() && read == value
    {
      hide Fold, Proposed, Latest, Marshal;
      SaidOfKeys(log, Command("set", key, value));
      assert NodeOk(i);
      var panicked := Happen(Event.Set(Accepted, key, value));
      while applied[i] < |log|
        invariant Valid() && |nodes| == |old(nodes)| && i < |applied| && applied[i] <= |log|
        invariant log == old(log) + [Marshal(Command("set", key, value))]
        invariant forall i | 0 <= i < |nodes| :: nodes[i] == old(nodes[i]) || fresh(nodes[i])
        invariant forall i | 0 <= i < |nodes| :: nodes[i].m == old(nodes[i].m) || fresh(nodes[i].m)
        decreases |log| - applied[i]
      {
        panicked := Happen(Event.ApplyNext(i));
        assert NodeOk(i);
      }
      assert log[..applied[i]] == log;
      read := Get(i, key);
    }

    /** Nodes that have applied equally much agree on every key. */
    lemma NodesAgree(i: nat, j: nat)
      requires Valid() && i < |nodes| && j < |nodes| && applied[i] == applied[j]
      ensures nodes[i].m.entries == nodes[j].m.entries
    {
      assert NodeOk(i) && NodeOk(j);
    }

    lemma SnapshotsApart(i: nat)
      requires Valid() && i < |nodes|
      ensures forall k | 0 <= k < |snapshots| :: snapshots[k].store != nodes[i].m
    {
      forall k | 0 <= k < |snapshots| ensures snapshots[k].store != nodes[i].m {
        assert SnapshotOk(k) && NodeOk(i);
      }
    }

    lemma NodesApart()
      requires Valid()
      ensures forall i, j | 0 <= i < j < |nodes| :: nodes[i] != nodes[j] && nodes[i].m != nodes[j].m
    {
      forall i, j | 0 <= i < j < |nodes| ensures nodes[i] != nodes[j] && nodes[i].m != nodes[j].m {
        assert NodeOk(i) && NodeOk(j);
      }
    }
  }

  lemma PrefixesStay(log: seq<Data>, d: Data)
    ensures forall n | 0 <= n <= |log| :: (log + [d])[..n] == log[..n]
  {
  }
}
