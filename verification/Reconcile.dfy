/** The three-way decision per key (`src/mirror/reconcile.rs`) and what it adds up to when
    several devices apply it to the same hub key. */
module Reconcile {
  import opened Options

  /** SHA-256 of some bytes; contents are identified with their digest. The empty string is
      what `commit_local_file` stores for "not hashed yet". */
  type Digest = string

  datatype Action =
    | Nothing
    | Push(ifMatch: Option<Digest>)
    | DeleteRemote(mustMatch: Digest)
    | Pull(sha: Digest)
    | TrashLocal
    | Adopt
    | Conflict(remote: Digest)

  function Decide(local: Option<Digest>, base: Option<Digest>, remote: Option<Digest>): Action {
    match (local != base, remote != base) {
      case (false, false) => Nothing
      case (true, false) =>
        if local.Some? then Push(base)
        else if base.Some? then DeleteRemote(base.value)
        else Nothing
      case (false, true) =>
        if remote.Some? then Pull(remote.value)
        else if local.Some? then TrashLocal
        else Nothing
      case (true, true) =>
        if local == remote then Adopt
        else if local.None? then (if remote.Some? then Pull(remote.value) else Adopt)
        else if remote.None? then Push(None)
        else Conflict(remote.value)
    }
  }

  /** The decision read backwards: each action is taken in exactly the documented situation.
      In particular nothing is pulled, trashed or deleted over a local change. */
  lemma {:induction false} DecideByOutcome(local: Option<Digest>, base: Option<Digest>, remote: Option<Digest>)
    ensures var a := Decide(local, base, remote);
            && (a.Nothing? <==> local == base == remote)
            && (a.Push? <==> local.Some? && local != base && (remote == base || remote.None?))
            && (a.Push? ==> a.ifMatch == remote)
            && (a.DeleteRemote? <==> local.None? && base.Some? && remote == base)
            && (a.DeleteRemote? ==> Some(a.mustMatch) == remote)
            && (a.Pull? <==> remote.Some? && remote != base && (local == base || local.None?))
            && (a.Pull? ==> Some(a.sha) == remote)
            && (a.TrashLocal? <==> local.Some? && local == base && remote.None?)
            && (a.Adopt? <==> local == remote != base)
            && (a.Conflict? <==> local.Some? && remote.Some? && local != base && remote != base && local != remote)
            && (a.Conflict? ==> Some(a.remote) == remote)
  {
  }

  // ── several devices, one key ──────────────────────────────────────────────

  /** What one device holds for the key: the digest its row gives for the local side, the last version
      agreed with the hub, the bytes in the folder, and the digest of a tombstone row, if there is
      one: the local side is then absent. */
  datatype Device = Device(local: Option<Digest>, base: Option<Digest>, file: Option<Digest>, grave: Option<Digest>)

  /** Row, base and folder as after a landing or a removal. */
  function Now(bytes: Option<Digest>): Device { Device(bytes, bytes, bytes, None) }

  /** One hub key, the devices mirroring it, and the copies made of conflicting edits. */
  datatype Cluster = Cluster(hub: Option<Digest>, devices: seq<Device>, copies: set<Digest>)

  /** A device looks at the hub and carries out the decision, deletes being propagated and
      conflicts resolved by keeping a copy of the local bytes beside the hub's version.
      Conditional writes go through only when the hub still holds what they name. Adopting a
      tombstone makes a row and a base of its digest. */
  function Turn(c: Cluster, i: nat): (r: Cluster)
    requires i < |c.devices|
    ensures |r.devices| == |c.devices|
  {
    var d := c.devices[i];
    match Decide(d.local, d.base, c.hub)
    case Nothing => c
    case Push(ifMatch) =>
      if c.hub == ifMatch then
        c.(hub := d.local, devices := c.devices[i := d.(base := d.local)])
      else c
    case DeleteRemote(m) =>
      if c.hub == Some(m) then
        c.(hub := None, devices := c.devices[i := Now(None)])
      else c
    case Pull(r) => c.(devices := c.devices[i := Now(Some(r))])
    case TrashLocal => c.(devices := c.devices[i := Now(None)])
    case Adopt =>
      if d.local.None? && d.grave.Some? then c.(devices := c.devices[i := d.(local := d.grave, base := d.grave, grave := None)])
      else c.(devices := c.devices[i := d.(base := d.local)])
    case Conflict(r) =>
      c.(devices := c.devices[i := Now(Some(r))], copies := c.copies + {d.local.value})
  }

  predicate InRange(order: seq<nat>, n: nat) {
    forall k :: 0 <= k < |order| ==> order[k] < n
  }

  function Pass(c: Cluster, order: seq<nat>): (r: Cluster)
    requires InRange(order, |c.devices|)
    ensures |r.devices| == |c.devices|
    decreases |order|
  {
    if order == [] then c else Pass(Turn(c, order[0]), order[1..])
  }

  /** Every device has had a turn. */
  predicate Covers(order: seq<nat>, n: nat) {
    && InRange(order, n)
    && (forall i :: 0 <= i < n ==> i in order)
  }

  predicate Settled(d: Device) { d.local == d.base }

  predicate Converged(c: Cluster) {
    forall d <- c.devices :: d.local == d.base == c.hub
  }

  /** Both sides are gone and a tombstone stands for ours. */
  predicate AdoptsGrave(d: Device, hub: Option<Digest>) { hub.None? && d.local.None? && d.base.Some? && d.grave.Some? }

  /** The row tells the truth about the folder. */
  predicate Honest(d: Device) { d.file == d.local && (d.grave.Some? ==> d.local.None?) }

  /** The row of an adopted tombstone: it names bytes, and no file is there. */
  predicate Phantom(d: Device) { d.file.None? && d.local.Some? && d.local == d.base && d.grave.None? }

  /** A turn leaves the device with the base its row names, and equal to the hub it saw unless it
      adopts a tombstone; a device with nothing of its own to say never changes the hub. */
  lemma {:induction false} TurnSettles(c: Cluster, i: nat)
    requires i < |c.devices|
    ensures var r := Turn(c, i);
            && |r.devices| == |c.devices|
            && (if AdoptsGrave(c.devices[i], c.hub) then r.devices[i] == Device(c.devices[i].grave, c.devices[i].grave, c.devices[i].file, None)
                else r.devices[i].local == r.devices[i].base == r.hub)
            && (forall j :: 0 <= j < |c.devices| && j != i ==> r.devices[j] == c.devices[j])
            && (Settled(c.devices[i]) ==> r.hub == c.hub && r.copies == c.copies)
  {
  }

  lemma {:induction false} FirstPassSettles(c: Cluster, order: seq<nat>)
    requires InRange(order, |c.devices|)
    ensures var r := Pass(c, order);
            forall j :: 0 <= j < |c.devices| && (j in order || Settled(c.devices[j])) ==> Settled(r.devices[j])
    decreases |order|
  {
    if order != [] {
      TurnSettles(c, order[0]);
      FirstPassSettles(Turn(c, order[0]), order[1..]);
    }
  }

  lemma {:induction false} SecondPassEquals(c: Cluster, order: seq<nat>)
    requires InRange(order, |c.devices|)
    requires forall d <- c.devices :: Settled(d)
    ensures var r := Pass(c, order);
            && r.hub == c.hub && r.copies == c.copies
            && forall j :: 0 <= j < |c.devices| && (j in order || c.devices[j].local == c.devices[j].base == c.hub) ==> r.devices[j].local == r.devices[j].base == c.hub
    decreases |order|
  {
    if order != [] {
      var c' := Turn(c, order[0]);
      TurnSettles(c, order[0]);
      assert c.devices[order[0]] in c.devices;
      forall d | d in c'.devices ensures Settled(d) {
        var j :| 0 <= j < |c'.devices| && c'.devices[j] == d;
        assert j != order[0] ==> c.devices[j] in c.devices;
      }
      SecondPassEquals(c', order[1..]);
    }
  }

  /** Convergence: once edits stop, two passes, in any orders and with any repetitions, leave every
      device's row and base equal to the hub, and every further decision is Nothing. */
  lemma {:induction false} TwoPassesConverge(c: Cluster, first: seq<nat>, second: seq<nat>)
    requires Covers(first, |c.devices|) && Covers(second, |c.devices|)
    ensures var r := Pass(Pass(c, first), second);
            && Converged(r)
            && r.hub == Pass(c, first).hub
            && forall d <- r.devices :: Decide(d.local, d.base, r.hub) == Nothing
  {
    FirstPassSettles(c, first);
    SecondPassEquals(Pass(c, first), second);
  }

  // ── the folders ───────────────────────────────────────────────────────────

  /** What a device has been through: its row is honest, or it is the phantom of a tombstone that
      device had. */
  predicate FromGrave(was: Device, d: Device) {
    (Honest(d) && (d.grave.Some? ==> d.grave == was.grave)) || (Phantom(d) && d.local == was.grave)
  }

  lemma {:induction false} TurnFiles(c: Cluster, i: nat, was: Device)
    requires i < |c.devices| && FromGrave(was, c.devices[i])
    ensures FromGrave(was, Turn(c, i).devices[i])
  {
  }

  lemma {:induction false} PassFiles(c: Cluster, order: seq<nat>, was: seq<Device>)
    requires InRange(order, |c.devices|) && |was| == |c.devices|
    requires forall j :: 0 <= j < |was| ==> FromGrave(was[j], c.devices[j])
    ensures forall j :: 0 <= j < |was| ==> FromGrave(was[j], Pass(c, order).devices[j])
    decreases |order|
  {
    hide FromGrave;
    if order != [] {
      var i := order[0];
      TurnSettles(c, i);
      TurnFiles(c, i, was[i]);
      hide Turn;
      PassFiles(Turn(c, i), order[1..], was);
    }
  }

  /** After two passes every folder has the hub's version too, except where it is the version of a
      tombstone the device had: there the row says so and no file is there. */
  lemma {:induction false} FoldersConverge(c: Cluster, first: seq<nat>, second: seq<nat>, j: nat)
    requires Covers(first, |c.devices|) && Covers(second, |c.devices|) && j < |c.devices|
    requires forall d <- c.devices :: Honest(d)
    ensures var r := Pass(Pass(c, first), second);
            && (r.devices[j].file == r.hub || (r.hub.Some? && r.hub == c.devices[j].grave && r.devices[j].file.None?))
  {
    forall i | 0 <= i < |c.devices| ensures FromGrave(c.devices[i], c.devices[i]) {
      assert c.devices[i] in c.devices;
    }
    hide FromGrave;
    PassFiles(c, first, c.devices);
    PassFiles(Pass(c, first), second, c.devices);
    TwoPassesConverge(c, first, second);
    var r := Pass(Pass(c, first), second);
    assert r.devices[j] in r.devices;
    FromGraveMeans(c.devices[j], r.devices[j]);
  }

  lemma {:induction false} FromGraveMeans(was: Device, d: Device)
    requires FromGrave(was, d)
    ensures d.file == d.local || (d.file.None? && d.local.Some? && d.local == was.grave)
  {
  }

  /** It does happen: a device adopts its tombstone while the hub has nothing, and another one pushes
      the same bytes. */
  lemma {:induction false} GraveWithTheHubsVersion(x: Digest, past: Digest)
    ensures var c := Cluster(None, [Device(None, Some(past), None, Some(x)), Device(Some(x), None, Some(x), None)], {});
            && (forall d <- c.devices :: Honest(d)) && Covers([0, 1], 2)
            && var r := Pass(Pass(c, [0, 1]), [0, 1]);
            r.hub == Some(x) && r.devices[0].file.None?
  {
    var c := Cluster(None, [Device(None, Some(past), None, Some(x)), Device(Some(x), None, Some(x), None)], {});
    var settled := Cluster(Some(x), [Device(Some(x), Some(x), None, None), Now(Some(x))], {});
    assert Turn(Turn(c, 0), 1) == settled && Turn(settled, 0) == settled && Turn(settled, 1) == settled;
    TwoTurns(c);
    TwoTurns(settled);
    assert 0 in [0, 1] && 1 in [0, 1];
  }

  lemma {:induction false} TwoTurns(c: Cluster)
    requires |c.devices| == 2
    ensures Pass(c, [0, 1]) == Turn(Turn(c, 0), 1)
  {
    hide Turn;
    assert [0, 1][1..] == [1] && [1][1..] == [];
    assert Pass(c, [0, 1]) == Pass(Turn(c, 0), [1]);
    assert Pass(Turn(c, 0), [1]) == Pass(Turn(Turn(c, 0), 1), []);
  }

  /** One pass is not enough: a device that acts before another's push is left behind. */
  lemma {:induction false} OnePassIsNotEnough(a: Digest, b: Digest)
    requires a != b
    ensures var c := Cluster(Some(a), [Now(Some(a)), Device(Some(b), Some(a), Some(b), None)], {});
            Covers([0, 1], 2) && !Converged(Pass(c, [0, 1]))
  {
    var c := Cluster(Some(a), [Now(Some(a)), Device(Some(b), Some(a), Some(b), None)], {});
    TwoTurns(c);
    var r := Turn(Turn(c, 0), 1);
    assert r.devices[0] in r.devices;
    assert 0 in [0, 1] && 1 in [0, 1];
  }

  // ── no edit is lost on the way ────────────────────────────────────────────

  /** Some device built on `x` without having acted yet; its push or delete may replace `x`
      on the hub, because it had seen it. */
  predicate BuiltUpon(c: Cluster, x: Digest) {
    exists d <- c.devices :: d.base == Some(x) && d.local != Some(x)
  }

  predicate Survives(c: Cluster, x: Digest) { c.hub == Some(x) || x in c.copies }

  /** An edit held by some device: its bytes differ from the version it agreed with the hub. */
  predicate EditedTo(c: Cluster, x: Digest) {
    exists d <- c.devices :: d.local == Some(x) && d.base != Some(x)
  }

  lemma {:induction false} TurnKeepsEdits(c: Cluster, i: nat, x: Digest)
    requires i < |c.devices| && !BuiltUpon(c, x)
    ensures !BuiltUpon(Turn(c, i), x)
    ensures Survives(c, x) ==> Survives(Turn(c, i), x)
    ensures c.devices[i].local == Some(x) && c.devices[i].base != Some(x) ==> Survives(Turn(c, i), x)
  {
    var r := Turn(c, i);
    TurnSettles(c, i);
    forall d | d in r.devices ensures !(d.base == Some(x) && d.local != Some(x)) {
      var j :| 0 <= j < |r.devices| && r.devices[j] == d;
      assert j != i ==> c.devices[j] in c.devices;
    }
    assert c.devices[i] in c.devices;
  }

  /** Conservation: in a covering pass every edit ends up on the hub or in a conflict copy,
      unless some device had already agreed on exactly those bytes and moved on from them. */
  lemma {:induction false} PassKeepsEdits(c: Cluster, order: seq<nat>, x: Digest)
    requires InRange(order, |c.devices|)
    requires !BuiltUpon(c, x)
    requires Survives(c, x) || exists i <- order :: c.devices[i].local == Some(x) && c.devices[i].base != Some(x)
    ensures Survives(Pass(c, order), x)
    decreases |order|
  {
    if order != [] {
      var c' := Turn(c, order[0]);
      TurnSettles(c, order[0]);
      TurnKeepsEdits(c, order[0], x);
      if !Survives(c', x) {
        var i :| i in order && c.devices[i].local == Some(x) && c.devices[i].base != Some(x);
        assert i != order[0] && i in order[1..] && c'.devices[i] == c.devices[i];
      }
      PassKeepsEdits(c', order[1..], x);
    }
  }

  lemma {:induction false} ConvergenceLosesNoEdit(c: Cluster, first: seq<nat>, second: seq<nat>, x: Digest)
    requires Covers(first, |c.devices|) && Covers(second, |c.devices|)
    requires EditedTo(c, x) && !BuiltUpon(c, x)
    ensures Survives(Pass(Pass(c, first), second), x)
  {
    var d :| d in c.devices && d.local == Some(x) && d.base != Some(x);
    var i :| 0 <= i < |c.devices| && c.devices[i] == d;
    assert i in first;
    PassKeepsEdits(c, first, x);
    FirstPassSettles(c, first);
    SecondPassEquals(Pass(c, first), second);
  }
}
