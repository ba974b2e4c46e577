/** The resumable, verified download of `src/mirror/local.rs`: `fetch`. */
module Fetch {
  import opened Options

  type Byte = bv8
  type Bytes = seq<Byte>
  type Digest = string

  /** What the hub answers to a GET. `chunks` are what the body yields before it ends, or before
      the connection breaks. */
  datatype Response =
    | Refused(status: nat)
    | Unsatisfiable
    | Body(partial: bool, chunks: seq<Bytes>, broken: bool, etag: Option<Digest>)

  datatype Error = HubRefused(status: nat) | Offline | Mismatch | LocalChanged

  datatype Result = Landed(sha: Digest, size: nat) | Failed(error: Error)

  function Concat(chunks: seq<Bytes>): Bytes {
    if chunks == [] then [] else chunks[0] + Concat(chunks[1..])
  }

  lemma {:induction false} ConcatLast(chunks: seq<Bytes>, i: nat)
    requires i < |chunks|
    ensures Concat(chunks[..i + 1]) == Concat(chunks[..i]) + chunks[i]
    decreases i
  {
    if i == 0 {
      assert chunks[..1] == [chunks[0]] && chunks[..0] == [];
      assert [chunks[0]][1..] == [];
    } else {
      ConcatLast(chunks[1..], i - 1);
      assert chunks[..i + 1][1..] == chunks[1..][..i] && chunks[..i][1..] == chunks[1..][..i - 1];
      assert chunks[1..][i - 1] == chunks[i];
    }
  }

  /** What the part file holds once an answer to a request with `have` bytes is read. */
  function Staged(part: Bytes, r: Response): Bytes
    requires r.Body?
  {
    (if r.partial && part != [] then part else []) + Concat(r.chunks)
  }

  /** The answer that counts: after an unsatisfiable resume the request is made again from zero. */
  function Effective(part: Bytes, first: Response, second: Response): Response {
    if first.Unsatisfiable? && part != [] then second else first
  }

  function PartBefore(part: Bytes, first: Response): Bytes {
    if first.Unsatisfiable? && part != [] then [] else part
  }

  /** The folder entry and the staging file beside it. */
  class Slot {
    /** SHA-256 */
    const hash: Bytes -> Digest
    var file: Option<Bytes>
    var part: Bytes

    /** Read the body: what is written to the part goes through the hasher too. `hashed` is what
        the hasher has been fed. */
    method Receive(r: Response, resumed: bool, fed: Bytes) returns (hashed: Bytes, total: nat, ok: bool)
      requires r.Body? && (resumed ==> fed == part) && (!resumed ==> fed == [])
      modifies this`part
      ensures part == hashed && total == |part| && (ok <==> !r.broken)
      ensures part == (if resumed then old(part) else []) + Concat(r.chunks)
    {
      hashed, total := fed, |fed|;
      if !resumed {
        part := [];
      }
      ghost var start := part;
      assert r.chunks[..0] == [];
      for i := 0 to |r.chunks|
        invariant part == hashed && total == |part|
        invariant part == start + Concat(r.chunks[..i])
      {
        ConcatLast(r.chunks, i);
        hashed := hashed + r.chunks[i];
        part := part + r.chunks[i];
        total := total + |r.chunks[i]|;
      }
      assert r.chunks[..|r.chunks|] == r.chunks;
      ok := !r.broken;
    }

    /** `fetch`. `mayLand` and `undisturbed` are the caller's check and the comparison of the
        file's stamp right before the rename. A broken connection leaves the part for the next
        attempt; every other failure removes it. */
    method Fetch(expected: Digest, first: Response, second: Response, mayLand: bool, undisturbed: bool) returns (r: Result)
      modifies this
      ensures var answer := Effective(old(part), first, second);
              var before := PartBefore(old(part), first);
              && (answer.Body? && !answer.broken ==>
                    var got := Staged(before, answer);
                    var verified := if answer.etag.Some? then answer.etag.value else expected;
                    && part == []
                    && r == (if hash(got) != verified then Failed(Mismatch)
                             else if !mayLand || !undisturbed then Failed(LocalChanged)
                             else Landed(verified, |got|))
                    && file == (if r.Landed? then Some(got) else old(file)))
              && (answer.Body? && answer.broken ==>
                    r == Failed(Offline) && file == old(file) && part == Staged(before, answer))
              && (!answer.Body? ==>
                    r == Failed(HubRefused(if answer.Unsatisfiable? then 416 else answer.status)) && file == old(file) && part == before)
      decreases |part|
    {
      var have := |part|;
      var fed := part;
      if first.Unsatisfiable? && have > 0 {
        part := [];
        r := Fetch(expected, second, second, mayLand, undisturbed);
        return;
      }
      match first
      case Refused(status) => return Failed(HubRefused(status));
      case Unsatisfiable => return Failed(HubRefused(416));
      case Body(partial, chunks, broken, etag) =>
        var resumed := have > 0 && partial;
        var hashed, total, ok := Receive(first, resumed, if resumed then fed else []);
        if !ok {
          return Failed(Offline);
        }
        var got := hash(hashed);
        var verified := if etag.Some? then etag.value else expected;
        if verified != got {
          part := [];
          return Failed(Mismatch);
        }
        if !mayLand || !undisturbed {
          part := [];
          return Failed(LocalChanged);
        }
        file := Some(part);
        part := [];
        return Landed(got, total);
    }
  }

  // ── resuming gives the whole ──────────────────────────────────────────────

  /** An honest hub holding `remote`: a resume past the end is unsatisfiable; otherwise it sends
      the rest, or all of it, or some of that before the connection breaks (sections 14.2 and
      15.5.17 of RFC 9110). */
  predicate Honest(remote: Bytes, have: nat, r: Response) {
    match r
    case Refused(_) => true
    case Unsatisfiable => have >= |remote| && have > 0
    case Body(partial, chunks, broken, _) =>
      var sent := if partial && have > 0 then (if have <= |remote| then remote[have..] else []) else remote;
      && (partial && have > 0 ==> have < |remote|)
      && Concat(chunks) <= sent && (!broken ==> Concat(chunks) == sent)
  }

  lemma {:induction false} Continued(remote: Bytes, before: Bytes, body: Bytes)
    requires before <= remote && body <= remote[|before|..]
    ensures before + body <= remote
    ensures body == remote[|before|..] ==> before + body == remote
  {
    assert remote == before + remote[|before|..];
  }

  lemma {:induction false} OneAnswer(remote: Bytes, before: Bytes, r: Response)
    requires before <= remote && r.Body? && Honest(remote, |before|, r)
    ensures Staged(before, r) <= remote
    ensures !r.broken ==> Staged(before, r) == remote
  {
    hide Concat;
    var body := Concat(r.chunks);
    if r.partial && before != [] {
      Continued(remote, before, body);
    } else {
      assert [] + body == body;
    }
  }

  /** What attempts against an unchanging remote leave in the part file is the beginning of the
      remote, whatever broke them; an answer read to its end makes it the whole remote; and a range
      that is refused is only ever refused once, so the caller never sees that. */
  lemma {:induction false} ResumingGivesTheWhole(remote: Bytes, part: Bytes, first: Response, second: Response)
    requires part <= remote && Honest(remote, |part|, first)
    requires first.Unsatisfiable? && part != [] ==> Honest(remote, 0, second)
    ensures var answer, before := Effective(part, first, second), PartBefore(part, first);
            && before <= remote && !answer.Unsatisfiable?
            && (answer.Body? ==> Staged(before, answer) <= remote)
            && (answer.Body? && !answer.broken ==> Staged(before, answer) == remote)
  {
    var answer, before := Effective(part, first, second), PartBefore(part, first);
    assert before <= remote && (answer.Body? ==> Honest(remote, |before|, answer)) by {
      if !(first.Unsatisfiable? && part != []) {
        assert answer == first && before == part;
      }
    }
    if answer.Body? {
      OneAnswer(remote, before, answer);
    }
  }
}
