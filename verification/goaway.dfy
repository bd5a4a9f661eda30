/** GOAWAY (section 5.2 of RFC 9114): the server announces the first request id it has not
    accepted, the client fails its open requests from that id on and opens no more. */
module Goaway {
  import opened Common
  import opened Queues

  const U64_MAX: nat := 0xFFFF_FFFF_FFFF_FFFF
  const ID_LIMIT: nat := 0x4000_0000_0000_0000
  const MAX_GOAWAY_ID: nat := ID_LIMIT - 4

  /** Client-initiated bidirectional streams: multiples of four below 2^62. */
  predicate IsRequestId(id: nat) {
    id % 4 == 0 && id < ID_LIMIT
  }

  function GoawayId(largest: Option<nat>): nat {
    if largest.None? then 0 else Min(Min(largest.value + 4, U64_MAX), MAX_GOAWAY_ID)
  }

  ghost predicate IsLargest(accepted: set<nat>, largest: Option<nat>) {
    if largest.None? then accepted == {}
    else largest.value in accepted && forall id :: id in accepted ==> id <= largest.value
  }

  /** The announced id is a request id, and it lies strictly above every accepted request
      exactly when none of them is the very last id, 2^62 - 4. */
  lemma GoawayIdIsAbove(accepted: set<nat>, largest: Option<nat>)
    requires IsLargest(accepted, largest) && forall id :: id in accepted ==> IsRequestId(id)
    ensures IsRequestId(GoawayId(largest))
    ensures (forall id :: id in accepted ==> id < GoawayId(largest)) <==> MAX_GOAWAY_ID !in accepted
    ensures forall id :: id in accepted ==> id < GoawayId(largest) || id == MAX_GOAWAY_ID
  {
    if largest.Some? && largest.value < MAX_GOAWAY_ID {
      assert largest.value + 4 <= MAX_GOAWAY_ID;
    }
  }

  /** The one family of runs in which an accepted request is not below the announced id. */
  lemma LastIdIsNotCovered(accepted: set<nat>)
    requires MAX_GOAWAY_ID in accepted && forall id :: id in accepted ==> IsRequestId(id)
    ensures IsLargest(accepted, Some(MAX_GOAWAY_ID)) && GoawayId(Some(MAX_GOAWAY_ID)) in accepted
  {
    forall id | id in accepted ensures id <= MAX_GOAWAY_ID {
      assert IsRequestId(id);
    }
  }

  /** A later GOAWAY must not announce a larger id (section 5.2 of RFC 9114). The code's ids
      never fall, and they keep to that rule exactly when no larger request was accepted in
      between or the id is already the last one. `SecondGoawayGrows` is a run that breaks it. */
  lemma GoawayIdsGrow(before: Option<nat>, after: Option<nat>)
    requires before.Some? ==> after.Some? && before.value <= after.value
    requires before.Some? ==> IsRequestId(before.value)
    requires after.Some? ==> IsRequestId(after.value)
    ensures GoawayId(before) <= GoawayId(after)
    ensures GoawayId(before) == GoawayId(after) <==>
            before == after || (before.Some? && before.value + 4 >= MAX_GOAWAY_ID)
  {
  }

  /** The server's side: `largest_accepted_request_id` follows the accepted requests. */
  class Sender {
    var largest: Option<nat>
    ghost var accepted: set<nat>

    ghost predicate Valid()
      reads this
    {
      IsLargest(accepted, largest) && forall id :: id in accepted ==> IsRequestId(id)
    }

    constructor ()
      ensures Valid() && accepted == {}
    {
      largest := None;
      accepted := {};
    }

    /** HEADERS of a request. */
    method Accept(id: nat)
      requires Valid() && IsRequestId(id)
      modifies this
      ensures Valid() && accepted == old(accepted) + {id}
    {
      largest := Some(if largest.Some? then Max(largest.value, id) else id);
      accepted := accepted + {id};
    }

    /** `initialised` says the HTTP/3 layer exists, `sent` whether quiche took the frame. */
    method SendGoaway(initialised: bool, sent: bool) returns (announced: Option<nat>)
      requires Valid()
      ensures announced.Some? <==> initialised && sent
      ensures announced.Some? ==>
        && IsRequestId(announced.value)
        && (forall id :: id in accepted ==> id < announced.value || id == MAX_GOAWAY_ID)
        && (forall id: nat :: IsRequestId(id) && id < announced.value ==> exists a :: a in accepted && id <= a)
    {
      if !initialised {
        return None;
      }
      var id := GoawayId(largest);
      GoawayIdIsAbove(accepted, largest);
      forall other: nat | IsRequestId(other) && other < id ensures exists a :: a in accepted && other <= a {
        assert largest.Some? && IsRequestId(largest.value) && other <= largest.value;
      }
      announced := if sent then Some(id) else None;
    }
  }

  function AtLeast(q: seq<StreamId>, id: nat): set<StreamId> {
    set x | x in Members(q) && x >= id
  }

  /** The client's side: `_streams` in insertion order, and the GOAWAY fields. */
  class Receiver {
    var streams: seq<StreamId>
    var goawayReceived: bool
    var goawayId: Option<nat>
    /** Streams destroyed by a GOAWAY, in order. */
    var failed: seq<StreamId>

    constructor ()
      ensures streams == [] && failed == [] && !goawayReceived && goawayId == None
    {
      streams, failed, goawayReceived, goawayId := [], [], false, None;
    }

    /** `request`: `answer` is what the transport gives, a fresh stream or an error. */
    method Request(answer: Option<StreamId>) returns (stream: Option<StreamId>)
      requires Distinct(streams) && (answer.Some? ==> answer.value !in Members(streams))
      modifies `streams
      ensures Distinct(streams)
      ensures stream == if goawayReceived then None else answer
      ensures Members(streams) == Members(old(streams)) + (if stream.Some? then {stream.value} else {})
    {
      if goawayReceived {
        return None;
      }
      if answer.Some? {
        ListsPush(streams, Members(streams), answer.value);
        streams := streams + [answer.value];
      }
      return answer;
    }

    /** `_onGoaway`: `closed` are the streams that the 'goaway' listeners close. */
    method OnGoaway(id: nat, closed: set<StreamId>)
      requires Distinct(streams)
      modifies this
      ensures goawayReceived && goawayId == Some(id) && Distinct(streams)
      ensures Members(streams) == Members(old(streams)) - closed - AtLeast(old(streams), id)
      ensures |failed| >= |old(failed)| && failed[..|old(failed)|] == old(failed)
      ensures Lists(failed[|old(failed)|..], AtLeast(old(streams), id) - closed)
    {
      goawayReceived, goawayId := true, Some(id);
      RetainLists(streams, closed);
      streams := Retain(streams, closed);
      ghost var left := streams;
      RetainLists(left, Members(left) - AtLeast(left, id));
      FailFrom(id);
      assert AtLeast(old(streams), id) - closed == AtLeast(Retain(old(streams), closed), id);
    }

    /** The loop over the map, deleting as it goes: exactly the streams from `id` on fail, in
        order, and the others keep theirs. */
    method FailFrom(id: nat)
      requires Distinct(streams)
      modifies `streams, `failed
      ensures streams == Retain(old(streams), AtLeast(old(streams), id)) && Distinct(streams)
      ensures Members(streams) == Members(old(streams)) - AtLeast(old(streams), id)
      ensures failed == old(failed) + Retain(old(streams), Members(old(streams)) - AtLeast(old(streams), id))
    {
      ghost var all := streams;
      ghost var hi, lo := AtLeast(all, id), Members(all) - AtLeast(all, id);
      ghost var i := 0;
      var k := 0;
      assert streams[..0] == [] && streams[0..] == all[0..];
      while k < |streams|
        invariant i <= |all| && k <= |streams|
        invariant streams[..k] == Retain(all[..i], hi) && streams[k..] == all[i..]
        invariant failed == old(failed) + Retain(all[..i], lo)
        decreases |all| - i
      {
        Turn(all, i, id);
        SliceStep(streams, k);
        assert streams[k] == streams[k..][0] == all[i] && streams[k + 1..] == all[i + 1..];
        if streams[k] < id {
          k := k + 1;
        } else {
          Assoc(old(failed), Retain(all[..i], lo), [streams[k]]);
          failed := failed + [streams[k]];
          streams := streams[..k] + streams[k + 1..];
        }
        i := i + 1;
      }
      assert all[..i] == all && streams == streams[..k];
      RetainLists(all, hi);
    }
  }

  /** One turn of the loop: the stream at `i` goes to one of the two sides. */
  lemma Turn(all: seq<StreamId>, i: nat, id: nat)
    requires i < |all|
    ensures var hi, lo := AtLeast(all, id), Members(all) - AtLeast(all, id);
      && all[i..][1..] == all[i + 1..] && all[i..][0] == all[i]
      && Retain(all[..i + 1], hi) == (if all[i] < id then Retain(all[..i], hi) + [all[i]] else Retain(all[..i], hi))
      && Retain(all[..i + 1], lo) == (if all[i] < id then Retain(all[..i], lo) else Retain(all[..i], lo) + [all[i]])
  {
    assert all[..i + 1][..i] == all[..i];
    MemberAt(all, i);
  }

  lemma SliceStep(q: seq<StreamId>, k: nat)
    requires k < |q|
    ensures q[..k + 1] == q[..k] + [q[k]] && q[k..][1..] == q[k + 1..] && q[k..][0] == q[k]
    ensures (q[..k] + q[k + 1..])[..k] == q[..k] && (q[..k] + q[k + 1..])[k..] == q[k + 1..]
  {
  }

  // ----- both sides over every run -----

  /** A GOAWAY on the wire, with the requests the server had accepted when it sent it. */
  datatype Frame = Frame(id: nat, covered: set<nat>)

  /** One client and one server. `heard` are the frames the client has handled, `failures`
      pairs each failed request with the frame that failed it. */
  datatype Session = Session(requested: set<nat>, running: set<nat>, accepted: set<nat>,
                             wire: seq<Frame>, heard: seq<Frame>, failures: set<(nat, Frame)>)

  const START := Session({}, {}, {}, [], [], {})

  datatype Step = Request(id: nat) | Accept(id: nat) | Announce(largest: Option<nat>) | Hear(closed: set<nat>) | End(id: nat)

  ghost predicate Enabled(s: Session, step: Step) {
    match step
    case Request(id) => s.heard == [] && IsRequestId(id) && id !in s.requested
    case Accept(id) => id in s.requested
    case Announce(largest) => IsLargest(s.accepted, largest)
    case Hear(_) => s.wire != []
    case End(id) => true
  }

  ghost function Next(s: Session, step: Step): Session
    requires Enabled(s, step)
  {
    match step
    case Request(id) => s.(requested := s.requested + {id}, running := s.running + {id})
    case Accept(id) => s.(accepted := s.accepted + {id})
    case Announce(largest) => s.(wire := s.wire + [Frame(GoawayId(largest), s.accepted)])
    case Hear(closed) =>
      var f := s.wire[0];
      var left := s.running - closed;
      s.(wire := s.wire[1..], heard := s.heard + [f],
         running := (set id | id in left && id < f.id),
         failures := s.failures + (set id | id in left && id >= f.id :: (id, f)))
    case End(id) => s.(running := s.running - {id})
  }

  ghost predicate Run(s: Session, steps: seq<Step>, t: Session)
    decreases |steps|
  {
    if steps == [] then s == t
    else Enabled(s, steps[0]) && Run(Next(s, steps[0]), steps[1..], t)
  }

  /** A frame covers only requests below its id, and possibly the last id. */
  ghost predicate FrameOk(f: Frame) {
    forall id :: id in f.covered ==> id < f.id || id == MAX_GOAWAY_ID
  }

  ghost predicate Inv(s: Session) {
    && s.accepted <= s.requested
    && (forall id :: id in s.requested ==> IsRequestId(id))
    && (forall i :: 0 <= i < |s.wire| ==> FrameOk(s.wire[i]))
    && (forall i :: 0 <= i < |s.heard| ==> forall id :: id in s.running ==> id < s.heard[i].id)
    && (forall p :: p in s.failures ==> p.0 >= p.1.id && FrameOk(p.1) && p.0 !in s.running)
    && (forall p :: p in s.failures ==> s.heard != [])
  }

  lemma HearKeepsInv(s: Session, closed: set<nat>)
    requires Inv(s) && s.wire != []
    ensures Inv(Next(s, Hear(closed)))
  {
    var t := Next(s, Hear(closed));
    forall i | 0 <= i < |t.heard| ensures forall id :: id in t.running ==> id < t.heard[i].id {
      if i < |s.heard| {
        assert t.heard[i] == s.heard[i];
      }
    }
  }

  lemma StepKeepsInv(s: Session, step: Step)
    requires Inv(s) && Enabled(s, step)
    ensures Inv(Next(s, step))
  {
    match step {
      case Announce(largest) => GoawayIdIsAbove(s.accepted, largest);
      case Hear(closed) => HearKeepsInv(s, closed);
      case _ =>
    }
  }

  lemma {:induction false} RunKeepsInv(s: Session, steps: seq<Step>, t: Session)
    requires Inv(s) && Run(s, steps, t)
    ensures Inv(t)
    decreases |steps|
  {
    if steps != [] {
      StepKeepsInv(s, steps[0]);
      RunKeepsInv(Next(s, steps[0]), steps[1..], t);
    }
  }

  /** Agreement over every run: the only request that the server may have accepted when it sent
      a GOAWAY and that this GOAWAY fails is the last id, 2^62 - 4; and once the client has handled
      a GOAWAY, nothing it still runs is at or above any announced id. */
  lemma GoawayAgreement(steps: seq<Step>, t: Session)
    requires Run(START, steps, t)
    ensures forall p :: p in t.failures && p.0 in p.1.covered ==> p.0 == MAX_GOAWAY_ID
    ensures forall p :: p in t.failures ==> p.0 !in t.running
    ensures forall i :: 0 <= i < |t.heard| ==> forall id :: id in t.running ==> id < t.heard[i].id
  {
    RunKeepsInv(START, steps, t);
  }

  /** Only the requests accepted by then are covered: the server goes on accepting after it
      has sent GOAWAY, and such a request is failed by the client all the same. */
  lemma LateRequestIsFailed() returns (steps: seq<Step>, t: Session)
    ensures Run(START, steps, t) && 4 in t.accepted && exists p :: p in t.failures && p.0 == 4
  {
    var s1 := Next(START, Request(0));
    var s2 := Next(s1, Request(4));
    var s3 := Next(s2, Accept(0));
    assert IsLargest(s3.accepted, Some(0));
    var s4 := Next(s3, Announce(Some(0)));
    var s5 := Next(s4, Accept(4));
    t := Next(s5, Hear({}));
    steps := [Request(0), Request(4), Accept(0), Announce(Some(0)), Accept(4), Hear({})];
    assert (4, s4.wire[0]) in t.failures;
    assert Run(t, [], t);
    assert Run(s5, [Hear({})], t) by { assert [Hear({})][1..] == []; }
    assert Run(s4, [Accept(4), Hear({})], t) by { assert [Accept(4), Hear({})][1..] == [Hear({})]; }
    assert Run(s3, [Announce(Some(0)), Accept(4), Hear({})], t) by {
      assert [Announce(Some(0)), Accept(4), Hear({})][1..] == [Accept(4), Hear({})];
    }
    assert Run(s2, steps[2..], t) by { assert steps[2..][1..] == [Announce(Some(0)), Accept(4), Hear({})]; }
    assert Run(s1, steps[1..], t) by { assert steps[1..][1..] == steps[2..]; }
  }

  /** A second GOAWAY with a larger id: one more request is accepted between the two. */
  lemma SecondGoawayGrows() returns (steps: seq<Step>, t: Session)
    ensures Run(START, steps, t) && |t.wire| == 2 && t.wire[0].id < t.wire[1].id
  {
    var s1 := Next(START, Request(0));
    var s2 := Next(s1, Request(4));
    var s3 := Next(s2, Accept(0));
    assert IsLargest(s3.accepted, Some(0));
    var s4 := Next(s3, Announce(Some(0)));
    var s5 := Next(s4, Accept(4));
    assert IsLargest(s5.accepted, Some(4));
    t := Next(s5, Announce(Some(4)));
    steps := [Request(0), Request(4), Accept(0), Announce(Some(0)), Accept(4), Announce(Some(4))];
    assert Run(t, [], t);
    assert Run(s5, [Announce(Some(4))], t) by { assert [Announce(Some(4))][1..] == []; }
    assert Run(s4, [Accept(4), Announce(Some(4))], t) by { assert [Accept(4), Announce(Some(4))][1..] == [Announce(Some(4))]; }
    assert Run(s3, steps[3..], t) by { assert steps[3..][1..] == [Accept(4), Announce(Some(4))]; }
    assert Run(s2, steps[2..], t) by { assert steps[2..][1..] == steps[3..]; }
    assert Run(s1, steps[1..], t) by { assert steps[1..][1..] == steps[2..]; }
  }
}
