/** The vocabulary of the worker's runs: events and the tokens they stand for, the log of a run,
    coalescing, body reads against quiche's answers, and what a poll may spend. */
module WorkerLog {
  import opened Common
  import opened ReceiveSteps
  import opened Blocked

  datatype Event =
    | HeadersEvent(conn: nat, id: StreamId, fin: bool, data: Option<Bytes>)
    | DataEvent(conn: nat, id: StreamId, payload: Bytes)
    | FinishedEvent(conn: nat, id: StreamId)
    | ResetEvent(conn: nat, id: StreamId)
    | StreamErrorEvent(conn: nat, id: StreamId)
    | SessionErrorEvent(conn: nat)
    | GoawayEvent(conn: nat, id: StreamId)
    | DatagramEvent(conn: nat, payload: Bytes)
    | DrainEvent(conn: nat, id: StreamId)

  datatype PollAnswer =
    | PollHeaders(id: StreamId, moreFrames: bool)
    | PollData(id: StreamId)
    | PollFinished(id: StreamId)
    | PollReset(id: StreamId)
    | PollPriority
    | PollGoaway(id: StreamId)
    | PollFailed

  datatype RecvAnswer = Got(bytes: Bytes) | Done | Failed

  /** The body reads of a run, in order, each on its stream and with its answer. */
  type Reads = seq<(StreamId, RecvAnswer)>

  function StepReads(id: StreamId, step: Step): Reads {
    match step
    case Recv(bytes) => [(id, Got(bytes))]
    case Settle(failed) => [(id, if failed then Failed else Done)]
    case _ => []
  }

  function ReadsOf(trace: Trace): Reads {
    if trace == [] then []
    else ReadsOf(trace[..|trace| - 1]) + StepReads(trace[|trace| - 1].0, trace[|trace| - 1].1)
  }

  /** quiche's next answers; a script that has ended answers `Done`. */
  function Nth(script: seq<RecvAnswer>, i: nat): RecvAnswer {
    if i < |script| then script[i] else Done
  }

  /** A read gets the answer quiche had for it, cut to the room in the buffer. */
  predicate Fits(answer: RecvAnswer, scripted: RecvAnswer) {
    if scripted.Got? then answer.Got? && answer.bytes <= scripted.bytes else answer == scripted
  }

  /** Each read got the next answer of the script. */
  ghost predicate Follows(script: seq<RecvAnswer>, done: Reads) {
    done == [] ||
    (Follows(script, done[..|done| - 1]) && Fits(done[|done| - 1].1, Nth(script, |done| - 1)))
  }

  /** What is left of the script after these reads. */
  function Unread(script: seq<RecvAnswer>, done: Reads): seq<RecvAnswer> {
    script[Min(|done|, |script|)..]
  }

  lemma FollowsPush(script: seq<RecvAnswer>, done: Reads, next: (StreamId, RecvAnswer))
    requires Follows(script, done) && Fits(next.1, Nth(Unread(script, done), 0))
    ensures Follows(script, done + [next])
    ensures var rest := Unread(script, done); Unread(script, done + [next]) == if rest == [] then [] else rest[1..]
  {
    assert (done + [next])[..|done|] == done;
    assert Nth(Unread(script, done), 0) == Nth(script, |done|);
  }

  function FailedReads(done: Reads, id: StreamId): nat {
    if done == [] then 0
    else FailedReads(done[..|done| - 1], id) + (if done[|done| - 1] == (id, Failed) then 1 else 0)
  }

  function ErrorsIn(ts: seq<Token>): nat {
    if ts == [] then 0 else ErrorsIn(ts[..|ts| - 1]) + (if ts[|ts| - 1].ErrorToken? then 1 else 0)
  }

  /** The counters of a stream's state count what happened in its run. */
  lemma {:induction false} FailuresCount(window: Option<nat>, trace: Trace, id: StreamId)
    ensures Replay(window, trace, id).failures == FailedReads(ReadsOf(trace), id)
  {
    if trace != [] {
      var prior := trace[..|trace| - 1];
      FailuresCount(window, prior, id);
      FailedStep(window, Replay(window, prior, id), ReadsOf(prior), trace[|trace| - 1].0, trace[|trace| - 1].1, id);
    }
  }

  lemma FailedStep(window: Option<nat>, s: Stream, done: Reads, who: StreamId, step: Step, id: StreamId)
    requires s.failures == FailedReads(done, id)
    ensures (if who == id then Apply(window, s, step) else s).failures == FailedReads(done + StepReads(who, step), id)
  {
    if StepReads(who, step) == [] {
      assert done + [] == done;
    } else {
      assert (done + StepReads(who, step))[..|done|] == done;
    }
  }

  lemma {:induction false} ErrorsCount(window: Option<nat>, trace: Trace, id: StreamId)
    requires Legal(window, trace)
    ensures Replay(window, trace, id).errors == ErrorsIn(Replay(window, trace, id).out)
  {
    if trace != [] {
      ErrorsCount(window, trace[..|trace| - 1], id);
      var (who, step) := trace[|trace| - 1];
      if who == id {
        CountStep(window, Replay(window, trace[..|trace| - 1], id), step);
      }
    }
  }

  lemma CountStep(window: Option<nat>, s: Stream, step: Step)
    requires s.errors == ErrorsIn(s.out) && Enabled(s, step)
    ensures Apply(window, s, step).errors == ErrorsIn(Apply(window, s, step).out)
  {
    match step {
      case Open => ErrorsPush(s.out, HeadersToken);
      case Emit(token) => ErrorsPush(s.out, token);
      case Flush(rides) => ErrorsPush(s.out, DataToken(Held(s), rides));
      case _ =>
    }
  }

  lemma ErrorsPush(ts: seq<Token>, t: Token)
    ensures ErrorsIn(ts + [t]) == ErrorsIn(ts) + (if t.ErrorToken? then 1 else 0)
  {
    assert (ts + [t])[..|ts|] == ts;
  }

  /** Failed reads that no error reported. */
  function Owed(s: Stream): int {
    s.failures - s.errors
  }

  /** Serving a stream from `s` to `t` reported every failed read, save one if the budget is used up. */
  predicate Pays(s: Stream, t: Stream, full: bool) {
    Owed(t) == Owed(s) || (full && Owed(t) == Owed(s) + 1)
  }

  /** The tokens an event stands for, on connection `conn`. */
  function TokensOf(e: Event, conn: nat): seq<(StreamId, Token)> {
    if e.conn != conn then []
    else match e
      case HeadersEvent(_, id, _, data) =>
        [(id, HeadersToken)] + (if data.Some? then [(id, DataToken(data.value, true))] else [])
      case DataEvent(_, id, payload) => [(id, DataToken(payload, false))]
      case FinishedEvent(_, id) => [(id, FinishedToken)]
      case ResetEvent(_, id) => [(id, ResetToken)]
      case StreamErrorEvent(_, id) => [(id, ErrorToken)]
      case _ => []
  }

  function Flat(events: seq<Event>, conn: nat): seq<(StreamId, Token)> {
    if events == [] then [] else Flat(events[..|events| - 1], conn) + TokensOf(events[|events| - 1], conn)
  }

  lemma FlatPush(events: seq<Event>, e: Event, conn: nat)
    ensures Flat(events + [e], conn) == Flat(events, conn) + TokensOf(e, conn)
  {
    assert (events + [e])[..|events|] == events;
  }

  /** The tokens of a whole trace, in the order they were sent. */
  function StepTokens(before: Stream, id: StreamId, step: Step): seq<(StreamId, Token)> {
    match step
    case Open => [(id, HeadersToken)]
    case Flush(rides) => [(id, DataToken(Held(before), rides))]
    case Emit(token) => [(id, token)]
    case _ => []
  }

  function Log(window: Option<nat>, trace: Trace): seq<(StreamId, Token)> {
    if trace == [] then []
    else
      var prior := trace[..|trace| - 1];
      var (id, step) := trace[|trace| - 1];
      Log(window, prior) + StepTokens(Replay(window, prior, id), id, step)
  }

  function Project(log: seq<(StreamId, Token)>, id: StreamId): seq<Token> {
    if log == [] then []
    else Project(log[..|log| - 1], id) + (if log[|log| - 1].0 == id then [log[|log| - 1].1] else [])
  }

  lemma ProjectPush(log: seq<(StreamId, Token)>, who: StreamId, token: Token, id: StreamId)
    ensures Project(log + [(who, token)], id) == if who == id then Project(log, id) + [token] else Project(log, id)
  {
    assert (log + [(who, token)])[..|log|] == log;
  }

  /** One stream's share of the log is exactly what its own run sent. */
  lemma {:induction false} LogProjects(window: Option<nat>, trace: Trace, id: StreamId)
    ensures Project(Log(window, trace), id) == Replay(window, trace, id).out
  {
    if trace != [] {
      var prior := trace[..|trace| - 1];
      var (who, step) := trace[|trace| - 1];
      LogProjects(window, prior, id);
      var log, before := Log(window, prior), Replay(window, prior, who);
      match step {
        case Open => ProjectPush(log, who, HeadersToken, id);
        case Flush(rides) => ProjectPush(log, who, DataToken(Held(before), rides), id);
        case Emit(token) => ProjectPush(log, who, token, id);
        case _ => assert log + [] == log;
      }
    }
  }

  lemma ExtendTrace(window: Option<nat>, trace: Trace, id: StreamId, step: Step)
    ensures var next := trace + [(id, step)];
      && Replay(window, next, id) == Apply(window, Replay(window, trace, id), step)
      && (forall other :: other != id ==> Replay(window, next, other) == Replay(window, trace, other))
      && Log(window, next) == Log(window, trace) + StepTokens(Replay(window, trace, id), id, step)
      && ReadsOf(next) == ReadsOf(trace) + StepReads(id, step)
      && (Legal(window, next) <==> Legal(window, trace) && Enabled(Replay(window, trace, id), step))
  {
    assert (trace + [(id, step)])[..|trace|] == trace;
  }

  /** `try_coalesce_following_data`, on the last event of the batch. */
  predicate Coalesces(events: seq<Event>, conn: nat, id: StreamId) {
    events != [] &&
    var last := events[|events| - 1];
    last.HeadersEvent? && last.conn == conn && last.id == id && last.data.None? && !last.fin
  }

  /** `push_pending_body_event`'s effect on the batch. */
  function PushBody(events: seq<Event>, conn: nat, id: StreamId, payload: Bytes): seq<Event> {
    if Coalesces(events, conn, id) then
      events[..|events| - 1] + [events[|events| - 1].(data := Some(payload))]
    else
      events + [DataEvent(conn, id, payload)]
  }

  /** Either way the payload is sent right after what was sent before, and the token says
      whether it rides on the HEADERS event. */
  lemma CoalescingKeepsOrder(events: seq<Event>, conn: nat, id: StreamId, payload: Bytes)
    ensures Flat(PushBody(events, conn, id, payload), conn) ==
            Flat(events, conn) + [(id, DataToken(payload, Coalesces(events, conn, id)))]
  {
    if Coalesces(events, conn, id) {
      var init := events[..|events| - 1];
      FlatPush(init, events[|events| - 1].(data := Some(payload)), conn);
      Assoc(Flat(init, conn), [(id, HeadersToken)], [(id, DataToken(payload, true))]);
    } else {
      FlatPush(events, DataEvent(conn, id, payload), conn);
    }
  }

  /** A HEADERS event that announced no more frames never carries a body. */
  predicate FinIsBare(events: seq<Event>) {
    forall i :: 0 <= i < |events| && events[i].HeadersEvent? && events[i].fin ==> events[i].data.None?
  }

  lemma CoalescingKeepsFinBare(events: seq<Event>, conn: nat, id: StreamId, payload: Bytes)
    requires FinIsBare(events)
    ensures FinIsBare(PushBody(events, conn, id, payload))
  {
    var after := PushBody(events, conn, id, payload);
    forall i | 0 <= i < |after| && after[i].HeadersEvent? && after[i].fin ensures after[i].data.None? {
      assert i < |events| ==> after[i].fin == events[i].fin && (i < |events| - 1 ==> after[i] == events[i]);
    }
  }

  /** A payload coalesces only right after its own stream's HEADERS. */
  lemma CoalescingFollowsHeaders(window: Option<nat>, trace: Trace, sent: seq<(StreamId, Token)>,
                                 events: seq<Event>, conn: nat, id: StreamId)
    requires Log(window, trace) == sent + Flat(events, conn) && Coalesces(events, conn, id)
    ensures EndsWith(Replay(window, trace, id).out, HeadersToken)
  {
    var init := events[..|events| - 1];
    var before := sent + Flat(init, conn);
    assert Flat(events, conn) == Flat(init, conn) + [(id, HeadersToken)];
    Assoc(sent, Flat(init, conn), [(id, HeadersToken)]);
    ProjectPush(before, id, HeadersToken, id);
    LogProjects(window, trace, id);
  }

  /** The event that carries one of the tokens without payload. */
  function TokenEvent(conn: nat, id: StreamId, token: Token): Event
    requires token.FinishedToken? || token.ResetToken? || token.ErrorToken?
  {
    match token
    case FinishedToken => FinishedEvent(conn, id)
    case ResetToken => ResetEvent(conn, id)
    case ErrorToken => StreamErrorEvent(conn, id)
  }

  lemma FlatToken(batch: seq<Event>, conn: nat, id: StreamId, token: Token)
    requires token.FinishedToken? || token.ResetToken? || token.ErrorToken?
    ensures Flat(batch + [TokenEvent(conn, id, token)], conn) == Flat(batch, conn) + [(id, token)]
  {
    FlatPush(batch, TokenEvent(conn, id, token), conn);
  }

  /** A log that ends in a batch still does after the same token was added to both. */
  lemma StaysInSync(log: seq<(StreamId, Token)>, sent: seq<(StreamId, Token)>, batch: seq<(StreamId, Token)>, t: (StreamId, Token))
    requires log == sent + batch
    ensures log + [t] == sent + (batch + [t])
  {
  }

  function Get<V>(m: map<StreamId, V>, id: StreamId): Option<V> {
    if id in m then Some(m[id]) else None
  }

  predicate SettledStream(s: Stream) {
    && s.edge == (s.readable || s.stalled) && !(s.readable && s.stalled)
    && (s.pending.Some? ==> s.stalled && s.pending.value.data != [] && !s.pending.value.Full())
  }

  function DatagramEvents(conn: nat, datagrams: seq<Bytes>): (r: seq<Event>)
    ensures |r| == |datagrams|
  {
    if datagrams == [] then []
    else DatagramEvents(conn, datagrams[..|datagrams| - 1]) + [DatagramEvent(conn, datagrams[|datagrams| - 1])]
  }

  predicate LastIs(out: seq<Event>, e: Event) {
    out != [] && out[|out| - 1] == e
  }

  predicate Ends(out: seq<Event>, tail: seq<Event>) {
    |tail| <= |out| && out[|out| - |tail|..] == tail
  }

  /** With budget to spare, all datagrams come out. */
  lemma DatagramsEnd(conn: nat, batch: seq<Event>, datagrams: seq<Bytes>, budget: nat)
    ensures var out := batch + DatagramEvents(conn, datagrams[..Min(budget, |datagrams|)]);
      && |out| == |batch| + Min(budget, |datagrams|)
      && (|out| < |batch| + budget ==> Ends(out, DatagramEvents(conn, datagrams)))
  {
    assert datagrams[..|datagrams|] == datagrams;
  }

  /** The streams that a run of poll answers resets, and those it finishes. */
  function ResetsOf(answers: seq<PollAnswer>): seq<StreamId> {
    if answers == [] then []
    else
      var a, rest := answers[|answers| - 1], ResetsOf(answers[..|answers| - 1]);
      if a.PollReset? then rest + [a.id] else rest
  }

  function FinishedOf(answers: seq<PollAnswer>): seq<StreamId> {
    if answers == [] then []
    else
      var a, rest := answers[|answers| - 1], FinishedOf(answers[..|answers| - 1]);
      if a.PollFinished? then rest + [a.id] else rest
  }

  lemma EndedPush(answers: seq<PollAnswer>, a: PollAnswer)
    ensures ResetsOf(answers + [a]) == if a.PollReset? then ResetsOf(answers) + [a.id] else ResetsOf(answers)
    ensures FinishedOf(answers + [a]) == if a.PollFinished? then FinishedOf(answers) + [a.id] else FinishedOf(answers)
    ensures PollFailed in answers + [a] <==> PollFailed in answers || a.PollFailed?
  {
    assert (answers + [a])[..|answers|] == answers;
  }

  /** The first `used` answers are gone, and their resets and ends are noted. */
  ghost predicate Consumed(all: seq<PollAnswer>, used: nat, left: seq<PollAnswer>, resets: seq<StreamId>, finished: seq<StreamId>) {
    used <= |all| && left == all[used..] && resets == ResetsOf(all[..used]) && finished == FinishedOf(all[..used])
  }

  lemma ConsumeOne(all: seq<PollAnswer>, used: nat, left: seq<PollAnswer>, resets: seq<StreamId>, finished: seq<StreamId>)
    requires Consumed(all, used, left, resets, finished) && left != []
    ensures Consumed(all, used + 1, left[1..], if left[0].PollReset? then resets + [left[0].id] else resets,
                     if left[0].PollFinished? then finished + [left[0].id] else finished)
    ensures PollFailed in all[..used + 1] <==> PollFailed in all[..used] || left[0].PollFailed?
  {
    assert all[..used + 1] == all[..used] + [left[0]];
    EndedPush(all[..used], left[0]);
  }

  function ActEvent(conn: nat, act: Act): Event {
    match act
    case Drain(id) => DrainEvent(conn, id)
    case Break(id) => StreamErrorEvent(conn, id)
    case _ => ResetEvent(conn, act.id)
  }

  function ActEvents(conn: nat, acts: seq<Act>): seq<Event> {
    if acts == [] then []
    else
      var a := acts[|acts| - 1];
      var before := ActEvents(conn, acts[..|acts| - 1]);
      if a.Prune? then before else before + [ActEvent(conn, a)]
  }

  lemma ActsPush(conn: nat, batch: seq<Event>, acts: seq<Act>, i: nat)
    requires i < |acts|
    ensures batch + ActEvents(conn, acts[..i + 1]) ==
            batch + ActEvents(conn, acts[..i]) + (if acts[i].Prune? then [] else [ActEvent(conn, acts[i])])
    ensures Cleared(acts[..i + 1]) == Cleared(acts[..i]) + (if acts[i].Prune? || acts[i].Stop? then {acts[i].id} else {})
  {
    assert acts[..i + 1][..i] == acts[..i];
    Assoc(batch, ActEvents(conn, acts[..i]), [ActEvent(conn, acts[i])]);
  }

  /** The events of a drain poll, stream by stream. */
  ghost predicate DrainEvents(conn: nat, events: seq<Event>, all: set<StreamId>, closed: StreamId -> bool,
                              writable: set<StreamId>, cap: StreamId -> CapAnswer) {
    && (forall id: StreamId :: DrainEvent(conn, id) in events <==> Due(all, closed, writable, cap, Drain(id)))
    && (forall id: StreamId :: StreamErrorEvent(conn, id) in events <==> Due(all, closed, writable, cap, Break(id)))
    && (forall id: StreamId :: ResetEvent(conn, id) in events <==> Due(all, closed, writable, cap, Stop(id)))
  }

  lemma {:induction false} ActEventsMean(conn: nat, acts: seq<Act>, id: StreamId)
    ensures DrainEvent(conn, id) in ActEvents(conn, acts) <==> Drain(id) in acts
    ensures StreamErrorEvent(conn, id) in ActEvents(conn, acts) <==> Break(id) in acts
    ensures ResetEvent(conn, id) in ActEvents(conn, acts) <==> Stop(id) in acts
  {
    if acts != [] {
      ActEventsMean(conn, acts[..|acts| - 1], id);
      assert acts == acts[..|acts| - 1] + [acts[|acts| - 1]];
    }
  }

  lemma DrainEventsAreDue(conn: nat, acts: seq<Act>, all: set<StreamId>, closed: StreamId -> bool,
                          writable: set<StreamId>, cap: StreamId -> CapAnswer)
    requires Exactly(acts, all, closed, writable, cap)
    ensures DrainEvents(conn, ActEvents(conn, acts), all, closed, writable, cap)
  {
    forall id: StreamId
      ensures DrainEvent(conn, id) in ActEvents(conn, acts) <==> Due(all, closed, writable, cap, Drain(id))
      ensures StreamErrorEvent(conn, id) in ActEvents(conn, acts) <==> Due(all, closed, writable, cap, Break(id))
      ensures ResetEvent(conn, id) in ActEvents(conn, acts) <==> Due(all, closed, writable, cap, Stop(id))
    {
      ActEventsMean(conn, acts, id);
    }
  }

  /** No trace of the stream is left in the worker. */
  predicate Forgotten(s: Stream) {
    s.phase.Ended? && s.credit.None? && s.pending.None? && !s.readable
  }

  /** A DATA edge being served: any receive buffer still has room and bytes. */
  predicate Serving(s: Stream) {
    && s.edge && !s.stalled
    && (s.pending.Some? ==> s.pending.value.data != [] && !s.pending.value.Full())
  }

  /** From `start` events and `budget` left to `now` events and `left`: exactly the events
      emitted are spent, and with `excess` one more than there were. */
  predicate Spent(start: nat, budget: nat, now: nat, left: nat, excess: bool) {
    if excess then left == 0 && now == start + budget + 1 else now + left == start + budget
  }

  /** The body's last bytes need an event of their own and only one is left in the budget. */
  predicate Overshoots(s: Stream, budget: nat, batch: seq<Event>, conn: nat, id: StreamId) {
    budget == 1 && Held(s) != [] && !Coalesces(batch, conn, id)
  }

  /** Reports that hand over what is left of the body and add an event of their own. */
  predicate EndsBody(a: PollAnswer) {
    a.PollHeaders? || a.PollFinished? || a.PollReset?
  }

  /** A report on stream `id` in state `s` adds what is left of its body and then its own event `e`;
      the events are spent, with one too many exactly if they overshoot. */
  ghost predicate EndsBatch(batch: seq<Event>, out: seq<Event>, s: Stream, budget: nat, remaining: nat, conn: nat, id: StreamId, e: Event) {
    var over := Overshoots(s, budget, batch, conn, id);
    LastIs(out, e) && Spent(|batch|, budget, |out|, remaining, over) && (over ==> out == batch + [DataEvent(conn, id, Held(s)), e])
  }

  lemma EndsBatchHolds(batch: seq<Event>, mid: seq<Event>, out: seq<Event>, s: Stream, budget: nat, remaining: nat, pushed: bool,
                       conn: nat, id: StreamId, e: Event)
    requires 0 < budget && (pushed <==> Held(s) != [] && !Coalesces(batch, conn, id))
    requires |mid| == |batch| + (if pushed then 1 else 0) && (pushed ==> mid == batch + [DataEvent(conn, id, Held(s))])
    requires out == mid + [e] && remaining == (if pushed && budget < 2 then 0 else if pushed then budget - 2 else budget - 1)
    ensures EndsBatch(batch, out, s, budget, remaining, conn, id, e)
  {
  }

  /** The answer makes the poll exceed its budget by one. */
  ghost predicate Excessive(a: PollAnswer, streams: Streams, budget: nat, batch: seq<Event>, conn: nat) {
    EndsBody(a) && Overshoots(streams(a.id), budget, batch, conn, a.id)
  }

  /** Every stream id has a state; most are idle. */
  type Streams = StreamId -> Stream

  ghost function Update(f: Streams, id: StreamId, s: Stream): (g: Streams)
    ensures g(id) == s && SameElsewhere(f, g, id)
  {
    (x: StreamId) => if x == id then s else f(x)
  }

  ghost predicate SameElsewhere(f: Streams, g: Streams, id: StreamId) {
    forall other {:trigger f(other)} {:trigger g(other)} :: other != id ==> f(other) == g(other)
  }

  /** A forgotten stream stays forgotten. */
  ghost predicate StillForgotten(f: Streams, g: Streams) {
    forall id {:trigger f(id)} {:trigger g(id)} :: Forgotten(f(id)) ==> Forgotten(g(id))
  }

  /** The streams that are cleared after a run of poll answers: the reset ones, and the finished
      ones that are closed. */
  function EndedStreams(resets: seq<StreamId>, finished: seq<StreamId>, closed: StreamId -> bool): set<StreamId> {
    (set id | id in resets) + (set id | id in finished && closed(id))
  }

  lemma EndedMore(ids: seq<StreamId>, i: nat, closed: StreamId -> bool)
    requires i < |ids|
    ensures EndedStreams([], ids[..i + 1], closed) == EndedStreams([], ids[..i], closed) + (if closed(ids[i]) then {ids[i]} else {})
  {
    assert ids[..i + 1] == ids[..i] + [ids[i]];
  }

  /** From `f` to `g` exactly the streams of `gone` were cleared. */
  ghost predicate Cleansed(f: Streams, g: Streams, gone: set<StreamId>) {
    && (forall id {:trigger f(id)} {:trigger g(id)} :: id !in gone ==> g(id) == f(id))
    && (forall id {:trigger f(id)} {:trigger g(id)} :: id in gone ==>
          Forgotten(g(id)) && g(id).out == f(id).out && g(id).failures == f(id).failures && g(id).errors == f(id).errors)
  }

  lemma CleanseOne(window: Option<nat>, f: Streams, g: Streams, h: Streams, gone: set<StreamId>, id: StreamId)
    requires Cleansed(f, g, gone) && h(id) == Apply(window, g(id), Clear) && SameElsewhere(g, h, id)
    ensures Cleansed(f, h, gone + {id})
  {
  }

  lemma CleanseMore(f: Streams, g: Streams, h: Streams, a: set<StreamId>, b: set<StreamId>)
    requires Cleansed(f, g, a) && Cleansed(g, h, b)
    ensures Cleansed(f, h, a + b)
  {
  }

  /** The two events that such an answer adds: the body's last bytes, and its own. */
  function OverEvents(a: PollAnswer, s: Stream, conn: nat): seq<Event>
    requires EndsBody(a)
  {
    var own := match a
      case PollHeaders(id, moreFrames) => HeadersEvent(conn, id, !moreFrames, None)
      case PollFinished(id) => FinishedEvent(conn, id)
      case PollReset(id) => ResetEvent(conn, id);
    [DataEvent(conn, a.id, Held(s)), own]
  }

  ghost predicate Unreported(f: Streams, g: Streams, silent: Option<StreamId>) {
    forall id: StreamId {:trigger f(id)} {:trigger g(id)} :: Owed(g(id)) == Owed(f(id)) + (if silent == Some(id) then 1 else 0)
  }

  /** Every failed read was reported by exactly one error on its stream, and nothing else was;
      one failure may have stayed silent, if the budget is used up. */
  ghost predicate Reported(f: Streams, g: Streams, full: bool) {
    exists silent :: Unreported(f, g, silent) && (silent.Some? ==> full)
  }

  lemma ReportedOne(f: Streams, g: Streams, id: StreamId, full: bool)
    requires SameElsewhere(f, g, id) && Pays(f(id), g(id), full)
    ensures Reported(f, g, full)
  {
    assert Unreported(f, g, if Owed(g(id)) == Owed(f(id)) then None else Some(id));
  }

  lemma ReportedFull(f: Streams, g: Streams, full: bool)
    requires Reported(f, g, false)
    ensures Reported(f, g, full)
  {
    assert Unreported(f, g, None);
  }

  lemma ReportedThen(f: Streams, g: Streams, h: Streams, gone: set<StreamId>, full: bool)
    requires Reported(f, g, full) && Cleansed(g, h, gone)
    ensures Reported(f, h, full)
  {
    var silent :| Unreported(f, g, silent) && (silent.Some? ==> full);
    assert Unreported(f, h, silent);
  }

  lemma ReportedAll(f: Streams, g: Streams, h: Streams, full: bool)
    requires Reported(f, g, false) && Reported(g, h, full)
    ensures Reported(f, h, full)
  {
    assert Unreported(f, g, None);
    var silent :| Unreported(g, h, silent) && (silent.Some? ==> full);
    assert Unreported(f, h, silent);
  }

  /** What a report from quiche found: the run so far, the streams, the budget left and the batch. */
  datatype Moment = Moment(trace: Trace, streams: Streams, budget: nat, batch: seq<Event>)

  /** `m` lies in the run from `before` to `after`: its streams and its batch are what the run
      had made of them by then. */
  ghost predicate During(window: Option<nat>, conn: nat, sent: seq<(StreamId, Token)>, before: Trace, m: Moment, after: Trace) {
    && before <= m.trace && m.trace <= after
    && Log(window, m.trace) == sent + Flat(m.batch, conn)
    && forall id {:trigger Replay(window, m.trace, id)} :: Replay(window, m.trace, id) == m.streams(id)
  }

  /** The events of a poll whose last answer was excessive. */
  ghost predicate Overran(answers: seq<PollAnswer>, used: nat, m: Moment, conn: nat, out: seq<Event>) {
    EndedOver(answers, used, m, conn) &&
    var a := answers[used - 1];
    out == m.batch + OverEvents(a, m.streams(a.id), conn)
  }

  /** From `start`, the first `used` answers have led to `trace` and `out`; the last of them came
      at `last`. The budget is spent on the events emitted, and exceeded exactly if that answer
      was excessive. */
  ghost predicate Polled(window: Option<nat>, conn: nat, sent: seq<(StreamId, Token)>, start: Moment, answers: seq<PollAnswer>,
                         used: nat, last: Moment, trace: Trace, out: seq<Event>, remaining: nat) {
    && During(window, conn, sent, start.trace, last, trace)
    && |last.batch| + last.budget == |start.batch| + start.budget
    && Spent(|start.batch|, start.budget, |out|, remaining, EndedOver(answers, used, last, conn))
    && (EndedOver(answers, used, last, conn) ==> Overran(answers, used, last, conn, out))
  }

  /** A turn of the loop that reports an answer keeps this, and the moment before it is the last. */
  lemma PolledAnswer(window: Option<nat>, conn: nat, sent: seq<(StreamId, Token)>, start: Moment, answers: seq<PollAnswer>,
                     used: nat, last: Moment, now: Moment, trace: Trace, out: seq<Event>, remaining: nat)
    requires Polled(window, conn, sent, start, answers, used, last, now.trace, now.batch, now.budget) && 0 < now.budget
    requires During(window, conn, sent, now.trace, now, trace) && used < |answers|
    requires var over := Excessive(answers[used], now.streams, now.budget, now.batch, conn);
      && Spent(|now.batch|, now.budget, |out|, remaining, over)
      && (over ==> out == now.batch + OverEvents(answers[used], now.streams(answers[used].id), conn))
    ensures Polled(window, conn, sent, start, answers, used + 1, now, trace, out, remaining)
  {
    assert start.trace <= now.trace;
  }

  lemma PolledLater(window: Option<nat>, conn: nat, sent: seq<(StreamId, Token)>, start: Moment, answers: seq<PollAnswer>,
                    used: nat, last: Moment, before: Trace, after: Trace, out: seq<Event>, remaining: nat)
    requires Polled(window, conn, sent, start, answers, used, last, before, out, remaining) && before <= after
    ensures Polled(window, conn, sent, start, answers, used, last, after, out, remaining)
  {
  }

  /** So does a turn that serves a pending stream. */
  lemma PolledReady(window: Option<nat>, conn: nat, sent: seq<(StreamId, Token)>, start: Moment, answers: seq<PollAnswer>,
                    used: nat, last: Moment, now: Moment, trace: Trace, out: seq<Event>, remaining: nat)
    requires Polled(window, conn, sent, start, answers, used, last, now.trace, now.batch, now.budget) && 0 < now.budget
    requires now.trace <= trace && Spent(|now.batch|, now.budget, |out|, remaining, false)
    ensures Polled(window, conn, sent, start, answers, used, last, trace, out, remaining)
  {
  }

  /** The last of the answers used came at moment `m` and was excessive. */
  ghost predicate EndedOver(answers: seq<PollAnswer>, used: nat, m: Moment, conn: nat) {
    0 < used <= |answers| && Excessive(answers[used - 1], m.streams, m.budget, m.batch, conn)
  }

  /** The history is one legal run: it explains every stream, the tokens sent and the reads made. */
  ghost predicate Explains(window: Option<nat>, trace: Trace, streams: Streams, log: seq<(StreamId, Token)>, done: Reads) {
    && Legal(window, trace) && log == Log(window, trace) && done == ReadsOf(trace)
    && forall id {:trigger Replay(window, trace, id)} :: Replay(window, trace, id) == streams(id)
  }

  lemma ExplainsPush(window: Option<nat>, trace: Trace, f: Streams, g: Streams, log: seq<(StreamId, Token)>, done: Reads,
                     id: StreamId, step: Step)
    requires Explains(window, trace, f, log, done) && Enabled(f(id), step)
    requires g(id) == Apply(window, f(id), step) && SameElsewhere(f, g, id)
    ensures Explains(window, trace + [(id, step)], g, log + StepTokens(f(id), id, step), done + StepReads(id, step))
  {
    assert Replay(window, trace, id) == f(id);
    ExtendTrace(window, trace, id, step);
  }

  /** The worker's maps are the streams' entries. */
  ghost predicate Tracks(credit: map<StreamId, nat>, body: map<StreamId, RecvBuf>, readable: set<StreamId>, streams: Streams) {
    forall id {:trigger streams(id)} ::
      && streams(id).credit == Get(credit, id)
      && streams(id).pending == Get(body, id)
      && streams(id).readable == (id in readable)
  }
}
