/**
 Client-side AIMD congestion control (sandook/scheduler/data_plane/congestion_control.h).
 Each call is atomic and reads a monotone clock; doubles are modelled by `real`.
 */
module CongestionControl {
  import opened Wrappers
  import opened Numbers

  const MIN_RATE: real := 0.001
  const MAX_RATE: real := 1.0
  const DECREASE: real := 0.5
  const INCREASE: real := 0.05
  const WINDOW_US: nat := 50_000

  datatype CongestionState = Invalid | UnCongested | Congested | CongestedUnstable | CongestedStable

  /** The entries of states_, congested_at_, congestion_responded_at_ and cc_rate_limits_ of one server. */
  datatype Server = Server(state: CongestionState, congestedAt: nat, respondedAt: nat, rate: real)

  const FRESH: Server := Server(UnCongested, 0, 0, MAX_RATE)

  predicate RateInRange(s: Server) {
    MIN_RATE <= s.rate <= MAX_RATE
  }

  // ---------------------------------------------------------------- one server

  predicate MayDecrease(s: Server) {
    && s.state == Congested && s.rate != MIN_RATE
    && s.respondedAt < s.congestedAt && s.congestedAt - s.respondedAt >= WINDOW_US
  }

  predicate MayIncrease(s: Server) {
    (s.state == UnCongested || s.state == CongestedUnstable) && s.rate != MAX_RATE
  }

  /** UpdateServerRateLimit on one server. */
  function Reacted(s: Server, now: nat): Server {
    if MayIncrease(s) then
      s.(rate := if s.rate + INCREASE > MAX_RATE then MAX_RATE else s.rate + INCREASE)
    else if MayDecrease(s) then
      s.(rate := if s.rate * DECREASE < MIN_RATE then MIN_RATE else s.rate * DECREASE, respondedAt := now)
    else s
  }

  /** SignalCongested: now is recorded as the signal time, react as the time of the reaction. */
  function Signalled(s: Server, now: nat, react: nat): Server {
    var t := s.(state := Congested, congestedAt := now);
    if s.state == UnCongested then Reacted(t, react) else t
  }

  /** SetCongestionState. */
  function Pulled(s: Server, state: CongestionState): Server {
    if s.state == Invalid then s.(state := state) else s
  }

  /** One worker tick. */
  function Ticked(s: Server, now: nat): Server {
    Reacted(s, now).(state := Invalid)
  }

  // ---------------------------------------------------------------- runs

  datatype Event = Signal(now: nat, react: nat) | Pull(state: CongestionState) | Tick(now: nat)

  function After(s: Server, e: Event): Server {
    match e
    case Signal(now, react) => Signalled(s, now, react)
    case Pull(state) => Pulled(s, state)
    case Tick(now) => Ticked(s, now)
  }

  /** When the event read the clock last. */
  function Until(e: Event): nat {
    match e case Signal(_, react) => react case Pull(_) => 0 case Tick(now) => now
  }

  function From(e: Event): nat {
    match e case Signal(now, _) => now case Pull(_) => 0 case Tick(now) => now
  }

  predicate Timed(e: Event) {
    !e.Pull?
  }

  /** The clock never runs backwards, within an event or between events. */
  ghost predicate MonotoneClock(es: seq<Event>) {
    && (forall i :: 0 <= i < |es| ==> From(es[i]) <= Until(es[i]))
    && (forall i, j :: 0 <= i < j < |es| && Timed(es[j]) ==> Until(es[i]) <= From(es[j]))
  }

  ghost predicate IsRun(ss: seq<Server>, es: seq<Event>) {
    && |ss| == |es| + 1 && ss[0] == FRESH
    && (forall i :: 0 <= i < |es| ==> ss[i + 1] == After(ss[i], es[i]))
    && MonotoneClock(es)
  }

  // ---------------------------------------------------------------- rate limits stay in range

  lemma StepKeepsRange(s: Server, e: Event)
    requires RateInRange(s)
    ensures RateInRange(After(s, e))
  {
  }

  lemma {:induction false} RunKeepsRange(ss: seq<Server>, es: seq<Event>, k: nat)
    requires IsRun(ss, es) && k < |ss|
    ensures RateInRange(ss[k])
  {
    if k > 0 {
      RunKeepsRange(ss, es, k - 1);
      StepKeepsRange(ss[k - 1], es[k - 1]);
    }
  }

  // ---------------------------------------------------------------- decreases are spaced

  /** Recorded times do not lie ahead of any later clock reading. */
  lemma {:induction false} RecordedTimesArePast(ss: seq<Server>, es: seq<Event>, k: nat, j: nat)
    requires IsRun(ss, es) && k <= j < |es| && Timed(es[j])
    ensures ss[k].congestedAt <= From(es[j]) && ss[k].respondedAt <= From(es[j])
  {
    if k > 0 {
      RecordedTimesArePast(ss, es, k - 1, j);
      assert Until(es[k - 1]) <= From(es[j]);
      assert ss[(k - 1) + 1] == After(ss[k - 1], es[k - 1]);
    }
  }

  /** The time of the last reaction never goes back. */
  lemma {:induction false} ResponsesAdvance(ss: seq<Server>, es: seq<Event>, i: nat, k: nat)
    requires IsRun(ss, es) && i <= k < |ss|
    ensures ss[i].respondedAt <= ss[k].respondedAt
    decreases k
  {
    if i < k {
      ResponsesAdvance(ss, es, i, k - 1);
      assert ss[(k - 1) + 1] == After(ss[k - 1], es[k - 1]);
      if Timed(es[k - 1]) {
        RecordedTimesArePast(ss, es, k - 1, k - 1);
      }
    }
  }

  ghost predicate Decreases(ss: seq<Server>, i: nat)
    requires i + 1 < |ss|
  {
    ss[i + 1].rate < ss[i].rate
  }

  /** A decrease answers a signal at least one window after the previous reaction. */
  lemma DecreaseAnswersSignal(s: Server, e: Event)
    requires After(s, e).rate < s.rate && RateInRange(s) && From(e) <= Until(e) && s.congestedAt <= Until(e)
    ensures Timed(e) && After(s, e).respondedAt == Until(e) >= s.respondedAt + WINDOW_US
  {
  }

  /** Two decreases of the same server are at least one window apart. */
  lemma DecreasesAreSpaced(ss: seq<Server>, es: seq<Event>, i: nat, j: nat)
    requires IsRun(ss, es) && i < j < |es| && Decreases(ss, i) && Decreases(ss, j)
    ensures Until(es[j]) >= Until(es[i]) + WINDOW_US
  {
    DecreaseInRun(ss, es, i);
    DecreaseInRun(ss, es, j);
    ResponsesAdvance(ss, es, i + 1, j);
  }

  lemma DecreaseInRun(ss: seq<Server>, es: seq<Event>, i: nat)
    requires IsRun(ss, es) && i < |es| && Decreases(ss, i)
    ensures Timed(es[i]) && ss[i + 1].respondedAt == Until(es[i]) >= ss[i].respondedAt + WINDOW_US
  {
    RunKeepsRange(ss, es, i);
    assert ss[i + 1] == After(ss[i], es[i]);
    if Timed(es[i]) {
      RecordedTimesArePast(ss, es, i, i);
      DecreaseAnswersSignal(ss[i], es[i]);
    }
  }

  // ---------------------------------------------------------------- signals survive until the tick

  /** After a signal the server stays congested through every pull, and the next tick sees it. */
  lemma {:induction false} SignalSurvivesPulls(ss: seq<Server>, es: seq<Event>, i: nat, k: nat)
    requires IsRun(ss, es) && i < k < |ss| && es[i].Signal?
    requires forall j :: i < j < k ==> !es[j].Tick?
    ensures ss[k].state == Congested && ss[k].congestedAt >= es[i].now
    decreases k
  {
    assert ss[(k - 1) + 1] == After(ss[k - 1], es[k - 1]);
    if i < k - 1 {
      SignalSurvivesPulls(ss, es, i, k - 1);
      if es[k - 1].Signal? {
        assert Until(es[i]) <= From(es[k - 1]);
      }
    }
  }

  // ---------------------------------------------------------------- recovery

  function Ticks(es: seq<Event>, i: nat, k: nat): nat
    requires i <= k <= |es|
  {
    if i == k then 0 else Ticks(es, i, k - 1) + if es[k - 1].Tick? then 1 else 0
  }

  /** Every tick from i to before j sees an uncongested or unstable server. */
  ghost predicate TicksAreUncongested(ss: seq<Server>, es: seq<Event>, i: nat, j: nat)
    requires |ss| == |es| + 1 && j <= |es|
  {
    forall k :: i <= k < j && es[k].Tick? ==> ss[k].state == UnCongested || ss[k].state == CongestedUnstable
  }

  /** Congestion before the last tick of such a stretch would be seen by one of its ticks. */
  lemma {:induction false} NotCongestedBefore(ss: seq<Server>, es: seq<Event>, i: nat, k: nat, j: nat)
    requires IsRun(ss, es) && i <= k < j <= |es| && es[j - 1].Tick? && TicksAreUncongested(ss, es, i, j)
    ensures ss[k].state != Congested
    decreases j - k
  {
    if !es[k].Tick? {
      NotCongestedBefore(ss, es, i, k + 1, j);
      assert ss[k + 1] == After(ss[k], es[k]);
    }
  }

  function Recovered(rate: real, ticks: nat): real {
    var r := rate + INCREASE * ticks as real;
    if r > MAX_RATE then MAX_RATE else r
  }

  /** The rate follows the additive increase exactly. */
  lemma {:induction false} RateRecovers(ss: seq<Server>, es: seq<Event>, i: nat, k: nat, j: nat)
    requires IsRun(ss, es) && i <= k <= j <= |es| && i < j && es[j - 1].Tick? && TicksAreUncongested(ss, es, i, j)
    ensures ss[k].rate == Recovered(ss[i].rate, Ticks(es, i, k))
    decreases k
  {
    RunKeepsRange(ss, es, i);
    if i < k {
      RateRecovers(ss, es, i, k - 1, j);
      NotCongestedBefore(ss, es, i, k - 1, j);
      var s, e := ss[k - 1], es[k - 1];
      assert ss[(k - 1) + 1] == After(s, e);
      if e.Signal? {
        NotCongestedBefore(ss, es, i, k, j);
      }
    }
  }

  /** Twenty uncongested ticks restore the full rate, wherever the stretch starts. */
  lemma TwentyTicksRestore(ss: seq<Server>, es: seq<Event>, i: nat, j: nat)
    requires IsRun(ss, es) && i < j <= |es| && es[j - 1].Tick? && TicksAreUncongested(ss, es, i, j)
    requires Ticks(es, i, j) >= 20
    ensures ss[j].rate == MAX_RATE
  {
    RateRecovers(ss, es, i, j, j);
    RunKeepsRange(ss, es, i);
  }

  /** From the lowest rate nineteen ticks are not enough. */
  lemma NineteenTicksDoNot(ss: seq<Server>, es: seq<Event>, i: nat, j: nat)
    requires IsRun(ss, es) && i < j <= |es| && es[j - 1].Tick? && TicksAreUncongested(ss, es, i, j)
    requires Ticks(es, i, j) == 19 && ss[i].rate == MIN_RATE
    ensures ss[j].rate < MAX_RATE
  {
    RateRecovers(ss, es, i, j, j);
  }

  // ---------------------------------------------------------------- the controller object

  class CongestionControl {
    const servers: array<Server>
    var registered: set<nat>

    ghost predicate Valid()
      reads this, servers
    {
      && servers.Length == MAX_SERVERS
      && (forall id :: id in registered ==> id < MAX_SERVERS)
      && (forall i :: 0 <= i < servers.Length ==> RateInRange(servers[i]))
    }

    constructor ()
      ensures Valid() && fresh(servers) && registered == {}
      ensures forall i :: 0 <= i < MAX_SERVERS ==> servers[i] == FRESH
    {
      servers := new Server[MAX_SERVERS](_ => FRESH);
      registered := {};
    }

    method AddServer(id: nat) returns (r: Status<()>)
      requires Valid() && id < MAX_SERVERS
      modifies this
      ensures Valid() && registered == old(registered) + {id}
      ensures r == if id in old(registered) then Err(EALREADY) else Ok(())
    {
      if id in registered {
        return Err(EALREADY);
      }
      registered := registered + {id};
      return Ok(());
    }

    method SignalCongested(id: nat, now: nat, react: nat)
      requires Valid() && id < MAX_SERVERS
      modifies servers
      ensures Valid() && servers[..] == old(servers[..])[id := After(old(servers[id]), Signal(now, react))]
    {
      var s := servers[id];
      if s.state == UnCongested {
        servers[id] := s.(state := Congested, congestedAt := now);
        UpdateServerRateLimit(id, react);
      } else {
        servers[id] := s.(state := Congested, congestedAt := now);
      }
    }

    method SetCongestionState(id: nat, state: CongestionState)
      requires Valid() && id < MAX_SERVERS
      modifies servers
      ensures Valid() && servers[..] == old(servers[..])[id := After(old(servers[id]), Pull(state))]
    {
      if servers[id].state != Invalid {
        return;
      }
      servers[id] := servers[id].(state := state);
    }

    method UpdateServerRateLimit(id: nat, now: nat)
      requires Valid() && id < MAX_SERVERS
      modifies servers
      ensures Valid() && servers[..] == old(servers[..])[id := Reacted(old(servers[id]), now)]
    {
      var s := servers[id];
      var rate, responded := s.rate, s.respondedAt;
      match s.state {
        case UnCongested | CongestedUnstable =>
          if rate != MAX_RATE {
            rate := rate + INCREASE;
            rate := if MAX_RATE < rate then MAX_RATE else rate;
          }
        case Congested =>
          if rate != MIN_RATE && responded < s.congestedAt && s.congestedAt - responded >= WINDOW_US {
            rate := rate * DECREASE;
            rate := if MIN_RATE > rate then MIN_RATE else rate;
            responded := now;
          }
        case Invalid | CongestedStable =>
      }
      servers[id] := s.(rate := rate, respondedAt := responded);
    }

    /** Every registered server ticks; the others keep their state.  clock(id) is the time read
        when the worker reaches server id. */
    method UpdateAllServers(clock: nat -> nat)
      requires Valid()
      modifies servers
      ensures Valid()
      ensures forall id :: 0 <= id < MAX_SERVERS ==>
        servers[id] == if id in registered then After(old(servers[id]), Tick(clock(id))) else old(servers[id])
    {
      var rest := registered;
      while rest != {}
        invariant Valid() && rest <= registered
        invariant forall id :: 0 <= id < MAX_SERVERS ==>
          servers[id] == if id in registered - rest then After(old(servers[id]), Tick(clock(id))) else old(servers[id])
        decreases |rest|
      {
        var id :| id in rest;
        UpdateServerRateLimit(id, clock(id));
        servers[id] := servers[id].(state := Invalid);
        rest := rest - {id};
      }
    }
  }
}
