/** The control protocol of the sending and the receiving tool: requests, data rounds and the stop.
    Every rank of the sending group runs the tool `calls` times and then once more with the stop flag
    up. In asynchronous mode the root receiver asks for each round, and a call that finds no request
    does nothing, which the root sender tells the others. In synchronous mode every call is a round, and
    the senders do not wait for each other. A message that is sent is queued until it is received. */
module Transfer {
  import opened Arithmetic
  import opened Partners

  /** `to[s]` lists the partners of sender `s`, `from[r]` those of receiver `r`. */
  datatype Config = Config(to: seq<seq<nat>>, from: seq<seq<nat>>, calls: nat, async: bool) {
    predicate Linked(s: nat, r: nat) {
      s < |to| && r < |from| && to[s] != [] && 0 <= r - to[s][0] < |to[s]|
    }

    /** The lists name consecutive ranks, agree with each other, and those of the roots start with the roots. */
    ghost predicate Valid() {
      |to| > 0 && |from| > 0 &&
      (forall s: nat :: s < |to| ==> Consecutive(to[s], |from|)) &&
      (forall r: nat :: r < |from| ==> Consecutive(from[r], |to|)) &&
      to[0][0] == 0 && from[0][0] == 0 &&
      (forall s: nat, r: nat :: s < |to| && r < |from| ==> (Linked(s, r) <==> 0 <= s - from[r][0] < |from[r]|))
    }
  }

  predicate Consecutive(ranks: seq<nat>, below: nat) {
    ranks != [] && forall i: nat :: i < |ranks| ==> ranks[i] == ranks[0] + i < below
  }

  /** The protocol between groups of the given sizes. */
  function Between(senders: nat, receivers: nat, calls: nat, async: bool): (c: Config)
    requires senders > 0 && receivers > 0 && Divisible(senders, receivers)
  {
    RatioExact(senders, receivers);
    Config(seq(senders, (s: nat) => PartnersOf(senders, receivers, s)),
           seq(receivers, (r: nat) requires Divisible(receivers, senders) => PartnersOf(receivers, senders, r)),
           calls, async)
  }

  lemma BetweenValid(senders: nat, receivers: nat, calls: nat, async: bool)
    requires senders > 0 && receivers > 0 && Divisible(senders, receivers)
    ensures Between(senders, receivers, calls, async).Valid()
  {
    RatioExact(senders, receivers);
    var c := Between(senders, receivers, calls, async);
    forall s: nat | s < senders ensures Consecutive(c.to[s], receivers) && (s == 0 ==> c.to[s][0] == 0) {
      InOrder(senders, receivers, s);
    }
    forall r: nat | r < receivers ensures Consecutive(c.from[r], senders) && (r == 0 ==> c.from[r][0] == 0) {
      InOrder(receivers, senders, r);
    }
    forall s: nat, r: nat | s < senders && r < receivers
      ensures c.Linked(s, r) <==> 0 <= s - c.from[r][0] < |c.from[r]|
    {
      Mutual(senders, receivers, s, r);
      InConsecutive(c.to[s], receivers, r);
      InConsecutive(c.from[r], senders, s);
    }
  }

  lemma InConsecutive(ranks: seq<nat>, below: nat, x: nat)
    requires Consecutive(ranks, below)
    ensures x in ranks <==> 0 <= x - ranks[0] < |ranks|
  {
    if 0 <= x - ranks[0] < |ranks| { assert ranks[x - ranks[0]] == x; }
  }

  /** `log` holds the calls, `true` for those that are rounds: in asynchronous mode what the root sender has
      broadcast so far, in synchronous mode all of them from the start; `verdicts` what the root
      receiver has, `true` for stop. `call[s]` and `turn[r]` count the calls and rounds that a rank
      has finished, `sent[s]` and `taken[r]` its messages in the one it is in. `data` holds the queued
      data messages of a pair of sender and receiver as round numbers, `got` those received. */
  datatype World = World(
    log: seq<bool>, call: seq<nat>, sent: seq<nat>, requests: nat, stopSent: bool, stops: nat,
    data: map<(nat, nat), seq<nat>>, got: map<(nat, nat), seq<nat>>,
    asked: bool, verdicts: seq<bool>, turn: seq<nat>, taken: seq<nat>)

  function At(m: map<(nat, nat), seq<nat>>, s: nat, r: nat): seq<nat> {
    if (s, r) in m then m[(s, r)] else []
  }

  function AllTrue(n: nat): seq<bool> {
    seq(n, i => true)
  }

  function Init(c: Config): World {
    World(if c.async then [] else AllTrue(c.calls), seq(|c.to|, i => 0), seq(|c.to|, i => 0), 0, false, 0, map[], map[],
          false, [], seq(|c.from|, i => 0), seq(|c.from|, i => 0))
  }

  function Trues(log: seq<bool>): nat {
    if log == [] then 0 else Trues(log[..|log| - 1]) + if log[|log| - 1] then 1 else 0
  }

  function Iota(n: nat): seq<nat> {
    seq(n, i requires 0 <= i => i)
  }

  datatype Event =
    | Request            // the root receiver asks for a round
    | Call               // the root sender looks for a request, in asynchronous mode
    | Skip(s: nat)       // a sender leaves a call without a request
    | Send(s: nat)       // a sender sends to its next partner
    | Stop               // the root sender takes the last request and sends the stop
    | Probe              // the root receiver sees a message, and whether one is the stop
    | Receive(r: nat)    // a receiver receives from its next partner

  ghost predicate Sized(c: Config, w: World) {
    c.Valid() && |w.call| == |w.sent| == |c.to| && |w.turn| == |w.taken| == |c.from| &&
    (forall s: nat :: s < |c.to| ==> w.call[s] <= |w.log| && w.sent[s] < |c.to[s]|) &&
    (forall r: nat :: r < |c.from| ==> w.turn[r] <= |w.verdicts| && w.taken[r] < |c.from[r]|)
  }

  ghost predicate Sending(c: Config, w: World, s: nat)
    requires Sized(c, w) && s < |c.to|
  {
    w.call[s] < |w.log| && w.log[w.call[s]]
  }

  ghost predicate Receiving(c: Config, w: World, r: nat)
    requires Sized(c, w) && r < |c.from|
  {
    w.turn[r] < |w.verdicts| && !w.verdicts[w.turn[r]]
  }

  ghost predicate Stopped(c: Config, w: World, r: nat)
    requires Sized(c, w) && r < |c.from|
  {
    w.turn[r] < |w.verdicts| && w.verdicts[w.turn[r]]
  }

  /** The event is possible. Only receiving, probing and the stop call in asynchronous mode wait. */
  ghost predicate Can(c: Config, w: World, e: Event)
    requires Sized(c, w)
  {
    match e
    case Request => c.async && !w.asked && w.turn[0] == |w.verdicts|
    case Call => c.async && w.call[0] == |w.log| < c.calls
    case Skip(s) => s < |c.to| && w.call[s] < |w.log| && !w.log[w.call[s]]
    case Send(s) => s < |c.to| && Sending(c, w, s)
    case Stop => w.call[0] == |w.log| == c.calls && !w.stopSent && (c.async ==> w.requests > 0)
    case Probe => w.turn[0] == |w.verdicts| && (c.async ==> w.asked) && (At(w.data, 0, 0) != [] || w.stops > 0)
    case Receive(r) => r < |c.from| && Receiving(c, w, r) && At(w.data, c.from[r][w.taken[r]], r) != []
  }

  /** The sender is past its message to the partner it has come to; after the last one the call ends. */
  ghost function AfterSend(c: Config, w: World, s: nat): World
    requires Sized(c, w) && s < |c.to|
  {
    var r, round := c.to[s][w.sent[s]], Trues(w.log[..w.call[s]]);
    var v := w.(data := w.data[(s, r) := At(w.data, s, r) + [round]]);
    if w.sent[s] + 1 == |c.to[s]| then v.(call := w.call[s := w.call[s] + 1], sent := w.sent[s := 0])
    else v.(sent := w.sent[s := w.sent[s] + 1])
  }

  ghost function AfterReceive(c: Config, w: World, r: nat): World
    requires Sized(c, w) && r < |c.from| && At(w.data, c.from[r][w.taken[r]], r) != []
  {
    var s := c.from[r][w.taken[r]];
    var queue := At(w.data, s, r);
    var v := w.(data := w.data[(s, r) := queue[1..]], got := w.got[(s, r) := At(w.got, s, r) + [queue[0]]]);
    if w.taken[r] + 1 == |c.from[r]| then v.(turn := w.turn[r := w.turn[r] + 1], taken := w.taken[r := 0])
    else v.(taken := w.taken[r := w.taken[r] + 1])
  }

  ghost function Next(c: Config, w: World, e: Event): World
    requires Sized(c, w) && Can(c, w, e)
  {
    match e
    case Request => w.(requests := w.requests + 1, asked := true)
    case Call =>
      if w.requests == 0 then w.(log := w.log + [false])
      else w.(log := w.log + [true], requests := w.requests - 1)
    case Skip(s) => w.(call := w.call[s := w.call[s] + 1])
    case Send(s) => AfterSend(c, w, s)
    case Stop => w.(requests := if c.async then w.requests - 1 else 0, stopSent := true, stops := w.stops + 1)
    case Probe =>
      if w.stops > 0 then w.(verdicts := w.verdicts + [true], asked := false, stops := w.stops - 1)
      else w.(verdicts := w.verdicts + [false], asked := false)
    case Receive(r) => AfterReceive(c, w, r)
  }

  // The invariant.

  /** How many data messages `s` has sent to `r`. */
  ghost function SentTo(c: Config, w: World, s: nat, r: nat): nat
    requires Sized(c, w) && c.Linked(s, r)
  {
    Trues(w.log[..w.call[s]]) + if r - c.to[s][0] < w.sent[s] then 1 else 0
  }

  /** How many data messages `r` has received from `s`. */
  ghost function TakenFrom(c: Config, w: World, s: nat, r: nat): nat
    requires Sized(c, w) && c.Linked(s, r)
  {
    w.turn[r] + if s - c.from[r][0] < w.taken[r] then 1 else 0
  }

  /** What was received and what is queued are, in order, the rounds sent so far. */
  ghost predicate PairOk(c: Config, w: World, s: nat, r: nat)
    requires Sized(c, w) && c.Linked(s, r)
  {
    At(w.got, s, r) + At(w.data, s, r) == Iota(SentTo(c, w, s, r)) &&
    |At(w.got, s, r)| == TakenFrom(c, w, s, r)
  }

  ghost predicate PairsOk(c: Config, w: World)
    requires Sized(c, w)
  {
    forall s: nat, r: nat :: c.Linked(s, r) ==> PairOk(c, w, s, r)
  }

  /** A rank is inside a call or a round only if that is one with data, and only the last verdict can
      be the stop. */
  ghost predicate RanksOk(c: Config, w: World)
    requires Sized(c, w)
  {
    |w.log| <= c.calls &&
    (forall s: nat :: s < |c.to| && w.sent[s] > 0 ==> Sending(c, w, s)) &&
    (forall r: nat :: r < |c.from| && w.taken[r] > 0 ==> Receiving(c, w, r)) &&
    (forall r: nat, k: nat :: r < |c.from| && k < w.turn[r] ==> !w.verdicts[k]) &&
    (forall k: nat :: k < |w.verdicts| - 1 ==> !w.verdicts[k])
  }

  predicate Over(w: World) {
    |w.verdicts| > 0 && w.verdicts[|w.verdicts| - 1]
  }

  /** The rounds that the root receiver has let in. */
  function RoundsIn(w: World): int {
    |w.verdicts| - if Over(w) then 1 else 0
  }

  /** Where requests and the stop are: every request is queued, or was answered by one data round, or
      by the stop. */
  ghost predicate ControlOk(c: Config, w: World)
    requires Sized(c, w)
  {
    (w.stopSent ==> |w.log| == c.calls && w.call[0] == |w.log|) &&
    w.stops + (if Over(w) then 1 else 0) == (if w.stopSent then 1 else 0) &&
    RoundsIn(w) <= Trues(w.log) &&
    if c.async then
      (w.asked ==> w.turn[0] == |w.verdicts|) &&
      w.requests + Trues(w.log) + w.stops == RoundsIn(w) + (if w.asked then 1 else 0)
    else
      !w.asked && w.requests == 0 && Trues(w.log) == |w.log| == c.calls
  }

  ghost predicate Inv(c: Config, w: World) {
    Sized(c, w) && RanksOk(c, w) && ControlOk(c, w) && PairsOk(c, w)
  }

  lemma {:induction false} TruesOfAll(n: nat)
    ensures Trues(AllTrue(n)) == n
  {
    if n == 0 {
    } else {
      assert AllTrue(n)[..n - 1] == AllTrue(n - 1);
      TruesOfAll(n - 1);
    }
  }

  lemma InitInv(c: Config)
    requires c.Valid()
    ensures Inv(c, Init(c))
  {
    var w := Init(c);
    TruesOfAll(c.calls);
    forall s: nat, r: nat | c.Linked(s, r) ensures PairOk(c, w, s, r) {}
  }

  lemma {:induction false} TruesBound(log: seq<bool>, k: nat)
    requires k <= |log|
    ensures Trues(log[..k]) <= Trues(log)
    ensures k < |log| ==> Trues(log[..k + 1]) == Trues(log[..k]) + if log[k] then 1 else 0
    ensures k < |log| && log[k] ==> Trues(log[..k]) < Trues(log)
    decreases |log| - k
  {
    if k < |log| {
      assert log[..k + 1][..k] == log[..k];
      TruesBound(log, k + 1);
    } else {
      assert log[..k] == log;
    }
  }

  /** No more is sent on a pair than there are rounds. */
  lemma SentBound(c: Config, w: World, s: nat, r: nat)
    requires Sized(c, w) && RanksOk(c, w) && c.Linked(s, r)
    ensures SentTo(c, w, s, r) <= Trues(w.log)
  {
    TruesBound(w.log, w.call[s]);
  }

  /** Sending one more message keeps the order. */
  lemma Push(got: seq<nat>, data: seq<nat>, n: nat)
    requires got + data == Iota(n)
    ensures got + (data + [n]) == Iota(n + 1)
  {
    assert got + (data + [n]) == got + data + [n];
  }

  /** Receiving one takes the oldest. */
  lemma Pop(got: seq<nat>, data: seq<nat>)
    requires data != []
    ensures got + [data[0]] + data[1..] == got + data
  {
  }

  /** What the root receiver can still receive from the root sender when it is between rounds. */
  lemma RootPair(c: Config, w: World)
    requires Inv(c, w) && w.turn[0] == |w.verdicts|
    ensures !Over(w) && c.Linked(0, 0) && |At(w.got, 0, 0)| == |w.verdicts|
    ensures |w.verdicts| + |At(w.data, 0, 0)| == SentTo(c, w, 0, 0) <= Trues(w.log)
  {
    SentBound(c, w, 0, 0);
    assert PairOk(c, w, 0, 0);
    assert |At(w.got, 0, 0) + At(w.data, 0, 0)| == SentTo(c, w, 0, 0);
  }

  lemma SendRanks(c: Config, w: World, s: nat)
    requires Sized(c, w) && RanksOk(c, w) && s < |c.to| && Sending(c, w, s)
    ensures Sized(c, AfterSend(c, w, s)) && RanksOk(c, AfterSend(c, w, s))
  {
  }

  lemma ReceiveRanks(c: Config, w: World, r: nat)
    requires Sized(c, w) && RanksOk(c, w) && Can(c, w, Receive(r))
    ensures Sized(c, AfterReceive(c, w, r)) && RanksOk(c, AfterReceive(c, w, r))
  {
  }

  lemma CallRanks(c: Config, w: World, e: Event)
    requires Sized(c, w) && RanksOk(c, w) && Can(c, w, e) && (e.Skip? || e.Call? || e.Stop?)
    ensures Sized(c, Next(c, w, e)) && RanksOk(c, Next(c, w, e))
  {
  }

  lemma AskRanks(c: Config, w: World, e: Event)
    requires Sized(c, w) && RanksOk(c, w) && Can(c, w, e) && (e.Probe? || e.Request?) && !Over(w)
    ensures Sized(c, Next(c, w, e)) && RanksOk(c, Next(c, w, e))
  {
  }

  lemma RootControl(c: Config, w: World, e: Event)
    requires Inv(c, w) && Can(c, w, e) && Sized(c, Next(c, w, e)) && (e.Call? || e.Stop?)
    ensures ControlOk(c, Next(c, w, e))
  {
  }

  lemma AskControl(c: Config, w: World, e: Event)
    requires Inv(c, w) && Can(c, w, e) && Sized(c, Next(c, w, e)) && (e.Request? || e.Probe?)
    ensures ControlOk(c, Next(c, w, e))
  {
    RootPair(c, w);
  }

  lemma ReceiveControl(c: Config, w: World, r: nat)
    requires Sized(c, w) && ControlOk(c, w) && Can(c, w, Receive(r)) && Sized(c, AfterReceive(c, w, r))
    ensures ControlOk(c, AfterReceive(c, w, r))
  {
  }

  lemma SendControl(c: Config, w: World, s: nat)
    requires Sized(c, w) && ControlOk(c, w) && s < |c.to| && Sending(c, w, s) && Sized(c, AfterSend(c, w, s))
    ensures ControlOk(c, AfterSend(c, w, s))
  {
  }

  lemma SkipControl(c: Config, w: World, s: nat)
    requires Sized(c, w) && ControlOk(c, w) && Can(c, w, Skip(s)) && Sized(c, Next(c, w, Skip(s)))
    ensures ControlOk(c, Next(c, w, Skip(s)))
  {
  }

  lemma SenderPair(c: Config, w: World, e: Event, s: nat, r: nat)
    requires Sized(c, w) && RanksOk(c, w) && Can(c, w, e) && Sized(c, Next(c, w, e)) && (e.Call? || e.Skip?)
    requires c.Linked(s, r) && PairOk(c, w, s, r)
    ensures PairOk(c, Next(c, w, e), s, r)
  {
    if e.Call? {
      assert Next(c, w, e).log[..w.call[s]] == w.log[..w.call[s]];
    } else {
      TruesBound(w.log, w.call[e.s]);
    }
  }

  /** A pair whose message is not the one sent. */
  lemma OtherSend(c: Config, w: World, t: nat, s: nat, r: nat)
    requires Sized(c, w) && t < |c.to| && Sending(c, w, t) && Sized(c, AfterSend(c, w, t))
    requires c.Linked(s, r) && PairOk(c, w, s, r) && !(t == s && c.to[s][w.sent[s]] == r)
    ensures PairOk(c, AfterSend(c, w, t), s, r)
  {
    if t == s { TruesBound(w.log, w.call[s]); }
  }

  lemma SendPair(c: Config, w: World, s: nat, r: nat)
    requires Sized(c, w) && s < |c.to| && Sending(c, w, s) && Sized(c, AfterSend(c, w, s))
    requires c.Linked(s, r) && PairOk(c, w, s, r) && c.to[s][w.sent[s]] == r
    ensures PairOk(c, AfterSend(c, w, s), s, r)
  {
    TruesBound(w.log, w.call[s]);
    Push(At(w.got, s, r), At(w.data, s, r), SentTo(c, w, s, r));
  }

  lemma OtherReceive(c: Config, w: World, t: nat, s: nat, r: nat)
    requires Sized(c, w) && Can(c, w, Receive(t)) && Sized(c, AfterReceive(c, w, t))
    requires c.Linked(s, r) && PairOk(c, w, s, r) && !(t == r && c.from[r][w.taken[r]] == s)
    ensures PairOk(c, AfterReceive(c, w, t), s, r)
  {
  }

  lemma ReceivePair(c: Config, w: World, s: nat, r: nat)
    requires Sized(c, w) && Can(c, w, Receive(r)) && Sized(c, AfterReceive(c, w, r))
    requires c.Linked(s, r) && PairOk(c, w, s, r) && c.from[r][w.taken[r]] == s
    ensures PairOk(c, AfterReceive(c, w, r), s, r)
  {
    Pop(At(w.got, s, r), At(w.data, s, r));
  }

  lemma StepPair(c: Config, w: World, e: Event, s: nat, r: nat)
    requires Sized(c, w) && RanksOk(c, w) && Can(c, w, e) && Sized(c, Next(c, w, e))
    requires c.Linked(s, r) && PairOk(c, w, s, r)
    ensures PairOk(c, Next(c, w, e), s, r)
  {
    match e
    case Call => SenderPair(c, w, e, s, r);
    case Skip(_) => SenderPair(c, w, e, s, r);
    case Send(t) => if t == s && c.to[s][w.sent[s]] == r { SendPair(c, w, s, r); } else { OtherSend(c, w, t, s, r); }
    case Receive(t) =>
      if t == r && c.from[r][w.taken[r]] == s { ReceivePair(c, w, s, r); } else { OtherReceive(c, w, t, s, r); }
    case _ =>
  }

  lemma StepInv(c: Config, w: World, e: Event)
    requires Inv(c, w) && Can(c, w, e)
    ensures Inv(c, Next(c, w, e))
  {
    match e {
      case Request => RootPair(c, w); AskRanks(c, w, e); AskControl(c, w, e);
      case Probe => RootPair(c, w); AskRanks(c, w, e); AskControl(c, w, e);
      case Call => CallRanks(c, w, e); RootControl(c, w, e);
      case Stop => CallRanks(c, w, e); RootControl(c, w, e);
      case Skip(s) => CallRanks(c, w, e); SkipControl(c, w, s);
      case Send(s) => SendRanks(c, w, s); SendControl(c, w, s);
      case Receive(r) => ReceiveRanks(c, w, r); ReceiveControl(c, w, r);
    }
    forall s: nat, r: nat | c.Linked(s, r) ensures PairOk(c, Next(c, w, e), s, r) {
      StepPair(c, w, e, s, r);
    }
  }

  /** What requests have become: queued, a round of data, or the stop. */
  function Answered(w: World): nat {
    w.requests + Trues(w.log) + if w.stopSent then 1 else 0
  }

  lemma CallAnswered(c: Config, w: World)
    requires Sized(c, w) && Can(c, w, Call)
    ensures Answered(Next(c, w, Call)) == Answered(w)
  {
    assert Next(c, w, Call).log[..|w.log|] == w.log;
  }

  lemma StepAnswered(c: Config, w: World, e: Event)
    requires Sized(c, w) && Can(c, w, e) && c.async
    ensures Answered(Next(c, w, e)) == Answered(w) + if e.Request? then 1 else 0
  {
    match e
    case Call => CallAnswered(c, w);
    case _ =>
  }

  // Runs.

  /** `ws` are the states of a run from the start, `es` the events between them. */
  ghost predicate Run(c: Config, ws: seq<World>, es: seq<Event>) {
    |ws| == |es| + 1 && ws[0] == Init(c) && forall i :: 0 <= i < |es| ==> Leads(c, ws[i], es[i], ws[i + 1])
  }

  ghost predicate Leads(c: Config, w: World, e: Event, w': World) {
    Sized(c, w) && Can(c, w, e) && w' == Next(c, w, e)
  }

  function Requests(es: seq<Event>): nat {
    if es == [] then 0 else Requests(es[..|es| - 1]) + if es[|es| - 1].Request? then 1 else 0
  }

  /** Every reachable state has the invariant. */
  lemma {:induction false} RunInv(c: Config, ws: seq<World>, es: seq<Event>)
    requires c.Valid() && Run(c, ws, es)
    ensures Inv(c, ws[|es|])
  {
    var k := |es| - 1;
    if es == [] {
      InitInv(c);
    } else {
      RunInv(c, ws[..k + 1], es[..k]);
      assert Leads(c, ws[k], es[k], ws[k + 1]);
      StepInv(c, ws[k], es[k]);
    }
  }

  /** Each request of a run is still queued or was answered by exactly one round of data or by the
      stop, and at most one is queued. */
  lemma {:induction false} RequestsAnswered(c: Config, ws: seq<World>, es: seq<Event>)
    requires c.Valid() && Run(c, ws, es) && c.async
    ensures Requests(es) == Answered(ws[|es|]) && ws[|es|].requests <= 1
  {
    var k := |es| - 1;
    RunInv(c, ws, es);
    if es == [] {
    } else {
      RequestsAnswered(c, ws[..k + 1], es[..k]);
      assert Leads(c, ws[k], es[k], ws[k + 1]);
      StepAnswered(c, ws[k], es[k]);
    }
  }

  /** Nothing follows the stop: no new round starts, and in asynchronous mode the root receiver finds
      no data beside it. */
  lemma NothingAfterStop(c: Config, w: World)
    requires Inv(c, w) && w.stopSent
    ensures !Can(c, w, Call) && !Can(c, w, Send(0)) && !Can(c, w, Stop)
    ensures c.async && w.stops > 0 ==> At(w.data, 0, 0) == []
  {
    if c.async && w.stops > 0 { RootPair(c, w); }
  }

  /** All ranks of both groups have left the tools for good. */
  ghost predicate Done(c: Config, w: World)
    requires Sized(c, w)
  {
    w.stopSent && (forall s: nat :: s < |c.to| ==> w.call[s] == c.calls) &&
      (forall r: nat :: r < |c.from| ==> Stopped(c, w, r))
  }

  /** When all is done, every receiver has the rounds that were let in, in order, from each of its
      partners, and what is queued are the others. In asynchronous mode there are no others. */
  lemma Delivered(c: Config, w: World, s: nat, r: nat)
    requires Inv(c, w) && Done(c, w) && c.Linked(s, r)
    ensures At(w.got, s, r) == Iota(RoundsIn(w)) && RoundsIn(w) <= Trues(w.log)
    ensures At(w.data, s, r) == [] <==> RoundsIn(w) == Trues(w.log)
    ensures w.stops == 0 && w.requests == 0
    ensures c.async ==> At(w.got, s, r) == Iota(Trues(w.log)) && At(w.data, s, r) == []
  {
    var k := w.turn[r];
    assert Stopped(c, w, r) && k == |w.verdicts| - 1;
    assert w.log[..w.call[s]] == w.log;
    assert PairOk(c, w, s, r);
    var n := SentTo(c, w, s, r);
    assert |At(w.got, s, r) + At(w.data, s, r)| == n == Trues(w.log);
    assert At(w.got, s, r) == Iota(n)[..|At(w.got, s, r)|];
  }

  lemma {:induction false} OnlyRounds(log: seq<bool>, k: nat)
    requires Trues(log) == |log| && k < |log|
    ensures log[k]
  {
    var n := |log| - 1;
    TruesAtMost(log[..n]);
    if k < n { OnlyRounds(log[..n], k); }
  }

  /** In synchronous mode the senders do not wait for each other, nor for the root sender. */
  lemma SendersFree(c: Config, w: World, s: nat)
    requires Inv(c, w) && !c.async && s < |c.to|
    ensures Can(c, w, Send(s)) <==> w.call[s] < c.calls
  {
    if w.call[s] < c.calls { OnlyRounds(w.log, w.call[s]); }
  }

  /** In synchronous mode data is lost exactly when the root receiver sees the stop while data of the
      root sender is still queued, and then for good. */
  lemma StopOverData(c: Config, w: World)
    requires Inv(c, w) && Can(c, w, Probe) && w.stops > 0
    ensures At(w.data, 0, 0) == [] <==> RoundsIn(Next(c, w, Probe)) == Trues(w.log)
    ensures c.async ==> At(w.data, 0, 0) == []
  {
    RootPair(c, w);
    assert w.log[..w.call[0]] == w.log;
  }

  lemma OverStays(c: Config, w: World, e: Event)
    requires Inv(c, w) && Over(w) && Can(c, w, e)
    ensures var w' := Next(c, w, e); Over(w') && RoundsIn(w') == RoundsIn(w) && w'.log == w.log
  {
    if w.turn[0] == |w.verdicts| { RootPair(c, w); }
  }

  /** In the `i`-th step of a run the root receiver sees the stop. */
  predicate SeesStop(ws: seq<World>, es: seq<Event>, i: nat) {
    i < |es| < |ws| && StopSeen(ws[i], es[i])
  }

  predicate StopSeen(w: World, e: Event) {
    e == Probe && w.stops > 0
  }

  /** It is over once the stop has been seen, never to be seen again, and then no round is added. */
  predicate OverStep(w: World, e: Event, w': World) {
    (Over(w') <==> Over(w) || StopSeen(w, e)) && !(Over(w) && StopSeen(w, e)) &&
    (Over(w) ==> RoundsIn(w') == RoundsIn(w)) && (Over(w') ==> w'.log == w.log)
  }

  predicate OverSteps(ws: seq<World>, es: seq<Event>) {
    |ws| == |es| + 1 && !Over(ws[0]) && forall i: nat :: i < |es| ==> OverStep(ws[i], es[i], ws[i + 1])
  }

  lemma StepOver(c: Config, w: World, e: Event)
    requires Inv(c, w) && Can(c, w, e)
    ensures OverStep(w, e, Next(c, w, e))
  {
    if Over(w) { OverStays(c, w, e); }
  }

  lemma RunOver(c: Config, ws: seq<World>, es: seq<Event>)
    requires c.Valid() && Run(c, ws, es)
    ensures OverSteps(ws, es)
  {
    forall i: nat | i < |es| ensures OverStep(ws[i], es[i], ws[i + 1]) {
      RunInv(c, ws[..i + 1], es[..i]);
      assert Leads(c, ws[i], es[i], ws[i + 1]);
      StepOver(c, ws[i], es[i]);
    }
  }

  lemma {:induction false} StaysOver(ws: seq<World>, es: seq<Event>, i: nat, j: nat)
    requires OverSteps(ws, es) && SeesStop(ws, es, i) && i < j <= |es|
    ensures Over(ws[j]) && RoundsIn(ws[j]) == RoundsIn(ws[i + 1]) && ws[j].log == ws[i].log
  {
    assert OverStep(ws[j - 1], es[j - 1], ws[j]);
    if j == i + 1 {
    } else {
      StaysOver(ws, es, i, j - 1);
    }
  }

  lemma {:induction false} StopWasSeen(ws: seq<World>, es: seq<Event>, j: nat)
    requires OverSteps(ws, es) && j <= |es| && Over(ws[j])
    ensures exists i: nat :: SeesStop(ws, es, i)
  {
    if j == 0 {
      assert false;
    } else {
      assert OverStep(ws[j - 1], es[j - 1], ws[j]);
      if Over(ws[j - 1]) {
        StopWasSeen(ws, es, j - 1);
      } else {
        assert SeesStop(ws, es, j - 1);
      }
    }
  }

  lemma NotAgain(ws: seq<World>, es: seq<Event>, i: nat, j: nat)
    requires OverSteps(ws, es) && SeesStop(ws, es, i) && i < j < |es|
    ensures !SeesStop(ws, es, j)
  {
    StaysOver(ws, es, i, j);
    assert OverStep(ws[j], es[j], ws[j + 1]);
  }

  lemma SeenOnce(ws: seq<World>, es: seq<Event>, i: nat, j: nat)
    requires OverSteps(ws, es) && SeesStop(ws, es, i) && SeesStop(ws, es, j)
    ensures i == j
  {
    if i < j {
      NotAgain(ws, es, i, j);
    } else if j < i {
      NotAgain(ws, es, j, i);
    }
  }

  lemma SeenOverData(c: Config, ws: seq<World>, es: seq<Event>, i: nat)
    requires c.Valid() && Run(c, ws, es) && SeesStop(ws, es, i)
    ensures At(ws[i].data, 0, 0) == [] <==> RoundsIn(ws[i + 1]) == Trues(ws[i].log)
  {
    RunInv(c, ws[..i + 1], es[..i]);
    assert Leads(c, ws[i], es[i], ws[i + 1]);
    StopOverData(c, ws[i]);
  }

  ghost predicate AllReceived(c: Config, w: World) {
    forall s: nat, r: nat :: c.Linked(s, r) ==> At(w.data, s, r) == []
  }

  lemma ReceivedAtEnd(c: Config, w: World)
    requires Inv(c, w) && Done(c, w)
    ensures AllReceived(c, w) <==> RoundsIn(w) == Trues(w.log)
  {
    forall s: nat, r: nat | c.Linked(s, r) ensures At(w.data, s, r) == [] <==> RoundsIn(w) == Trues(w.log) {
      Delivered(c, w, s, r);
    }
    assert c.Linked(0, 0);
  }

  /** In a run at whose end all ranks have left, the root receiver has seen the stop exactly once, and no
      message of any pair is left exactly when the root sender's queue was empty at that moment. */
  lemma LostExactly(c: Config, ws: seq<World>, es: seq<Event>)
    requires c.Valid() && Run(c, ws, es) && Sized(c, ws[|es|]) && Done(c, ws[|es|])
    ensures exists i: nat :: OnlyStop(ws, es, i)
    ensures forall i: nat :: SeesStop(ws, es, i) ==> (AllReceived(c, ws[|es|]) <==> At(ws[i].data, 0, 0) == [])
  {
    RunInv(c, ws, es);
    RunOver(c, ws, es);
    assert Stopped(c, ws[|es|], 0);
    StopWasSeen(ws, es, |es|);
    var i: nat :| SeesStop(ws, es, i);
    forall j: nat | SeesStop(ws, es, j) ensures j == i {
      SeenOnce(ws, es, i, j);
    }
    assert OnlyStop(ws, es, i);
    StaysOver(ws, es, i, |es|);
    SeenOverData(c, ws, es, i);
    ReceivedAtEnd(c, ws[|es|]);
  }

  ghost predicate OnlyStop(ws: seq<World>, es: seq<Event>, i: nat) {
    SeesStop(ws, es, i) && forall j: nat :: SeesStop(ws, es, j) ==> j == i
  }

  const ONE_CALL := Config([[0]], [[0]], 1, false)

  /** Its state after `k` of the events send, stop and probe. */
  function LossState(k: nat): World {
    var w := World([true], [0], [0], 0, false, 0, map[], map[], false, [], [0], [0]);
    if k == 0 then w
    else if k == 1 then w.(data := map[(0, 0) := [0]], call := [1])
    else if k == 2 then w.(data := map[(0, 0) := [0]], call := [1], stopSent := true, stops := 1)
    else w.(data := map[(0, 0) := [0]], call := [1], stopSent := true, verdicts := [true])
  }

  ghost predicate Reachable(c: Config, w: World) {
    exists ws: seq<World>, es: seq<Event> :: Run(c, ws, es) && ws[|es|] == w
  }

  /** All ranks are gone and a message of the pair is left. */
  ghost predicate LostAtEnd(c: Config, w: World, s: nat, r: nat) {
    Sized(c, w) && Done(c, w) && c.Linked(s, r) && At(w.data, s, r) != []
  }

  lemma ReachNext(c: Config, w: World, e: Event, w': World)
    requires Reachable(c, w) && Leads(c, w, e, w')
    ensures Reachable(c, w')
  {
    var ws: seq<World>, es: seq<Event> :| Run(c, ws, es) && ws[|es|] == w;
    assert Run(c, ws + [w'], es + [e]);
  }

  lemma LossStart()
    ensures Reachable(ONE_CALL, LossState(0))
  {
    assert ONE_CALL.Valid();
    assert AllTrue(1) == [true];
    assert Run(ONE_CALL, [LossState(0)], []);
  }

  /** The only message of the only sender. */
  lemma OneSend(c: Config, w: World)
    requires Sized(c, w) && Sending(c, w, 0) && c.to == [[0]] && w.log == [true] && w.call == w.sent == [0] &&
      w.data == map[]
    ensures Leads(c, w, Send(0), w.(data := map[(0, 0) := [0]], call := [1]))
  {
    var w' := AfterSend(c, w, 0);
    assert w.log[..0] == [];
    assert w'.data == map[(0, 0) := [0]] by { assert At(w.data, 0, 0) + [0] == [0]; }
    assert w'.call == [1] && w'.sent == [0];
  }

  lemma LossSend()
    ensures Reachable(ONE_CALL, LossState(1))
  {
    LossStart();
    assert ONE_CALL.Valid();
    OneSend(ONE_CALL, LossState(0));
    ReachNext(ONE_CALL, LossState(0), Send(0), LossState(1));
  }

  lemma LossStop()
    ensures Reachable(ONE_CALL, LossState(2))
  {
    LossSend();
    assert ONE_CALL.Valid();
    ReachNext(ONE_CALL, LossState(1), Stop, LossState(2));
  }

  lemma LossProbe()
    ensures Reachable(ONE_CALL, LossState(3))
  {
    LossStop();
    assert ONE_CALL.Valid();
    assert LossState(2).verdicts + [true] == [true];
    ReachNext(ONE_CALL, LossState(2), Probe, LossState(3));
  }

  /** One sender, one receiver, one call: data and stop are both queued before the receiver looks, all
      ranks leave, and the message stays where it is. */
  lemma SynchronousLoses()
    ensures exists c: Config, w: World :: !c.async && Reachable(c, w) && LostAtEnd(c, w, 0, 0)
  {
    LossProbe();
    assert ONE_CALL.Valid();
    assert LostAtEnd(ONE_CALL, LossState(3), 0, 0) by { assert At(LossState(3).data, 0, 0) == [0]; }
  }

  /** Until all is done, some rank can go on. */
  lemma DeadlockFree(c: Config, w: World)
    requires Inv(c, w) && !Done(c, w)
    ensures exists e :: Can(c, w, e)
  {
    if s: nat :| s < |c.to| && w.call[s] < |w.log| {
      assert Can(c, w, Send(s)) || Can(c, w, Skip(s));
    } else if |w.log| < c.calls {
      assert Can(c, w, Call);
    } else if !w.stopSent && (c.async ==> w.requests > 0) {
      assert Can(c, w, Stop);
    } else {
      assert forall s: nat :: s < |c.to| ==> w.call[s] == |w.log|;
      ReceiversGoOn(c, w);
    }
  }

  /** With all senders waiting or gone, a receiver can go on. */
  lemma ReceiversGoOn(c: Config, w: World)
    requires Inv(c, w) && |w.log| == c.calls && (w.stopSent || (c.async && w.requests == 0))
    requires forall s: nat :: s < |c.to| ==> w.call[s] == |w.log|
    ensures Done(c, w) || exists e :: Can(c, w, e)
  {
    if r: nat :| r < |c.from| && Receiving(c, w, r) {
      DataWaits(c, w, r);
      assert Can(c, w, Receive(r));
    } else if w.turn[0] == |w.verdicts| {
      RootPair(c, w);
      assert w.log[..w.call[0]] == w.log;
      if c.async && !w.asked {
        assert Can(c, w, Request);
      } else {
        assert Can(c, w, Probe);
      }
    } else {
      assert !Receiving(c, w, 0);
      assert Stopped(c, w, 0) && Over(w);
      forall r: nat | r < |c.from| ensures Stopped(c, w, r) {
        assert !Receiving(c, w, r);
      }
    }
  }

  /** A receiver in a round finds the data of its next partner once all senders have caught up. */
  lemma DataWaits(c: Config, w: World, r: nat)
    requires Inv(c, w) && r < |c.from| && Receiving(c, w, r)
    requires forall s: nat :: s < |c.to| ==> w.call[s] == |w.log|
    ensures At(w.data, c.from[r][w.taken[r]], r) != []
  {
    var s := c.from[r][w.taken[r]];
    assert c.Linked(s, r);
    assert PairOk(c, w, s, r);
    assert w.log[..w.call[s]] == w.log;
    assert |At(w.got, s, r) + At(w.data, s, r)| == SentTo(c, w, s, r);
    assert w.turn[r] < RoundsIn(w);
  }

  // Every run is finite.

  function Total(work: seq<nat>): nat {
    if work == [] then 0 else Total(work[..|work| - 1]) + work[|work| - 1]
  }

  lemma {:induction false} TotalLess(a: seq<nat>, b: seq<nat>, k: nat)
    requires |a| == |b| && k < |a| && b[k] < a[k] && forall i :: 0 <= i < |a| && i != k ==> b[i] == a[i]
    ensures Total(b) < Total(a)
  {
    var n := |a| - 1;
    if k == n { assert a[..n] == b[..n]; } else { TotalLess(a[..n], b[..n], k); }
  }

  /** Steps left of `left` calls or rounds with `partners` messages each, `made` of them made. */
  function StepsLeft(left: int, partners: nat, made: nat): nat {
    if left <= 0 then 0 else Times(left, partners + 1) - if made <= partners then made else 0
  }

  ghost function SendersLeft(c: Config, w: World): seq<nat>
    requires Sized(c, w)
  {
    seq(|c.to|, s requires 0 <= s < |c.to| => StepsLeft(c.calls - w.call[s], |c.to[s]|, w.sent[s]))
  }

  ghost function ReceiversLeft(c: Config, w: World): seq<nat>
    requires Sized(c, w)
  {
    seq(|c.from|, r requires 0 <= r < |c.from| => StepsLeft(c.calls + 1 - w.turn[r], |c.from[r]|, w.taken[r]))
  }

  /** What the roots have left to decide. */
  ghost function RootsLeft(c: Config, w: World): int
    requires Sized(c, w)
  {
    c.calls - |w.log| + (if w.stopSent then 0 else 1) + 2 * (c.calls + 1 - |w.verdicts|) - (if w.asked then 1 else 0)
  }

  ghost function Left(c: Config, w: World): int
    requires Sized(c, w)
  {
    RootsLeft(c, w) + Total(SendersLeft(c, w)) + Total(ReceiversLeft(c, w))
  }

  lemma StepsDecrease(left: int, partners: nat, made: nat)
    requires 0 < left && made < partners
    ensures StepsLeft(left, partners, made + 1) < StepsLeft(left, partners, made)
    ensures StepsLeft(left - 1, partners, 0) < StepsLeft(left, partners, made)
  {
  }

  /** There is always something left while a step can be taken, and every step takes some of it. */
  lemma StepCounts(c: Config, w: World, e: Event)
    requires Inv(c, w) && Can(c, w, e) && Sized(c, Next(c, w, e))
    ensures 0 <= RootsLeft(c, w) && Left(c, Next(c, w, e)) < Left(c, w)
  {
    RootsCount(c, w);
    match e
    case Send(s) => SendCounts(c, w, s);
    case Skip(s) => SkipCounts(c, w, s);
    case Receive(r) => ReceiveCounts(c, w, r);
    case _ =>
      assert SendersLeft(c, Next(c, w, e)) == SendersLeft(c, w);
      assert ReceiversLeft(c, Next(c, w, e)) == ReceiversLeft(c, w);
  }

  lemma {:induction false} TruesAtMost(log: seq<bool>)
    ensures Trues(log) <= |log|
  {
    if log == [] {
    } else {
      TruesAtMost(log[..|log| - 1]);
    }
  }

  lemma RootsCount(c: Config, w: World)
    requires Inv(c, w)
    ensures 0 <= RootsLeft(c, w) && |w.verdicts| <= c.calls + 1
  {
    TruesAtMost(w.log);
    if w.asked { RootPair(c, w); }
  }

  lemma SendCounts(c: Config, w: World, s: nat)
    requires Sized(c, w) && RanksOk(c, w) && s < |c.to| && Sending(c, w, s) && Sized(c, AfterSend(c, w, s))
    ensures Left(c, AfterSend(c, w, s)) < Left(c, w)
  {
    var w' := AfterSend(c, w, s);
    StepsDecrease(c.calls - w.call[s], |c.to[s]|, w.sent[s]);
    TotalLess(SendersLeft(c, w), SendersLeft(c, w'), s);
    assert ReceiversLeft(c, w') == ReceiversLeft(c, w);
  }

  lemma SkipCounts(c: Config, w: World, s: nat)
    requires Sized(c, w) && RanksOk(c, w) && Can(c, w, Skip(s)) && Sized(c, Next(c, w, Skip(s)))
    ensures Left(c, Next(c, w, Skip(s))) < Left(c, w)
  {
    var w' := Next(c, w, Skip(s));
    StepsDecrease(c.calls - w.call[s], |c.to[s]|, w.sent[s]);
    assert w.sent[s] == 0;
    TotalLess(SendersLeft(c, w), SendersLeft(c, w'), s);
    assert ReceiversLeft(c, w') == ReceiversLeft(c, w);
  }

  lemma ReceiveCounts(c: Config, w: World, r: nat)
    requires Inv(c, w) && Can(c, w, Receive(r)) && Sized(c, AfterReceive(c, w, r))
    ensures Left(c, AfterReceive(c, w, r)) < Left(c, w)
  {
    var w' := AfterReceive(c, w, r);
    RootsCount(c, w);
    StepsDecrease(c.calls + 1 - w.turn[r], |c.from[r]|, w.taken[r]);
    TotalLess(ReceiversLeft(c, w), ReceiversLeft(c, w'), r);
    assert SendersLeft(c, w') == SendersLeft(c, w);
  }

  /** No run is longer than what was left at the start. */
  lemma {:induction false} RunsEnd(c: Config, ws: seq<World>, es: seq<Event>)
    requires c.Valid() && Run(c, ws, es)
    ensures Inv(c, ws[|es|]) && |es| + Left(c, ws[|es|]) <= Left(c, ws[0])
  {
    var k := |es| - 1;
    RunInv(c, ws, es);
    if es == [] {
    } else {
      RunsEnd(c, ws[..k + 1], es[..k]);
      assert Leads(c, ws[k], es[k], ws[k + 1]);
      StepCounts(c, ws[k], es[k]);
    }
  }

  lemma {:induction false} TotalBound(a: seq<nat>, most: nat)
    requires forall i :: 0 <= i < |a| ==> a[i] <= most
    ensures Total(a) <= |a| * most
  {
    if a == [] {
    } else {
      var n := |a| - 1;
      TotalBound(a[..n], most);
      assert n * most + most == |a| * most;
    }
  }

  lemma StepsBound(left: int, partners: nat, calls: nat, most: nat)
    requires left <= calls + 1 && partners <= most
    ensures StepsLeft(left, partners, 0) <= (calls + 1) * (most + 1)
  {
    if left > 0 {
      TimesIs(left, partners + 1);
      ProductGrows(left, partners + 1, calls + 1, most + 1);
    }
  }

  lemma ProductGrows(a: nat, b: nat, c: nat, d: nat)
    requires a <= c && b <= d
    ensures a * b <= c * d
  {
    assert a * b <= a * d && a * d <= c * d;
  }

  lemma SendersBound(c: Config, w: World, most: nat)
    requires Sized(c, w) && (forall s :: 0 <= s < |c.to| ==> w.sent[s] == 0 && |c.to[s]| <= most)
    ensures Total(SendersLeft(c, w)) <= |c.to| * ((c.calls + 1) * (most + 1))
  {
    forall s | 0 <= s < |c.to| ensures SendersLeft(c, w)[s] <= (c.calls + 1) * (most + 1) {
      StepsBound(c.calls - w.call[s], |c.to[s]|, c.calls, most);
    }
    TotalBound(SendersLeft(c, w), (c.calls + 1) * (most + 1));
  }

  lemma ReceiversBound(c: Config, w: World, most: nat)
    requires Sized(c, w) && (forall r :: 0 <= r < |c.from| ==> w.taken[r] == 0 && |c.from[r]| <= most)
    ensures Total(ReceiversLeft(c, w)) <= |c.from| * ((c.calls + 1) * (most + 1))
  {
    forall r | 0 <= r < |c.from| ensures ReceiversLeft(c, w)[r] <= (c.calls + 1) * (most + 1) {
      StepsBound(c.calls + 1 - w.turn[r], |c.from[r]|, c.calls, most);
    }
    TotalBound(ReceiversLeft(c, w), (c.calls + 1) * (most + 1));
  }

  lemma RunsWithin(c: Config, ws: seq<World>, es: seq<Event>, senders: nat, receivers: nat)
    requires c.Valid() && Run(c, ws, es) && Sized(c, ws[0])
    requires Total(SendersLeft(c, ws[0])) <= senders && Total(ReceiversLeft(c, ws[0])) <= receivers
    ensures |es| <= 3 * (c.calls + 1) + senders + receivers
  {
    RunsEnd(c, ws, es);
    RootsCount(c, ws[|es|]);
  }

  /** From the start, three events for each call and the stop at the roots, and for each rank one for each call
      and the stop, and one for each message. */
  lemma RunsEndFromStart(c: Config, ws: seq<World>, es: seq<Event>, most: nat)
    requires c.Valid() && Run(c, ws, es)
    requires forall s :: 0 <= s < |c.to| ==> |c.to[s]| <= most
    requires forall r :: 0 <= r < |c.from| ==> |c.from[r]| <= most
    ensures |es| <= 3 * (c.calls + 1) + (|c.to| + |c.from|) * ((c.calls + 1) * (most + 1))
  {
    var each := (c.calls + 1) * (most + 1);
    InitInv(c);
    SendersBound(c, ws[0], most);
    ReceiversBound(c, ws[0], most);
    RunsWithin(c, ws, es, |c.to| * each, |c.from| * each);
    SumTimes(|c.to|, |c.from|, each);
  }

  lemma SumTimes(a: nat, b: nat, x: nat)
    ensures (a + b) * x == a * x + b * x
  {
  }
}
