/** The cost guard: nothing is sent unless its worst case still fits the budget. */
module Budget {
  import opened Common
  import opened Pricing
  import opened Provider

  datatype Caps = Caps(maxRequests: int, maxCost: real, price: ModelPrice)

  /** The guard's four counters. `reserved` is admitted money that is not charged yet. */
  datatype Counters = Counters(requestsSent: int, spent: real, reserved: real, atWorstCase: int)

  datatype Limit = MaxRequests | MaxCost

  function Max(a: real, b: real): real {
    if a >= b then a else b
  }

  function AdmitRefusal(g: Counters, caps: Caps, worstCase: real): Option<Limit> {
    if g.requestsSent >= caps.maxRequests then Some(MaxRequests)
    else if g.spent + g.reserved + worstCase > caps.maxCost then Some(MaxCost)
    else None
  }

  function Admitted(g: Counters, worstCase: real): Counters {
    g.(requestsSent := g.requestsSent + 1, reserved := g.reserved + worstCase)
  }

  function Released(g: Counters, worstCase: real): Counters {
    g.(requestsSent := g.requestsSent - 1, reserved := Max(g.reserved - worstCase, 0.0))
  }

  function ReportedUsage(telemetry: Option<Telemetry>): Option<TokenUsage> {
    match telemetry
    case Some(t) => t.usage
    case None => None
  }

  /** What replaces a reservation: the reported usage at list price, or the worst case when none was reported. */
  function ChargeFor(price: ModelPrice, telemetry: Option<Telemetry>, worstCase: real): real {
    match ReportedUsage(telemetry)
    case Some(usage) => RequestCost(price, usage)
    case None => worstCase
  }

  function Charged(g: Counters, price: ModelPrice, telemetry: Option<Telemetry>, worstCase: real): Counters {
    g.(reserved := Max(g.reserved - worstCase, 0.0),
       spent := g.spent + ChargeFor(price, telemetry, worstCase),
       atWorstCase := g.atWorstCase + if ReportedUsage(telemetry).None? then 1 else 0)
  }

  // -- one turn's reservation ------------------------------------------------

  /** The encoded size of what the server wrote; no token is shorter than one byte. */
  datatype ByteCounts = ByteCounts(text: string -> nat, content: Content -> nat)

  function MessageBytes(messages: seq<Message>, bytes: ByteCounts): nat {
    if messages == [] then 0
    else MessageBytes(messages[..|messages| - 1], bytes)
         + (var m := messages[|messages| - 1]; if m.role != ASSISTANT then bytes.content(m.content) else 0)
  }

  function EarlierTurns(messages: seq<Message>): nat {
    if messages == [] then 0
    else EarlierTurns(messages[..|messages| - 1])
         + if messages[|messages| - 1].role == ASSISTANT then 1 else 0
  }

  function ServerBytes(request: Request, bytes: ByteCounts): nat {
    bytes.text(request.systemInstructions) + bytes.text(request.tools) + MessageBytes(request.messages, bytes)
  }

  /** The shape of a turn that its reservation depends on. */
  datatype Turn = Turn(promptSize: nat, maxOutputTokens: nat)

  function TurnOf(request: Request, bytes: ByteCounts): Turn {
    Turn(ServerBytes(request, bytes) + EarlierTurns(request.messages) * request.maxOutputTokens,
         request.maxOutputTokens)
  }

  function Reservation(price: ModelPrice, turn: Turn): real {
    WorstCaseCost(price, turn.promptSize, turn.maxOutputTokens)
  }

  lemma {:induction false} MessageBytesAddUp(first: seq<Message>, second: seq<Message>, bytes: ByteCounts)
    ensures MessageBytes(first + second, bytes) == MessageBytes(first, bytes) + MessageBytes(second, bytes)
    ensures |second| == 1 ==>
      MessageBytes(second, bytes) == if second[0].role == "assistant" then 0 else bytes.content(second[0].content)
  {
    if second == [] {
      assert first + second == first;
    } else {
      MessageBytesAddUp(first, second[..|second| - 1], bytes);
      assert (first + second)[..|first + second| - 1] == first + second[..|second| - 1];
    }
  }

  lemma {:induction false} EarlierTurnsAreReplies(messages: seq<Message>)
    ensures EarlierTurns(messages) == |set i | 0 <= i < |messages| && messages[i].role == "assistant"|
  {
    if messages != [] {
      var n := |messages| - 1;
      EarlierTurnsAreReplies(messages[..n]);
      var before := set i | 0 <= i < n && messages[..n][i].role == "assistant";
      var all := set i | 0 <= i < |messages| && messages[i].role == "assistant";
      assert all == before + if messages[n].role == "assistant" then {n} else {};
    }
  }

  /** A turn reserves for all that the server wrote, and for a full output for every reply that it resends. */
  lemma TurnsReserveInFull(request: Request, bytes: ByteCounts)
    ensures var replies := set i | 0 <= i < |request.messages| && request.messages[i].role == "assistant";
      TurnOf(request, bytes) == Turn(
        bytes.text(request.systemInstructions) + bytes.text(request.tools) + MessageBytes(request.messages, bytes)
        + |replies| * request.maxOutputTokens, request.maxOutputTokens)
  {
    EarlierTurnsAreReplies(request.messages);
  }

  // -- the guard and the budgeted model --------------------------------------

  /** How the inner model answered one admitted call. */
  datatype Outcome = Replied(reply: Reply) | Raised(error: ModelError)

  function OutcomeTelemetry(outcome: Outcome): Option<Telemetry> {
    match outcome
    case Replied(reply) => reply.telemetry
    case Raised(Defect) => None
    case Raised(e) => e.telemetry
  }

  /** A local refusal: the inner model never sent the request, so its admission is undone. */
  predicate NeverSent(outcome: Outcome) {
    outcome.Raised? && !outcome.error.Defect? && outcome.error.kind == NotConfigured
  }

  function Settled(g: Counters, price: ModelPrice, outcome: Outcome, worstCase: real): Counters {
    if NeverSent(outcome) then Released(g, worstCase)
    else Charged(g, price, OutcomeTelemetry(outcome), worstCase)
  }

  class BudgetGuard {
    const maxRequests: int
    const maxCost: real
    const price: ModelPrice
    var requestsSent: int
    var spent: real
    var reserved: real
    var requestsAtWorstCase: int

    constructor (maxRequests: int, maxCost: real, price: ModelPrice)
      ensures GuardCaps() == Caps(maxRequests, maxCost, price)
      ensures State() == Counters(0, 0.0, 0.0, 0)
    {
      this.maxRequests, this.maxCost, this.price := maxRequests, maxCost, price;
      requestsSent, spent, reserved, requestsAtWorstCase := 0, 0.0, 0.0, 0;
    }

    function GuardCaps(): Caps {
      Caps(maxRequests, maxCost, price)
    }

    function State(): Counters
      reads this
    {
      Counters(requestsSent, spent, reserved, requestsAtWorstCase)
    }

    method Admit(worstCase: real) returns (refusal: Option<Limit>)
      modifies this
      ensures refusal == AdmitRefusal(old(State()), GuardCaps(), worstCase)
      ensures refusal == Some(MaxRequests) <==> old(requestsSent) >= maxRequests
      ensures refusal == Some(MaxCost) <==>
        old(requestsSent) < maxRequests && old(spent) + old(reserved) + worstCase > maxCost
      ensures State() == if refusal.None? then Admitted(old(State()), worstCase) else old(State())
    {
      if requestsSent >= maxRequests {
        return Some(MaxRequests);
      }
      if spent + reserved + worstCase > maxCost {
        return Some(MaxCost);
      }
      requestsSent := requestsSent + 1;
      reserved := reserved + worstCase;
      return None;
    }

    method Release(worstCase: real)
      modifies this
      ensures State() == Released(old(State()), worstCase)
    {
      requestsSent := requestsSent - 1;
      reserved := Max(reserved - worstCase, 0.0);
    }

    method Charge(telemetry: Option<Telemetry>, worstCase: real)
      modifies this
      ensures State() == Charged(old(State()), price, telemetry, worstCase)
    {
      reserved := Max(reserved - worstCase, 0.0);
      if telemetry.None? || telemetry.value.usage.None? {
        requestsAtWorstCase := requestsAtWorstCase + 1;
        spent := spent + worstCase;
      } else {
        spent := spent + RequestCost(price, telemetry.value.usage.value);
      }
    }
  }

  /** The only route to the paid model: admit, call, charge. */
  class BudgetedAgentModel {
    const inner: Request -> Outcome
    const guard: BudgetGuard
    const bytes: ByteCounts

    constructor (inner: Request -> Outcome, guard: BudgetGuard, bytes: ByteCounts)
      ensures this.inner == inner && this.guard == guard && this.bytes == bytes
    {
      this.inner, this.guard, this.bytes := inner, guard, bytes;
    }

    /** One call with no other thread in between; `Interleavings` below covers the others. */
    method Complete(request: Request) returns (outcome: Outcome)
      modifies guard
      ensures
        var worstCase := Reservation(guard.price, TurnOf(request, bytes));
        match AdmitRefusal(old(guard.State()), guard.GuardCaps(), worstCase)
        case Some(_) =>
          outcome == Raised(Failure(BudgetExhausted, None)) && guard.State() == old(guard.State())
        case None =>
          outcome == inner(request)
          && guard.State() == Settled(Admitted(old(guard.State()), worstCase), guard.price, outcome, worstCase)
    {
      var worstCase := Reservation(guard.price, TurnOf(request, bytes));
      var refusal := guard.Admit(worstCase);
      if refusal.Some? {
        return Raised(Failure(BudgetExhausted, None));
      }
      outcome := inner(request);
      match outcome {
        case Raised(Defect) =>
          guard.Charge(None, worstCase);
        case Raised(error) =>
          if error.kind == NotConfigured {
            guard.Release(worstCase);
          } else {
            guard.Charge(error.telemetry, worstCase);
          }
        case Replied(reply) =>
          guard.Charge(reply.telemetry, worstCase);
      }
    }
  }

  /** Alone, a settled call leaves no reservation behind, and a call that was never sent leaves no mark. */
  lemma UninterruptedCallLeavesNoReservation(g: Counters, price: ModelPrice, outcome: Outcome, worstCase: real)
    requires g.reserved >= 0.0
    ensures
      var after := Settled(Admitted(g, worstCase), price, outcome, worstCase);
      && after.reserved == g.reserved
      && (NeverSent(outcome) ==> after == g)
      && (!NeverSent(outcome) ==> after.requestsSent == g.requestsSent + 1)
  {
    assert Admitted(g, worstCase).reserved - worstCase == g.reserved;
  }
}

/** Any number of threads sharing one guard, interleaved at every lock boundary. */
module Interleavings {
  import opened Common
  import opened Pricing
  import opened Provider
  import opened Budget

  /** Where one thread is inside a model turn: outside, waiting for the model, or about to record the turn. */
  datatype Phase = Outside | InFlight(turn: Turn) | Returned(outcome: Outcome)

  datatype Settlement = Settlement(thread: nat, turn: Turn, outcome: Outcome)

  /** `admitted` and `settled` are the logs of what happened; the program itself keeps only the rest. */
  datatype System = System(
    caps: Caps, counters: Counters, threads: seq<Phase>, recordedTurns: nat,
    admitted: seq<nat>, settled: seq<Settlement>)

  datatype Event =
    | Call(thread: nat, turn: Turn)
    | Settle(thread: nat, outcome: Outcome)
    | Record(thread: nat)

  /** The loop records a turn unless the request was refused locally; a timeout is always recorded. */
  predicate RecordsTurn(outcome: Outcome) {
    match outcome
    case Raised(Failure(kind, _)) => kind != NotConfigured && kind != BudgetExhausted
    case _ => true
  }

  function Initial(caps: Caps, threads: nat): System {
    System(caps, Counters(0, 0.0, 0.0, 0), seq(threads, _ => Outside), 0, [], [])
  }

  /** One atomic step of one thread. An event that the thread is not ready for changes nothing. */
  function Step(s: System, e: Event): System {
    if e.thread >= |s.threads| then s
    else match (e, s.threads[e.thread])
      case (Call(t, turn), Outside) =>
        var worstCase := Reservation(s.caps.price, turn);
        if AdmitRefusal(s.counters, s.caps, worstCase).Some? then s
        else s.(counters := Admitted(s.counters, worstCase),
                threads := s.threads[t := InFlight(turn)],
                admitted := s.admitted + [t])
      case (Settle(t, outcome), InFlight(turn)) =>
        s.(counters := Settled(s.counters, s.caps.price, outcome, Reservation(s.caps.price, turn)),
           threads := s.threads[t := Returned(outcome)],
           settled := s.settled + [Settlement(t, turn, outcome)])
      case (Record(t), Returned(outcome)) =>
        s.(threads := s.threads[t := Outside],
           recordedTurns := s.recordedTurns + if RecordsTurn(outcome) then 1 else 0)
      case _ => s
  }

  function Run(s: System, events: seq<Event>): System {
    if events == [] then s else Step(Run(s, events[..|events| - 1]), events[|events| - 1])
  }

  // -- the quantities the invariant relates ----------------------------------

  function ReservedBy(price: ModelPrice, phase: Phase): real {
    if phase.InFlight? then Reservation(price, phase.turn) else 0.0
  }

  function SumReserved(price: ModelPrice, threads: seq<Phase>): real {
    if threads == [] then 0.0
    else SumReserved(price, threads[..|threads| - 1]) + ReservedBy(price, threads[|threads| - 1])
  }

  function CountThreads(threads: seq<Phase>, which: Phase -> bool): nat {
    if threads == [] then 0
    else CountThreads(threads[..|threads| - 1], which) + if which(threads[|threads| - 1]) then 1 else 0
  }

  function CountSettled(settled: seq<Settlement>, which: Outcome -> bool): nat {
    if settled == [] then 0
    else CountSettled(settled[..|settled| - 1], which) + if which(settled[|settled| - 1].outcome) then 1 else 0
  }

  /** What a settlement costs: nothing when the request was never sent. */
  function SettlementCost(price: ModelPrice, x: Settlement): real {
    if NeverSent(x.outcome) then 0.0
    else ChargeFor(price, OutcomeTelemetry(x.outcome), Reservation(price, x.turn))
  }

  function SumSpent(price: ModelPrice, settled: seq<Settlement>): real {
    if settled == [] then 0.0
    else SumSpent(price, settled[..|settled| - 1]) + SettlementCost(price, settled[|settled| - 1])
  }

  /** By how much reported costs exceeded their reservations, over all settlements. */
  function Overrun(price: ModelPrice, settled: seq<Settlement>): real {
    if settled == [] then 0.0
    else
      var x := settled[|settled| - 1];
      Overrun(price, settled[..|settled| - 1])
      + Max(SettlementCost(price, x) - Reservation(price, x.turn), 0.0)
  }

  const InFlightPhase: Phase -> bool := (p: Phase) => p.InFlight?
  const WillRecord: Phase -> bool := (p: Phase) => p.Returned? && RecordsTurn(p.outcome)
  const Sent: Outcome -> bool := (o: Outcome) => !NeverSent(o)
  const Recorded: Outcome -> bool := (o: Outcome) => RecordsTurn(o)

  lemma {:induction false} SumReservedUpdate(price: ModelPrice, threads: seq<Phase>, t: nat, phase: Phase)
    requires t < |threads|
    ensures SumReserved(price, threads[t := phase])
         == SumReserved(price, threads) - ReservedBy(price, threads[t]) + ReservedBy(price, phase)
  {
    var n := |threads| - 1;
    if t < n {
      SumReservedUpdate(price, threads[..n], t, phase);
      assert threads[t := phase][..n] == threads[..n][t := phase];
    } else {
      assert threads[t := phase][..n] == threads[..n];
    }
  }

  lemma {:induction false} CountThreadsUpdate(threads: seq<Phase>, t: nat, phase: Phase, which: Phase -> bool)
    requires t < |threads|
    ensures CountThreads(threads[t := phase], which)
         == CountThreads(threads, which) - (if which(threads[t]) then 1 else 0) + (if which(phase) then 1 else 0)
  {
    var n := |threads| - 1;
    if t < n {
      CountThreadsUpdate(threads[..n], t, phase, which);
      assert threads[t := phase][..n] == threads[..n][t := phase];
    } else {
      assert threads[t := phase][..n] == threads[..n];
    }
  }

  lemma {:induction false} SumReservedIsNonNegative(price: ModelPrice, threads: seq<Phase>)
    requires SanePrice(price)
    ensures SumReserved(price, threads) >= 0.0
    ensures forall t :: 0 <= t < |threads| ==> ReservedBy(price, threads[t]) <= SumReserved(price, threads)
  {
    if threads != [] {
      var n := |threads| - 1;
      SumReservedIsNonNegative(price, threads[..n]);
      ReservationIsNonNegative(price, threads[n]);
      forall t | 0 <= t < |threads| ensures ReservedBy(price, threads[t]) <= SumReserved(price, threads) {
        if t < n {
          assert threads[t] == threads[..n][t];
        }
      }
    }
  }

  lemma ReservationIsNonNegative(price: ModelPrice, phase: Phase)
    requires SanePrice(price)
    ensures ReservedBy(price, phase) >= 0.0
  {
    if phase.InFlight? {
      WorstCaseBoundsRequest(price, TokenUsage(0, 0, 0, 0), phase.turn.promptSize, phase.turn.maxOutputTokens);
    }
  }

  // -- the invariant ---------------------------------------------------------

  /** Threads whose call is admitted and not settled, as the logs see them. */
  ghost predicate EachAdmissionSettlesOnce(s: System) {
    forall t: nat :: AdmissionsSettleOnce(s, t)
  }

  ghost predicate AdmissionsSettleOnce(s: System, t: nat) {
    multiset(s.admitted)[t]
    == multiset(SettledThreads(s.settled))[t] + if t < |s.threads| && s.threads[t].InFlight? then 1 else 0
  }

  function SettledThreads(settled: seq<Settlement>): (threads: seq<nat>)
    ensures |threads| == |settled|
  {
    if settled == [] then [] else SettledThreads(settled[..|settled| - 1]) + [settled[|settled| - 1].thread]
  }

  ghost predicate MoneyBalances(s: System) {
    && s.counters.reserved == SumReserved(s.caps.price, s.threads)
    && s.counters.spent == SumSpent(s.caps.price, s.settled)
    && s.counters.spent + s.counters.reserved <= s.caps.maxCost + Overrun(s.caps.price, s.settled)
  }

  ghost predicate CountsBalance(s: System) {
    && s.counters.requestsSent == CountSettled(s.settled, Sent) + CountThreads(s.threads, InFlightPhase)
    && s.counters.requestsSent <= s.caps.maxRequests
    && s.recordedTurns + CountThreads(s.threads, WillRecord) == CountSettled(s.settled, Recorded)
  }

  ghost predicate Invariant(s: System) {
    EachAdmissionSettlesOnce(s) && MoneyBalances(s) && CountsBalance(s)
  }

  predicate SaneCaps(caps: Caps) {
    caps.maxRequests >= 0 && caps.maxCost >= 0.0 && SanePrice(caps.price)
  }

  ghost predicate AllOutside(threads: seq<Phase>) {
    forall t :: 0 <= t < |threads| ==> threads[t] == Outside
  }

  lemma {:induction false} OutsideThreadsCountNothing(price: ModelPrice, threads: seq<Phase>)
    requires AllOutside(threads)
    ensures SumReserved(price, threads) == 0.0
    ensures CountThreads(threads, InFlightPhase) == 0 && CountThreads(threads, WillRecord) == 0
  {
    if threads != [] {
      OutsideThreadsCountNothing(price, threads[..|threads| - 1]);
    }
  }

  lemma InitialHoldsInvariant(caps: Caps, threads: nat)
    requires SaneCaps(caps)
    ensures Invariant(Initial(caps, threads))
  {
    OutsideThreadsCountNothing(caps.price, Initial(caps, threads).threads);
  }

  lemma {:induction false} OverrunIsNonNegative(price: ModelPrice, settled: seq<Settlement>)
    ensures Overrun(price, settled) >= 0.0
  {
    if settled != [] {
      OverrunIsNonNegative(price, settled[..|settled| - 1]);
    }
  }

  lemma StepKeepsAdmissionsOf(s: System, e: Event, t: nat)
    requires AdmissionsSettleOnce(s, t)
    ensures AdmissionsSettleOnce(Step(s, e), t)
  {
    hide Admitted, Settled, AdmitRefusal, Reservation;
    var s' := Step(s, e);
    if |s'.settled| > |s.settled| {
      assert s'.settled[..|s'.settled| - 1] == s.settled;
      assert SettledThreads(s'.settled) == SettledThreads(s.settled) + [e.thread];
    }
  }

  lemma StepKeepsAdmissions(s: System, e: Event)
    requires EachAdmissionSettlesOnce(s)
    ensures EachAdmissionSettlesOnce(Step(s, e))
  {
    forall t: nat ensures AdmissionsSettleOnce(Step(s, e), t) {
      assert AdmissionsSettleOnce(s, t);
      StepKeepsAdmissionsOf(s, e, t);
    }
  }

  lemma CallKeepsInvariant(s: System, t: nat, turn: Turn)
    requires SaneCaps(s.caps) && MoneyBalances(s) && CountsBalance(s)
    ensures var s' := Step(s, Call(t, turn)); MoneyBalances(s') && CountsBalance(s')
  {
    if t < |s.threads| && s.threads[t].Outside? {
      OverrunIsNonNegative(s.caps.price, s.settled);
      SumReservedUpdate(s.caps.price, s.threads, t, InFlight(turn));
      CountThreadsUpdate(s.threads, t, InFlight(turn), InFlightPhase);
      CountThreadsUpdate(s.threads, t, InFlight(turn), WillRecord);
    }
  }

  lemma SettleKeepsMoney(s: System, t: nat, outcome: Outcome)
    requires SaneCaps(s.caps) && MoneyBalances(s)
    ensures MoneyBalances(Step(s, Settle(t, outcome)))
  {
    hide Reservation, SumReserved, SanePrice;
    if t < |s.threads| && s.threads[t].InFlight? {
      var s' := Step(s, Settle(t, outcome));
      var worstCase := Reservation(s.caps.price, s.threads[t].turn);
      assert s'.settled[..|s'.settled| - 1] == s.settled;
      SumReservedUpdate(s.caps.price, s.threads, t, Returned(outcome));
      SumReservedIsNonNegative(s.caps.price, s'.threads);
      assert s'.counters.reserved == s.counters.reserved - worstCase;
    }
  }

  lemma SettleKeepsCounts(s: System, t: nat, outcome: Outcome)
    requires CountsBalance(s)
    ensures CountsBalance(Step(s, Settle(t, outcome)))
  {
    if t < |s.threads| && s.threads[t].InFlight? {
      var s' := Step(s, Settle(t, outcome));
      assert s'.settled[..|s'.settled| - 1] == s.settled;
      CountThreadsUpdate(s.threads, t, Returned(outcome), InFlightPhase);
      CountThreadsUpdate(s.threads, t, Returned(outcome), WillRecord);
    }
  }

  lemma RecordKeepsInvariant(s: System, t: nat)
    requires MoneyBalances(s) && CountsBalance(s)
    ensures var s' := Step(s, Record(t)); MoneyBalances(s') && CountsBalance(s')
  {
    if t < |s.threads| && s.threads[t].Returned? {
      SumReservedUpdate(s.caps.price, s.threads, t, Outside);
      CountThreadsUpdate(s.threads, t, Outside, InFlightPhase);
      CountThreadsUpdate(s.threads, t, Outside, WillRecord);
    }
  }

  /** Reserved money is the in-flight reservations, and every count balances, after any interleaving. */
  lemma {:induction false} EveryInterleavingKeepsInvariant(caps: Caps, threads: nat, events: seq<Event>)
    requires SaneCaps(caps)
    ensures Run(Initial(caps, threads), events).caps == caps
    ensures Invariant(Run(Initial(caps, threads), events))
  {
    if events == [] {
      InitialHoldsInvariant(caps, threads);
    } else {
      var earlier := events[..|events| - 1];
      EveryInterleavingKeepsInvariant(caps, threads, earlier);
      var s := Run(Initial(caps, threads), earlier);
      StepKeepsAdmissions(s, events[|events| - 1]);
      match events[|events| - 1] {
        case Call(t, turn) => CallKeepsInvariant(s, t, turn);
        case Settle(t, outcome) =>
          SettleKeepsMoney(s, t, outcome);
          SettleKeepsCounts(s, t, outcome);
        case Record(t) => RecordKeepsInvariant(s, t);
      }
    }
  }

  // -- what was spent --------------------------------------------------------

  /** The usage that a reply or a failure carries. */
  function UsageReported(outcome: Outcome): Option<TokenUsage> {
    match outcome
    case Replied(Reply(_, _, _, Some(Telemetry(usage)))) => usage
    case Raised(Timeout(_, Some(Telemetry(usage)))) => usage
    case Raised(Failure(_, Some(Telemetry(usage)))) => usage
    case _ => None
  }

  /** Anything but a failure of the not-configured kind. */
  predicate WasSent(outcome: Outcome) {
    match outcome
    case Raised(Timeout(kind, _)) => kind != NotConfigured
    case Raised(Failure(kind, _)) => kind != NotConfigured
    case _ => true
  }

  /** The list price of all usage that was reported. */
  function ReportedCosts(price: ModelPrice, settled: seq<Settlement>): real {
    if settled == [] then 0.0
    else
      var outcome := settled[|settled| - 1].outcome;
      ReportedCosts(price, settled[..|settled| - 1])
      + if WasSent(outcome) && UsageReported(outcome).Some?
        then RequestCost(price, UsageReported(outcome).value) else 0.0
  }

  /** The worst case of each request that was sent and reported no usage, and how many there are. */
  function UnreportedCosts(price: ModelPrice, settled: seq<Settlement>): real {
    if settled == [] then 0.0
    else
      var x := settled[|settled| - 1];
      UnreportedCosts(price, settled[..|settled| - 1])
      + if WasSent(x.outcome) && UsageReported(x.outcome).None?
        then WorstCaseCost(price, x.turn.promptSize, x.turn.maxOutputTokens) else 0.0
  }

  function UnreportedCount(settled: seq<Settlement>): nat {
    if settled == [] then 0
    else
      var outcome := settled[|settled| - 1].outcome;
      UnreportedCount(settled[..|settled| - 1]) + if WasSent(outcome) && UsageReported(outcome).None? then 1 else 0
  }

  ghost predicate SpentAsReported(s: System) {
    && s.counters.spent == ReportedCosts(s.caps.price, s.settled) + UnreportedCosts(s.caps.price, s.settled)
    && s.counters.atWorstCase == UnreportedCount(s.settled)
  }

  lemma StepKeepsSpentAsReported(s: System, e: Event)
    requires SpentAsReported(s)
    ensures SpentAsReported(Step(s, e))
  {
    hide RequestCost, WorstCaseCost, ReportedCosts, UnreportedCosts, UnreportedCount, AdmitRefusal;
    var s' := Step(s, e);
    if |s'.settled| > |s.settled| {
      var x := s'.settled[|s'.settled| - 1];
      assert s'.settled == s.settled + [x];
      OneMoreSettlement(s.caps.price, s.settled, x);
    }
  }

  lemma OneMoreSettlement(price: ModelPrice, settled: seq<Settlement>, x: Settlement)
    ensures ReportedCosts(price, settled + [x]) == ReportedCosts(price, settled)
      + if WasSent(x.outcome) && UsageReported(x.outcome).Some?
        then RequestCost(price, UsageReported(x.outcome).value) else 0.0
    ensures UnreportedCosts(price, settled + [x]) == UnreportedCosts(price, settled)
      + if WasSent(x.outcome) && UsageReported(x.outcome).None?
        then WorstCaseCost(price, x.turn.promptSize, x.turn.maxOutputTokens) else 0.0
    ensures UnreportedCount(settled + [x]) == UnreportedCount(settled)
      + if WasSent(x.outcome) && UsageReported(x.outcome).None? then 1 else 0
  {
    hide RequestCost, WorstCaseCost, WasSent, UsageReported;
    assert (settled + [x])[..|settled|] == settled;
  }

  /**
   * After any interleaving, spent money is the list price of the reported usage, plus the worst case of each sent
   * request that reported none; and those are counted.
   */
  lemma {:induction false} SpentMoneyIsReportedOrWorstCase(caps: Caps, threads: nat, events: seq<Event>)
    ensures SpentAsReported(Run(Initial(caps, threads), events))
    ensures Run(Initial(caps, threads), events).caps == caps
  {
    hide Step, SpentAsReported;
    if events == [] {
      assert SpentAsReported(Initial(caps, threads)) by { NothingIsSpentAtFirst(caps, threads); }
    } else {
      SpentMoneyIsReportedOrWorstCase(caps, threads, events[..|events| - 1]);
      var s, e := Run(Initial(caps, threads), events[..|events| - 1]), events[|events| - 1];
      StepKeepsSpentAsReported(s, e);
      StepKeepsCaps(s, e);
    }
  }

  lemma NothingIsSpentAtFirst(caps: Caps, threads: nat)
    ensures SpentAsReported(Initial(caps, threads))
  {
  }

  lemma StepKeepsCaps(s: System, e: Event)
    ensures Step(s, e).caps == s.caps
  {
    hide AdmitRefusal, Admitted, Settled;
  }

  // -- the spend bound -------------------------------------------------------

  /** A provider that reports no cache writes and no more tokens than the turn could hold. */
  predicate ReportsWithinTurn(x: Settlement) {
    match ReportedUsage(OutcomeTelemetry(x.outcome))
    case Some(usage) => usage.cacheCreation == 0 && WithinTokenLimits(usage, x.turn.promptSize, x.turn.maxOutputTokens)
    case None => true
  }

  lemma {:induction false} HonestUsageNeverOverruns(price: ModelPrice, settled: seq<Settlement>)
    requires SanePrice(price)
    requires forall x :: x in settled ==> ReportsWithinTurn(x)
    ensures Overrun(price, settled) == 0.0
  {
    if settled != [] {
      var x := settled[|settled| - 1];
      assert ReportsWithinTurn(x);
      HonestUsageNeverOverruns(price, settled[..|settled| - 1]);
      ReservationIsNonNegative(price, InFlight(x.turn));
      if ReportedUsage(OutcomeTelemetry(x.outcome)).Some? {
        WorstCaseBoundsRequest(
          price, ReportedUsage(OutcomeTelemetry(x.outcome)).value, x.turn.promptSize, x.turn.maxOutputTokens);
      }
    }
  }

  /** The caps hold at every moment of every interleaving. */
  lemma SpendStaysWithinCaps(caps: Caps, threads: nat, events: seq<Event>)
    requires SaneCaps(caps)
    requires forall x :: x in Run(Initial(caps, threads), events).settled ==> ReportsWithinTurn(x)
    ensures
      var s := Run(Initial(caps, threads), events);
      && s.counters.requestsSent <= caps.maxRequests
      && s.counters.spent + s.counters.reserved <= caps.maxCost
  {
    EveryInterleavingKeepsInvariant(caps, threads, events);
    HonestUsageNeverOverruns(caps.price, Run(Initial(caps, threads), events).settled);
  }

  // -- traces and the guard agree --------------------------------------------

  /** Counted by the guard and not by a trace: the inner model claims a budget refusal of its own. */
  const OnlySent: Outcome -> bool :=
    (o: Outcome) => o.Raised? && o.error.Failure? && o.error.kind == BudgetExhausted

  /** Counted by a trace and not by the guard: a timeout that claims it was never configured. */
  const OnlyRecorded: Outcome -> bool :=
    (o: Outcome) => o.Raised? && o.error.Timeout? && o.error.kind == NotConfigured

  lemma {:induction false} CountsDifferByTheExceptions(settled: seq<Settlement>)
    ensures CountSettled(settled, Sent) + CountSettled(settled, OnlyRecorded)
         == CountSettled(settled, Recorded) + CountSettled(settled, OnlySent)
  {
    if settled != [] {
      CountsDifferByTheExceptions(settled[..|settled| - 1]);
    }
  }

  lemma {:induction false} NoneCounted(settled: seq<Settlement>, which: Outcome -> bool)
    requires forall i :: 0 <= i < |settled| ==> !which(settled[i].outcome)
    ensures CountSettled(settled, which) == 0
  {
    if settled != [] {
      NoneCounted(settled[..|settled| - 1], which);
    }
  }

  /** With no call in flight, all traces hold as many turns as the guard counts, exactly when the exceptions cancel. */
  lemma RecordedTurnsEqualRequestsSentIff(caps: Caps, threads: nat, events: seq<Event>)
    requires SaneCaps(caps)
    requires AllOutside(Run(Initial(caps, threads), events).threads)
    ensures var s := Run(Initial(caps, threads), events);
      s.recordedTurns == s.counters.requestsSent
      <==> CountSettled(s.settled, OnlySent) == CountSettled(s.settled, OnlyRecorded)
  {
    var s := Run(Initial(caps, threads), events);
    EveryInterleavingKeepsInvariant(caps, threads, events);
    OutsideThreadsCountNothing(caps.price, s.threads);
    CountsDifferByTheExceptions(s.settled);
  }

  /** An inner model that never claims a budget refusal, nor an unconfigured timeout, is counted once in both. */
  lemma RecordedTurnsEqualRequestsSent(caps: Caps, threads: nat, events: seq<Event>)
    requires SaneCaps(caps)
    requires var s := Run(Initial(caps, threads), events);
      && AllOutside(s.threads)
      && forall i :: 0 <= i < |s.settled| ==> !OnlySent(s.settled[i].outcome) && !OnlyRecorded(s.settled[i].outcome)
    ensures var s := Run(Initial(caps, threads), events);
      s.recordedTurns == s.counters.requestsSent
  {
    var s := Run(Initial(caps, threads), events);
    RecordedTurnsEqualRequestsSentIff(caps, threads, events);
    NoneCounted(s.settled, OnlySent);
    NoneCounted(s.settled, OnlyRecorded);
  }

  // -- one history for each exception ----------------------------------------

  const EXAMPLE_CAPS := Caps(1, 1.0, HAIKU)

  function OneCall(outcome: Outcome): seq<Event> {
    [Call(0, Turn(0, 0)), Settle(0, outcome), Record(0)]
  }

  lemma ThreeSteps(s: System, a: Event, b: Event, c: Event)
    ensures Run(s, [a, b, c]) == Step(Step(Step(s, a), b), c)
  {
    hide Step;
    assert [a, b, c][..2] == [a, b] && [a, b][..1] == [a] && [a][..0] == [];
    assert Run(s, []) == s;
    assert Run(s, [a]) == Step(s, a);
    assert Run(s, [a, b]) == Step(Step(s, a), b);
  }

  lemma OneCallGoesThrough(outcome: Outcome)
    ensures var s := Run(Initial(EXAMPLE_CAPS, 1), OneCall(outcome));
      && AllOutside(s.threads)
      && s.recordedTurns == (if RecordsTurn(outcome) then 1 else 0)
      && s.counters.requestsSent == (if NeverSent(outcome) then 0 else 1)
  {
    hide Charged, RequestCost, OutcomeTelemetry, Reservation, RecordsTurn, Run;
    var initial, turn := Initial(EXAMPLE_CAPS, 1), Turn(0, 0);
    ThreeSteps(initial, Call(0, turn), Settle(0, outcome), Record(0));
    EmptyTurnsAreAdmitted();
    var called := Step(initial, Call(0, turn));
    assert called.threads == [InFlight(turn)] && called.counters.requestsSent == 1;
    ChargingKeepsTheCount(called.counters, HAIKU, OutcomeTelemetry(outcome), Reservation(HAIKU, turn));
    var settled := Step(called, Settle(0, outcome));
    assert settled.threads == [Returned(outcome)] && settled.recordedTurns == 0;
  }

  lemma EmptyTurnsAreAdmitted()
    ensures AdmitRefusal(Counters(0, 0.0, 0.0, 0), EXAMPLE_CAPS, Reservation(HAIKU, Turn(0, 0))).None?
  {
    ACacheWriteExceedsItsReservation();
  }

  lemma ChargingKeepsTheCount(g: Counters, price: ModelPrice, telemetry: Option<Telemetry>, worstCase: real)
    ensures Charged(g, price, telemetry, worstCase).requestsSent == g.requestsSent
  {
  }

  /** A budget refusal that the inner model raises itself is charged for, and no trace has it. */
  lemma AnInnerRefusalIsNotRecorded()
    ensures var s := Run(Initial(EXAMPLE_CAPS, 1), OneCall(Raised(Failure(BudgetExhausted, None))));
      AllOutside(s.threads) && s.counters.requestsSent == 1 && s.recordedTurns == 0
  {
    OneCallGoesThrough(Raised(Failure(BudgetExhausted, None)));
  }

  /** A timeout of the not-configured kind is given back, and a trace has it. */
  lemma AnUnconfiguredTimeoutIsNotCounted()
    ensures var s := Run(Initial(EXAMPLE_CAPS, 1), OneCall(Raised(Timeout(NotConfigured, None))));
      AllOutside(s.threads) && s.counters.requestsSent == 0 && s.recordedTurns == 1
  {
    OneCallGoesThrough(Raised(Timeout(NotConfigured, None)));
  }

  /** A reply that reports 1,000 tokens in and 100 out is charged for them, not for the 0.0017 dollars reserved. */
  lemma AReportIsChargedForItself()
    ensures var turn := Turn(10_000, 1_000);
      var reply := Reply([], [], [], Some(Telemetry(Some(TokenUsage(1_000, 100, 0, 0)))));
      var called := Step(Initial(EXAMPLE_CAPS, 1), Call(0, turn));
      var s := Step(called, Settle(0, Replied(reply)));
      && called.counters == Counters(1, 0.0, 0.0017, 0)
      && s.counters == Counters(1, 0.00015, 0.0, 0)
  {
    var usage := TokenUsage(1_000, 100, 0, 0);
    assert RequestCost(HAIKU, usage) == 0.00015 && Reservation(HAIKU, Turn(10_000, 1_000)) == 0.0017;
  }

  /**
   * After any interleaving, a call of a thread that has none under way is admitted exactly when the requests settled as
   * sent and those in flight are below the limit, and all that was spent or is reserved leaves room for its worst case.
   */
  lemma CallsAreAdmittedIff(caps: Caps, threads: nat, events: seq<Event>, thread: nat, turn: Turn)
    requires SaneCaps(caps)
    requires var before := Run(Initial(caps, threads), events).threads;
      thread < |before| && before[thread] == Outside
    ensures var s := Run(Initial(caps, threads), events);
      var requests := CountSettled(s.settled, WasSent) + CountThreads(s.threads, IsUnderWay);
      var money := ReportedCosts(caps.price, s.settled) + UnreportedCosts(caps.price, s.settled)
        + SumReserved(caps.price, s.threads);
      Step(s, Call(thread, turn)).threads[thread] ==
        if requests < caps.maxRequests
           && money + WorstCaseCost(caps.price, turn.promptSize, turn.maxOutputTokens) <= caps.maxCost
        then InFlight(turn) else Outside
  {
    hide RequestCost, WorstCaseCost, SaneCaps;
    var s := Run(Initial(caps, threads), events);
    EveryInterleavingKeepsInvariant(caps, threads, events);
    SpentMoneyIsReportedOrWorstCase(caps, threads, events);
    SettledCountsAgree(s.settled);
    ThreadCountsAgree(s.threads);
  }

  predicate IsUnderWay(phase: Phase) {
    phase.InFlight?
  }

  lemma {:induction false} SettledCountsAgree(settled: seq<Settlement>)
    ensures CountSettled(settled, Sent) == CountSettled(settled, WasSent)
  {
    if settled != [] {
      SettledCountsAgree(settled[..|settled| - 1]);
    }
  }

  lemma {:induction false} ThreadCountsAgree(threads: seq<Phase>)
    ensures CountThreads(threads, InFlightPhase) == CountThreads(threads, IsUnderWay)
  {
    if threads != [] {
      ThreadCountsAgree(threads[..|threads| - 1]);
    }
  }
}
