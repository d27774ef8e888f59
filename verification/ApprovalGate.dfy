/** The approval gate: interactions parked on the user's answer, and the journal rows that let a later
    process re-park what was never answered. A responder channel is the ticket of its park. */
module ApprovalGate {
  import opened Wrappers
  import opened Replay

  datatype Meta = Meta(toolName: string, summary: string, input: Json)

  datatype Response = AllowOnce | Deny | AllowHostSession | AllowHostPersistent | Answered(answers: Json) | Expired | Dismissed

  datatype Parked = Parked(ticket: nat, meta: Meta)

  /** `journal` is the approval rows on the session's chain, `delivered` what each ticket received. */
  datatype GateState = GateState(
    pending: map<string, Parked>,
    sink: bool,
    journal: seq<Row>,
    nextTicket: nat,
    delivered: map<nat, Response>)

  function Verdict(r: Response): string {
    match r
    case AllowOnce => "allow_once"
    case Deny => "deny"
    case AllowHostSession => "allow_host_session"
    case AllowHostPersistent => "allow_host_persistent"
    case Answered(_) => "answered"
    case Expired => "expired"
    case Dismissed => "dismissed"
  }

  function RequestRow(id: string, m: Meta): Row {
    Row("request", id, Obj(map["toolName" := Str(m.toolName), "summary" := Str(m.summary), "input" := m.input]))
  }

  function DecisionRow(id: string, toolName: string, verdict: string): Row {
    Row("decision", id, Obj(map["toolName" := Str(toolName), "verdict" := Str(verdict)]))
  }

  function Register(g: GateState, id: string, m: Meta): GateState {
    g.(pending := g.pending[id := Parked(g.nextTicket, m)], nextTicket := g.nextTicket + 1)
  }

  function RegisterIfAbsent(g: GateState, id: string, m: Meta): GateState {
    if id in g.pending then g else Register(g, id, m)
  }

  /** A card is parked and its request row journaled. */
  function Park(g: GateState, id: string, m: Meta): GateState {
    var g1 := Register(g, id, m);
    g1.(journal := g1.journal + [RequestRow(id, m)])
  }

  function Decide(g: GateState, id: string, verdict: string): GateState
    requires id in g.pending
  {
    g.(pending := g.pending - {id},
       journal := if g.sink then g.journal + [DecisionRow(id, g.pending[id].meta.toolName, verdict)] else g.journal)
  }

  function Respond(g: GateState, id: string, r: Response): GateState {
    if id !in g.pending then g
    else Decide(g, id, Verdict(r)).(delivered := g.delivered[g.pending[id].ticket := r])
  }

  function Discard(g: GateState, id: string): GateState {
    if id !in g.pending then g else Decide(g, id, "cancelled")
  }

  function MetaOf(p: Interaction): Meta {
    Meta(p.toolName, p.summary, p.input)
  }

  /** Restore re-parks every unsettled row that is not already parked. */
  function Repark(g: GateState, parks: seq<Interaction>): GateState {
    if parks == [] then g else
    var p := parks[|parks| - 1];
    RegisterIfAbsent(Repark(g, parks[..|parks| - 1]), p.authId, MetaOf(p))
  }

  class Gate {
    var pending: map<string, Parked>
    var sink: bool
    var journal: seq<Row>
    var nextTicket: nat
    var delivered: map<nat, Response>

    ghost function State(): GateState
      reads this
    {
      GateState(pending, sink, journal, nextTicket, delivered)
    }

    /** A gate over an existing chain; tickets go on where an earlier process stopped. */
    constructor (sink: bool, journal: seq<Row>, nextTicket: nat)
      ensures State() == GateState(map[], sink, journal, nextTicket, map[])
    {
      pending, this.sink, this.journal, this.nextTicket, delivered := map[], sink, journal, nextTicket, map[];
    }

    method RegisterCard(id: string, m: Meta) returns (ticket: nat)
      modifies this
      ensures State() == Register(old(State()), id, m) && ticket == old(nextTicket)
    {
      ticket := nextTicket;
      pending := pending[id := Parked(ticket, m)];
      nextTicket := nextTicket + 1;
    }

    method RegisterCardIfAbsent(id: string, m: Meta) returns (parked: bool)
      modifies this
      ensures State() == RegisterIfAbsent(old(State()), id, m)
      ensures parked <==> id !in old(pending)
    {
      if id in pending { return false; }
      var _ := RegisterCard(id, m);
      return true;
    }

    method JournalDecision(id: string, toolName: string, verdict: string)
      modifies this
      ensures State() == old(State()).(journal := if sink then old(journal) + [DecisionRow(id, toolName, verdict)] else old(journal))
    {
      if !sink { return; }
      journal := journal + [DecisionRow(id, toolName, verdict)];
    }

    method DiscardCard(id: string)
      modifies this
      ensures State() == Discard(old(State()), id)
    {
      if id in pending {
        var card := pending[id];
        pending := pending - {id};
        JournalDecision(id, card.meta.toolName, "cancelled");
      }
    }

    method RespondToCard(id: string, r: Response)
      modifies this
      ensures State() == Respond(old(State()), id, r)
    {
      if id in pending {
        var card := pending[id];
        pending := pending - {id};
        JournalDecision(id, card.meta.toolName, Verdict(r));
        delivered := delivered[card.ticket := r];
      }
    }

    method ReparkUnsettled(parks: seq<Interaction>)
      modifies this
      ensures State() == Repark(old(State()), parks)
    {
      for i := 0 to |parks|
        invariant State() == Repark(old(State()), parks[..i])
      {
        assert parks[..i + 1][..i] == parks[..i];
        var _ := RegisterCardIfAbsent(parks[i].authId, MetaOf(parks[i]));
      }
      assert parks[..|parks|] == parks;
    }
  }

  // ----- runs

  datatype Action =
    | Parks(id: string, meta: Meta)
    | Responds(id: string, response: Response)
    | Discards(id: string)
    | Reopens
    | Restarts

  function Step(g: GateState, a: Action): GateState {
    match a
    case Parks(id, m) => Park(g, id, m)
    case Responds(id, r) => Respond(g, id, r)
    case Discards(id) => Discard(g, id)
    case Reopens => Repark(g, Unsettled(g.journal))
    case Restarts => Repark(g.(pending := map[]), Unsettled(g.journal))
  }

  function Run(g: GateState, acts: seq<Action>): GateState {
    if acts == [] then g else Step(Run(g, acts[..|acts| - 1]), acts[|acts| - 1])
  }

  function NewGate(): GateState {
    GateState(map[], true, [], 0, map[])
  }

  // ----- the pending map as the fold of the journal

  function AsMap(parks: seq<Interaction>): map<string, Meta> {
    if parks == [] then map[] else AsMap(parks[..|parks| - 1])[parks[|parks| - 1].authId := MetaOf(parks[|parks| - 1])]
  }

  function Metas(pending: map<string, Parked>): map<string, Meta> {
    map id | id in pending :: pending[id].meta
  }

  lemma {:induction false} AsMapWithout(parks: seq<Interaction>, id: string)
    ensures AsMap(Without(parks, id)) == AsMap(parks) - {id}
  {
    if parks == [] {
    } else {
      var init, p := parks[..|parks| - 1], parks[|parks| - 1];
      AsMapWithout(init, id);
      UpdateThenRemove(AsMap(init), p.authId, MetaOf(p), id);
    }
  }

  lemma UpdateThenRemove(m: map<string, Meta>, k: string, v: Meta, id: string)
    ensures m[k := v] - {id} == if k == id then m - {id} else (m - {id})[k := v]
  {
  }

  lemma UpdateUnder(a: map<string, Meta>, b: map<string, Meta>, k: string, v: Meta)
    ensures a[k := v] + b == if k in b then a + b else (a + b)[k := v]
  {
  }

  lemma MetasAfterRegister(g: GateState, id: string, m: Meta)
    ensures Metas(RegisterIfAbsent(g, id, m).pending) == if id in Metas(g.pending) then Metas(g.pending) else Metas(g.pending)[id := m]
  {
  }

  lemma RequestRoundTrip(id: string, m: Meta)
    ensures InteractionOf(RequestRow(id, m)) == Interaction(id, m.toolName, m.summary, m.input)
  {
  }

  predicate Distinct(parks: seq<Interaction>) {
    forall i, j :: 0 <= i < j < |parks| ==> parks[i].authId != parks[j].authId
  }

  lemma {:induction false} WithoutDistinct(parks: seq<Interaction>, id: string)
    requires Distinct(parks)
    ensures Distinct(Without(parks, id))
    ensures forall p :: p in Without(parks, id) ==> p in parks && p.authId != id
  {
    if parks == [] {
    } else {
      WithoutDistinct(parks[..|parks| - 1], id);
    }
  }

  lemma {:induction false} UnsettledDistinct(rows: seq<Row>)
    ensures Distinct(Unsettled(rows))
  {
    if rows == [] {
    } else {
      UnsettledDistinct(rows[..|rows| - 1]);
      WithoutDistinct(Unsettled(rows[..|rows| - 1]), rows[|rows| - 1].authId);
    }
  }

  predicate Agrees(g: GateState) {
    g.sink && AsMap(Unsettled(g.journal)) == Metas(g.pending)
  }

  lemma ParkAgrees(g: GateState, id: string, m: Meta)
    requires Agrees(g)
    ensures Agrees(Park(g, id, m))
  {
    var row := RequestRow(id, m);
    var kept, p := Without(Unsettled(g.journal), id), InteractionOf(row);
    UnsettledStep(g.journal, row);
    RequestRoundTrip(id, m);
    assert p.authId == id && MetaOf(p) == m;
    AsMapWithout(Unsettled(g.journal), id);
  }

  lemma DecideAgrees(g: GateState, id: string, verdict: string)
    requires Agrees(g) && id in g.pending
    ensures Agrees(Decide(g, id, verdict))
  {
    UnsettledStep(g.journal, DecisionRow(id, g.pending[id].meta.toolName, verdict));
    AsMapWithout(Unsettled(g.journal), id);
  }

  /** Re-parking distinct rows keeps every live card with its responder and adds exactly the others. */
  lemma {:induction false} ReparkAdds(g: GateState, parks: seq<Interaction>)
    requires Distinct(parks)
    ensures var h := Repark(g, parks);
            && (forall id :: id in g.pending ==> id in h.pending && h.pending[id] == g.pending[id])
            && Metas(h.pending) == AsMap(parks) + Metas(g.pending)
            && h.sink == g.sink && h.journal == g.journal && h.delivered == g.delivered
    decreases |parks|
  {
    if parks == [] {
    } else {
      var init, p := parks[..|parks| - 1], parks[|parks| - 1];
      ReparkAdds(g, init);
      AsMapKeys(init);
      assert p.authId !in AsMap(init);
      MetasAfterRegister(Repark(g, init), p.authId, MetaOf(p));
      UpdateUnder(AsMap(init), Metas(g.pending), p.authId, MetaOf(p));
    }
  }

  lemma {:induction false} AsMapKeys(parks: seq<Interaction>)
    ensures forall id :: id in AsMap(parks) <==> exists i :: 0 <= i < |parks| && parks[i].authId == id
  {
    if parks == [] {
    } else {
      var init := parks[..|parks| - 1];
      AsMapKeys(init);
      forall id ensures id in AsMap(parks) <==> exists i :: 0 <= i < |parks| && parks[i].authId == id {
        if id in AsMap(init) {
          var i :| 0 <= i < |init| && init[i].authId == id;
          assert parks[i].authId == id;
        }
        if i :| 0 <= i < |parks| && parks[i].authId == id {
          if i < |init| { assert init[i].authId == id; }
        }
      }
    }
  }

  lemma StepAgrees(g: GateState, a: Action)
    requires Agrees(g)
    ensures Agrees(Step(g, a))
  {
    match a {
      case Parks(id, m) => ParkAgrees(g, id, m);
      case Responds(id, r) => if id in g.pending { DecideAgrees(g, id, Verdict(r)); }
      case Discards(id) => if id in g.pending { DecideAgrees(g, id, "cancelled"); }
      case Reopens =>
        UnsettledDistinct(g.journal);
        ReparkAdds(g, Unsettled(g.journal));
      case Restarts =>
        UnsettledDistinct(g.journal);
        ReparkAdds(g.(pending := map[]), Unsettled(g.journal));
        assert AsMap(Unsettled(g.journal)) + map[] == AsMap(Unsettled(g.journal));
    }
  }

  /** After any run of parks, verdicts, discards, re-opens and restarts, the unsettled fold of the
      journal is exactly the gate's pending map. */
  lemma {:induction false} GateAndJournalAgree(acts: seq<Action>)
    ensures Agrees(Run(NewGate(), acts))
  {
    if acts == [] {
    } else {
      GateAndJournalAgree(acts[..|acts| - 1]);
      StepAgrees(Run(NewGate(), acts[..|acts| - 1]), acts[|acts| - 1]);
    }
  }

  /** After any run, a re-open on the live gate displaces no card and adds none, and a fresh gate
      re-parked from the journal holds the same cards. */
  lemma RestoreKeepsCards(acts: seq<Action>)
    ensures var g := Run(NewGate(), acts);
            && Step(g, Reopens).pending == g.pending
            && Metas(Step(g, Restarts).pending) == Metas(g.pending)
  {
    GateAndJournalAgree(acts);
    var g := Run(NewGate(), acts);
    ReopenKeepsCards(g);
    StepAgrees(g, Restarts);
    UnsettledDistinct(g.journal);
    ReparkAdds(g.(pending := map[]), Unsettled(g.journal));
  }

  lemma ReopenKeepsCards(g: GateState)
    requires Agrees(g)
    ensures Step(g, Reopens).pending == g.pending
  {
    UnsettledDistinct(g.journal);
    ReparkAdds(g, Unsettled(g.journal));
    var h := Repark(g, Unsettled(g.journal));
    forall id | id in h.pending ensures id in g.pending {
      assert id in Metas(h.pending);
    }
  }

  // ----- one decision per park

  /** Row `j` decides a request of its id that nothing in between has settled. */
  ghost predicate Answers(rows: seq<Row>, i: nat, j: nat) {
    && i < j < |rows|
    && rows[i].kind == "request" && rows[i].authId == rows[j].authId
    && forall k :: i < k < j && rows[k].authId == rows[j].authId ==> !Settles(rows[k])
  }

  ghost predicate DecidedOnce(rows: seq<Row>) {
    forall j :: 0 <= j < |rows| && rows[j].kind == "decision" ==> exists i :: Answers(rows, i, j)
  }

  lemma {:induction false} SurvivorIndex(rows: seq<Row>, n: nat, id: string) returns (i: nat)
    requires n <= |rows| && id in AsMap(Survivors(rows, n))
    ensures i < n && Survives(rows, i) && rows[i].authId == id
  {
    assert n > 0;
    var earlier := Survivors(rows, n - 1);
    if Survives(rows, n - 1) && rows[n - 1].authId == id {
      i := n - 1;
    } else {
      i := SurvivorIndex(rows, n - 1, id);
    }
  }

  lemma AppendDecidedOnce(rows: seq<Row>, r: Row)
    requires DecidedOnce(rows)
    requires r.kind == "decision" ==> exists i :: 0 <= i < |rows| && Survives(rows, i) && rows[i].authId == r.authId
    ensures DecidedOnce(rows + [r])
  {
    var longer := rows + [r];
    assert forall k :: 0 <= k < |rows| ==> longer[k] == rows[k];
    forall j | 0 <= j < |longer| && longer[j].kind == "decision" ensures exists i :: Answers(longer, i, j) {
      if j < |rows| {
        var i :| Answers(rows, i, j);
        assert Answers(longer, i, j);
      } else {
        var i :| 0 <= i < |rows| && Survives(rows, i) && rows[i].authId == r.authId;
        assert Answers(longer, i, j);
      }
    }
  }

  /** In every run each decision row answers a request that no earlier decision or replacement had
      settled: a park gets at most one decision row. */
  lemma {:induction false} EveryParkIsDecidedOnce(acts: seq<Action>)
    ensures DecidedOnce(Run(NewGate(), acts).journal)
  {
    if acts == [] {
    } else {
      var init, a := acts[..|acts| - 1], acts[|acts| - 1];
      EveryParkIsDecidedOnce(init);
      GateAndJournalAgree(init);
      var g := Run(NewGate(), init);
      match a {
        case Parks(id, m) => AppendDecidedOnce(g.journal, RequestRow(id, m));
        case Responds(id, r) => DecideOnce(g, id, Verdict(r));
        case Discards(id) => DecideOnce(g, id, "cancelled");
        case Reopens =>
          UnsettledDistinct(g.journal);
          ReparkAdds(g, Unsettled(g.journal));
        case Restarts =>
          UnsettledDistinct(g.journal);
          ReparkAdds(g.(pending := map[]), Unsettled(g.journal));
      }
    }
  }

  lemma DecideOnce(g: GateState, id: string, verdict: string)
    requires Agrees(g) && DecidedOnce(g.journal)
    ensures id in g.pending ==> DecidedOnce(Decide(g, id, verdict).journal)
  {
    if id in g.pending {
      UnsettledAreTheSurvivors(g.journal);
      assert id in Metas(g.pending);
      var i := SurvivorIndex(g.journal, |g.journal|, id);
      AppendDecidedOnce(g.journal, DecisionRow(id, g.pending[id].meta.toolName, verdict));
    }
  }

  // ----- delivery

  /** Tickets in use are distinct, issued, and still unanswered. */
  predicate TicketsOk(g: GateState) {
    && (forall id :: id in g.pending ==> g.pending[id].ticket < g.nextTicket && g.pending[id].ticket !in g.delivered)
    && (forall a, b :: a in g.pending && b in g.pending && a != b ==> g.pending[a].ticket != g.pending[b].ticket)
    && (forall t :: t in g.delivered ==> t < g.nextTicket)
  }

  lemma {:induction false} ReparkTickets(g: GateState, parks: seq<Interaction>)
    requires TicketsOk(g)
    ensures TicketsOk(Repark(g, parks)) && Repark(g, parks).delivered == g.delivered
    decreases |parks|
  {
    if parks == [] {
    } else {
      ReparkTickets(g, parks[..|parks| - 1]);
    }
  }

  lemma StepTickets(g: GateState, a: Action)
    requires TicketsOk(g)
    ensures TicketsOk(Step(g, a))
    ensures forall t :: t in g.delivered ==> t in Step(g, a).delivered && Step(g, a).delivered[t] == g.delivered[t]
  {
    match a {
      case Reopens => ReparkTickets(g, Unsettled(g.journal));
      case Restarts => ReparkTickets(g.(pending := map[]), Unsettled(g.journal));
      case _ =>
    }
  }

  /** The first settle wins: whatever a responder received, no later action of any run changes. */
  lemma {:induction false} DeliveryIsFinal(g: GateState, acts: seq<Action>)
    requires TicketsOk(g)
    ensures TicketsOk(Run(g, acts))
    ensures forall t :: t in g.delivered ==> t in Run(g, acts).delivered && Run(g, acts).delivered[t] == g.delivered[t]
  {
    if acts == [] {
    } else {
      DeliveryIsFinal(g, acts[..|acts| - 1]);
      StepTickets(Run(g, acts[..|acts| - 1]), acts[|acts| - 1]);
    }
  }
}
