/** Waking: which sources to refresh under an observation budget, what the refreshes leave
    uncertain, and whether the runtime ends up oriented. Quantities are exact reals. */
module Continuity {
  import opened Basics
  import opened Sequences

  datatype Source = Source(id: string, confidence: real, hazard: real, cost: real, cursor: string, observedAt: int)

  datatype Demand = Demand(source: string, relevance: real, sensitivity: real, requiredFreshness: real, requiredConfidence: real)
  {
    predicate WellFormed() {
      0.0 <= relevance <= 1.0 && 0.0 <= sensitivity <= 1.0 && 0.0 < requiredFreshness <= 1.0 && 0.0 < requiredConfidence <= 1.0
    }

    function Importance(): real { relevance * sensitivity }
  }

  datatype Budget = Budget(maxCost: real, maxSources: nat)

  function Positive(x: real): real { if x < 0.0 then 0.0 else x }

  // ---------------------------------------------------------------- coverage

  datatype Entry = Entry(source: string, confidence: real, freshness: real, demand: Demand)
  {
    predicate WellFormed() { 0.0 <= confidence <= 1.0 && 0.0 <= freshness <= 1.0 && demand.WellFormed() }

    function FreshnessGap(): real
      requires demand.WellFormed()
    {
      Positive(1.0 - freshness / demand.requiredFreshness)
    }

    function ConfidenceGap(): real
      requires demand.WellFormed()
    {
      Positive(1.0 - confidence / demand.requiredConfidence)
    }

    function WeightedUncertainty(): real
      requires demand.WellFormed()
    {
      demand.Importance() * (1.0 - (1.0 - FreshnessGap()) * (1.0 - ConfidenceGap()))
    }

    predicate Sufficient() { freshness >= demand.requiredFreshness && confidence >= demand.requiredConfidence }

    predicate Relevant(floor: real) { demand.Importance() >= floor }

    predicate IsGap(floor: real) { Relevant(floor) && !Sufficient() }
  }

  /** What the worker knows of its sources: states and demands by id, and current freshness. */
  datatype Picture = Picture(states: map<string, Source>, demands: map<string, Demand>, freshness: map<string, real>)
  {
    predicate WellFormed() {
      && (forall id :: id in states ==> states[id].id == id && 0.0 <= states[id].confidence <= 1.0 && states[id].cost >= 0.0)
      && (forall id :: id in demands ==> id in states && id in freshness && demands[id].source == id && demands[id].WellFormed())
      && (forall id :: id in freshness ==> 0.0 <= freshness[id] <= 1.0)
    }

    function EntryFor(id: string): Entry
      requires WellFormed() && id in demands
    {
      Entry(id, states[id].confidence, freshness[id], demands[id])
    }

    predicate GapAt(id: string, floor: real)
      requires WellFormed()
    {
      id in demands && EntryFor(id).IsGap(floor)
    }

    /** What one source adds to the uncertainty of the coverage. */
    function UncertaintyAt(id: string, floor: real): real
      requires WellFormed()
    {
      if id in demands && EntryFor(id).Relevant(floor) then EntryFor(id).WeightedUncertainty() else 0.0
    }
  }

  ghost predicate Listing(ids: seq<string>, keys: set<string>) { Elements(ids) == keys && Ascending(TextLess, ids) }

  /** Coverage entries in the order of their source ids. */
  function Entries(p: Picture, ids: seq<string>): seq<Entry>
    requires p.WellFormed() && forall i :: 0 <= i < |ids| ==> ids[i] in p.demands
  {
    seq(|ids|, i requires 0 <= i < |ids| => p.EntryFor(ids[i]))
  }

  function TotalUncertainty(p: Picture, ids: seq<string>, floor: real): real
    requires p.WellFormed()
  {
    if ids == [] then 0.0 else TotalUncertainty(p, ids[..|ids| - 1], floor) + p.UncertaintyAt(ids[|ids| - 1], floor)
  }

  predicate CoverageSufficient(p: Picture, ids: seq<string>, floor: real)
    requires p.WellFormed()
  {
    forall i :: 0 <= i < |ids| ==> !p.GapAt(ids[i], floor)
  }

  // ---------------------------------------------------------------- the plan

  /** How much a refresh of this source would be worth. */
  function RefreshNeed(state: Source, demand: Demand, freshness: real): real
    requires demand.WellFormed()
  {
    var freshnessGap := Positive(1.0 - freshness / demand.requiredFreshness);
    var confidenceGap := Positive(1.0 - state.confidence / demand.requiredConfidence);
    demand.Importance() * (1.0 - (1.0 - freshnessGap) * (1.0 - confidenceGap))
  }

  function NeedOf(p: Picture, id: string): real
    requires p.WellFormed()
  {
    if id in p.demands then RefreshNeed(p.states[id], p.demands[id], p.freshness[id]) else 0.0
  }

  datatype Disposition = Refresh | AcceptExisting | Defer | MarkUncertain
  datatype Decision = Decision(source: string, disposition: Disposition, need: real)

  const SMALLEST_COST := 0.000000000001

  function Worth(p: Picture, id: string): real
    requires p.WellFormed() && id in p.states
  {
    NeedOf(p, id) / (if p.states[id].cost > SMALLEST_COST then p.states[id].cost else SMALLEST_COST)
  }

  /** Most need per cost first, then most need, then the id. */
  predicate Sooner(p: Picture, a: string, b: string)
    requires p.WellFormed() && a in p.states && b in p.states
  {
    || Worth(p, a) > Worth(p, b)
    || (Worth(p, a) == Worth(p, b) && (NeedOf(p, a) > NeedOf(p, b) || (NeedOf(p, a) == NeedOf(p, b) && TextLess(a, b))))
  }

  function Order(p: Picture): (string, string) -> bool {
    (a, b) => p.WellFormed() && a in p.states && b in p.states && Sooner(p, a, b)
  }

  function Candidates(p: Picture, ids: seq<string>, floor: real): seq<string>
    requires p.WellFormed()
  {
    SortUnique(Order(p), Select(ids, id => p.WellFormed() && p.GapAt(id, floor)))
  }

  datatype Selection = Selection(selected: set<string>, remaining: real)

  predicate Takes(p: Picture, budget: Budget, s: Selection, id: string) {
    id in p.states && |s.selected| < budget.maxSources && p.states[id].cost <= s.remaining
  }

  /** The greedy pass over the candidates, best first. */
  function Chosen(p: Picture, budget: Budget, candidates: seq<string>): Selection {
    if candidates == [] then Selection({}, budget.maxCost)
    else
      var before, id := Chosen(p, budget, candidates[..|candidates| - 1]), candidates[|candidates| - 1];
      if Takes(p, budget, before, id) then Selection(before.selected + {id}, before.remaining - p.states[id].cost) else before
  }

  function DecisionFor(p: Picture, floor: real, selected: set<string>, id: string): Decision
    requires p.WellFormed()
  {
    Decision(id,
             if id in selected then Refresh
             else if id !in p.demands || !p.EntryFor(id).Relevant(floor) then AcceptExisting
             else if p.EntryFor(id).Sufficient() then AcceptExisting
             else Defer,
             NeedOf(p, id))
  }

  datatype RefreshPlan = RefreshPlan(decisions: seq<Decision>, cost: real)

  function PlanFor(p: Picture, ids: seq<string>, floor: real, budget: Budget): RefreshPlan
    requires p.WellFormed()
  {
    var chosen := Chosen(p, budget, Candidates(p, ids, floor));
    RefreshPlan(seq(|ids|, i requires 0 <= i < |ids| => DecisionFor(p, floor, chosen.selected, ids[i])), budget.maxCost - chosen.remaining)
  }

  function CostOf(p: Picture, ids: seq<string>, selected: set<string>): real {
    if ids == [] then 0.0
    else
      var id := ids[|ids| - 1];
      CostOf(p, ids[..|ids| - 1], selected) + if id in selected && id in p.states then p.states[id].cost else 0.0
  }

  // ---------------------------------------------------------------- what a plan guarantees

  /** The planner's need and the coverage's uncertainty, defined apart, are one quantity. */
  lemma NeedIsUncertainty(p: Picture, id: string)
    requires p.WellFormed() && id in p.demands
    ensures NeedOf(p, id) == p.EntryFor(id).WeightedUncertainty()
  {
  }

  lemma GapUnit(have: real, want: real)
    requires 0.0 <= have && 0.0 < want
    ensures 0.0 <= Positive(1.0 - have / want) <= 1.0
    ensures have >= want ==> Positive(1.0 - have / want) == 0.0
  {
    assert have / want >= 0.0;
    if have >= want { assert have / want >= 1.0; }
  }

  lemma UncertaintyUnit(importance: real, freshnessGap: real, confidenceGap: real, need: real)
    requires 0.0 <= importance <= 1.0 && 0.0 <= freshnessGap <= 1.0 && 0.0 <= confidenceGap <= 1.0
    requires need == importance * (1.0 - (1.0 - freshnessGap) * (1.0 - confidenceGap))
    ensures 0.0 <= need <= 1.0 && (freshnessGap == 0.0 == confidenceGap ==> need == 0.0)
  {
    UnitProduct(1.0 - freshnessGap, 1.0 - confidenceGap);
    UnitProduct(importance, 1.0 - (1.0 - freshnessGap) * (1.0 - confidenceGap));
  }

  lemma NeedOfDemand(state: Source, demand: Demand, freshness: real, freshnessGap: real, confidenceGap: real)
    requires demand.WellFormed() && 0.0 <= freshnessGap <= 1.0 && 0.0 <= confidenceGap <= 1.0
    requires freshnessGap == Positive(1.0 - freshness / demand.requiredFreshness)
    requires confidenceGap == Positive(1.0 - state.confidence / demand.requiredConfidence)
    ensures 0.0 <= RefreshNeed(state, demand, freshness) <= 1.0
    ensures freshnessGap == 0.0 == confidenceGap ==> RefreshNeed(state, demand, freshness) == 0.0
  {
    hide Positive;
    UnitProduct(demand.relevance, demand.sensitivity);
    UncertaintyUnit(demand.Importance(), freshnessGap, confidenceGap, RefreshNeed(state, demand, freshness));
  }

  /** A need stays in the unit interval, so recording it never raises, and a sufficient source
      has none. */
  lemma NeedUnit(p: Picture, id: string)
    requires p.WellFormed()
    ensures 0.0 <= NeedOf(p, id) <= 1.0
    ensures id in p.demands && p.EntryFor(id).Sufficient() ==> NeedOf(p, id) == 0.0
  {
    hide RefreshNeed;
    if id in p.demands {
      var e := p.EntryFor(id);
      GapUnit(e.freshness, e.demand.requiredFreshness);
      GapUnit(e.confidence, e.demand.requiredConfidence);
      NeedOfDemand(p.states[id], p.demands[id], p.freshness[id], e.FreshnessGap(), e.ConfidenceGap());
    }
  }

  lemma {:induction false} ChosenAreCandidates(p: Picture, budget: Budget, candidates: seq<string>)
    requires p.WellFormed() && budget.maxCost >= 0.0 && Distinct(candidates)
    ensures var c := Chosen(p, budget, candidates);
            && c.selected <= Elements(candidates) && |c.selected| <= budget.maxSources && 0.0 <= c.remaining <= budget.maxCost
            && budget.maxCost - c.remaining == CostOf(p, candidates, c.selected)
  {
    if candidates != [] {
      var n := |candidates| - 1;
      ChosenAreCandidates(p, budget, candidates[..n]);
      var before := Chosen(p, budget, candidates[..n]);
      assert candidates == candidates[..n] + [candidates[n]];
      assert candidates[n] !in candidates[..n];
      CostIgnores(p, candidates[..n], before.selected, candidates[n]);
    }
  }

  lemma {:induction false} CostIgnores(p: Picture, ids: seq<string>, selected: set<string>, id: string)
    requires id !in ids
    ensures CostOf(p, ids, selected + {id}) == CostOf(p, ids, selected)
  {
    if ids != [] {
      assert ids == ids[..|ids| - 1] + [ids[|ids| - 1]];
      CostIgnores(p, ids[..|ids| - 1], selected, id);
    }
  }

  lemma CandidatesAreGaps(p: Picture, ids: seq<string>, floor: real)
    requires p.WellFormed() && forall i :: 0 <= i < |ids| ==> ids[i] in p.states
    ensures var c := Candidates(p, ids, floor);
            && Distinct(c) && Ascending(Order(p), c)
            && forall id :: id in c <==> id in ids && p.GapAt(id, floor)
  {
    var keep := (id: string) => p.WellFormed() && p.GapAt(id, floor);
    var gaps := Select(ids, keep);
    forall id ensures id in gaps <==> id in ids && p.GapAt(id, floor) { SelectMembers(ids, keep, id); }
    SoonerOrders(p, Elements(gaps));
    SortElements(Order(p), gaps);
    SortAscending(Order(p), gaps);
    var c := Candidates(p, ids, floor);
    assert forall id :: id in c <==> id in Elements(c);
    forall i, j | 0 <= i < j < |c| ensures c[i] != c[j] {
      assert c[i] in Elements(c) && Order(p)(c[i], c[j]);
    }
  }

  lemma SoonerOrders(p: Picture, ids: set<string>)
    requires p.WellFormed() && forall id :: id in ids ==> id in p.states
    ensures Orders(Order(p), ids)
  {
    hide Worth, NeedOf;
    forall a | a in ids ensures !Order(p)(a, a) { TextTotal(a, a); }
    forall a, b | a in ids && b in ids && a != b ensures Order(p)(a, b) || Order(p)(b, a) { TextTotal(a, b); }
    forall a, b, c | a in ids && b in ids && c in ids && Order(p)(a, b) && Order(p)(b, c) ensures Order(p)(a, c) {
      if TextLess(a, b) && TextLess(b, c) { TextTransitive(a, b, c); }
    }
  }

  ghost predicate Lists(p: Picture, ids: seq<string>) { Listing(ids, p.states.Keys) }

  lemma ListsStates(p: Picture, ids: seq<string>)
    requires Lists(p, ids)
    ensures forall id :: id in ids <==> id in p.states
    ensures Distinct(ids)
  {
    assert forall id :: id in ids <==> id in Elements(ids);
    forall i, j | 0 <= i < j < |ids| ensures ids[i] != ids[j] { TextTotal(ids[i], ids[j]); }
  }

  /** The sources a plan refreshes or defers are exactly the gaps of the coverage. */
  lemma PlanCoversTheGaps(p: Picture, ids: seq<string>, floor: real, budget: Budget, i: nat)
    requires p.WellFormed() && Lists(p, ids) && i < |ids| && budget.maxCost >= 0.0
    ensures var d := PlanFor(p, ids, floor, budget).decisions[i];
            && d.source == ids[i] && d.need == NeedOf(p, ids[i])
            && (d.disposition in {Refresh, Defer} <==> p.GapAt(ids[i], floor)) && d.disposition != MarkUncertain
            && (d.disposition in {Refresh, Defer} ==> d.need == p.EntryFor(ids[i]).WeightedUncertainty())
  {
    ListsStates(p, ids);
    if ids[i] in p.demands { NeedIsUncertainty(p, ids[i]); }
    CandidatesAreGaps(p, ids, floor);
    ChosenAreCandidates(p, budget, Candidates(p, ids, floor));
    assert forall id :: id in Candidates(p, ids, floor) <==> id in Elements(Candidates(p, ids, floor));
  }

  /** A plan costs what its refreshes cost together, no more than the budget, and refreshes no
      more sources than allowed. */
  lemma PlanStaysInBudget(p: Picture, ids: seq<string>, floor: real, budget: Budget)
    requires p.WellFormed() && Lists(p, ids) && budget.maxCost >= 0.0
    ensures var plan, chosen := PlanFor(p, ids, floor, budget), Chosen(p, budget, Candidates(p, ids, floor));
            && 0.0 <= plan.cost <= budget.maxCost && |chosen.selected| <= budget.maxSources
            && plan.cost == CostOf(p, Candidates(p, ids, floor), chosen.selected)
            && chosen.selected == set i | 0 <= i < |ids| && plan.decisions[i].disposition == Refresh :: ids[i]
  {
    ListsStates(p, ids);
    CandidatesAreGaps(p, ids, floor);
    var candidates := Candidates(p, ids, floor);
    ChosenAreCandidates(p, budget, candidates);
    var chosen := Chosen(p, budget, candidates);
    forall id | id in chosen.selected ensures exists i :: 0 <= i < |ids| && ids[i] == id {
      assert id in Elements(candidates) && id in candidates && id in ids;
    }
  }

  lemma {:induction false} ChosenShrinks(p: Picture, budget: Budget, candidates: seq<string>, n: nat)
    requires p.WellFormed() && n <= |candidates|
    ensures Chosen(p, budget, candidates[..n]).selected <= Chosen(p, budget, candidates).selected
    ensures |Chosen(p, budget, candidates[..n]).selected| <= |Chosen(p, budget, candidates).selected|
    ensures Chosen(p, budget, candidates).remaining <= Chosen(p, budget, candidates[..n]).remaining
    decreases |candidates|
  {
    if n == |candidates| {
      assert candidates[..n] == candidates;
    } else {
      var m := |candidates| - 1;
      ChosenShrinks(p, budget, candidates[..m], n);
      assert candidates[..m][..n] == candidates[..n];
      var before, id := Chosen(p, budget, candidates[..m]).selected, candidates[m];
      Larger(before, before + {id});
    }
  }

  lemma Larger(a: set<string>, b: set<string>)
    requires a <= b
    ensures |a| <= |b|
  {
    assert b == a + (b - a);
  }

  lemma {:induction false} SelectedEarlier(p: Picture, budget: Budget, candidates: seq<string>, i: nat)
    requires p.WellFormed() && Distinct(candidates) && i < |candidates|
    ensures candidates[i] in Chosen(p, budget, candidates).selected <==>
            Takes(p, budget, Chosen(p, budget, candidates[..i]), candidates[i])
    decreases |candidates|
  {
    var n := |candidates| - 1;
    OnlySeen(p, budget, candidates[..n]);
    if i < n {
      SelectedEarlier(p, budget, candidates[..n], i);
      assert candidates[..n][..i] == candidates[..i];
    } else {
      assert candidates[n] !in candidates[..n];
    }
  }

  lemma {:induction false} OnlySeen(p: Picture, budget: Budget, candidates: seq<string>)
    requires p.WellFormed()
    ensures forall id :: id in Chosen(p, budget, candidates).selected ==> id in candidates
  {
    if candidates != [] {
      OnlySeen(p, budget, candidates[..|candidates| - 1]);
      assert candidates == candidates[..|candidates| - 1] + [candidates[|candidates| - 1]];
    }
  }

  /** A gap is deferred only when the plan is full or the source costs more than is left at the
      end; and never in favour of a later candidate that costs as much or more. */
  lemma DeferralIsForced(p: Picture, budget: Budget, candidates: seq<string>, i: nat, j: nat)
    requires p.WellFormed() && Distinct(candidates) && i < j < |candidates|
    requires forall k :: 0 <= k < |candidates| ==> candidates[k] in p.states
    requires candidates[i] !in Chosen(p, budget, candidates).selected
    ensures var chosen := Chosen(p, budget, candidates);
            && (|chosen.selected| >= budget.maxSources || p.states[candidates[i]].cost > chosen.remaining)
            && (candidates[j] in chosen.selected ==> p.states[candidates[j]].cost < p.states[candidates[i]].cost)
  {
    SelectedEarlier(p, budget, candidates, i);
    SelectedEarlier(p, budget, candidates, j);
    ChosenShrinks(p, budget, candidates, i);
    ChosenShrinks(p, budget, candidates[..j], i);
    assert candidates[..j][..i] == candidates[..i];
  }

  // ---------------------------------------------------------------- waking

  datatype Adapter = Adapter(hazard: real, cost: real, available: bool, cursor: string)

  datatype Fate = NotTried | Absent | Failed | Done

  function FateOf(adapters: map<string, Adapter>, d: Decision): Fate {
    if d.disposition != Refresh then NotTried
    else if d.source !in adapters then Absent
    else if !adapters[d.source].available then Failed
    else Done
  }

  /** The adapter of a source must have been configured like its canonical state. */
  predicate Matches(p: Picture, adapters: map<string, Adapter>, d: Decision) {
    FateOf(adapters, d) in {Failed, Done} ==>
      d.source in p.states && adapters[d.source].hazard == p.states[d.source].hazard && adapters[d.source].cost == p.states[d.source].cost
  }

  function Outcome(adapters: map<string, Adapter>, d: Decision): Decision {
    if FateOf(adapters, d) in {Absent, Failed} then d.(disposition := MarkUncertain) else d
  }

  function Refreshed(state: Source, adapter: Adapter, at: int): Source {
    state.(observedAt := at, cursor := adapter.cursor, confidence := 1.0)
  }

  datatype Waking = Waking(decisions: seq<Decision>, refreshed: seq<string>, unavailable: seq<string>, cost: real, picture: Picture)

  function WakeStep(adapters: map<string, Adapter>, w: Waking, d: Decision, at: int): Waking {
    match FateOf(adapters, d)
    case NotTried => w.(decisions := w.decisions + [d])
    case Absent => w.(decisions := w.decisions + [d.(disposition := MarkUncertain)], unavailable := w.unavailable + [d.source])
    case Failed =>
      w.(decisions := w.decisions + [d.(disposition := MarkUncertain)], unavailable := w.unavailable + [d.source],
         cost := w.cost + adapters[d.source].cost)
    case Done =>
      Waking(w.decisions + [d], w.refreshed + [d.source], w.unavailable, w.cost + adapters[d.source].cost,
             AfterRefresh(w.picture, d.source, adapters[d.source], at))
  }

  function AfterRefresh(p: Picture, id: string, adapter: Adapter, at: int): Picture {
    if id in p.states then p.(states := p.states[id := Refreshed(p.states[id], adapter, at)], freshness := p.freshness[id := 1.0])
    else p
  }

  function Wakes(p: Picture, adapters: map<string, Adapter>, decisions: seq<Decision>, at: int): Waking {
    if decisions == [] then Waking([], [], [], 0.0, p)
    else WakeStep(adapters, Wakes(p, adapters, decisions[..|decisions| - 1], at), decisions[|decisions| - 1], at)
  }

  datatype Status = Oriented | Incomplete

  function StatusOf(p: Picture, ids: seq<string>, floor: real): Status
    requires p.WellFormed()
  {
    if CoverageSufficient(p, ids, floor) then Oriented else Incomplete
  }

  ghost predicate DecisionsFor(p: Picture, ids: seq<string>, decisions: seq<Decision>) {
    && |decisions| == |ids| && Distinct(ids)
    && forall i :: 0 <= i < |ids| ==> decisions[i].source == ids[i] && ids[i] in p.states
                                      && (decisions[i].disposition == Refresh ==> ids[i] in p.demands)
  }

  /** q is p with exactly these sources refreshed, to full confidence and freshness. */
  ghost predicate IsRefreshed(p: Picture, q: Picture, refreshed: seq<string>) {
    && q.demands == p.demands && q.states.Keys == p.states.Keys && q.freshness.Keys == p.freshness.Keys
    && (forall id :: id in p.states && id !in refreshed ==> q.states[id] == p.states[id])
    && (forall id :: id in p.freshness && id !in refreshed ==> q.freshness[id] == p.freshness[id])
    && (forall id :: id in refreshed ==> id in p.demands && id in p.states && id in p.freshness)
    && (forall id :: id in refreshed ==> q.states[id] == q.states[id].(id := id, confidence := 1.0, cost := p.states[id].cost))
    && (forall id :: id in refreshed ==> q.freshness[id] == 1.0)
  }

  lemma RefreshedOneMore(p: Picture, q: Picture, refreshed: seq<string>, id: string, adapter: Adapter, at: int)
    requires p.WellFormed() && IsRefreshed(p, q, refreshed) && id in p.demands && id !in refreshed
    ensures IsRefreshed(p, AfterRefresh(q, id, adapter, at), refreshed + [id])
  {
    assert forall x :: x in refreshed + [id] <==> x in refreshed || x == id;
  }

  lemma RefreshedWellFormed(p: Picture, q: Picture, refreshed: seq<string>)
    requires p.WellFormed() && IsRefreshed(p, q, refreshed)
    ensures q.WellFormed()
  {
    forall id | id in q.states ensures q.states[id].id == id && 0.0 <= q.states[id].confidence <= 1.0 && q.states[id].cost >= 0.0 {
      assert id in p.states;
    }
    forall id | id in q.freshness ensures 0.0 <= q.freshness[id] <= 1.0 {
      assert id in p.freshness;
    }
  }

  function Tried(adapters: map<string, Adapter>, decisions: seq<Decision>, fates: set<Fate>): seq<string> {
    if decisions == [] then []
    else
      var d := decisions[|decisions| - 1];
      Tried(adapters, decisions[..|decisions| - 1], fates) + if FateOf(adapters, d) in fates then [d.source] else []
  }

  lemma {:induction false} TriedMembers(adapters: map<string, Adapter>, decisions: seq<Decision>, fates: set<Fate>, id: string)
    ensures id in Tried(adapters, decisions, fates) <==>
            exists i :: 0 <= i < |decisions| && decisions[i].source == id && FateOf(adapters, decisions[i]) in fates
  {
    if decisions != [] {
      var n := |decisions| - 1;
      TriedMembers(adapters, decisions[..n], fates, id);
      if FateOf(adapters, decisions[n]) in fates && decisions[n].source == id { assert decisions[n].source == id; }
    }
  }

  /** What a wake leaves of the sources: exactly the ones whose adapter delivered are refreshed,
      and exactly the other attempted ones are reported unavailable. */
  ghost predicate WakeMeans(p: Picture, adapters: map<string, Adapter>, decisions: seq<Decision>, w: Waking) {
    && IsRefreshed(p, w.picture, w.refreshed)
    && w.refreshed == Tried(adapters, decisions, {Done}) && w.unavailable == Tried(adapters, decisions, {Absent, Failed})
    && |w.decisions| == |decisions| && forall i :: 0 <= i < |decisions| ==> w.decisions[i] == Outcome(adapters, decisions[i])
  }

  lemma StepMeans(p: Picture, adapters: map<string, Adapter>, decisions: seq<Decision>, w: Waking, d: Decision, at: int)
    requires p.WellFormed() && WakeMeans(p, adapters, decisions, w)
    requires d.disposition == Refresh ==> d.source in p.demands && d.source !in w.refreshed
    ensures WakeMeans(p, adapters, decisions + [d], WakeStep(adapters, w, d, at))
  {
    hide IsRefreshed, Tried, AfterRefresh;
    TriedSnoc(adapters, decisions, d, {Done});
    TriedSnoc(adapters, decisions, d, {Absent, Failed});
    if FateOf(adapters, d) == Done { RefreshedOneMore(p, w.picture, w.refreshed, d.source, adapters[d.source], at); }
    StepDecisions(adapters, decisions, w, d, at);
    hide Outcome;
    assert w.refreshed + [] == w.refreshed && w.unavailable + [] == w.unavailable;
  }

  lemma StepDecisions(adapters: map<string, Adapter>, decisions: seq<Decision>, w: Waking, d: Decision, at: int)
    requires |w.decisions| == |decisions| && forall i :: 0 <= i < |decisions| ==> w.decisions[i] == Outcome(adapters, decisions[i])
    ensures var after := WakeStep(adapters, w, d, at);
            |after.decisions| == |decisions| + 1 && forall i :: 0 <= i <= |decisions| ==> after.decisions[i] == Outcome(adapters, (decisions + [d])[i])
  {
    assert WakeStep(adapters, w, d, at).decisions == w.decisions + [Outcome(adapters, d)];
  }

  lemma {:induction false} WakePicture(p: Picture, adapters: map<string, Adapter>, ids: seq<string>, decisions: seq<Decision>, at: int)
    requires p.WellFormed() && DecisionsFor(p, ids, decisions)
    ensures WakeMeans(p, adapters, decisions, Wakes(p, adapters, decisions, at))
  {
    if decisions == [] {
      return;
    }
    var n := |decisions| - 1;
    NotYetRefreshed(p, adapters, ids, decisions);
    hide Tried, DecisionsFor, WakeMeans, WakeStep;
    WakePicture(p, adapters, ids[..n], decisions[..n], at);
    RefreshedAre(p, adapters, decisions[..n], Wakes(p, adapters, decisions[..n], at));
    assert decisions == decisions[..n] + [decisions[n]];
    StepMeans(p, adapters, decisions[..n], Wakes(p, adapters, decisions[..n], at), decisions[n], at);
  }

  lemma RefreshedAre(p: Picture, adapters: map<string, Adapter>, decisions: seq<Decision>, w: Waking)
    requires WakeMeans(p, adapters, decisions, w)
    ensures w.refreshed == Tried(adapters, decisions, {Done})
  {
  }

  lemma NotYetRefreshed(p: Picture, adapters: map<string, Adapter>, ids: seq<string>, decisions: seq<Decision>)
    requires DecisionsFor(p, ids, decisions) && decisions != []
    ensures var n := |decisions| - 1;
            && DecisionsFor(p, ids[..n], decisions[..n]) && decisions[n].source !in Tried(adapters, decisions[..n], {Done})
            && (decisions[n].disposition == Refresh ==> decisions[n].source in p.demands)
  {
    var n := |decisions| - 1;
    assert forall i :: 0 <= i < n ==> decisions[..n][i].source == ids[i] != ids[n];
    TriedMembers(adapters, decisions[..n], {Done}, decisions[n].source);
  }

  lemma TriedSnoc(adapters: map<string, Adapter>, decisions: seq<Decision>, d: Decision, fates: set<Fate>)
    ensures Tried(adapters, decisions + [d], fates) == Tried(adapters, decisions, fates) + if FateOf(adapters, d) in fates then [d.source] else []
  {
    assert (decisions + [d])[..|decisions|] == decisions;
  }

  // ---------------------------------------------------------------- what a wake guarantees

  /** The sum of the needs that were met. */
  function NeedsMet(adapters: map<string, Adapter>, decisions: seq<Decision>): real {
    if decisions == [] then 0.0
    else
      var d := decisions[|decisions| - 1];
      NeedsMet(adapters, decisions[..|decisions| - 1]) + if FateOf(adapters, d) == Done then d.need else 0.0
  }

  ghost predicate Planned(p: Picture, ids: seq<string>, floor: real, decisions: seq<Decision>)
    requires p.WellFormed()
  {
    && |decisions| == |ids| && Distinct(ids)
    && forall i :: 0 <= i < |ids| ==>
         && ids[i] in p.states && decisions[i].source == ids[i] && decisions[i].need == NeedOf(p, ids[i])
         && (decisions[i].disposition in {Refresh, Defer} <==> p.GapAt(ids[i], floor)) && decisions[i].disposition != MarkUncertain
  }

  lemma PlanIsPlanned(p: Picture, ids: seq<string>, floor: real, budget: Budget)
    requires p.WellFormed() && Lists(p, ids) && budget.maxCost >= 0.0
    ensures Planned(p, ids, floor, PlanFor(p, ids, floor, budget).decisions)
    ensures DecisionsFor(p, ids, PlanFor(p, ids, floor, budget).decisions)
  {
    ListsStates(p, ids);
    forall i | 0 <= i < |ids|
      ensures var d := PlanFor(p, ids, floor, budget).decisions[i];
              && ids[i] in p.states && d.source == ids[i] && d.need == NeedOf(p, ids[i])
              && (d.disposition in {Refresh, Defer} <==> p.GapAt(ids[i], floor)) && d.disposition != MarkUncertain
    {
      PlanCoversTheGaps(p, ids, floor, budget, i);
    }
  }

  /** One source before and after: a met gap is gone and its uncertainty with it, and every
      other source is as it was. */
  lemma SourceAfter(p: Picture, q: Picture, refreshed: seq<string>, floor: real, id: string)
    requires p.WellFormed() && q.WellFormed() && IsRefreshed(p, q, refreshed) && id in p.states
    ensures id in refreshed ==> !q.GapAt(id, floor) && q.UncertaintyAt(id, floor) == 0.0
    ensures id !in refreshed ==> q.GapAt(id, floor) == p.GapAt(id, floor) && q.UncertaintyAt(id, floor) == p.UncertaintyAt(id, floor)
    ensures p.GapAt(id, floor) ==> p.UncertaintyAt(id, floor) == NeedOf(p, id)
  {
    if id in refreshed {
      assert q.EntryFor(id).Sufficient();
      NeedUnit(q, id);
      NeedIsUncertainty(q, id);
    }
    if p.GapAt(id, floor) { NeedIsUncertainty(p, id); }
  }

  lemma {:induction false} UncertaintyFalls(p: Picture, q: Picture, adapters: map<string, Adapter>, refreshed: seq<string>, floor: real,
                                            ids: seq<string>, decisions: seq<Decision>)
    requires p.WellFormed() && q.WellFormed() && IsRefreshed(p, q, refreshed) && Planned(p, ids, floor, decisions)
    requires forall i :: 0 <= i < |ids| ==> (ids[i] in refreshed <==> FateOf(adapters, decisions[i]) == Done)
    ensures TotalUncertainty(p, ids, floor) - TotalUncertainty(q, ids, floor) == NeedsMet(adapters, decisions)
  {
    if ids != [] {
      var n := |ids| - 1;
      assert forall i :: 0 <= i < n ==> ids[..n][i] == ids[i] && decisions[..n][i] == decisions[i];
      assert Planned(p, ids[..n], floor, decisions[..n]);
      UncertaintyFalls(p, q, adapters, refreshed, floor, ids[..n], decisions[..n]);
      SourceAfter(p, q, refreshed, floor, ids[n]);
    }
  }

  lemma DoneAt(adapters: map<string, Adapter>, ids: seq<string>, decisions: seq<Decision>, fates: set<Fate>, i: nat)
    requires |decisions| == |ids| && Distinct(ids) && i < |ids|
    requires forall k :: 0 <= k < |ids| ==> decisions[k].source == ids[k]
    ensures ids[i] in Tried(adapters, decisions, fates) <==> FateOf(adapters, decisions[i]) in fates
  {
    TriedMembers(adapters, decisions, fates, ids[i]);
    if ids[i] in Tried(adapters, decisions, fates) {
      var k :| 0 <= k < |decisions| && decisions[k].source == ids[i] && FateOf(adapters, decisions[k]) in fates;
      assert ids[k] == ids[i];
    }
  }

  /** Wake agreement. The runtime ends up oriented exactly when the plan deferred nothing and no
      source proved unavailable, and the uncertainty a wake removes is exactly the sum of the
      needs of the sources it refreshed. */
  lemma WakeAgreement(p: Picture, ids: seq<string>, floor: real, decisions: seq<Decision>, adapters: map<string, Adapter>, at: int)
    requires p.WellFormed() && Planned(p, ids, floor, decisions) && DecisionsFor(p, ids, decisions)
    ensures var w := Wakes(p, adapters, decisions, at);
            && w.picture.WellFormed()
            && (StatusOf(w.picture, ids, floor) == Oriented <==>
                  w.unavailable == [] && forall i :: 0 <= i < |ids| ==> decisions[i].disposition != Defer)
            && TotalUncertainty(p, ids, floor) - TotalUncertainty(w.picture, ids, floor) == NeedsMet(adapters, decisions)
  {
    var w := Wakes(p, adapters, decisions, at);
    WakePicture(p, adapters, ids, decisions, at);
    hide Wakes, IsRefreshed, Tried, NeedOf, TotalUncertainty, NeedsMet;
    RefreshedWellFormed(p, w.picture, w.refreshed);
    forall i | 0 <= i < |ids|
      ensures ids[i] in w.refreshed <==> FateOf(adapters, decisions[i]) == Done
      ensures ids[i] in w.unavailable <==> FateOf(adapters, decisions[i]) in {Absent, Failed}
      ensures w.picture.GapAt(ids[i], floor) <==> decisions[i].disposition == Defer || ids[i] in w.unavailable
    {
      DoneAt(adapters, ids, decisions, {Done}, i);
      DoneAt(adapters, ids, decisions, {Absent, Failed}, i);
      SourceAfter(p, w.picture, w.refreshed, floor, ids[i]);
    }
    if w.unavailable != [] {
      UnavailableIsListed(adapters, ids, decisions, w.unavailable[0]);
    }
    UncertaintyFalls(p, w.picture, adapters, w.refreshed, floor, ids, decisions);
  }

  lemma UnavailableIsListed(adapters: map<string, Adapter>, ids: seq<string>, decisions: seq<Decision>, id: string)
    requires |decisions| == |ids| && forall k :: 0 <= k < |ids| ==> decisions[k].source == ids[k]
    requires id in Tried(adapters, decisions, {Absent, Failed})
    ensures id in ids
  {
    TriedMembers(adapters, decisions, {Absent, Failed}, id);
  }

  /** What an orientation report demands of its decisions, and a wake always delivers: one per
      considered source, each with a need that can be recorded. */
  lemma ReportedDecisionsAreConsistent(p: Picture, ids: seq<string>, floor: real, decisions: seq<Decision>, adapters: map<string, Adapter>, at: int)
    requires p.WellFormed() && Planned(p, ids, floor, decisions) && DecisionsFor(p, ids, decisions)
    ensures var w := Wakes(p, adapters, decisions, at);
            && |w.decisions| == |ids|
            && forall i :: 0 <= i < |ids| ==> w.decisions[i].source == ids[i] && 0.0 <= w.decisions[i].need <= 1.0
  {
    WakePicture(p, adapters, ids, decisions, at);
    hide Wakes, IsRefreshed, Tried, NeedOf, DecisionsFor;
    var w := Wakes(p, adapters, decisions, at);
    forall i | 0 <= i < |ids| ensures 0.0 <= w.decisions[i].need <= 1.0 && w.decisions[i].source == ids[i] { NeedUnit(p, ids[i]); }
  }

  /** What a report demands of its outcomes: refreshed and unavailable sources are disjoint, and
      all of them have coverage entries. */
  lemma ReportedOutcomesAreConsistent(p: Picture, ids: seq<string>, decisions: seq<Decision>, adapters: map<string, Adapter>, at: int)
    requires p.WellFormed() && DecisionsFor(p, ids, decisions)
    ensures var w := Wakes(p, adapters, decisions, at);
            && (forall id :: id in w.refreshed ==> id in p.demands && id !in w.unavailable)
            && (forall id :: id in w.unavailable ==> id in p.demands)
  {
    var w := Wakes(p, adapters, decisions, at);
    WakePicture(p, adapters, ids, decisions, at);
    hide Wakes, IsRefreshed, Tried, FateOf, Outcome, StatusOf;
    RefreshedHaveDemands(p, w.picture, w.refreshed);
    forall id | id in w.unavailable ensures id in p.demands && id !in w.refreshed {
      TriedMembers(adapters, decisions, {Absent, Failed}, id);
      var k :| 0 <= k < |decisions| && decisions[k].source == id && FateOf(adapters, decisions[k]) in {Absent, Failed};
      DoneAt(adapters, ids, decisions, {Done}, k);
    }
  }

  lemma RefreshedHaveDemands(p: Picture, q: Picture, refreshed: seq<string>)
    requires IsRefreshed(p, q, refreshed)
    ensures forall id :: id in refreshed ==> id in p.demands
  {
  }

  // ---------------------------------------------------------------- costs

  lemma {:induction false} CostWithout(p: Picture, ids: seq<string>, selected: set<string>, id: string)
    requires Distinct(ids) && id in ids && id in selected && id in p.states
    ensures CostOf(p, ids, selected) == CostOf(p, ids, selected - {id}) + p.states[id].cost
  {
    var n := |ids| - 1;
    assert ids == ids[..n] + [ids[n]];
    if ids[n] == id {
      assert selected == selected - {id} + {id};
      CostIgnores(p, ids[..n], selected - {id}, id);
    } else {
      CostWithout(p, ids[..n], selected, id);
    }
  }

  lemma {:induction false} CostOfNone(p: Picture, ids: seq<string>)
    ensures CostOf(p, ids, {}) == 0.0
  {
    if ids != [] { CostOfNone(p, ids[..|ids| - 1]); }
  }

  /** The cost of a selection does not depend on the order it is added up in. */
  lemma {:induction false} CostInAnyOrder(p: Picture, a: seq<string>, b: seq<string>, selected: set<string>)
    requires Distinct(a) && Distinct(b) && forall id :: id in selected ==> id in a && id in b && id in p.states
    ensures CostOf(p, a, selected) == CostOf(p, b, selected)
    decreases selected
  {
    if selected == {} {
      CostOfNone(p, a);
      CostOfNone(p, b);
    } else {
      var id :| id in selected;
      CostWithout(p, a, selected, id);
      CostWithout(p, b, selected, id);
      CostInAnyOrder(p, a, b, selected - {id});
    }
  }

  lemma {:induction false} ObservedWithinRefreshes(p: Picture, adapters: map<string, Adapter>, ids: seq<string>, decisions: seq<Decision>,
                                                   selected: set<string>, at: int)
    requires p.WellFormed() && |decisions| == |ids|
    requires forall i :: 0 <= i < |ids| ==> ids[i] in p.states && decisions[i].source == ids[i] && Matches(p, adapters, decisions[i])
    requires forall i :: 0 <= i < |ids| ==> (decisions[i].disposition == Refresh <==> ids[i] in selected)
    ensures 0.0 <= Wakes(p, adapters, decisions, at).cost <= CostOf(p, ids, selected)
  {
    if ids != [] {
      var n := |ids| - 1;
      assert forall i :: 0 <= i < n ==> ids[..n][i] == ids[i] && decisions[..n][i] == decisions[i];
      ObservedWithinRefreshes(p, adapters, ids[..n], decisions[..n], selected, at);
    }
  }

  /** Observation cost is at most plan cost, and plan cost is at most the budget. */
  lemma ObservationCostWithinBudget(p: Picture, ids: seq<string>, floor: real, budget: Budget, adapters: map<string, Adapter>, at: int)
    requires p.WellFormed() && Lists(p, ids) && budget.maxCost >= 0.0
    requires forall i :: 0 <= i < |ids| ==> Matches(p, adapters, PlanFor(p, ids, floor, budget).decisions[i])
    ensures var plan := PlanFor(p, ids, floor, budget);
            0.0 <= Wakes(p, adapters, plan.decisions, at).cost <= plan.cost <= budget.maxCost
  {
    var candidates := Candidates(p, ids, floor);
    var chosen := Chosen(p, budget, candidates);
    ListsStates(p, ids);
    CandidatesAreGaps(p, ids, floor);
    ChosenAreCandidates(p, budget, candidates);
    forall id | id in chosen.selected ensures id in candidates && id in ids && id in p.states {
      assert id in Elements(candidates);
    }
    CostInAnyOrder(p, candidates, ids, chosen.selected);
    ObservedWithinRefreshes(p, adapters, ids, PlanFor(p, ids, floor, budget).decisions, chosen.selected, at);
  }

  lemma {:induction false} CostGrows(p: Picture, ids: seq<string>, a: set<string>, b: set<string>)
    requires p.WellFormed() && a <= b
    ensures CostOf(p, ids, a) <= CostOf(p, ids, b)
  {
    if ids != [] { CostGrows(p, ids[..|ids| - 1], a, b); }
  }

  function DefaultBudget(p: Picture, ids: seq<string>): Budget { Budget(CostOf(p, ids, p.states.Keys), |ids|) }

  /** Without an explicit budget nothing relevant is ever deferred. */
  lemma {:induction false} DefaultBudgetTakesAll(p: Picture, ids: seq<string>, candidates: seq<string>)
    requires p.WellFormed() && Lists(p, ids) && Distinct(candidates) && forall id :: id in candidates ==> id in ids
    ensures Chosen(p, DefaultBudget(p, ids), candidates).selected == Elements(candidates)
  {
    if candidates == [] {
      return;
    }
    var n := |candidates| - 1;
    var id, budget := candidates[n], DefaultBudget(p, ids);
    ListsStates(p, ids);
    hide CostOf, Lists, Listing;
    assert candidates == candidates[..n] + [id] && id !in candidates[..n];
    DefaultBudgetTakesAll(p, ids, candidates[..n]);
    var before := Chosen(p, budget, candidates[..n]);
    DistinctLength(candidates[..n]);
    DistinctLength(ids);
    Larger(Elements(candidates[..n]) + {id}, Elements(ids));
    CostOfAllNonNegative(p, ids, p.states.Keys);
    ChosenAreCandidates(p, budget, candidates[..n]);
    CostInAnyOrder(p, candidates[..n], ids, before.selected);
    CostWithout(p, ids, before.selected + {id}, id);
    assert before.selected + {id} - {id} == before.selected;
    CostGrows(p, ids, before.selected + {id}, p.states.Keys);
    assert Elements(candidates) == Elements(candidates[..n]) + {id};
  }

  lemma {:induction false} CostOfAllNonNegative(p: Picture, ids: seq<string>, selected: set<string>)
    requires p.WellFormed()
    ensures CostOf(p, ids, selected) >= 0.0
  {
    if ids != [] { CostOfAllNonNegative(p, ids[..|ids| - 1], selected); }
  }

  // ---------------------------------------------------------------- which gaps a plan takes

  /** More need per cost, or as much and more need, or as much of both and the smaller id. */
  predicate RanksAhead(p: Picture, a: Decision, b: Decision)
    requires a.source in p.states && b.source in p.states
  {
    var ca := if p.states[a.source].cost < 0.000000000001 then 0.000000000001 else p.states[a.source].cost;
    var cb := if p.states[b.source].cost < 0.000000000001 then 0.000000000001 else p.states[b.source].cost;
    if a.need / ca != b.need / cb then a.need / ca > b.need / cb
    else if a.need != b.need then a.need > b.need
    else TextLess(a.source, b.source)
  }

  /** The sources a plan refreshes that rank ahead of a decision. */
  function RefreshedAhead(p: Picture, decisions: seq<Decision>, b: Decision): set<string>
    requires b.source in p.states && forall i :: 0 <= i < |decisions| ==> decisions[i].source in p.states
  {
    set i | 0 <= i < |decisions| && decisions[i].disposition == Refresh && RanksAhead(p, decisions[i], b) :: decisions[i].source
  }

  lemma RanksAheadIs(p: Picture, a: Decision, b: Decision)
    requires p.WellFormed() && a.source in p.states && b.source in p.states && a.need == NeedOf(p, a.source) && b.need == NeedOf(p, b.source)
    ensures RanksAhead(p, a, b) <==> Order(p)(a.source, b.source)
  {
    hide NeedOf;
    assert Worth(p, a.source) == a.need / (if p.states[a.source].cost < 0.000000000001 then 0.000000000001 else p.states[a.source].cost);
    assert Worth(p, b.source) == b.need / (if p.states[b.source].cost < 0.000000000001 then 0.000000000001 else p.states[b.source].cost);
  }

  /** What has been selected on the way is what is selected in the end, up to there. */
  lemma {:induction false} SelectedSoFar(p: Picture, budget: Budget, candidates: seq<string>, n: nat)
    requires p.WellFormed() && Distinct(candidates) && n <= |candidates|
    ensures Chosen(p, budget, candidates[..n]).selected == set id | id in candidates[..n] && id in Chosen(p, budget, candidates).selected
    decreases |candidates|
  {
    OnlySeen(p, budget, candidates);
    if n == |candidates| {
      assert candidates[..n] == candidates;
    } else {
      var m := |candidates| - 1;
      SelectedSoFar(p, budget, candidates[..m], n);
      assert candidates[..m][..n] == candidates[..n];
      assert candidates[m] !in candidates[..n];
      assert forall id :: id in candidates[..n] ==> id in candidates[..m];
    }
  }

  lemma AheadOf(p: Picture, candidates: seq<string>, x: nat)
    requires p.WellFormed() && Ascending(Order(p), candidates) && Distinct(candidates) && x < |candidates|
    requires forall id :: id in candidates ==> id in p.states
    ensures forall id :: id in candidates[..x] <==> id in candidates && Order(p)(id, candidates[x])
  {
    SoonerOrders(p, Elements(candidates));
    hide Sooner, Order, Worth, NeedOf;
    assert candidates[x] in Elements(candidates);
    forall id | id in candidates && Order(p)(id, candidates[x]) ensures id in candidates[..x] {
      var y :| 0 <= y < |candidates| && candidates[y] == id;
      assert id in Elements(candidates);
      assert candidates[..x + 1] == candidates[..x] + [candidates[x]];
      assert y < x ==> candidates[..x][y] == id;
    }
    forall id | id in candidates[..x] ensures id in candidates && Order(p)(id, candidates[x]) {
      var y :| 0 <= y < x && candidates[..x][y] == id;
      assert candidates[y] == id;
    }
  }

  /** Candidates, selection and decisions of a plan, in one place. */
  lemma PlanShape(p: Picture, ids: seq<string>, floor: real, budget: Budget)
    requires p.WellFormed() && Lists(p, ids) && budget.maxCost >= 0.0
    ensures var decisions, candidates := PlanFor(p, ids, floor, budget).decisions, Candidates(p, ids, floor);
            var chosen := Chosen(p, budget, candidates);
            && (forall id :: id in ids <==> id in p.states) && Planned(p, ids, floor, decisions)
            && Distinct(candidates) && Ascending(Order(p), candidates) && (forall id :: id in candidates <==> id in ids && p.GapAt(id, floor))
            && PlanFor(p, ids, floor, budget).cost == budget.maxCost - chosen.remaining
            && chosen.selected == (set k | 0 <= k < |ids| && decisions[k].disposition == Refresh :: ids[k])
            && forall k :: 0 <= k < |ids| ==> (ids[k] in chosen.selected <==> decisions[k].disposition == Refresh)
  {
    ListsStates(p, ids);
    CandidatesAreGaps(p, ids, floor);
    PlanIsPlanned(p, ids, floor, budget);
    PlanStaysInBudget(p, ids, floor, budget);
    hide Candidates, Chosen, NeedOf, CostOf, Lists, Ascending, Order;
    assert PlanFor(p, ids, floor, budget).cost == budget.maxCost - Chosen(p, budget, Candidates(p, ids, floor)).remaining;
  }

  /** The greedy plan by its own decisions: a gap is refreshed exactly when, beside the refreshed
      sources that have more need per cost (or as much and more need, or rank before it by id),
      there is room for it within the source limit and within the budget. */
  lemma RefreshedExactly(p: Picture, ids: seq<string>, floor: real, budget: Budget, i: nat)
    requires p.WellFormed() && Lists(p, ids) && i < |ids| && budget.maxCost >= 0.0 && p.GapAt(ids[i], floor)
    ensures var decisions := PlanFor(p, ids, floor, budget).decisions;
            && (forall k :: 0 <= k < |decisions| ==> decisions[k].source in p.states)
            && var ahead := RefreshedAhead(p, decisions, decisions[i]);
               decisions[i].disposition == Refresh <==> |ahead| < budget.maxSources && p.states[ids[i]].cost + CostOf(p, ids, ahead) <= budget.maxCost
  {
    hide Candidates, PlanFor, Chosen, NeedOf, CostOf, Lists, Ascending, RefreshedAhead;
    var decisions, candidates := PlanFor(p, ids, floor, budget).decisions, Candidates(p, ids, floor);
    PlanShape(p, ids, floor, budget);
    var chosen := Chosen(p, budget, candidates).selected;
    assert ids[i] in candidates;
    var x :| 0 <= x < |candidates| && candidates[x] == ids[i];
    SelectedEarlier(p, budget, candidates, x);
    SelectedSoFar(p, budget, candidates, x);
    AheadOf(p, candidates, x);
    var before := Chosen(p, budget, candidates[..x]);
    RefreshedAheadAre(p, ids, floor, decisions, candidates, x, i, chosen);
    var ahead := RefreshedAhead(p, decisions, decisions[i]);
    assert before.selected == ahead;
    ChosenAreCandidates(p, budget, candidates[..x]);
    forall id | id in ahead ensures id in candidates[..x] && id in ids && id in p.states {
      assert id in Elements(candidates[..x]);
    }
    CostInAnyOrder(p, candidates[..x], ids, ahead);
  }

  lemma RefreshedAheadAre(p: Picture, ids: seq<string>, floor: real, decisions: seq<Decision>, candidates: seq<string>, x: nat, i: nat, chosen: set<string>)
    requires p.WellFormed() && Planned(p, ids, floor, decisions) && i < |ids| && x < |candidates| && candidates[x] == ids[i]
    requires forall id :: id in candidates <==> id in ids && p.GapAt(id, floor)
    requires forall id :: id in candidates[..x] <==> id in candidates && Order(p)(id, candidates[x])
    requires chosen == set k | 0 <= k < |ids| && decisions[k].disposition == Refresh :: ids[k]
    ensures RefreshedAhead(p, decisions, decisions[i]) == set id | id in candidates[..x] && id in chosen
  {
    hide NeedOf, RanksAhead, Order;
    forall k | 0 <= k < |ids| ensures RanksAhead(p, decisions[k], decisions[i]) <==> Order(p)(ids[k], ids[i]) {
      RanksAheadIs(p, decisions[k], decisions[i]);
    }
    forall k | 0 <= k < |ids| && decisions[k].disposition == Refresh ensures ids[k] in candidates {
      assert p.GapAt(ids[k], floor);
    }
  }

  /** A deferred gap beside a refreshed one: the refreshed one has at least as much need per cost,
      with ties by need and then by id, or the deferred one costs more and did not fit. */
  lemma DeferredForBetter(p: Picture, ids: seq<string>, floor: real, budget: Budget, i: nat, j: nat)
    requires p.WellFormed() && Lists(p, ids) && i < |ids| && j < |ids| && budget.maxCost >= 0.0
    requires PlanFor(p, ids, floor, budget).decisions[i].disposition == Refresh
    requires PlanFor(p, ids, floor, budget).decisions[j].disposition == Defer
    ensures var decisions := PlanFor(p, ids, floor, budget).decisions;
            && decisions[i].source in p.states && decisions[j].source in p.states
            && (|| RanksAhead(p, decisions[i], decisions[j])
                || (&& p.states[decisions[j].source].cost > p.states[decisions[i].source].cost
                    && p.states[decisions[j].source].cost > budget.maxCost - PlanFor(p, ids, floor, budget).cost))
  {
    hide Candidates, PlanFor, Chosen, NeedOf, CostOf, Lists, Ascending;
    var decisions, candidates := PlanFor(p, ids, floor, budget).decisions, Candidates(p, ids, floor);
    PlanShape(p, ids, floor, budget);
    var chosen := Chosen(p, budget, candidates);
    assert p.GapAt(ids[i], floor) && p.GapAt(ids[j], floor);
    assert ids[i] in candidates && ids[j] in candidates;
    var x :| 0 <= x < |candidates| && candidates[x] == ids[i];
    var y :| 0 <= y < |candidates| && candidates[y] == ids[j];
    AheadOf(p, candidates, y);
    RanksAheadIs(p, decisions[i], decisions[j]);
    assert ids[i] in chosen.selected && ids[j] !in chosen.selected;
    if x < y {
      assert candidates[..y][x] == ids[i];
    } else if y < x {
      DeferralIsForced(p, budget, candidates, y, x);
      SelectedEarlier(p, budget, candidates, x);
      NotFull(p, budget, candidates, y, x);
    }
  }

  /** A candidate passed over while a later one was taken did not fit, then or later. */
  lemma NotFull(p: Picture, budget: Budget, candidates: seq<string>, y: nat, x: nat)
    requires p.WellFormed() && Distinct(candidates) && y < x < |candidates| && forall k :: 0 <= k < |candidates| ==> candidates[k] in p.states
    requires candidates[y] !in Chosen(p, budget, candidates).selected && candidates[x] in Chosen(p, budget, candidates).selected
    ensures p.states[candidates[y]].cost > Chosen(p, budget, candidates).remaining
  {
    SelectedEarlier(p, budget, candidates, y);
    SelectedEarlier(p, budget, candidates, x);
    ChosenShrinks(p, budget, candidates, y);
    ChosenShrinks(p, budget, candidates[..x], y);
    assert candidates[..x][..y] == candidates[..y];
  }

  // ---------------------------------------------------------------- the objects

  function IdList(states: seq<Source>): seq<string> { seq(|states|, i requires 0 <= i < |states| => states[i].id) }

  function StatesById(states: seq<Source>): map<string, Source> {
    if states == [] then map[] else StatesById(states[..|states| - 1])[states[|states| - 1].id := states[|states| - 1]]
  }

  function DemandsById(demands: seq<Demand>): map<string, Demand> {
    if demands == [] then map[] else DemandsById(demands[..|demands| - 1])[demands[|demands| - 1].source := demands[|demands| - 1]]
  }

  datatype Problem = DuplicateSource | DuplicateDemand | UnknownDemand | MissingFreshness

  /** The checks both the planner and the coverage make on their inputs. */
  function Check(states: seq<Source>, demands: seq<Demand>, freshness: map<string, real>): Option<Problem> {
    var s, d := StatesById(states), DemandsById(demands);
    if |s| != |states| then Some(DuplicateSource)
    else if |d| != |demands| then Some(DuplicateDemand)
    else if !(d.Keys <= s.Keys) then Some(UnknownDemand)
    else if !(d.Keys <= freshness.Keys) then Some(MissingFreshness)
    else None
  }

  ghost predicate Sane(states: seq<Source>, demands: seq<Demand>, freshness: map<string, real>) {
    && (forall i :: 0 <= i < |states| ==> 0.0 <= states[i].confidence <= 1.0 && states[i].cost >= 0.0)
    && (forall i :: 0 <= i < |demands| ==> demands[i].WellFormed())
    && (forall id :: id in freshness ==> 0.0 <= freshness[id] <= 1.0)
  }

  function PictureOf(states: seq<Source>, demands: seq<Demand>, freshness: map<string, real>): Picture {
    Picture(StatesById(states), DemandsById(demands), freshness)
  }

  lemma {:induction false} StatesAreIndexed(states: seq<Source>, id: string)
    ensures id in StatesById(states) <==> id in Elements(IdList(states))
    ensures id in StatesById(states) ==> StatesById(states)[id] in states && StatesById(states)[id].id == id
  {
    if states != [] {
      var n := |states| - 1;
      StatesAreIndexed(states[..n], id);
      assert IdList(states) == IdList(states[..n]) + [states[n].id];
    }
  }

  lemma {:induction false} DemandsAreIndexed(demands: seq<Demand>, id: string)
    ensures id in DemandsById(demands) ==> DemandsById(demands)[id] in demands && DemandsById(demands)[id].source == id
  {
    if demands != [] { DemandsAreIndexed(demands[..|demands| - 1], id); }
  }

  /** Inputs that pass the checks make a well-formed picture, listed by the sorted source ids. */
  lemma CheckedPicture(states: seq<Source>, demands: seq<Demand>, freshness: map<string, real>)
    requires Sane(states, demands, freshness) && Check(states, demands, freshness) == None
    ensures var p := PictureOf(states, demands, freshness);
            p.WellFormed() && Lists(p, SortUnique(TextLess, IdList(states)))
  {
    var p, ids := PictureOf(states, demands, freshness), IdList(states);
    forall id ensures id in p.states <==> id in Elements(ids) { StatesAreIndexed(states, id); }
    forall id | id in p.states ensures p.states[id].id == id && p.states[id] in states { StatesAreIndexed(states, id); }
    forall id | id in p.demands ensures p.demands[id].source == id && p.demands[id] in demands { DemandsAreIndexed(demands, id); }
    TextOrders(Elements(ids));
    SortElements(TextLess, ids);
    SortAscending(TextLess, ids);
  }

  lemma CandidatesAreStates(p: Picture, ids: seq<string>, floor: real)
    requires p.WellFormed() && Lists(p, ids)
    ensures forall i :: 0 <= i < |Candidates(p, ids, floor)| ==> Candidates(p, ids, floor)[i] in p.states
  {
    ListsStates(p, ids);
    CandidatesAreGaps(p, ids, floor);
  }

  class WakeReconciler {
    const floor: real

    constructor (floor: real)
      ensures this.floor == floor
    {
      this.floor := floor;
    }

    /** The greedy selection: best candidate first, while it is affordable and there is room. */
    method SelectSources(p: Picture, budget: Budget, candidates: seq<string>) returns (chosen: Selection)
      requires forall i :: 0 <= i < |candidates| ==> candidates[i] in p.states
      ensures chosen == Chosen(p, budget, candidates)
    {
      var selected: set<string> := {};
      var remaining := budget.maxCost;
      for i := 0 to |candidates|
        invariant Chosen(p, budget, candidates[..i]) == Selection(selected, remaining)
      {
        assert candidates[..i + 1][..i] == candidates[..i];
        if |selected| < budget.maxSources && p.states[candidates[i]].cost <= remaining {
          selected, remaining := selected + {candidates[i]}, remaining - p.states[candidates[i]].cost;
        }
      }
      assert candidates[..|candidates|] == candidates;
      chosen := Selection(selected, remaining);
    }

    /** The sources that are relevant and not known well enough, best first. */
    method RankCandidates(p: Picture, ids: seq<string>) returns (candidates: seq<string>)
      requires p.WellFormed() && Lists(p, ids)
      ensures candidates == Candidates(p, ids, floor)
    {
      var gaps: seq<string> := [];
      ghost var keep := (id: string) => p.WellFormed() && p.GapAt(id, floor);
      ListsStates(p, ids);
      hide Lists;
      for i := 0 to |ids|
        invariant gaps == Select(ids[..i], keep)
      {
        var id := ids[i];
        assert ids[..i + 1][..i] == ids[..i];
        var gap := IsGap(p, id);
        if gap {
          gaps := gaps + [id];
        }
      }
      assert ids[..|ids|] == ids;
      candidates := SortUnique(Order(p), gaps);
    }

    method IsGap(p: Picture, id: string) returns (gap: bool)
      requires p.WellFormed() && id in p.states
      ensures gap == p.GapAt(id, floor)
    {
      if id !in p.demands {
        return false;
      }
      var demand := p.demands[id];
      gap := demand.relevance * demand.sensitivity >= floor
             && (p.freshness[id] < demand.requiredFreshness || p.states[id].confidence < demand.requiredConfidence);
    }

    method Decide(p: Picture, selected: set<string>, id: string) returns (d: Decision)
      requires p.WellFormed() && id in p.states
      ensures d == DecisionFor(p, floor, selected, id)
    {
      hide RefreshNeed;
      var need := NeedOf(p, id);
      if id in selected {
        return Decision(id, Refresh, need);
      }
      if id !in p.demands {
        return Decision(id, AcceptExisting, need);
      }
      var demand := p.demands[id];
      if demand.relevance * demand.sensitivity < floor {
        return Decision(id, AcceptExisting, need);
      }
      if p.freshness[id] >= demand.requiredFreshness && p.states[id].confidence >= demand.requiredConfidence {
        return Decision(id, AcceptExisting, need);
      }
      d := Decision(id, Defer, need);
    }

    /** The selection, then one decision per source in id order. */
    method Plan(p: Picture, ids: seq<string>, budget: Budget) returns (plan: RefreshPlan)
      requires p.WellFormed() && Lists(p, ids)
      ensures plan == PlanFor(p, ids, floor, budget)
    {
      var candidates := RankCandidates(p, ids);
      CandidatesAreStates(p, ids, floor);
      ListsStates(p, ids);
      hide Candidates, Chosen, DecisionFor, Lists;
      var chosen := SelectSources(p, budget, candidates);
      var decisions: seq<Decision> := [];
      for i := 0 to |ids|
        invariant |decisions| == i && forall j :: 0 <= j < i ==> decisions[j] == DecisionFor(p, floor, chosen.selected, ids[j])
      {
        var d := Decide(p, chosen.selected, ids[i]);
        decisions := decisions + [d];
      }
      plan := RefreshPlan(decisions, budget.maxCost - chosen.remaining);
    }
  }

  datatype WakeResult =
    | Woken(status: Status, waking: Waking, plan: RefreshPlan, uncertaintyRemoved: real)
    | Refused(problem: Problem)
    | AdapterMismatch

  class SituatedContinuityWorker {
    const reconciler: WakeReconciler
    const sources: map<string, Adapter>

    constructor (reconciler: WakeReconciler, sources: map<string, Adapter>)
      ensures this.reconciler == reconciler && this.sources == sources
    {
      this.reconciler, this.sources := reconciler, sources;
    }

    /** Plan, refresh decision by decision, and take stock. A wake that goes through is oriented
        exactly when nothing was deferred or unavailable, reports as removed exactly the needs it
        met, and has observed within its plan and its plan within its budget. */
    method Wake(states: seq<Source>, demands: seq<Demand>, freshness: map<string, real>, budget: Option<Budget>, at: int)
      returns (r: WakeResult)
      requires Sane(states, demands, freshness) && (budget.Some? ==> budget.value.maxCost >= 0.0)
      ensures Check(states, demands, freshness).Some? ==> r == Refused(Check(states, demands, freshness).value)
      ensures r.Refused? ==> Check(states, demands, freshness) == Some(r.problem)
      ensures r.Woken? ==>
                var p, ids := PictureOf(states, demands, freshness), SortUnique(TextLess, IdList(states));
                var limit := if budget.Some? then budget.value else DefaultBudget(p, ids);
                && p.WellFormed() && r.plan == PlanFor(p, ids, reconciler.floor, limit)
                && r.waking == Wakes(p, sources, r.plan.decisions, at)
                && (r.status == Oriented <==> r.waking.unavailable == [] && forall i :: 0 <= i < |ids| ==> r.plan.decisions[i].disposition != Defer)
                && r.uncertaintyRemoved == NeedsMet(sources, r.plan.decisions) >= 0.0
                && r.waking.cost <= r.plan.cost <= limit.maxCost
    {
      var problem := Check(states, demands, freshness);
      if problem.Some? {
        return Refused(problem.value);
      }
      CheckedPicture(states, demands, freshness);
      var p, ids := PictureOf(states, demands, freshness), SortUnique(TextLess, IdList(states));
      hide *;
      var limit := if budget.Some? then budget.value else DefaultBudget(p, ids);
      LimitNonNegative(p, ids);
      var plan := reconciler.Plan(p, ids, limit);
      PlanIsPlanned(p, ids, reconciler.floor, limit);
      var ok, waking := RefreshAll(p, plan.decisions, at);
      if !ok {
        return AdapterMismatch;
      }
      ObservationCostWithinBudget(p, ids, reconciler.floor, limit, sources, at);
      WakeAgreement(p, ids, reconciler.floor, plan.decisions, sources, at);
      NeedsNonNegative(p, sources, ids, reconciler.floor, plan.decisions);
      var removed := TotalUncertainty(p, ids, reconciler.floor) - TotalUncertainty(waking.picture, ids, reconciler.floor);
      r := Woken(StatusOf(waking.picture, ids, reconciler.floor), waking, plan, if removed > 0.0 then removed else 0.0);
    }

    /** The refresh loop: states, freshness, outcome lists and cost grow decision by decision. */
    method RefreshAll(p: Picture, decisions: seq<Decision>, at: int) returns (ok: bool, w: Waking)
      requires forall i :: 0 <= i < |decisions| ==> decisions[i].source in p.states
      ensures ok <==> forall i :: 0 <= i < |decisions| ==> Matches(p, sources, decisions[i])
      ensures ok ==> w == Wakes(p, sources, decisions, at)
    {
      var made: seq<Decision> := [];
      var refreshed, unavailable: seq<string> := [], [];
      var cost := 0.0;
      var states, freshness := p.states, p.freshness;
      for i := 0 to |decisions|
        invariant Waking(made, refreshed, unavailable, cost, Picture(states, p.demands, freshness)) == Wakes(p, sources, decisions[..i], at)
        invariant states.Keys == p.states.Keys && forall id :: id in states ==> SameSource(states[id], p.states[id])
        invariant forall j :: 0 <= j < i ==> Matches(p, sources, decisions[j])
      {
        assert decisions[..i + 1][..i] == decisions[..i];
        var d := decisions[i];
        w := Waking(made, refreshed, unavailable, cost, Picture(states, p.demands, freshness));
        if d.disposition == Refresh {
          if d.source in sources {
            var adapter, state := sources[d.source], states[d.source];
            if adapter.hazard != state.hazard || adapter.cost != state.cost {
              assert !Matches(p, sources, decisions[i]);
              return false, w;
            }
            cost := cost + adapter.cost;
            if adapter.available {
              refreshed := refreshed + [d.source];
              made := made + [d];
              states := states[d.source := state.(observedAt := at, cursor := adapter.cursor, confidence := 1.0)];
              freshness := freshness[d.source := 1.0];
            } else {
              made := made + [d.(disposition := MarkUncertain)];
              unavailable := unavailable + [d.source];
            }
          } else {
            made := made + [d.(disposition := MarkUncertain)];
            unavailable := unavailable + [d.source];
          }
        } else {
          made := made + [d];
        }
      }
      assert decisions[..|decisions|] == decisions;
      ok, w := true, Waking(made, refreshed, unavailable, cost, Picture(states, p.demands, freshness));
    }
  }

  /** The configuration of a source, which no refresh changes. */
  ghost predicate SameSource(a: Source, b: Source) { a.id == b.id && a.hazard == b.hazard && a.cost == b.cost }

  lemma LimitNonNegative(p: Picture, ids: seq<string>)
    requires p.WellFormed()
    ensures DefaultBudget(p, ids).maxCost >= 0.0
  {
    CostOfAllNonNegative(p, ids, p.states.Keys);
  }

  lemma {:induction false} NeedsNonNegative(p: Picture, adapters: map<string, Adapter>, ids: seq<string>, floor: real, decisions: seq<Decision>)
    requires p.WellFormed() && Planned(p, ids, floor, decisions)
    ensures NeedsMet(adapters, decisions) >= 0.0
  {
    if ids != [] {
      var n := |ids| - 1;
      assert forall i :: 0 <= i < n ==> ids[..n][i] == ids[i] && decisions[..n][i] == decisions[i];
      assert Planned(p, ids[..n], floor, decisions[..n]);
      NeedsNonNegative(p, adapters, ids[..n], floor, decisions[..n]);
      NeedUnit(p, ids[n]);
    }
  }

  /** Source ids without a demand add nothing: summing over the sorted demands, as the coverage
      does, is summing over the sorted sources. */
  lemma CoverageSumsDemands(p: Picture, ids: seq<string>, demanded: seq<string>, floor: real)
    requires p.WellFormed() && Lists(p, ids) && Listing(demanded, p.demands.Keys)
    ensures TotalUncertainty(p, demanded, floor) == TotalUncertainty(p, ids, floor)
    ensures CoverageSufficient(p, demanded, floor) <==> CoverageSufficient(p, ids, floor)
  {
    var keep := (id: string) => id in p.demands;
    var chosen := Select(ids, keep);
    ListsStates(p, ids);
    forall id ensures id in chosen <==> id in p.demands { SelectMembers(ids, keep, id); }
    SelectAscending(ids, keep);
    TextOrders(Elements(chosen));
    AscendingIsUnique(TextLess, chosen, demanded);
    SumSkips(p, ids, keep, floor);
    assert forall id :: id in demanded <==> id in Elements(demanded);
    assert forall id :: p.GapAt(id, floor) ==> id in demanded && id in ids;
  }

  lemma {:induction false} SelectAscending(ids: seq<string>, keep: string -> bool)
    requires Ascending(TextLess, ids)
    ensures Ascending(TextLess, Select(ids, keep))
  {
    if ids != [] {
      var n := |ids| - 1;
      SelectAscending(ids[..n], keep);
      forall i | 0 <= i < |Select(ids[..n], keep)| ensures TextLess(Select(ids[..n], keep)[i], ids[n]) {
        SelectMembers(ids[..n], keep, Select(ids[..n], keep)[i]);
      }
    }
  }

  lemma {:induction false} SumSkips(p: Picture, ids: seq<string>, keep: string -> bool, floor: real)
    requires p.WellFormed() && forall id :: keep(id) <==> id in p.demands
    ensures TotalUncertainty(p, Select(ids, keep), floor) == TotalUncertainty(p, ids, floor)
  {
    if ids != [] {
      var n := |ids| - 1;
      SumSkips(p, ids[..n], keep, floor);
      var before := Select(ids[..n], keep);
      if keep(ids[n]) {
        assert Select(ids, keep) == before + [ids[n]];
        assert (before + [ids[n]])[..|before|] == before;
      } else {
        assert Select(ids, keep) == before;
      }
    }
  }
}
