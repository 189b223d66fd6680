/** Selection of an intrinsic agenda under a vector of cognitive resources.

    Resources and values are integers in units of 1e-12, the precision every sum is rounded
    to; one unit is the tolerance of a ceiling, a thousand that of a subtraction. */
module Agenda {
  import opened Basics
  import opened Sequences

  datatype Resources = Resources(activities: nat, compute: nat, wallTime: nat, attention: nat, privacyRisk: nat)
  {
    function Plus(other: Resources): Resources {
      Resources(activities + other.activities, compute + other.compute, wallTime + other.wallTime,
                attention + other.attention, privacyRisk + other.privacyRisk)
    }

    predicate FitsWithin(ceiling: Resources) {
      && activities <= ceiling.activities && compute <= ceiling.compute + 1 && wallTime <= ceiling.wallTime + 1
      && attention <= ceiling.attention + 1 && privacyRisk <= ceiling.privacyRisk + 1
    }

    /** None when some component is overdrawn beyond the tolerance. */
    function Minus(other: Resources): Option<Resources> {
      if activities - other.activities < 0 || compute - other.compute < -1000 || wallTime - other.wallTime < -1000
         || attention - other.attention < -1000 || privacyRisk - other.privacyRisk < -1000
      then None
      else Some(Resources(AtLeastZero(activities - other.activities), AtLeastZero(compute - other.compute),
                          AtLeastZero(wallTime - other.wallTime), AtLeastZero(attention - other.attention),
                          AtLeastZero(privacyRisk - other.privacyRisk)))
    }

    predicate NoLargerThan(other: Resources) {
      activities <= other.activities && compute <= other.compute && wallTime <= other.wallTime
      && attention <= other.attention && privacyRisk <= other.privacyRisk
    }
  }

  const NOTHING := Resources(0, 0, 0, 0, 0)

  function AtLeastZero(x: int): nat { if x < 0 then 0 else x }

  datatype Activity = Activity(id: string, resources: Resources, urgency: int, confidence: int, expiresAt: int)
  datatype Estimate = Estimate(activity: string, epoch: string, policy: string, netValue: int)
  datatype Epoch = Epoch(id: string, policy: string, expiresAt: int, ceiling: Resources)
  datatype Policy = Policy(id: string, minimumNetValue: int)

  datatype Choice = Selected | Deferred | Expired | NotWorthwhile
  datatype Decision = Decision(activity: string, choice: Choice)

  datatype Agenda = Agenda(decisions: seq<Decision>, consumed: Resources, remaining: Resources)

  datatype Result =
    | Chosen(agenda: Agenda)
    | EpochExpired
    | PolicyDiffers
    | ActivitiesNotUnique
    | EstimatesIncomplete
    | EstimatesForeign
    | NothingToSelect
    | BudgetOverdrawn

  // ---------------------------------------------------------------- the order of candidates

  /** The last estimate of each activity. */
  function ByActivity(estimates: seq<Estimate>): map<string, Estimate> {
    if estimates == [] then map[]
    else ByActivity(estimates[..|estimates| - 1])[estimates[|estimates| - 1].activity := estimates[|estimates| - 1]]
  }

  function IdsOf(activities: seq<Activity>): set<string> { set a | a in activities :: a.id }

  predicate UniqueIds(activities: seq<Activity>) {
    forall i, j :: 0 <= i < j < |activities| ==> activities[i].id != activities[j].id
  }

  function NetValue(best: map<string, Estimate>, a: Activity): int {
    if a.id in best then best[a.id].netValue else 0
  }

  /** Value, urgency and confidence descending, then the id. */
  predicate BeforeAt(a: Activity, u: int, b: Activity, w: int) {
    || u > w
    || (u == w &&
          (|| a.urgency > b.urgency
           || (a.urgency == b.urgency && (a.confidence > b.confidence || (a.confidence == b.confidence && TextLess(a.id, b.id))))))
  }

  predicate Before(best: map<string, Estimate>, a: Activity, b: Activity) {
    BeforeAt(a, NetValue(best, a), b, NetValue(best, b))
  }

  function Ranked(best: map<string, Estimate>, activities: seq<Activity>): seq<Activity> {
    SortUnique((a: Activity, b: Activity) => Before(best, a, b), activities)
  }

  lemma BeforeOrders(best: map<string, Estimate>, activities: set<Activity>)
    requires forall a, b :: a in activities && b in activities && a.id == b.id ==> a == b
    ensures Orders((a: Activity, b: Activity) => Before(best, a, b), activities)
  {
    forall a | a in activities ensures !Before(best, a, a) { TextTotal(a.id, a.id); }
    forall a, b | a in activities && b in activities && a != b ensures Before(best, a, b) || Before(best, b, a) { TextTotal(a.id, b.id); }
    forall a, b, c | a in activities && b in activities && c in activities && Before(best, a, b) && Before(best, b, c)
      ensures Before(best, a, c)
    {
      if TextLess(a.id, b.id) && TextLess(b.id, c.id) { TextTransitive(a.id, b.id, c.id); }
    }
  }

  // ---------------------------------------------------------------- the greedy pass

  datatype Context = Context(best: map<string, Estimate>, selectedAt: int, threshold: int, ceiling: Resources)

  /** Neither expired nor below the threshold of the policy. */
  predicate Eligible(c: Context, a: Activity) {
    a.expiresAt > c.selectedAt && NetValue(c.best, a) > c.threshold
  }

  datatype Pass = Pass(consumed: Resources, choices: seq<Choice>)

  function ChoiceFor(c: Context, consumed: Resources, a: Activity): Choice {
    if a.expiresAt <= c.selectedAt then Expired
    else if NetValue(c.best, a) <= c.threshold then NotWorthwhile
    else if !consumed.Plus(a.resources).FitsWithin(c.ceiling) then Deferred
    else Selected
  }

  function Greedy(c: Context, ranked: seq<Activity>): (p: Pass)
    ensures |p.choices| == |ranked|
  {
    if ranked == [] then Pass(NOTHING, [])
    else
      var before, a := Greedy(c, ranked[..|ranked| - 1]), ranked[|ranked| - 1];
      var choice := ChoiceFor(c, before.consumed, a);
      Pass(if choice == Selected then before.consumed.Plus(a.resources) else before.consumed, before.choices + [choice])
  }

  function DecisionsOf(ranked: seq<Activity>, choices: seq<Choice>): seq<Decision>
    requires |choices| == |ranked|
  {
    seq(|ranked|, i requires 0 <= i < |ranked| => Decision(ranked[i].id, choices[i]))
  }

  function ContextOf(epoch: Epoch, policy: Policy, estimates: seq<Estimate>, selectedAt: int): Context {
    Context(ByActivity(estimates), selectedAt, AtLeastZero(policy.minimumNetValue), epoch.ceiling)
  }

  function Select(epoch: Epoch, policy: Policy, activities: seq<Activity>, estimates: seq<Estimate>, selectedAt: int): Result {
    var c := ContextOf(epoch, policy, estimates, selectedAt);
    if selectedAt >= epoch.expiresAt then EpochExpired
    else if epoch.policy != policy.id then PolicyDiffers
    else if !UniqueIds(activities) then ActivitiesNotUnique
    else if c.best.Keys != IdsOf(activities) then EstimatesIncomplete
    else if exists e :: e in estimates && (e.epoch != epoch.id || e.policy != policy.id) then EstimatesForeign
    else
      var ranked := Ranked(c.best, activities);
      var pass := Greedy(c, ranked);
      if ranked == [] then NothingToSelect
      else
        var remaining := epoch.ceiling.Minus(pass.consumed);
        if remaining.None? then BudgetOverdrawn
        else Chosen(Agenda(DecisionsOf(ranked, pass.choices), pass.consumed, remaining.value))
  }

  // ---------------------------------------------------------------- arrival order

  ghost predicate SameMembers<T>(a: seq<T>, b: seq<T>) { multiset(a) == multiset(b) }

  /** Two estimates of one activity never disagree. */
  ghost predicate Consistent(estimates: seq<Estimate>) {
    forall e, f :: e in estimates && f in estimates && e.activity == f.activity ==> e == f
  }

  lemma MembersAgree<T>(a: seq<T>, b: seq<T>)
    requires SameMembers(a, b)
    ensures forall x :: x in a <==> x in b
    ensures |a| == |b|
  {
    forall x ensures x in a <==> x in b {
      assert x in a <==> x in multiset(a);
      assert x in b <==> x in multiset(b);
    }
    assert |multiset(a)| == |a| && |multiset(b)| == |b|;
  }

  lemma {:induction false} LookupMeaning(estimates: seq<Estimate>, id: string)
    ensures id in ByActivity(estimates) <==> exists e :: e in estimates && e.activity == id
    ensures id in ByActivity(estimates) ==> ByActivity(estimates)[id] in estimates && ByActivity(estimates)[id].activity == id
  {
    if estimates != [] {
      var n := |estimates| - 1;
      LookupMeaning(estimates[..n], id);
      assert forall e :: e in estimates <==> e in estimates[..n] || e == estimates[n];
    }
  }

  /** Whichever estimate comes last wins; so the lookup ignores the order of the estimates
      exactly when no two estimates of one activity disagree. */
  lemma LookupIgnoresOrderExactly(estimates: seq<Estimate>)
    ensures (forall other :: SameMembers(estimates, other) ==> ByActivity(other) == ByActivity(estimates)) <==> Consistent(estimates)
  {
    if Consistent(estimates) {
      forall other | SameMembers(estimates, other) ensures ByActivity(other) == ByActivity(estimates) {
        MembersAgree(estimates, other);
        forall id ensures (id in ByActivity(other) <==> id in ByActivity(estimates)) && (id in ByActivity(other) ==> ByActivity(other)[id] == ByActivity(estimates)[id]) {
          LookupMeaning(estimates, id);
          LookupMeaning(other, id);
        }
      }
    } else {
      var e, f :| e in estimates && f in estimates && e.activity == f.activity && e != f;
      var endsWithE, endsWithF := MovedLast(estimates, e), MovedLast(estimates, f);
      MovedLastIs(estimates, e);
      MovedLastIs(estimates, f);
      assert ByActivity(endsWithE)[e.activity] == e && ByActivity(endsWithF)[e.activity] == f;
    }
  }

  function IndexIn(estimates: seq<Estimate>, e: Estimate): (i: nat)
    requires e in estimates
    ensures i < |estimates| && estimates[i] == e
  {
    if estimates[0] == e then 0 else 1 + IndexIn(estimates[1..], e)
  }

  function MovedLast(estimates: seq<Estimate>, e: Estimate): seq<Estimate>
    requires e in estimates
  {
    var i := IndexIn(estimates, e);
    estimates[..i] + estimates[i + 1..] + [e]
  }

  lemma MovedLastIs(estimates: seq<Estimate>, e: Estimate)
    requires e in estimates
    ensures var moved := MovedLast(estimates, e);
            SameMembers(estimates, moved) && e.activity in ByActivity(moved) && ByActivity(moved)[e.activity] == e
  {
    var i := IndexIn(estimates, e);
    var moved := MovedLast(estimates, e);
    assert estimates == estimates[..i] + [e] + estimates[i + 1..];
    assert moved[..|moved| - 1] == estimates[..i] + estimates[i + 1..];
  }

  lemma {:induction false} LookupAppend(a: seq<Estimate>, b: seq<Estimate>)
    ensures ByActivity(a + b) == ByActivity(a) + ByActivity(b)
  {
    if b == [] {
      assert a + b == a;
    } else {
      LookupAppend(a, b[..|b| - 1]);
      assert (a + b)[..|a + b| - 1] == a + b[..|b| - 1];
    }
  }

  /** Moving an estimate last decides its own activity and no other. */
  lemma MovedLastElsewhere(estimates: seq<Estimate>, e: Estimate, id: string)
    requires e in estimates && id != e.activity
    ensures id in ByActivity(MovedLast(estimates, e)) <==> id in ByActivity(estimates)
    ensures id in ByActivity(estimates) ==> ByActivity(MovedLast(estimates, e))[id] == ByActivity(estimates)[id]
  {
    var i := IndexIn(estimates, e);
    var front, back := estimates[..i], estimates[i + 1..];
    assert estimates == front + [e] + back;
    LookupOne(e);
    hide ByActivity, IndexIn;
    LookupAppend(front, [e]);
    LookupAppend(front + [e], back);
    LookupAppend(front, back);
    LookupAppend(front + back, [e]);
  }

  lemma LookupOne(e: Estimate)
    ensures ByActivity([e]) == map[e.activity := e]
  {
    assert [e][..0] == [];
  }

  // ---------------------------------------------------------------- when the order of estimates matters

  /** The guards of the selector, none of which looks at an order. */
  predicate Refuses(epoch: Epoch, policy: Policy, activities: seq<Activity>, estimates: seq<Estimate>, selectedAt: int) {
    || selectedAt >= epoch.expiresAt || epoch.policy != policy.id || !UniqueIds(activities) || activities == []
    || ByActivity(estimates).Keys != IdsOf(activities)
    || exists e :: e in estimates && (e.epoch != epoch.id || e.policy != policy.id)
  }

  /** Two values of one activity: they lie on the same side of the threshold, unless it has
      expired anyway, and rank it alike against any value of another activity. */
  predicate Indifferent(activities: seq<Activity>, estimates: seq<Estimate>, threshold: int, selectedAt: int, a: Activity, u: int, v: int) {
    && (a.expiresAt > selectedAt ==> (u > threshold <==> v > threshold))
    && forall b, g :: b in activities && g in estimates && g.activity == b.id != a.id ==>
         (BeforeAt(a, u, b, g.netValue) <==> BeforeAt(a, v, b, g.netValue))
  }

  /** Estimates of one activity may contradict each other, as long as it makes no difference. */
  predicate Harmless(activities: seq<Activity>, estimates: seq<Estimate>, threshold: int, selectedAt: int) {
    forall a, e, f :: a in activities && e in estimates && f in estimates && e.activity == a.id == f.activity && e.netValue < f.netValue ==>
      Indifferent(activities, estimates, threshold, selectedAt, a, e.netValue, f.netValue)
  }

  lemma AnyTwoValues(activities: seq<Activity>, estimates: seq<Estimate>, threshold: int, selectedAt: int, a: Activity, e: Estimate, f: Estimate)
    requires Harmless(activities, estimates, threshold, selectedAt)
    requires a in activities && e in estimates && f in estimates && e.activity == a.id == f.activity
    ensures Indifferent(activities, estimates, threshold, selectedAt, a, e.netValue, f.netValue)
  {
    if e.netValue < f.netValue {
    } else if f.netValue < e.netValue {
      assert Indifferent(activities, estimates, threshold, selectedAt, a, f.netValue, e.netValue);
    }
  }

  lemma OneOrTheOther(a: Activity, u: int, b: Activity, w: int)
    requires a.id != b.id
    ensures BeforeAt(a, u, b, w) <==> !BeforeAt(b, w, a, u)
  {
    TextTotal(a.id, b.id);
  }

  /** Whichever of their estimates come last, two activities rank the same way. */
  lemma SameRank(activities: seq<Activity>, estimates: seq<Estimate>, threshold: int, selectedAt: int, best: map<string, Estimate>, best': map<string, Estimate>,
                 a: Activity, b: Activity)
    requires Harmless(activities, estimates, threshold, selectedAt) && a in activities && b in activities
    requires a.id in best && a.id in best' && b.id in best && b.id in best' && (a.id == b.id ==> a == b)
    requires forall id :: id in best ==> best[id] in estimates && best[id].activity == id
    requires forall id :: id in best' ==> best'[id] in estimates && best'[id].activity == id
    ensures Before(best, a, b) <==> Before(best', a, b)
  {
    if a.id != b.id {
      hide BeforeAt, Harmless;
      var u, u', w, w' := best[a.id], best'[a.id], best[b.id], best'[b.id];
      AnyTwoValues(activities, estimates, threshold, selectedAt, a, u, u');
      AnyTwoValues(activities, estimates, threshold, selectedAt, b, w, w');
      OneOrTheOther(a, u'.netValue, b, w.netValue);
      OneOrTheOther(a, u'.netValue, b, w'.netValue);
    }
  }

  lemma {:induction false} GreedyAgrees(c: Context, d: Context, ranked: seq<Activity>)
    requires c.(best := d.best) == d
    requires forall a :: a in ranked ==> (Eligible(c, a) <==> Eligible(d, a))
    ensures Greedy(c, ranked) == Greedy(d, ranked)
  {
    if ranked != [] {
      GreedyAgrees(c, d, ranked[..|ranked| - 1]);
      assert ranked[|ranked| - 1] in ranked;
    }
  }

  lemma LooksUp(estimates: seq<Estimate>, other: seq<Estimate>)
    requires SameMembers(estimates, other)
    ensures ByActivity(other).Keys == ByActivity(estimates).Keys
    ensures forall id :: id in ByActivity(other) ==> ByActivity(other)[id] in estimates && ByActivity(other)[id].activity == id
  {
    MembersAgree(estimates, other);
    forall id ensures (id in ByActivity(other) <==> id in ByActivity(estimates))
              ensures id in ByActivity(other) ==> ByActivity(other)[id] in estimates && ByActivity(other)[id].activity == id
    {
      LookupMeaning(other, id);
      LookupMeaning(estimates, id);
    }
  }

  lemma IdIsListed(activities: seq<Activity>, a: Activity)
    requires a in activities
    ensures a.id in IdsOf(activities)
  {
  }

  /** A lookup that some order of the estimates yields. */
  predicate FromEstimates(best: map<string, Estimate>, activities: seq<Activity>, estimates: seq<Estimate>) {
    && (forall id :: id in best ==> best[id] in estimates && best[id].activity == id)
    && (forall a :: a in activities ==> a.id in best)
  }

  lemma SameRanking(activities: seq<Activity>, estimates: seq<Estimate>, threshold: int, selectedAt: int,
                    best: map<string, Estimate>, best': map<string, Estimate>)
    requires Harmless(activities, estimates, threshold, selectedAt) && UniqueIds(activities)
    requires FromEstimates(best, activities, estimates) && FromEstimates(best', activities, estimates)
    ensures Ranked(best, activities) == Ranked(best', activities)
  {
    DistinctMembers(activities);
    hide SortUnique, Harmless, BeforeAt, UniqueIds;
    var f, g := (a: Activity, b: Activity) => Before(best, a, b), (a: Activity, b: Activity) => Before(best', a, b);
    forall a, b | a in activities && b in activities ensures f(a, b) == g(a, b) {
      assert a in Elements(activities) && b in Elements(activities);
      SameRank(activities, estimates, threshold, selectedAt, best, best', a, b);
    }
    SortAgrees(f, g, activities);
  }

  lemma SameChoices(activities: seq<Activity>, estimates: seq<Estimate>, c: Context, d: Context)
    requires Harmless(activities, estimates, c.threshold, c.selectedAt) && c.(best := d.best) == d
    requires FromEstimates(c.best, activities, estimates) && FromEstimates(d.best, activities, estimates)
    ensures Greedy(c, Ranked(c.best, activities)) == Greedy(d, Ranked(c.best, activities))
  {
    SortElements((a: Activity, b: Activity) => Before(c.best, a, b), activities);
    hide SortUnique, Harmless, BeforeAt, Greedy;
    forall a | a in Ranked(c.best, activities) ensures Eligible(c, a) <==> Eligible(d, a) {
      assert a in Elements(Ranked(c.best, activities));
      AnyTwoValues(activities, estimates, c.threshold, c.selectedAt, a, c.best[a.id], d.best[a.id]);
    }
    GreedyAgrees(c, d, Ranked(c.best, activities));
  }

  lemma LookupsServe(activities: seq<Activity>, estimates: seq<Estimate>, other: seq<Estimate>)
    requires SameMembers(estimates, other) && ByActivity(estimates).Keys == IdsOf(activities)
    ensures FromEstimates(ByActivity(other), activities, estimates)
  {
    LooksUp(estimates, other);
    hide ByActivity, IdsOf;
    forall a | a in activities ensures a.id in ByActivity(other) {
      IdIsListed(activities, a);
      assert a.id in ByActivity(estimates).Keys;
    }
  }

  lemma SameAgenda(epoch: Epoch, policy: Policy, activities: seq<Activity>, estimates: seq<Estimate>, other: seq<Estimate>, selectedAt: int)
    requires SameMembers(estimates, other) && UniqueIds(activities) && ByActivity(estimates).Keys == IdsOf(activities)
    requires Harmless(activities, estimates, AtLeastZero(policy.minimumNetValue), selectedAt)
    ensures var c, d := ContextOf(epoch, policy, estimates, selectedAt), ContextOf(epoch, policy, other, selectedAt);
            Ranked(c.best, activities) == Ranked(d.best, activities) && Greedy(c, Ranked(c.best, activities)) == Greedy(d, Ranked(c.best, activities))
  {
    hide ByActivity, Greedy, Ranked, Harmless, UniqueIds, IdsOf, FromEstimates;
    var c, d := ContextOf(epoch, policy, estimates, selectedAt), ContextOf(epoch, policy, other, selectedAt);
    LookupsServe(activities, estimates, estimates);
    LookupsServe(activities, estimates, other);
    SameRanking(activities, estimates, c.threshold, selectedAt, c.best, d.best);
    SameChoices(activities, estimates, c, d);
  }

  /** Arrival order does not matter: any reordering of the activities, and any reordering of
      estimates that contradict each other harmlessly, if at all, yields the same result, errors
      included. */
  lemma SelectionForgetsArrival(epoch: Epoch, policy: Policy, activities: seq<Activity>, estimates: seq<Estimate>,
                                activities': seq<Activity>, estimates': seq<Estimate>, selectedAt: int)
    requires SameMembers(activities, activities') && SameMembers(estimates, estimates')
    requires Refuses(epoch, policy, activities, estimates, selectedAt)
             || Harmless(activities, estimates, AtLeastZero(policy.minimumNetValue), selectedAt)
    ensures Select(epoch, policy, activities, estimates, selectedAt) == Select(epoch, policy, activities', estimates', selectedAt)
  {
    MembersAgree(activities, activities');
    MembersAgree(estimates, estimates');
    LooksUp(estimates, estimates');
    UniqueIdsAgree(activities, activities');
    UniqueIdsAgree(activities', activities);
    assert IdsOf(activities) == IdsOf(activities');
    hide ByActivity, Greedy, UniqueIds, Ranked;
    if !Refuses(epoch, policy, activities, estimates, selectedAt) {
      RankedForgetsArrival(ByActivity(estimates'), activities, activities');
      SameAgenda(epoch, policy, activities, estimates, estimates', selectedAt);
    }
    if activities == [] { RankedNothing(ByActivity(estimates)); RankedNothing(ByActivity(estimates')); }
  }

  lemma RankedNothing(best: map<string, Estimate>)
    ensures Ranked(best, []) == []
  {
  }

  /** What a call that is not refused returns. */
  lemma SelectsRanked(epoch: Epoch, policy: Policy, activities: seq<Activity>, estimates: seq<Estimate>, selectedAt: int)
    requires !Refuses(epoch, policy, activities, estimates, selectedAt)
    ensures var r, c := Select(epoch, policy, activities, estimates, selectedAt), ContextOf(epoch, policy, estimates, selectedAt);
            var ranked := Ranked(c.best, activities);
            && r.Chosen? && r.agenda.decisions == DecisionsOf(ranked, Greedy(c, ranked).choices)
            && Elements(ranked) == Elements(activities) && Distinct(ranked)
            && Ascending((a: Activity, b: Activity) => Before(c.best, a, b), ranked)
  {
    AgendaIsSound(epoch, policy, activities, estimates, selectedAt);
    RankedIsExact(ByActivity(estimates), activities);
    hide ByActivity, Greedy, Ranked, UniqueIds, Before;
    var ranked := Ranked(ByActivity(estimates), activities);
    assert activities[0] in Elements(activities);
    assert ranked != [];
  }

  /** Where an activity stands among the decisions, and how it was chosen. */
  lemma StandsAt(epoch: Epoch, policy: Policy, activities: seq<Activity>, estimates: seq<Estimate>, selectedAt: int, a: Activity) returns (i: nat)
    requires !Refuses(epoch, policy, activities, estimates, selectedAt)
    requires a in activities
    ensures var r, c := Select(epoch, policy, activities, estimates, selectedAt), ContextOf(epoch, policy, estimates, selectedAt);
            var ranked := Ranked(c.best, activities);
            && r.Chosen? && |r.agenda.decisions| == |ranked| && i < |ranked| && ranked[i] == a
            && r.agenda.decisions[i].activity == a.id
            && (a.expiresAt > selectedAt ==> (r.agenda.decisions[i].choice == NotWorthwhile <==> NetValue(c.best, a) <= c.threshold))
            && forall k :: 0 <= k < |ranked| && r.agenda.decisions[k].activity == a.id ==> k == i
  {
    SelectsRanked(epoch, policy, activities, estimates, selectedAt);
    DistinctMembers(activities);
    hide *;
    var c := ContextOf(epoch, policy, estimates, selectedAt);
    ContextParts(epoch, policy, estimates, selectedAt);
    i := StandsIn(c, activities, Ranked(c.best, activities), a);
  }

  lemma ContextParts(epoch: Epoch, policy: Policy, estimates: seq<Estimate>, selectedAt: int)
    ensures ContextOf(epoch, policy, estimates, selectedAt).selectedAt == selectedAt
  {
  }

  lemma StandsIn(c: Context, activities: seq<Activity>, ranked: seq<Activity>, a: Activity) returns (i: nat)
    requires Elements(ranked) == Elements(activities) && Distinct(ranked) && a in activities
    requires forall x, y :: x in Elements(activities) && y in Elements(activities) && x.id == y.id ==> x == y
    ensures var decisions := DecisionsOf(ranked, Greedy(c, ranked).choices);
            && |decisions| == |ranked| && i < |ranked| && ranked[i] == a && decisions[i].activity == a.id
            && (a.expiresAt > c.selectedAt ==> (decisions[i].choice == NotWorthwhile <==> NetValue(c.best, a) <= c.threshold))
            && forall k :: 0 <= k < |ranked| && decisions[k].activity == a.id ==> k == i
  {
    hide Greedy;
    assert a in Elements(activities) && a in Elements(ranked);
    i :| 0 <= i < |ranked| && ranked[i] == a;
    ChoiceAt(c, ranked, i);
    forall k | 0 <= k < |ranked| && ranked[k].id == a.id ensures k == i {
      assert ranked[k] in Elements(ranked) && ranked[i] in Elements(ranked);
    }
  }

  /** Both orders of two estimates of one activity give the same agenda only if they rank it
      alike against every other activity and agree on whether it is worthwhile. */
  lemma SameAgendaMeans(epoch: Epoch, policy: Policy, activities: seq<Activity>, first: seq<Estimate>, last: seq<Estimate>, selectedAt: int,
                        a: Activity, b: Activity)
    requires !Refuses(epoch, policy, activities, first, selectedAt) && !Refuses(epoch, policy, activities, last, selectedAt)
    requires Select(epoch, policy, activities, first, selectedAt) == Select(epoch, policy, activities, last, selectedAt)
    requires a in activities && b in activities
    ensures var c, d := ContextOf(epoch, policy, first, selectedAt), ContextOf(epoch, policy, last, selectedAt);
            && (a.expiresAt > selectedAt ==> (NetValue(c.best, a) <= c.threshold <==> NetValue(d.best, a) <= c.threshold))
            && (a.id != b.id ==> (Before(c.best, a, b) <==> Before(d.best, a, b)))
  {
    var c, d := ContextOf(epoch, policy, first, selectedAt), ContextOf(epoch, policy, last, selectedAt);
    var i := StandsAt(epoch, policy, activities, first, selectedAt, a);
    var j := StandsAt(epoch, policy, activities, first, selectedAt, b);
    var i' := StandsAt(epoch, policy, activities, last, selectedAt, a);
    var j' := StandsAt(epoch, policy, activities, last, selectedAt, b);
    assert i == i' && j == j';
    SelectsRanked(epoch, policy, activities, first, selectedAt);
    SelectsRanked(epoch, policy, activities, last, selectedAt);
    hide Select, Refuses, Greedy, ByActivity, Ranked, BeforeAt, UniqueIds;
    if a.id != b.id {
      OneOrTheOther(a, NetValue(c.best, a), b, NetValue(c.best, b));
      OneOrTheOther(a, NetValue(d.best, a), b, NetValue(d.best, b));
      assert i < j ==> Before(c.best, a, b) && Before(d.best, a, b);
      assert j < i ==> Before(c.best, b, a) && Before(d.best, b, a);
    }
  }

  /** A reordering is refused exactly when the original is. */
  lemma RefusalForgetsOrder(epoch: Epoch, policy: Policy, activities: seq<Activity>, estimates: seq<Estimate>, other: seq<Estimate>, selectedAt: int)
    requires SameMembers(estimates, other)
    ensures Refuses(epoch, policy, activities, estimates, selectedAt) <==> Refuses(epoch, policy, activities, other, selectedAt)
  {
    LooksUp(estimates, other);
    MembersAgree(estimates, other);
    hide ByActivity, UniqueIds;
  }

  /** e or f last for one activity, g last for another. */
  lemma LastTwo(estimates: seq<Estimate>, g: Estimate, e: Estimate) returns (moved: seq<Estimate>)
    requires g in estimates && e in estimates
    ensures SameMembers(estimates, moved) && e.activity in ByActivity(moved) && ByActivity(moved)[e.activity] == e
    ensures g.activity != e.activity ==> g.activity in ByActivity(moved) && ByActivity(moved)[g.activity] == g
  {
    var once := MovedLast(estimates, g);
    MovedLastIs(estimates, g);
    MembersAgree(estimates, once);
    moved := MovedLast(once, e);
    MovedLastIs(once, e);
    if g.activity != e.activity { MovedLastElsewhere(once, e, g.activity); }
  }

  /** Any order is as good as another. */
  ghost predicate AnyOrder(epoch: Epoch, policy: Policy, activities: seq<Activity>, estimates: seq<Estimate>, selectedAt: int) {
    forall other :: SameMembers(estimates, other) ==>
      Select(epoch, policy, activities, other, selectedAt) == Select(epoch, policy, activities, estimates, selectedAt)
  }

  lemma AnyOrderIsHarmless(epoch: Epoch, policy: Policy, activities: seq<Activity>, estimates: seq<Estimate>, selectedAt: int,
                           a: Activity, e: Estimate, f: Estimate, b: Activity, g: Estimate)
    requires !Refuses(epoch, policy, activities, estimates, selectedAt)
    requires AnyOrder(epoch, policy, activities, estimates, selectedAt)
    requires a in activities && b in activities && e in estimates && f in estimates && g in estimates
    requires e.activity == a.id == f.activity && g.activity == b.id
    ensures a.expiresAt > selectedAt ==>
              (e.netValue > AtLeastZero(policy.minimumNetValue) <==> f.netValue > AtLeastZero(policy.minimumNetValue))
    ensures b.id != a.id ==> (BeforeAt(a, e.netValue, b, g.netValue) <==> BeforeAt(a, f.netValue, b, g.netValue))
  {
    var first := LastTwo(estimates, g, e);
    var last := LastTwo(estimates, g, f);
    RefusalForgetsOrder(epoch, policy, activities, estimates, first, selectedAt);
    RefusalForgetsOrder(epoch, policy, activities, estimates, last, selectedAt);
    hide Select, Refuses, ByActivity, BeforeAt, UniqueIds;
    SameAgendaMeans(epoch, policy, activities, first, last, selectedAt, a, b);
  }

  /** Exactly when the order of the estimates does not matter to a call: it is refused anyway, or
      whatever estimates of one activity contradict each other do so harmlessly. */
  lemma SelectionIgnoresOrderExactly(epoch: Epoch, policy: Policy, activities: seq<Activity>, estimates: seq<Estimate>, selectedAt: int)
    ensures (forall other :: SameMembers(estimates, other) ==>
               Select(epoch, policy, activities, other, selectedAt) == Select(epoch, policy, activities, estimates, selectedAt))
            <==> Refuses(epoch, policy, activities, estimates, selectedAt)
                 || Harmless(activities, estimates, AtLeastZero(policy.minimumNetValue), selectedAt)
  {
    hide Select, Refuses, BeforeAt, UniqueIds, ByActivity;
    var threshold := AtLeastZero(policy.minimumNetValue);
    if Refuses(epoch, policy, activities, estimates, selectedAt) || Harmless(activities, estimates, threshold, selectedAt) {
      forall other | SameMembers(estimates, other)
        ensures Select(epoch, policy, activities, other, selectedAt) == Select(epoch, policy, activities, estimates, selectedAt)
      {
        SelectionForgetsArrival(epoch, policy, activities, estimates, activities, other, selectedAt);
      }
    } else if AnyOrder(epoch, policy, activities, estimates, selectedAt) {
      forall a, e, f | a in activities && e in estimates && f in estimates && e.activity == a.id == f.activity && e.netValue < f.netValue
        ensures Indifferent(activities, estimates, threshold, selectedAt, a, e.netValue, f.netValue)
      {
        AnyOrderIsHarmless(epoch, policy, activities, estimates, selectedAt, a, e, f, a, e);
        forall b, g | b in activities && g in estimates && g.activity == b.id != a.id
          ensures BeforeAt(a, e.netValue, b, g.netValue) <==> BeforeAt(a, f.netValue, b, g.netValue)
        {
          AnyOrderIsHarmless(epoch, policy, activities, estimates, selectedAt, a, e, f, b, g);
        }
      }
    }
  }

  lemma UniqueIdsAgree(a: seq<Activity>, b: seq<Activity>)
    requires SameMembers(a, b)
    ensures UniqueIds(a) ==> UniqueIds(b)
  {
    if UniqueIds(a) {
      forall i, j | 0 <= i < j < |b| ensures b[i].id != b[j].id {
        if b[i] == b[j] {
          Twice(b, i, j);
          Once(a, b[i]);
        } else {
          assert b[i] in multiset(b) && b[j] in multiset(b);
          assert b[i] in multiset(a) && b[j] in multiset(a);
          var x :| 0 <= x < |a| && a[x] == b[i];
          var y :| 0 <= y < |a| && a[y] == b[j];
        }
      }
    }
  }

  lemma Twice(b: seq<Activity>, i: nat, j: nat)
    requires i < j < |b| && b[i] == b[j]
    ensures multiset(b)[b[i]] >= 2
  {
    assert b == b[..i] + [b[i]] + b[i + 1..j] + [b[j]] + b[j + 1..];
  }

  lemma {:induction false} Once(a: seq<Activity>, x: Activity)
    requires UniqueIds(a)
    ensures multiset(a)[x] <= 1
  {
    if a != [] {
      var n := |a| - 1;
      Once(a[..n], x);
      assert a == a[..n] + [a[n]];
      if a[n] == x {
        assert x !in a[..n];
        assert x !in multiset(a[..n]);
      }
    }
  }

  lemma DistinctMembers(activities: seq<Activity>)
    requires UniqueIds(activities)
    ensures forall a, b :: a in Elements(activities) && b in Elements(activities) && a.id == b.id ==> a == b
  {
    forall a, b | a in Elements(activities) && b in Elements(activities) && a.id == b.id ensures a == b {
      var i :| 0 <= i < |activities| && activities[i] == a;
      var j :| 0 <= j < |activities| && activities[j] == b;
    }
  }

  lemma RankedForgetsArrival(best: map<string, Estimate>, a: seq<Activity>, b: seq<Activity>)
    requires SameMembers(a, b) && UniqueIds(a)
    ensures Ranked(best, a) == Ranked(best, b)
  {
    MembersAgree(a, b);
    DistinctMembers(a);
    BeforeOrders(best, Elements(a));
    assert Elements(a) == Elements(b);
    SortForgetsArrival((x: Activity, y: Activity) => Before(best, x, y), a, b);
  }

  /** With contradicting estimates arrival order does matter: the one that comes last decides. */
  lemma ContradictingEstimatesDecideByArrival(selectedAt: int)
    ensures var a := Activity("a", NOTHING, 0, 0, selectedAt + 1);
            var good, bad := Estimate("a", "e", "p", 1), Estimate("a", "e", "p", 0);
            var epoch := Epoch("e", "p", selectedAt + 1, NOTHING);
            && Select(epoch, Policy("p", 0), [a], [bad, good], selectedAt)
               == Chosen(Agenda([Decision("a", Selected)], NOTHING, NOTHING))
            && Select(epoch, Policy("p", 0), [a], [good, bad], selectedAt)
               == Chosen(Agenda([Decision("a", NotWorthwhile)], NOTHING, NOTHING))
  {
    var a := Activity("a", NOTHING, 0, 0, selectedAt + 1);
    var good, bad := Estimate("a", "e", "p", 1), Estimate("a", "e", "p", 0);
    OneCandidate(a, good, bad, "e", "p", selectedAt);
    OneCandidate(a, bad, good, "e", "p", selectedAt);
  }

  lemma OneCandidate(a: Activity, first: Estimate, last: Estimate, epoch: string, policy: string, selectedAt: int)
    requires a.resources == NOTHING && a.expiresAt == selectedAt + 1
    requires first.activity == a.id == last.activity && first.epoch == epoch == last.epoch && first.policy == policy == last.policy
    ensures Select(Epoch(epoch, policy, selectedAt + 1, NOTHING), Policy(policy, 0), [a], [first, last], selectedAt)
            == Chosen(Agenda([Decision(a.id, if last.netValue > 0 then Selected else NotWorthwhile)], NOTHING, NOTHING))
  {
    var c := ContextOf(Epoch(epoch, policy, selectedAt + 1, NOTHING), Policy(policy, 0), [first, last], selectedAt);
    OneActivity(a);
    hide ByActivity, Greedy, SortUnique, BeforeAt, UniqueIds, IdsOf;
    LookupPair(first, last);
    SortOne((x: Activity, y: Activity) => Before(c.best, x, y), a);
    GreedyOne(c, a);
    ChoiceOfFreeActivity(c, a);
    assert NOTHING.Minus(NOTHING) == Some(NOTHING);
    hide ChoiceFor;
    assert DecisionsOf([a], Greedy(c, [a]).choices) == [Decision(a.id, if last.netValue > 0 then Selected else NotWorthwhile)];
  }

  lemma ChoiceOfFreeActivity(c: Context, a: Activity)
    requires a.resources == NOTHING == c.ceiling && a.expiresAt > c.selectedAt
    ensures ChoiceFor(c, NOTHING, a) == if NetValue(c.best, a) > c.threshold then Selected else NotWorthwhile
  {
    hide Resources.Plus;
    NothingAdds(a.resources);
  }

  lemma NothingAdds(r: Resources)
    ensures NOTHING.Plus(r) == r
  {
  }

  lemma OneActivity(a: Activity)
    ensures UniqueIds([a]) && IdsOf([a]) == {a.id}
  {
    assert a in [a];
  }

  lemma LookupPair(first: Estimate, last: Estimate)
    requires first.activity == last.activity
    ensures ByActivity([first, last]) == map[first.activity := last]
  {
    assert [first][..0] == [] && ByActivity([first]) == map[first.activity := first];
    assert [first, last][..1] == [first];
  }

  lemma GreedyOne(c: Context, a: Activity)
    ensures var choice := ChoiceFor(c, NOTHING, a);
            Greedy(c, [a]) == Pass(if choice == Selected then a.resources else NOTHING, [choice])
  {
    assert [a][..0] == [] && Greedy(c, []) == Pass(NOTHING, []);
    NothingAdds(a.resources);
  }

  // ---------------------------------------------------------------- what the greedy pass guarantees

  function Total(ranked: seq<Activity>, choices: seq<Choice>): Resources
    requires |choices| == |ranked|
  {
    if ranked == [] then NOTHING
    else
      var n := |ranked| - 1;
      var before := Total(ranked[..n], choices[..n]);
      if choices[n] == Selected then before.Plus(ranked[n].resources) else before
  }

  lemma GreedyPrefix(c: Context, ranked: seq<Activity>, n: nat)
    requires n <= |ranked|
    ensures Greedy(c, ranked[..n]).choices == Greedy(c, ranked).choices[..n]
    decreases |ranked| - n
  {
    if n == |ranked| {
      assert ranked[..n] == ranked;
    } else {
      GreedyPrefix(c, ranked, n + 1);
      assert ranked[..n + 1][..n] == ranked[..n];
    }
  }

  /** What is consumed is what the selected activities cost together, and it fits the ceiling:
      no component exceeds it by more than one unit, and the activity count not at all. */
  lemma {:induction false} ConsumptionFits(c: Context, ranked: seq<Activity>)
    ensures var consumed := Greedy(c, ranked).consumed;
            && consumed == Total(ranked, Greedy(c, ranked).choices)
            && consumed.activities <= c.ceiling.activities && consumed.compute <= c.ceiling.compute + 1
            && consumed.wallTime <= c.ceiling.wallTime + 1 && consumed.attention <= c.ceiling.attention + 1
            && consumed.privacyRisk <= c.ceiling.privacyRisk + 1
  {
    if ranked != [] {
      ConsumptionFits(c, ranked[..|ranked| - 1]);
    }
  }

  lemma {:induction false} ConsumptionGrows(c: Context, ranked: seq<Activity>, n: nat)
    requires n <= |ranked|
    ensures Greedy(c, ranked[..n]).consumed.NoLargerThan(Greedy(c, ranked).consumed)
    ensures NOTHING.NoLargerThan(Greedy(c, ranked).consumed)
    decreases |ranked|
  {
    if n == |ranked| {
      assert ranked[..n] == ranked;
      if n > 0 {
        ConsumptionGrows(c, ranked[..n - 1], n - 1);
      }
    } else {
      ConsumptionGrows(c, ranked[..|ranked| - 1], n);
      assert ranked[..|ranked| - 1][..n] == ranked[..n];
    }
  }

  /** Each choice is made on what the activities ranked above have consumed. */
  lemma ChoiceAt(c: Context, ranked: seq<Activity>, i: nat)
    requires i < |ranked|
    ensures Greedy(c, ranked).choices[i] == ChoiceFor(c, Greedy(c, ranked[..i]).consumed, ranked[i])
    ensures Greedy(c, ranked).choices[i] == Selected ==>
              Greedy(c, ranked[..i + 1]).consumed == Greedy(c, ranked[..i]).consumed.Plus(ranked[i].resources)
  {
    GreedyPrefix(c, ranked, i + 1);
    assert ranked[..i + 1][..i] == ranked[..i];
  }

  /** Nothing deferred would still fit beside what was finally selected. */
  lemma DeferredDoesNotFit(c: Context, ranked: seq<Activity>, i: nat)
    requires i < |ranked| && Greedy(c, ranked).choices[i] == Deferred
    ensures !Greedy(c, ranked).consumed.Plus(ranked[i].resources).FitsWithin(c.ceiling)
  {
    ChoiceAt(c, ranked, i);
    ConsumptionGrows(c, ranked, i);
  }

  /** Envy-freeness: an eligible activity ranked above a selected one, and no larger in any
      resource, is selected too. */
  lemma NoEnvy(c: Context, ranked: seq<Activity>, i: nat, j: nat)
    requires i < j < |ranked|
    requires Eligible(c, ranked[i]) && Greedy(c, ranked).choices[j] == Selected
    requires ranked[i].resources.NoLargerThan(ranked[j].resources)
    ensures Greedy(c, ranked).choices[i] == Selected
  {
    ChoiceAt(c, ranked, i);
    ChoiceAt(c, ranked, j);
    ConsumptionGrows(c, ranked[..j], i);
    assert ranked[..j][..i] == ranked[..i];
  }

  /** Only eligible activities are selected or deferred, and only ineligible ones suppressed. */
  lemma SuppressedExactlyWhenIneligible(c: Context, ranked: seq<Activity>, i: nat)
    requires i < |ranked|
    ensures Eligible(c, ranked[i]) <==> Greedy(c, ranked).choices[i] in {Selected, Deferred}
  {
    ChoiceAt(c, ranked, i);
  }

  /** One component of the books: what is left and what was consumed make up the ceiling, but
      for the one unit of tolerance. */
  predicate Balances(ceiling: int, consumed: int, remaining: int) {
    remaining >= 0 && (consumed + remaining == ceiling || (consumed == ceiling + 1 && remaining == 0))
  }

  /** The agenda of an epoch: one decision per activity in rank order, the books balance, no
      ceiling is exceeded, and drawing up what remains never raises. */
  lemma AgendaIsSound(epoch: Epoch, policy: Policy, activities: seq<Activity>, estimates: seq<Estimate>, selectedAt: int)
    ensures var r := Select(epoch, policy, activities, estimates, selectedAt);
            && r != BudgetOverdrawn
            && (r.Chosen? ==>
                  var c, ranked := ContextOf(epoch, policy, estimates, selectedAt), Ranked(ByActivity(estimates), activities);
                  && Elements(ranked) == Elements(activities) && Distinct(ranked)
                  && Ascending((a: Activity, b: Activity) => Before(c.best, a, b), ranked)
                  && r.agenda.decisions == DecisionsOf(ranked, Greedy(c, ranked).choices)
                  && r.agenda.consumed == Total(ranked, Greedy(c, ranked).choices)
                  && r.agenda.consumed.activities + r.agenda.remaining.activities == epoch.ceiling.activities
                  && Balances(epoch.ceiling.compute, r.agenda.consumed.compute, r.agenda.remaining.compute)
                  && Balances(epoch.ceiling.wallTime, r.agenda.consumed.wallTime, r.agenda.remaining.wallTime)
                  && Balances(epoch.ceiling.attention, r.agenda.consumed.attention, r.agenda.remaining.attention)
                  && Balances(epoch.ceiling.privacyRisk, r.agenda.consumed.privacyRisk, r.agenda.remaining.privacyRisk))
  {
    var c := ContextOf(epoch, policy, estimates, selectedAt);
    var ranked := Ranked(c.best, activities);
    ConsumptionFits(c, ranked);
    if UniqueIds(activities) {
      RankedIsExact(c.best, activities);
    }
    hide Greedy, Ranked, Total, ByActivity, UniqueIds;
  }

  lemma RankedIsExact(best: map<string, Estimate>, activities: seq<Activity>)
    requires UniqueIds(activities)
    ensures var ranked := Ranked(best, activities);
            && Elements(ranked) == Elements(activities) && Distinct(ranked)
            && Ascending((a: Activity, b: Activity) => Before(best, a, b), ranked)
  {
    var less := (a: Activity, b: Activity) => Before(best, a, b);
    DistinctMembers(activities);
    BeforeOrders(best, Elements(activities));
    SortElements(less, activities);
    SortAscending(less, activities);
    var ranked := Ranked(best, activities);
    forall i, j | 0 <= i < j < |ranked| ensures ranked[i] != ranked[j] {
      assert ranked[i] in Elements(ranked) && less(ranked[i], ranked[j]);
    }
  }

  // ---------------------------------------------------------------- what an agenda means

  /** The value that counts for an activity is that of its last estimate. */
  lemma {:induction false} LastEstimateCounts(estimates: seq<Estimate>, id: string)
    requires id in ByActivity(estimates)
    ensures exists k :: 0 <= k < |estimates| && estimates[k] == ByActivity(estimates)[id] && estimates[k].activity == id
                        && forall j :: k < j < |estimates| ==> estimates[j].activity != id
  {
    var n := |estimates| - 1;
    if estimates[n].activity != id {
      LastEstimateCounts(estimates[..n], id);
      var k :| 0 <= k < n && estimates[..n][k] == ByActivity(estimates[..n])[id] && estimates[..n][k].activity == id
               && forall j :: k < j < n ==> estimates[..n][j].activity != id;
      assert estimates[k] == estimates[..n][k];
      forall j | k < j < |estimates| ensures estimates[j].activity != id {
        if j < n { assert estimates[j] == estimates[..n][j]; }
      }
    }
  }

  /** How an agenda comes about: its candidates in rank order, and a choice for each of them. */
  ghost predicate Arises(c: Context, activities: seq<Activity>, agenda: Agenda, ranked: seq<Activity>, choices: seq<Choice>) {
    && UniqueIds(activities) && ranked == Ranked(c.best, activities) && c.best.Keys == IdsOf(activities)
    && choices == Greedy(c, ranked).choices && agenda.consumed == Greedy(c, ranked).consumed
    && agenda.decisions == DecisionsOf(ranked, choices)
    && Elements(ranked) == Elements(activities) && Distinct(ranked)
    && Ascending((a: Activity, b: Activity) => Before(c.best, a, b), ranked)
  }

  lemma ChosenArises(epoch: Epoch, policy: Policy, activities: seq<Activity>, estimates: seq<Estimate>, selectedAt: int)
    returns (ranked: seq<Activity>, choices: seq<Choice>)
    requires Select(epoch, policy, activities, estimates, selectedAt).Chosen?
    ensures Arises(ContextOf(epoch, policy, estimates, selectedAt), activities, Select(epoch, policy, activities, estimates, selectedAt).agenda, ranked, choices)
  {
    var c := ContextOf(epoch, policy, estimates, selectedAt);
    ranked := Ranked(c.best, activities);
    choices := Greedy(c, ranked).choices;
    RankedIsExact(c.best, activities);
    hide Greedy, Ranked, ByActivity, UniqueIds, DecisionsOf, IdsOf;
  }

  /** Every activity has one decision, and every decision is on an activity. */
  lemma PlaceOf(c: Context, activities: seq<Activity>, agenda: Agenda, ranked: seq<Activity>, choices: seq<Choice>, a: Activity) returns (i: nat)
    requires Arises(c, activities, agenda, ranked, choices) && a in activities
    ensures i < |ranked| == |choices| == |agenda.decisions| && ranked[i] == a && agenda.decisions[i] == Decision(a.id, choices[i]) && a.id in c.best
    ensures forall d :: d in agenda.decisions && d.activity == a.id ==> d == agenda.decisions[i]
  {
    hide Before, Ascending, Greedy, UniqueIds;
    assert a in Elements(activities) && a in Elements(ranked);
    i :| 0 <= i < |ranked| && ranked[i] == a;
    DistinctMembers(activities);
    forall d | d in agenda.decisions && d.activity == a.id ensures d == agenda.decisions[i] {
      var k :| 0 <= k < |agenda.decisions| && agenda.decisions[k] == d;
      assert ranked[k] in Elements(ranked);
    }
  }

  /** Each activity gets the decision its own fields call for, spelled out: past its expiry it
      is suppressed, and so it is with a value that is not positive or not above the policy's
      minimum; otherwise it is selected or deferred, and it is deferred only if it would exceed
      some ceiling beside everything that was selected. */
  lemma DecisionsAreExact(epoch: Epoch, policy: Policy, activities: seq<Activity>, estimates: seq<Estimate>, selectedAt: int, a: Activity)
    requires Select(epoch, policy, activities, estimates, selectedAt).Chosen? && a in activities
    ensures a.id in ByActivity(estimates)
    ensures var agenda, value := Select(epoch, policy, activities, estimates, selectedAt).agenda, ByActivity(estimates)[a.id].netValue;
            && (Decision(a.id, Expired) in agenda.decisions <==> a.expiresAt <= selectedAt)
            && (Decision(a.id, NotWorthwhile) in agenda.decisions <==> a.expiresAt > selectedAt && (value <= 0 || value <= policy.minimumNetValue))
            && (Decision(a.id, Selected) in agenda.decisions || Decision(a.id, Deferred) in agenda.decisions <==>
                  a.expiresAt > selectedAt && value > 0 && value > policy.minimumNetValue)
            && !(Decision(a.id, Selected) in agenda.decisions && Decision(a.id, Deferred) in agenda.decisions)
            && (Decision(a.id, Deferred) in agenda.decisions ==>
                  || agenda.consumed.activities + a.resources.activities > epoch.ceiling.activities
                  || agenda.consumed.compute + a.resources.compute > epoch.ceiling.compute + 1
                  || agenda.consumed.wallTime + a.resources.wallTime > epoch.ceiling.wallTime + 1
                  || agenda.consumed.attention + a.resources.attention > epoch.ceiling.attention + 1
                  || agenda.consumed.privacyRisk + a.resources.privacyRisk > epoch.ceiling.privacyRisk + 1)
  {
    var ranked, choices := ChosenArises(epoch, policy, activities, estimates, selectedAt);
    hide Select, UniqueIds, ByActivity, Greedy, IdsOf, DecisionsOf, Ranked;
    var c := ContextOf(epoch, policy, estimates, selectedAt);
    var agenda := Select(epoch, policy, activities, estimates, selectedAt).agenda;
    var i := PlaceOf(c, activities, agenda, ranked, choices, a);
    ChoiceAt(c, ranked, i);
    if choices[i] == Deferred { DeferredDoesNotFit(c, ranked, i); }
    forall choice ensures Decision(a.id, choice) in agenda.decisions <==> choices[i] == choice {
    }
  }

  /** The decisions come by falling value; at equal value by falling urgency, at equal urgency by
      falling confidence, at equal confidence by rising id. */
  lemma DecisionsDescend(epoch: Epoch, policy: Policy, activities: seq<Activity>, estimates: seq<Estimate>, selectedAt: int,
                         i: nat, j: nat, a: Activity, b: Activity)
    requires Select(epoch, policy, activities, estimates, selectedAt).Chosen? && a in activities && b in activities
    requires var decisions := Select(epoch, policy, activities, estimates, selectedAt).agenda.decisions;
             i < j < |decisions| && decisions[i].activity == a.id && decisions[j].activity == b.id
    ensures a.id in ByActivity(estimates) && b.id in ByActivity(estimates)
    ensures var u, v := ByActivity(estimates)[a.id].netValue, ByActivity(estimates)[b.id].netValue;
            && u >= v
            && (u == v ==> a.urgency >= b.urgency)
            && (u == v && a.urgency == b.urgency ==> a.confidence >= b.confidence)
            && (u == v && a.urgency == b.urgency && a.confidence == b.confidence ==> TextLess(a.id, b.id))
  {
    var ranked, choices := ChosenArises(epoch, policy, activities, estimates, selectedAt);
    hide Select, UniqueIds, ByActivity, Greedy, IdsOf, Ranked, TextLess;
    var c := ContextOf(epoch, policy, estimates, selectedAt);
    var agenda := Select(epoch, policy, activities, estimates, selectedAt).agenda;
    var x := PlaceOf(c, activities, agenda, ranked, choices, a);
    var y := PlaceOf(c, activities, agenda, ranked, choices, b);
    DistinctMembers(activities);
    assert ranked[i] in Elements(ranked) && ranked[j] in Elements(ranked);
    assert ranked[i] == a && ranked[j] == b;
    var less := (a: Activity, b: Activity) => Before(c.best, a, b);
    assert less(ranked[i], ranked[j]);
  }

  lemma InOrder(less: (Activity, Activity) -> bool, ranked: seq<Activity>, i: nat, j: nat)
    requires Ascending(less, ranked) && i < |ranked| && j < |ranked| && ranked[i] != ranked[j] && !less(ranked[j], ranked[i])
    ensures i < j
  {
  }

  /** Envy-freeness in terms of the activities: one that is not expired and worth selecting, and
      no larger in any resource than a selected one, is selected too if its value is higher, or,
      at equal values, its urgency, at equal urgencies its confidence, or, at equal confidences,
      its id comes first. */
  lemma NobodyEnvies(epoch: Epoch, policy: Policy, activities: seq<Activity>, estimates: seq<Estimate>, selectedAt: int, a: Activity, b: Activity)
    requires Select(epoch, policy, activities, estimates, selectedAt).Chosen? && a in activities && b in activities
    requires Decision(b.id, Selected) in Select(epoch, policy, activities, estimates, selectedAt).agenda.decisions
    requires a.id in ByActivity(estimates) && b.id in ByActivity(estimates)
    requires var u, v := ByActivity(estimates)[a.id].netValue, ByActivity(estimates)[b.id].netValue;
             && a.expiresAt > selectedAt && u > 0 && u > policy.minimumNetValue
             && (|| u > v
                 || (u == v && a.urgency > b.urgency)
                 || (u == v && a.urgency == b.urgency && a.confidence > b.confidence)
                 || (u == v && a.urgency == b.urgency && a.confidence == b.confidence && TextLess(a.id, b.id)))
    requires a.resources.activities <= b.resources.activities && a.resources.compute <= b.resources.compute
             && a.resources.wallTime <= b.resources.wallTime && a.resources.attention <= b.resources.attention
             && a.resources.privacyRisk <= b.resources.privacyRisk
    ensures Decision(a.id, Selected) in Select(epoch, policy, activities, estimates, selectedAt).agenda.decisions
  {
    var agenda := Select(epoch, policy, activities, estimates, selectedAt).agenda;
    var ranked, choices := ChosenArises(epoch, policy, activities, estimates, selectedAt);
    var c := ContextOf(epoch, policy, estimates, selectedAt);
    TextTotal(a.id, a.id);
    TextTotal(a.id, b.id);
    hide Select, UniqueIds, ByActivity, Greedy, IdsOf, Ranked, TextLess;
    var i := PlaceOf(c, activities, agenda, ranked, choices, a);
    var j := PlaceOf(c, activities, agenda, ranked, choices, b);
    InOrder((a: Activity, b: Activity) => Before(c.best, a, b), ranked, i, j);
    NoEnvy(c, ranked, i, j);
  }

  /** One component of what the selected activities cost. */
  function Spent(ranked: seq<Activity>, choices: seq<Choice>, of: Resources -> int): int
    requires |choices| == |ranked|
  {
    if ranked == [] then 0
    else
      var n := |ranked| - 1;
      Spent(ranked[..n], choices[..n], of) + if choices[n] == Selected then of(ranked[n].resources) else 0
  }

  lemma {:induction false} TotalIsSpent(ranked: seq<Activity>, choices: seq<Choice>)
    requires |choices| == |ranked|
    ensures var total := Total(ranked, choices);
            && total.activities == Spent(ranked, choices, (r: Resources) => r.activities)
            && total.compute == Spent(ranked, choices, (r: Resources) => r.compute)
            && total.wallTime == Spent(ranked, choices, (r: Resources) => r.wallTime)
            && total.attention == Spent(ranked, choices, (r: Resources) => r.attention)
            && total.privacyRisk == Spent(ranked, choices, (r: Resources) => r.privacyRisk)
  {
    if ranked != [] {
      TotalIsSpent(ranked[..|ranked| - 1], choices[..|ranked| - 1]);
    }
  }

  // ---------------------------------------------------------------- the selector

  /** The greedy pass in place: consumption and decisions grow candidate by candidate. */
  method SelectStableGreedy(epoch: Epoch, policy: Policy, activities: seq<Activity>, estimates: seq<Estimate>, selectedAt: int)
    returns (r: Result)
    ensures r == Select(epoch, policy, activities, estimates, selectedAt)
  {
    if selectedAt >= epoch.expiresAt {
      return EpochExpired;
    }
    if epoch.policy != policy.id {
      return PolicyDiffers;
    }
    if !UniqueIds(activities) {
      return ActivitiesNotUnique;
    }
    var best := ByActivity(estimates);
    if best.Keys != IdsOf(activities) {
      return EstimatesIncomplete;
    }
    if exists e :: e in estimates && (e.epoch != epoch.id || e.policy != policy.id) {
      return EstimatesForeign;
    }
    var ranked := Ranked(best, activities);
    var threshold := if policy.minimumNetValue > 0 then policy.minimumNetValue else 0;
    var consumed := NOTHING;
    var decisions: seq<Decision> := [];
    ghost var c := ContextOf(epoch, policy, estimates, selectedAt);
    assert Greedy(c, ranked[..0]) == Pass(NOTHING, []);
    hide Greedy, Ranked, ByActivity, UniqueIds, DecisionsOf;
    EmptyDecisions();
    for i := 0 to |ranked|
      invariant consumed == Greedy(c, ranked[..i]).consumed
      invariant decisions == DecisionsOf(ranked[..i], Greedy(c, ranked[..i]).choices)
    {
      var a := ranked[i];
      GreedyStep(c, ranked, i);
      var choice;
      if a.expiresAt <= selectedAt {
        choice := Expired;
      } else if NetValue(best, a) <= threshold {
        choice := NotWorthwhile;
      } else {
        var proposed := consumed.Plus(a.resources);
        if proposed.FitsWithin(epoch.ceiling) {
          choice := Selected;
          consumed := proposed;
        } else {
          choice := Deferred;
        }
      }
      decisions := decisions + [Decision(a.id, choice)];
    }
    assert ranked[..|ranked|] == ranked;
    DecisionCount(ranked, Greedy(c, ranked).choices);
    if decisions == [] {
      return NothingToSelect;
    }
    var remaining := epoch.ceiling.Minus(consumed);
    r := if remaining.None? then BudgetOverdrawn else Chosen(Agenda(decisions, consumed, remaining.value));
  }

  lemma EmptyDecisions()
    ensures DecisionsOf([], []) == []
  {
  }

  lemma DecisionCount(ranked: seq<Activity>, choices: seq<Choice>)
    requires |choices| == |ranked|
    ensures |DecisionsOf(ranked, choices)| == |ranked|
  {
  }

  lemma GreedyStep(c: Context, ranked: seq<Activity>, i: nat)
    requires i < |ranked|
    ensures var before, after := Greedy(c, ranked[..i]), Greedy(c, ranked[..i + 1]);
            var choice := ChoiceFor(c, before.consumed, ranked[i]);
            && after.consumed == (if choice == Selected then before.consumed.Plus(ranked[i].resources) else before.consumed)
            && DecisionsOf(ranked[..i + 1], after.choices) == DecisionsOf(ranked[..i], before.choices) + [Decision(ranked[i].id, choice)]
  {
    assert ranked[..i + 1][..i] == ranked[..i];
  }
}
