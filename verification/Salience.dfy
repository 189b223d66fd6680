/** Resolution of signals into attention dispositions: noisy-or aggregation, hard and graded
    inhibition, and a budget on waking. Scores are exact reals up to the resolver's rounding. */
module Salience {
  import opened Basics
  import opened Sequences

  datatype Disposition = ReflexProposal | Wake | Remember | Defer | Suppress

  function Rank(d: Disposition): nat {
    match d
    case ReflexProposal => 4
    case Wake => 3
    case Remember => 2
    case Defer => 1
    case Suppress => 0
  }

  datatype Mode = Hard | Graded(strength: real)
  datatype Role = Excitatory | Inhibitory(inhibits: seq<string>, mode: Mode)

  datatype Signal = Signal(
    id: string,
    kind: string,
    subject: string,
    confidence: real,
    salience: real,
    urgency: real,
    expectedValue: real,
    validFrom: int,
    validUntil: int,
    precedence: int,
    role: Role,
    suggested: Disposition)
  {
    /** The bounds under which a signal can be constructed. */
    predicate WellFormed() {
      && 0.0 <= confidence <= 1.0 && 0.0 <= salience <= 1.0 && 0.0 <= urgency <= 1.0 && 0.0 <= expectedValue
      && validFrom < validUntil
      && (role.Inhibitory? ==> role.inhibits != [] && (role.mode.Graded? ==> 0.0 < role.mode.strength <= 1.0))
    }

    predicate ActiveAt(at: int) { validFrom <= at < validUntil }
  }

  /** `matches` is the glob match of a signal kind; `round` the rounding of scores. */
  datatype Resolver = Resolver(
    wake: real,
    remember: real,
    urgency: real,
    scale: real,
    budget: Option<nat>,
    matches: (string, string) -> bool,
    round: real -> real)
  {
    ghost predicate WellFormed() {
      && 0.0 <= wake <= 1.0 && 0.0 <= remember <= 1.0 && 0.0 <= urgency <= 1.0 && scale > 0.0
      && round(0.0) == 0.0 && round(1.0) == 1.0 && forall a, b :: a <= b ==> round(a) <= round(b)
    }
  }

  ghost predicate AllWellFormed(signals: seq<Signal>) {
    forall i :: 0 <= i < |signals| ==> signals[i].WellFormed()
  }

  // ---------------------------------------------------------------- one subject

  predicate Opposes(r: Resolver, inhibitor: Signal, s: Signal) {
    && inhibitor.role.Inhibitory?
    && (inhibitor.subject == "*" || inhibitor.subject == s.subject)
    && inhibitor.precedence >= s.precedence
    && exists i :: 0 <= i < |inhibitor.role.inhibits| && r.matches(s.kind, inhibitor.role.inhibits[i])
  }

  predicate Blocks(r: Resolver, inhibitor: Signal, s: Signal) {
    Opposes(r, inhibitor, s) && inhibitor.role.mode.Hard?
  }

  predicate Grades(r: Resolver, inhibitor: Signal, s: Signal) {
    Opposes(r, inhibitor, s) && inhibitor.role.mode.Graded?
  }

  predicate Blocked(r: Resolver, s: Signal, inhibitors: seq<Signal>) {
    exists x :: x in inhibitors && Blocks(r, x, s)
  }

  function Damping(r: Resolver, inhibitor: Signal, s: Signal): real {
    if Grades(r, inhibitor, s) then 1.0 - inhibitor.role.mode.strength * inhibitor.confidence * inhibitor.salience else 1.0
  }

  /** The product of what every modulator leaves of a signal. */
  function Attenuation(r: Resolver, s: Signal, inhibitors: seq<Signal>): real {
    if inhibitors == [] then 1.0
    else Attenuation(r, s, inhibitors[..|inhibitors| - 1]) * Damping(r, inhibitors[|inhibitors| - 1], s)
  }

  function Contribution(r: Resolver, s: Signal): real
    requires r.scale > 0.0 && s.expectedValue >= 0.0
  {
    var normalized := s.expectedValue / (s.expectedValue + r.scale);
    var weighted := 0.7 * s.salience + 0.2 * s.urgency + 0.1 * normalized;
    if s.confidence * weighted < 1.0 then s.confidence * weighted else 1.0
  }

  /** What a signal leaves open. */
  function Factor(r: Resolver, s: Signal, inhibitors: seq<Signal>): real
    requires r.scale > 0.0 && s.expectedValue >= 0.0
  {
    1.0 - Contribution(r, s) * Attenuation(r, s, inhibitors)
  }

  /** The probability that none of the scored signals holds. */
  function Miss(r: Resolver, scored: seq<Signal>, inhibitors: seq<Signal>): real
    requires r.scale > 0.0 && AllWellFormed(scored)
  {
    if scored == [] then 1.0
    else
      var s := scored[|scored| - 1];
      Miss(r, scored[..|scored| - 1], inhibitors) * Factor(r, s, inhibitors)
  }

  function Effective(r: Resolver, signals: seq<Signal>, inhibitors: seq<Signal>): seq<Signal> {
    Select(signals, s => !Blocked(r, s, inhibitors))
  }

  function MaxUrgency(r: Resolver, effective: seq<Signal>, inhibitors: seq<Signal>): real {
    if effective == [] then 0.0
    else
      var s := effective[|effective| - 1];
      var before := MaxUrgency(r, effective[..|effective| - 1], inhibitors);
      var here := s.urgency * Attenuation(r, s, inhibitors);
      if here > before then here else before
  }

  predicate Requests(effective: seq<Signal>, d: Disposition) {
    exists i :: 0 <= i < |effective| && effective[i].suggested == d
  }

  function Unopposed(r: Resolver, effective: seq<Signal>, score: real, maxUrgency: real): Disposition {
    if Requests(effective, ReflexProposal) && score >= r.wake then ReflexProposal
    else if Requests(effective, Wake) && (score >= r.wake || maxUrgency >= r.urgency) then Wake
    else if score >= r.remember then Remember
    else Defer
  }

  datatype Decision = Decision(
    subject: string,
    disposition: Disposition,
    score: real,
    signals: seq<string>,
    inhibitedBy: set<string>,
    modulatedBy: set<string>)

  function Ids(signals: seq<Signal>): seq<string> { seq(|signals|, i requires 0 <= i < |signals| => signals[i].id) }

  function Blockers(r: Resolver, signals: seq<Signal>, inhibitors: seq<Signal>): set<string> {
    set s, x | s in signals && x in inhibitors && Blocks(r, x, s) :: x.id
  }

  function Modulators(r: Resolver, signals: seq<Signal>, inhibitors: seq<Signal>): set<string> {
    set s, x | s in signals && x in inhibitors && Grades(r, x, s) :: x.id
  }

  function Score(r: Resolver, signals: seq<Signal>, inhibitors: seq<Signal>): real
    requires r.scale > 0.0 && AllWellFormed(signals)
  {
    var effective := Effective(r, signals, inhibitors);
    EffectiveWellFormed(r, signals, inhibitors);
    r.round(1.0 - Miss(r, if effective != [] then effective else signals, inhibitors))
  }

  function DispositionOf(r: Resolver, signals: seq<Signal>, inhibitors: seq<Signal>): Disposition
    requires r.scale > 0.0 && AllWellFormed(signals)
  {
    var effective := Effective(r, signals, inhibitors);
    if effective == [] then Suppress
    else Unopposed(r, effective, Score(r, signals, inhibitors), MaxUrgency(r, effective, inhibitors))
  }

  function DecisionOn(r: Resolver, subject: string, signals: seq<Signal>, inhibitors: seq<Signal>): Decision
    requires r.scale > 0.0 && AllWellFormed(signals)
  {
    Decision(subject, DispositionOf(r, signals, inhibitors), Score(r, signals, inhibitors), Ids(signals),
             Blockers(r, signals, inhibitors), Modulators(r, signals, inhibitors))
  }

  lemma EffectiveWellFormed(r: Resolver, signals: seq<Signal>, inhibitors: seq<Signal>)
    requires AllWellFormed(signals)
    ensures AllWellFormed(Effective(r, signals, inhibitors))
  {
    var effective := Effective(r, signals, inhibitors);
    forall i | 0 <= i < |effective| ensures effective[i].WellFormed() {
      SelectMembers(signals, s => !Blocked(r, s, inhibitors), effective[i]);
    }
  }

  // ---------------------------------------------------------------- damping by the modulators of a signal

  function ModulatorsOf(r: Resolver, s: Signal, inhibitors: seq<Signal>): seq<Signal> {
    if inhibitors == [] then []
    else
      var x := inhibitors[|inhibitors| - 1];
      ModulatorsOf(r, s, inhibitors[..|inhibitors| - 1]) + if Grades(r, x, s) then [x] else []
  }

  /** What a list of modulators leaves of whatever they modulate. */
  function Damped(modulators: seq<Signal>): real {
    if modulators == [] then 1.0
    else
      var x := modulators[|modulators| - 1];
      var strength := if x.role.Inhibitory? && x.role.mode.Graded? then x.role.mode.strength else 0.0;
      Damped(modulators[..|modulators| - 1]) * (1.0 - strength * x.confidence * x.salience)
  }

  /** A signal is damped by its own modulators and by nothing else. */
  lemma {:induction false} AttenuationIsDamped(r: Resolver, s: Signal, inhibitors: seq<Signal>)
    ensures Attenuation(r, s, inhibitors) == Damped(ModulatorsOf(r, s, inhibitors))
  {
    if inhibitors != [] {
      var n := |inhibitors| - 1;
      AttenuationIsDamped(r, s, inhibitors[..n]);
      var before := ModulatorsOf(r, s, inhibitors[..n]);
      if Grades(r, inhibitors[n], s) {
        assert (before + [inhibitors[n]])[..|before|] == before;
      } else {
        assert before + [] == before;
      }
    }
  }

  lemma ModulatorsSnoc(r: Resolver, s: Signal, inhibitors: seq<Signal>, x: Signal)
    ensures ModulatorsOf(r, s, inhibitors + [x]) == ModulatorsOf(r, s, inhibitors) + if Grades(r, x, s) then [x] else []
  {
    assert (inhibitors + [x])[..|inhibitors|] == inhibitors;
  }

  // ---------------------------------------------------------------- bounds

  lemma ProductMonotone(a: real, b: real, c: real, d: real)
    requires 0.0 <= a <= c && 0.0 <= b <= d
    ensures 0.0 <= a * b <= c * d
  {
  }

  lemma DampingUnit(r: Resolver, x: Signal, s: Signal)
    requires x.WellFormed()
    ensures 0.0 <= Damping(r, x, s) <= 1.0
  {
    if Grades(r, x, s) {
      UnitProduct(x.role.mode.strength, x.confidence);
      UnitProduct(x.role.mode.strength * x.confidence, x.salience);
    }
  }

  lemma {:induction false} AttenuationUnit(r: Resolver, s: Signal, inhibitors: seq<Signal>)
    requires AllWellFormed(inhibitors)
    ensures 0.0 <= Attenuation(r, s, inhibitors) <= 1.0
  {
    if inhibitors != [] {
      var n := |inhibitors| - 1;
      AttenuationUnit(r, s, inhibitors[..n]);
      DampingUnit(r, inhibitors[n], s);
      UnitProduct(Attenuation(r, s, inhibitors[..n]), Damping(r, inhibitors[n], s));
    }
  }

  lemma ContributionUnit(r: Resolver, s: Signal)
    requires r.scale > 0.0 && s.WellFormed()
    ensures 0.0 <= Contribution(r, s) <= 1.0
  {
    var normalized := s.expectedValue / (s.expectedValue + r.scale);
    assert 0.0 <= normalized;
    var weighted := 0.7 * s.salience + 0.2 * s.urgency + 0.1 * normalized;
    assert 0.0 <= s.confidence * weighted;
  }

  lemma FactorUnit(r: Resolver, s: Signal, inhibitors: seq<Signal>)
    requires r.scale > 0.0 && s.WellFormed() && AllWellFormed(inhibitors)
    ensures 0.0 <= Factor(r, s, inhibitors) <= 1.0
  {
    ContributionUnit(r, s);
    AttenuationUnit(r, s, inhibitors);
    UnitProduct(Contribution(r, s), Attenuation(r, s, inhibitors));
  }

  lemma {:induction false} MissUnit(r: Resolver, scored: seq<Signal>, inhibitors: seq<Signal>)
    requires r.scale > 0.0 && AllWellFormed(scored) && AllWellFormed(inhibitors)
    ensures 0.0 <= Miss(r, scored, inhibitors) <= 1.0
  {
    hide Factor;
    if scored != [] {
      var n := |scored| - 1;
      MissUnit(r, scored[..n], inhibitors);
      FactorUnit(r, scored[n], inhibitors);
      UnitProduct(Miss(r, scored[..n], inhibitors), Factor(r, scored[n], inhibitors));
    }
  }

  /** Every score stays in the unit interval. */
  lemma ScoreUnit(r: Resolver, signals: seq<Signal>, inhibitors: seq<Signal>)
    requires r.WellFormed() && AllWellFormed(signals) && AllWellFormed(inhibitors)
    ensures 0.0 <= Score(r, signals, inhibitors) <= 1.0
  {
    EffectiveWellFormed(r, signals, inhibitors);
    var effective := Effective(r, signals, inhibitors);
    MissUnit(r, if effective != [] then effective else signals, inhibitors);
  }

  // ---------------------------------------------------------------- inhibition is monotone

  lemma AttenuationSnoc(r: Resolver, s: Signal, a: seq<Signal>, x: Signal)
    ensures Attenuation(r, s, a + [x]) == Attenuation(r, s, a) * Damping(r, x, s)
  {
    assert (a + [x])[..|a|] == a;
  }

  /** One more inhibitor, anywhere in the order, never leaves more of a signal. */
  lemma {:induction false} AttenuationFalls(r: Resolver, s: Signal, a: seq<Signal>, x: Signal, b: seq<Signal>)
    requires AllWellFormed(a) && x.WellFormed() && AllWellFormed(b)
    ensures 0.0 <= Attenuation(r, s, a + [x] + b) <= Attenuation(r, s, a + b)
  {
    hide Attenuation, Damping;
    if b == [] {
      assert a + [x] + b == a + [x] && a + b == a;
      AttenuationSnoc(r, s, a, x);
      AttenuationUnit(r, s, a);
      DampingUnit(r, x, s);
      Scaled(Attenuation(r, s, a + [x]), Attenuation(r, s, a), Damping(r, x, s), Attenuation(r, s, a), 1.0);
      return;
    }
    var n := |b| - 1;
    assert AllWellFormed(b[..n]) && b[n].WellFormed();
    hide AllWellFormed;
    AttenuationFalls(r, s, a, x, b[..n]);
    DampingUnit(r, b[n], s);
    AttenuationSnoc(r, s, a + [x] + b[..n], b[n]);
    AttenuationSnoc(r, s, a + b[..n], b[n]);
    assert a + [x] + b[..n] + [b[n]] == a + [x] + b && a + b[..n] + [b[n]] == a + b;
    Scaled(Attenuation(r, s, a + [x] + b), Attenuation(r, s, a + [x] + b[..n]), Damping(r, b[n], s),
           Attenuation(r, s, a + b[..n]), Damping(r, b[n], s));
  }

  lemma Scaled(m: real, p: real, d: real, q: real, e: real)
    requires m == p * d && 0.0 <= p <= q && 0.0 <= d <= e
    ensures 0.0 <= m <= q * e
  {
    ProductMonotone(p, d, q, e);
  }

  lemma FactorRises(r: Resolver, s: Signal, a: seq<Signal>, x: Signal, b: seq<Signal>)
    requires r.scale > 0.0 && s.WellFormed() && AllWellFormed(a + [x] + b)
    ensures Factor(r, s, a + [x] + b) >= Factor(r, s, a + b)
  {
    WellFormedParts(a, x, b);
    ContributionUnit(r, s);
    AttenuationFalls(r, s, a, x, b);
    ProductMonotone(Contribution(r, s), Attenuation(r, s, a + [x] + b), Contribution(r, s), Attenuation(r, s, a + b));
  }

  lemma WellFormedParts(a: seq<Signal>, x: Signal, b: seq<Signal>)
    requires AllWellFormed(a + [x] + b)
    ensures AllWellFormed(a) && AllWellFormed(b) && AllWellFormed(a + b) && x.WellFormed()
  {
    assert (a + [x] + b)[|a|] == x;
    assert forall i :: 0 <= i < |a| ==> (a + [x] + b)[i] == a[i];
    assert forall i :: 0 <= i < |b| ==> (a + [x] + b)[|a| + 1 + i] == b[i];
  }

  lemma BlockedGrows(r: Resolver, s: Signal, a: seq<Signal>, x: Signal, b: seq<Signal>)
    ensures Blocked(r, s, a + [x] + b) <==> Blocked(r, s, a + b) || Blocks(r, x, s)
  {
    hide Blocks;
    forall y ensures y in a + [x] + b <==> y in a + b || y == x {
    }
  }

  lemma EffectiveSnoc(r: Resolver, signals: seq<Signal>, s: Signal, inhibitors: seq<Signal>)
    ensures Effective(r, signals + [s], inhibitors) ==
            if Blocked(r, s, inhibitors) then Effective(r, signals, inhibitors) else Effective(r, signals, inhibitors) + [s]
  {
    assert (signals + [s])[..|signals|] == signals;
  }

  /** `more` survives the stronger inhibition and `fewer` the weaker one: `more` misses at least
      as often, is at most as urgent, and requests nothing that `fewer` does not. */
  ghost predicate Weaker(r: Resolver, more: seq<Signal>, fewer: seq<Signal>, strong: seq<Signal>, weak: seq<Signal>)
    requires r.scale > 0.0
  {
    && AllWellFormed(more) && AllWellFormed(fewer)
    && Miss(r, more, strong) >= Miss(r, fewer, weak)
    && MaxUrgency(r, more, strong) <= MaxUrgency(r, fewer, weak)
    && (forall d :: Requests(more, d) ==> Requests(fewer, d))
    && (fewer == [] ==> more == [])
  }

  /** With one more inhibitor the survivors are fewer and weaker: each factor rises, and the
      factors of the newly blocked signals are gone. */
  lemma {:induction false} SurvivorsAreWeaker(r: Resolver, signals: seq<Signal>, a: seq<Signal>, x: Signal, b: seq<Signal>)
    requires r.scale > 0.0 && AllWellFormed(signals) && AllWellFormed(a + [x] + b)
    ensures Weaker(r, Effective(r, signals, a + [x] + b), Effective(r, signals, a + b), a + [x] + b, a + b)
  {
    if signals == [] {
      assert Effective(r, signals, a + [x] + b) == [] == Effective(r, signals, a + b);
      return;
    }
    hide Weaker, Effective;
    var n := |signals| - 1;
    var s := signals[n];
    assert s.WellFormed() && AllWellFormed(signals[..n]);
    SurvivorsAreWeaker(r, signals[..n], a, x, b);
    SurvivorsStep(r, signals[..n], s, a, x, b);
    assert signals == signals[..n] + [s];
  }

  lemma SurvivorsStep(r: Resolver, signals: seq<Signal>, s: Signal, a: seq<Signal>, x: Signal, b: seq<Signal>)
    requires r.scale > 0.0 && s.WellFormed() && AllWellFormed(a + [x] + b)
    requires Weaker(r, Effective(r, signals, a + [x] + b), Effective(r, signals, a + b), a + [x] + b, a + b)
    ensures Weaker(r, Effective(r, signals + [s], a + [x] + b), Effective(r, signals + [s], a + b), a + [x] + b, a + b)
  {
    hide Weaker, Effective, Blocked, Blocks, AllWellFormed;
    BlockedGrows(r, s, a, x, b);
    OneSurvivor(r, s, Effective(r, signals, a + [x] + b), Effective(r, signals, a + b), a, x, b);
    EffectiveSnoc(r, signals, s, a + [x] + b);
    EffectiveSnoc(r, signals, s, a + b);
  }

  lemma MissSnoc(r: Resolver, xs: seq<Signal>, s: Signal, inhibitors: seq<Signal>)
    requires r.scale > 0.0 && AllWellFormed(xs) && s.WellFormed()
    ensures AllWellFormed(xs + [s])
    ensures Miss(r, xs + [s], inhibitors) == Miss(r, xs, inhibitors) * Factor(r, s, inhibitors)
  {
    hide Factor;
    assert (xs + [s])[..|xs|] == xs;
  }

  lemma UrgencySnoc(r: Resolver, xs: seq<Signal>, s: Signal, inhibitors: seq<Signal>)
    ensures var here, before := s.urgency * Attenuation(r, s, inhibitors), MaxUrgency(r, xs, inhibitors);
            MaxUrgency(r, xs + [s], inhibitors) == if here > before then here else before
  {
    assert (xs + [s])[..|xs|] == xs;
  }

  lemma RisingProducts(m: real, f: real, g: real, h: real, mg: real, fh: real)
    requires 0.0 <= f <= 1.0 && f <= m && 0.0 <= h <= 1.0 && h <= g && mg == m * g && fh == f * h
    ensures mg >= fh && m >= fh
  {
    UnitProduct(f, h);
    ProductMonotone(f, h, m, g);
  }

  /** One signal: kept by both, or dropped by the stronger inhibition only. */
  lemma OneSurvivor(r: Resolver, s: Signal, more: seq<Signal>, fewer: seq<Signal>, a: seq<Signal>, x: Signal, b: seq<Signal>)
    requires r.scale > 0.0 && s.WellFormed() && AllWellFormed(a + [x] + b) && Weaker(r, more, fewer, a + [x] + b, a + b)
    ensures Weaker(r, more + [s], fewer + [s], a + [x] + b, a + b)
    ensures Weaker(r, more, fewer + [s], a + [x] + b, a + b)
  {
    MissRises(r, s, more, fewer, a, x, b);
    UrgencyFalls(r, s, more, fewer, a, x, b);
    RequestsAppend(more, s);
    RequestsAppend(fewer, s);
    hide Miss, MaxUrgency, Requests, AllWellFormed;
  }

  lemma MissRises(r: Resolver, s: Signal, more: seq<Signal>, fewer: seq<Signal>, a: seq<Signal>, x: Signal, b: seq<Signal>)
    requires r.scale > 0.0 && s.WellFormed() && AllWellFormed(a + [x] + b) && AllWellFormed(more) && AllWellFormed(fewer)
    requires Miss(r, more, a + [x] + b) >= Miss(r, fewer, a + b)
    ensures AllWellFormed(more + [s]) && AllWellFormed(fewer + [s])
    ensures Miss(r, more + [s], a + [x] + b) >= Miss(r, fewer + [s], a + b)
    ensures Miss(r, more, a + [x] + b) >= Miss(r, fewer + [s], a + b)
  {
    hide Factor, Miss, AllWellFormed;
    WellFormedParts(a, x, b);
    MissSnoc(r, more, s, a + [x] + b);
    MissSnoc(r, fewer, s, a + b);
    FactorRises(r, s, a, x, b);
    FactorUnit(r, s, a + b);
    MissUnit(r, fewer, a + b);
    RisingProducts(Miss(r, more, a + [x] + b), Miss(r, fewer, a + b),
                   Factor(r, s, a + [x] + b), Factor(r, s, a + b),
                   Miss(r, more + [s], a + [x] + b), Miss(r, fewer + [s], a + b));
  }

  lemma UrgencyFalls(r: Resolver, s: Signal, more: seq<Signal>, fewer: seq<Signal>, a: seq<Signal>, x: Signal, b: seq<Signal>)
    requires s.WellFormed() && AllWellFormed(a + [x] + b) && MaxUrgency(r, more, a + [x] + b) <= MaxUrgency(r, fewer, a + b)
    ensures MaxUrgency(r, more + [s], a + [x] + b) <= MaxUrgency(r, fewer + [s], a + b)
    ensures MaxUrgency(r, more, a + [x] + b) <= MaxUrgency(r, fewer + [s], a + b)
  {
    hide Attenuation, Damping, MaxUrgency, AllWellFormed;
    UrgencySnoc(r, more, s, a + [x] + b);
    UrgencySnoc(r, fewer, s, a + b);
    WellFormedParts(a, x, b);
    AttenuationFalls(r, s, a, x, b);
    ProductMonotone(s.urgency, Attenuation(r, s, a + [x] + b), s.urgency, Attenuation(r, s, a + b));
  }

  lemma RequestsAppend(xs: seq<Signal>, s: Signal)
    ensures forall d :: Requests(xs + [s], d) <==> Requests(xs, d) || s.suggested == d
  {
    assert (xs + [s])[|xs|] == s;
    assert forall i :: 0 <= i < |xs| ==> (xs + [s])[i] == xs[i];
  }

  /** Inhibition is monotone: one more hard or graded inhibitor never raises the disposition of
      a subject in the order reflex, wake, remember, defer, suppress. */
  lemma InhibitionIsMonotone(r: Resolver, signals: seq<Signal>, a: seq<Signal>, x: Signal, b: seq<Signal>)
    requires r.WellFormed() && AllWellFormed(signals) && AllWellFormed(a + [x] + b)
    ensures Rank(DispositionOf(r, signals, a + [x] + b)) <= Rank(DispositionOf(r, signals, a + b))
  {
    hide Effective, Miss, MaxUrgency, Requests, AllWellFormed;
    SurvivorsAreWeaker(r, signals, a, x, b);
    var more, fewer := Effective(r, signals, a + [x] + b), Effective(r, signals, a + b);
    if more != [] {
      assert Score(r, signals, a + [x] + b) <= Score(r, signals, a + b);
    }
  }

  // ---------------------------------------------------------------- what a decision means

  /** Some hard inhibitor of the signal's subject, or of all subjects, has a pattern for its kind
      and at least its precedence. */
  ghost predicate Stopped(r: Resolver, s: Signal, inhibitors: seq<Signal>) {
    exists x, i: int :: x in inhibitors && x.role.Inhibitory? && x.role.mode.Hard? && (x.subject == "*" || x.subject == s.subject)
                        && x.precedence >= s.precedence && 0 <= i < |x.role.inhibits| && r.matches(s.kind, x.role.inhibits[i])
  }

  lemma StoppedIsBlocked(r: Resolver, s: Signal, inhibitors: seq<Signal>)
    ensures Stopped(r, s, inhibitors) <==> Blocked(r, s, inhibitors)
  {
    if Blocked(r, s, inhibitors) {
      var x :| x in inhibitors && Blocks(r, x, s);
      var i :| 0 <= i < |x.role.inhibits| && r.matches(s.kind, x.role.inhibits[i]);
    }
    if Stopped(r, s, inhibitors) {
      var x, i: int :| x in inhibitors && x.role.Inhibitory? && x.role.mode.Hard? && (x.subject == "*" || x.subject == s.subject)
                       && x.precedence >= s.precedence && 0 <= i < |x.role.inhibits| && r.matches(s.kind, x.role.inhibits[i]);
      assert Blocks(r, x, s);
    }
  }

  lemma SurvivorsAre(r: Resolver, signals: seq<Signal>, inhibitors: seq<Signal>)
    ensures forall s :: s in Effective(r, signals, inhibitors) <==> s in signals && !Stopped(r, s, inhibitors)
  {
    hide Stopped, Blocked;
    forall s ensures s in Effective(r, signals, inhibitors) <==> s in signals && !Stopped(r, s, inhibitors) {
      StoppedIsBlocked(r, s, inhibitors);
      SelectMembers(signals, s => !Blocked(r, s, inhibitors), s);
    }
  }

  lemma {:induction false} UrgencyReaches(r: Resolver, effective: seq<Signal>, inhibitors: seq<Signal>, least: real)
    ensures MaxUrgency(r, effective, inhibitors) >= least <==>
            least <= 0.0 || exists s :: s in effective && s.urgency * Attenuation(r, s, inhibitors) >= least
  {
    hide Attenuation;
    if effective != [] {
      var n := |effective| - 1;
      UrgencyReaches(r, effective[..n], inhibitors, least);
      var before, last := MaxUrgency(r, effective[..n], inhibitors), effective[n].urgency * Attenuation(r, effective[n], inhibitors);
      assert MaxUrgency(r, effective, inhibitors) == if last > before then last else before;
      hide MaxUrgency;
      forall s ensures s in effective <==> s in effective[..n] || s == effective[n] {
        assert effective == effective[..n] + [effective[n]];
      }
    }
  }

  lemma RequestsAre(r: Resolver, signals: seq<Signal>, inhibitors: seq<Signal>, d: Disposition)
    ensures Requests(Effective(r, signals, inhibitors), d) <==> exists s :: s in signals && !Stopped(r, s, inhibitors) && s.suggested == d
  {
    SurvivorsAre(r, signals, inhibitors);
    hide Effective, Stopped;
    var effective := Effective(r, signals, inhibitors);
    if s :| s in signals && !Stopped(r, s, inhibitors) && s.suggested == d {
      assert s in effective;
      var i :| 0 <= i < |effective| && effective[i] == s;
    }
    if Requests(effective, d) {
      var i :| 0 <= i < |effective| && effective[i].suggested == d;
      assert effective[i] in effective;
    }
  }

  lemma SurvivorIsUrgent(r: Resolver, signals: seq<Signal>, inhibitors: seq<Signal>)
    requires r.WellFormed() && AllWellFormed(signals) && AllWellFormed(inhibitors) && Effective(r, signals, inhibitors) != []
    ensures MaxUrgency(r, Effective(r, signals, inhibitors), inhibitors) >= r.urgency <==>
            exists s :: s in signals && !Stopped(r, s, inhibitors) && s.urgency * Attenuation(r, s, inhibitors) >= r.urgency
  {
    var effective := Effective(r, signals, inhibitors);
    SurvivorsAre(r, signals, inhibitors);
    UrgencyReaches(r, effective, inhibitors, r.urgency);
    hide Stopped, Effective, Attenuation, MaxUrgency;
    assert effective[0] in effective && effective[0] in signals;
    UrgencyIsPositive(r, effective[0], inhibitors);
  }

  lemma UrgencyIsPositive(r: Resolver, s: Signal, inhibitors: seq<Signal>)
    requires s.WellFormed() && AllWellFormed(inhibitors)
    ensures s.urgency * Attenuation(r, s, inhibitors) >= 0.0
  {
    AttenuationUnit(r, s, inhibitors);
    hide Attenuation;
    ProductMonotone(0.0, 0.0, s.urgency, Attenuation(r, s, inhibitors));
  }

  lemma SuppressedMeansStopped(r: Resolver, signals: seq<Signal>, inhibitors: seq<Signal>)
    ensures Effective(r, signals, inhibitors) == [] <==> forall s :: s in signals ==> Stopped(r, s, inhibitors)
  {
    SurvivorsAre(r, signals, inhibitors);
    hide Stopped, Effective;
    var effective := Effective(r, signals, inhibitors);
    if effective == [] {
      forall s | s in signals ensures Stopped(r, s, inhibitors) { assert s !in effective; }
    } else {
      assert effective[0] in effective;
    }
  }

  /** The disposition of a subject, read off its signals. It is suppressed exactly when each of
      them is stopped; otherwise the survivors decide: a reflex needs one that suggests it and
      the wake score, waking one that suggests it and either the wake score or an urgency that
      is high enough after damping, and remembering the retention score. */
  lemma DispositionMeans(r: Resolver, signals: seq<Signal>, inhibitors: seq<Signal>)
    requires r.WellFormed() && AllWellFormed(signals) && AllWellFormed(inhibitors)
    ensures var d, score := DispositionOf(r, signals, inhibitors), Score(r, signals, inhibitors);
            var reflex := score >= r.wake && exists s :: s in signals && !Stopped(r, s, inhibitors) && s.suggested == ReflexProposal;
            var wake := && (exists s :: s in signals && !Stopped(r, s, inhibitors) && s.suggested == Wake)
                        && (score >= r.wake || exists s :: s in signals && !Stopped(r, s, inhibitors) && s.urgency * Attenuation(r, s, inhibitors) >= r.urgency);
            && (d == Suppress <==> forall s :: s in signals ==> Stopped(r, s, inhibitors))
            && (d != Suppress ==>
                  && (d == ReflexProposal <==> reflex)
                  && (d == Wake <==> wake && !reflex)
                  && (d == Remember <==> score >= r.remember && !reflex && !wake)
                  && (d == Defer <==> score < r.remember && !reflex && !wake))
  {
    SuppressedMeansStopped(r, signals, inhibitors);
    RequestsAre(r, signals, inhibitors, ReflexProposal);
    RequestsAre(r, signals, inhibitors, Wake);
    if Effective(r, signals, inhibitors) != [] { SurvivorIsUrgent(r, signals, inhibitors); }
    hide Stopped, Effective, Attenuation, MaxUrgency, Score, AllWellFormed, Requests;
  }

  /** Which inhibitors a decision names, read off their subjects, precedences and patterns. */
  lemma OppositionIsExact(r: Resolver, subject: string, signals: seq<Signal>, inhibitors: seq<Signal>, id: string)
    requires r.scale > 0.0 && AllWellFormed(signals)
    ensures id in DecisionOn(r, subject, signals, inhibitors).inhibitedBy <==>
            exists s, x, i: int :: s in signals && x in inhibitors && x.id == id && x.role.Inhibitory? && x.role.mode.Hard?
                                   && (x.subject == "*" || x.subject == s.subject) && x.precedence >= s.precedence
                                   && 0 <= i < |x.role.inhibits| && r.matches(s.kind, x.role.inhibits[i])
    ensures id in DecisionOn(r, subject, signals, inhibitors).modulatedBy <==>
            exists s, x, i: int :: s in signals && x in inhibitors && x.id == id && x.role.Inhibitory? && x.role.mode.Graded?
                                   && (x.subject == "*" || x.subject == s.subject) && x.precedence >= s.precedence
                                   && 0 <= i < |x.role.inhibits| && r.matches(s.kind, x.role.inhibits[i])
  {
    hide DispositionOf, Score, Ids;
    if id in Blockers(r, signals, inhibitors) {
      var s, x :| s in signals && x in inhibitors && Blocks(r, x, s) && x.id == id;
      var i: int :| 0 <= i < |x.role.inhibits| && r.matches(s.kind, x.role.inhibits[i]);
    }
    if id in Modulators(r, signals, inhibitors) {
      var s, x :| s in signals && x in inhibitors && Grades(r, x, s) && x.id == id;
      var i: int :| 0 <= i < |x.role.inhibits| && r.matches(s.kind, x.role.inhibits[i]);
    }
  }

  /** An inhibitor of another subject, of lower precedence, or without a pattern for the kind. */
  predicate Irrelevant(r: Resolver, x: Signal, s: Signal) {
    || x.role.Excitatory?
    || (x.subject != "*" && x.subject != s.subject)
    || x.precedence < s.precedence
    || forall i :: 0 <= i < |x.role.inhibits| ==> !r.matches(s.kind, x.role.inhibits[i])
  }

  lemma {:induction false} IrrelevantLeavesAll(r: Resolver, s: Signal, inhibitors: seq<Signal>)
    requires forall x :: x in inhibitors ==> Irrelevant(r, x, s)
    ensures Attenuation(r, s, inhibitors) == 1.0 && !Blocked(r, s, inhibitors)
  {
    if inhibitors != [] {
      var n := |inhibitors| - 1;
      IrrelevantLeavesAll(r, s, inhibitors[..n]);
      assert Irrelevant(r, inhibitors[n], s);
      assert Damping(r, inhibitors[n], s) == 1.0;
    }
  }

  lemma {:induction false} SameFactors(r: Resolver, scored: seq<Signal>, a: seq<Signal>, b: seq<Signal>)
    requires r.scale > 0.0 && AllWellFormed(scored) && forall s :: s in scored ==> Attenuation(r, s, a) == Attenuation(r, s, b)
    ensures Miss(r, scored, a) == Miss(r, scored, b) && MaxUrgency(r, scored, a) == MaxUrgency(r, scored, b)
  {
    hide Attenuation, Contribution;
    if scored != [] {
      SameFactors(r, scored[..|scored| - 1], a, b);
      assert Factor(r, scored[|scored| - 1], a) == Factor(r, scored[|scored| - 1], b);
    }
  }

  /** Inhibitors that are all of another subject, of lower precedence or without a matching
      pattern leave a decision exactly as it is without any. */
  lemma IrrelevantInhibitorsDoNothing(r: Resolver, subject: string, signals: seq<Signal>, inhibitors: seq<Signal>)
    requires r.scale > 0.0 && AllWellFormed(signals)
    requires forall s, x :: s in signals && x in inhibitors ==>
               || x.role.Excitatory?
               || (x.subject != "*" && x.subject != s.subject)
               || x.precedence < s.precedence
               || forall i :: 0 <= i < |x.role.inhibits| ==> !r.matches(s.kind, x.role.inhibits[i])
    ensures DecisionOn(r, subject, signals, inhibitors) == DecisionOn(r, subject, signals, [])
  {
    forall s, x | s in signals && x in inhibitors ensures Irrelevant(r, x, s) && !Opposes(r, x, s) {
    }
    hide Opposes;
    NothingOpposes(r, signals, inhibitors);
    NothingOpposes(r, signals, []);
    hide Irrelevant, Attenuation, Miss, MaxUrgency, Blockers, Modulators, Effective, Blocked;
    EffectiveWellFormed(r, signals, []);
    SurvivorsAre(r, signals, []);
    SameFactors(r, signals, inhibitors, []);
    SameFactors(r, Effective(r, signals, []), inhibitors, []);
  }

  lemma NothingOpposes(r: Resolver, signals: seq<Signal>, inhibitors: seq<Signal>)
    requires forall s, x :: s in signals && x in inhibitors ==> Irrelevant(r, x, s) && !Opposes(r, x, s)
    ensures Blockers(r, signals, inhibitors) == {} == Modulators(r, signals, inhibitors)
    ensures forall s :: s in signals ==> Attenuation(r, s, inhibitors) == 1.0
    ensures Effective(r, signals, inhibitors) == Effective(r, signals, [])
  {
    hide Opposes, Irrelevant, Attenuation;
    forall s | s in signals ensures Attenuation(r, s, inhibitors) == 1.0 && !Blocked(r, s, inhibitors) && !Blocked(r, s, []) {
      IrrelevantLeavesAll(r, s, inhibitors);
    }
    SelectAgrees(signals, s => !Blocked(r, s, inhibitors), s => !Blocked(r, s, []));
  }

  // ---------------------------------------------------------------- all subjects

  /** The canonical order of active signals: subject, kind, id. */
  predicate SignalLess(a: Signal, b: Signal) {
    || TextLess(a.subject, b.subject)
    || (a.subject == b.subject && (TextLess(a.kind, b.kind) || (a.kind == b.kind && TextLess(a.id, b.id))))
  }

  ghost predicate DistinctIds(signals: set<Signal>) {
    forall a, b :: a in signals && b in signals && a.id == b.id ==> a == b
  }

  lemma SignalOrder(signals: set<Signal>)
    requires DistinctIds(signals)
    ensures Orders(SignalLess, signals)
  {
    forall a | a in signals ensures !SignalLess(a, a) {
      TextTotal(a.subject, a.subject);
      TextTotal(a.kind, a.kind);
      TextTotal(a.id, a.id);
    }
    forall a, b | a in signals && b in signals && a != b ensures SignalLess(a, b) || SignalLess(b, a) {
      TextTotal(a.subject, b.subject);
      TextTotal(a.kind, b.kind);
      TextTotal(a.id, b.id);
    }
    forall a, b, c | a in signals && b in signals && c in signals && SignalLess(a, b) && SignalLess(b, c) ensures SignalLess(a, c) {
      SignalTransitive(a, b, c);
    }
  }

  lemma SignalTransitive(a: Signal, b: Signal, c: Signal)
    requires SignalLess(a, b) && SignalLess(b, c)
    ensures SignalLess(a, c)
  {
    hide TextLess;
    if TextLess(a.subject, b.subject) && TextLess(b.subject, c.subject) { TextTransitive(a.subject, b.subject, c.subject); }
    if TextLess(a.kind, b.kind) && TextLess(b.kind, c.kind) { TextTransitive(a.kind, b.kind, c.kind); }
    if TextLess(a.id, b.id) && TextLess(b.id, c.id) { TextTransitive(a.id, b.id, c.id); }
  }

  function Active(signals: seq<Signal>, at: int): seq<Signal> { Select(signals, (s: Signal) => s.ActiveAt(at)) }

  predicate Conflicting(active: seq<Signal>) {
    exists a, b :: a in active && b in active && a.id == b.id && a != b
  }

  predicate Excites(s: Signal) { s.role.Excitatory? }

  predicate Inhibits(s: Signal) { s.role.Inhibitory? }

  function Inhibitors(canonical: seq<Signal>): seq<Signal> { Select(canonical, Inhibits) }

  function Group(canonical: seq<Signal>, subject: string): seq<Signal> {
    Select(canonical, (s: Signal) => s.role.Excitatory? && s.subject == subject)
  }

  function SubjectsOf(canonical: seq<Signal>): seq<string> {
    SortUnique(TextLess, SubjectList(Select(canonical, Excites)))
  }

  function SubjectList(signals: seq<Signal>): seq<string> { seq(|signals|, i requires 0 <= i < |signals| => signals[i].subject) }

  lemma SelectWellFormed(signals: seq<Signal>, keep: Signal -> bool)
    requires AllWellFormed(signals)
    ensures AllWellFormed(Select(signals, keep))
  {
    forall i | 0 <= i < |Select(signals, keep)| ensures Select(signals, keep)[i].WellFormed() {
      SelectMembers(signals, keep, Select(signals, keep)[i]);
    }
  }

  function DecisionFor(r: Resolver, canonical: seq<Signal>, subject: string): Decision
    requires r.scale > 0.0 && AllWellFormed(canonical)
  {
    SelectWellFormed(canonical, (s: Signal) => s.role.Excitatory? && s.subject == subject);
    DecisionOn(r, subject, Group(canonical, subject), Inhibitors(canonical))
  }

  /** One decision per subject, in subject order, before the wake budget. */
  function PreBudget(r: Resolver, canonical: seq<Signal>): (decisions: seq<Decision>)
    requires r.scale > 0.0 && AllWellFormed(canonical)
    ensures |decisions| == |SubjectsOf(canonical)|
    ensures forall i :: 0 <= i < |decisions| ==> decisions[i] == DecisionFor(r, canonical, SubjectsOf(canonical)[i])
  {
    var subjects := SubjectsOf(canonical);
    seq(|subjects|, i requires 0 <= i < |subjects| => DecisionFor(r, canonical, subjects[i]))
  }

  // ---------------------------------------------------------------- the wake budget

  predicate Outranks(a: Decision, b: Decision) {
    a.score > b.score || (a.score == b.score && TextLess(a.subject, b.subject))
  }

  function Allowed(decisions: seq<Decision>, budget: nat): seq<Decision> {
    var ranked := SortUnique(Outranks, Select(decisions, (d: Decision) => d.disposition == Wake));
    if budget < |ranked| then ranked[..budget] else ranked
  }

  function Budgeted(decisions: seq<Decision>, allowed: seq<Decision>): (after: seq<Decision>)
    ensures |after| == |decisions|
    ensures forall i :: 0 <= i < |decisions| ==>
              after[i] == if decisions[i].disposition == Wake && decisions[i] !in allowed then decisions[i].(disposition := Defer) else decisions[i]
  {
    seq(|decisions|, i requires 0 <= i < |decisions| =>
      if decisions[i].disposition == Wake && decisions[i] !in allowed then decisions[i].(disposition := Defer) else decisions[i])
  }

  function AfterBudget(r: Resolver, decisions: seq<Decision>): seq<Decision> {
    if r.budget.None? then decisions else Budgeted(decisions, Allowed(decisions, r.budget.value))
  }

  datatype Resolution = Resolved(decisions: seq<Decision>) | ConflictingContent

  function Canonical(signals: seq<Signal>, at: int): seq<Signal> { SortUnique(SignalLess, Active(signals, at)) }

  lemma CanonicalWellFormed(signals: seq<Signal>, at: int)
    requires AllWellFormed(signals)
    ensures AllWellFormed(Canonical(signals, at))
  {
    SelectWellFormed(signals, (s: Signal) => s.ActiveAt(at));
    SortElements(SignalLess, Active(signals, at));
    forall i | 0 <= i < |Canonical(signals, at)| ensures Canonical(signals, at)[i].WellFormed() {
      assert Canonical(signals, at)[i] in Elements(Active(signals, at));
    }
  }

  function ResolutionOf(r: Resolver, signals: seq<Signal>, at: int): Resolution
    requires r.scale > 0.0 && AllWellFormed(signals)
  {
    CanonicalWellFormed(signals, at);
    if Conflicting(Active(signals, at)) then ConflictingContent
    else Resolved(AfterBudget(r, PreBudget(r, Canonical(signals, at))))
  }

  lemma ActiveElements(signals: seq<Signal>, at: int)
    ensures Elements(Active(signals, at)) == set s | s in signals && s.ActiveAt(at)
  {
    forall s ensures s in Active(signals, at) <==> s in signals && s.ActiveAt(at) {
      SelectMembers(signals, (s: Signal) => s.ActiveAt(at), s);
    }
  }

  /** Resolution forgets the arrival order and the repetition of its input signals. */
  lemma ResolutionForgetsArrival(r: Resolver, a: seq<Signal>, b: seq<Signal>, at: int)
    requires r.scale > 0.0 && AllWellFormed(a) && AllWellFormed(b) && Elements(a) == Elements(b)
    ensures ResolutionOf(r, a, at) == ResolutionOf(r, b, at)
  {
    ActiveElements(a, at);
    ActiveElements(b, at);
    assert forall s :: s in a <==> s in Elements(a);
    assert forall s :: s in b <==> s in Elements(b);
    SameActive(Active(a, at), Active(b, at));
    hide PreBudget, AfterBudget, SortUnique, Active;
  }

  lemma SameActive(a: seq<Signal>, b: seq<Signal>)
    requires Elements(a) == Elements(b)
    ensures Conflicting(a) == Conflicting(b)
    ensures !Conflicting(a) ==> SortUnique(SignalLess, a) == SortUnique(SignalLess, b)
  {
    assert forall s :: s in a <==> s in Elements(a);
    assert forall s :: s in b <==> s in Elements(b);
    if !Conflicting(a) {
      SignalOrder(Elements(a));
      SortForgetsArrival(SignalLess, a, b);
    }
  }

  lemma {:induction false} SubjectsAscend(canonical: seq<Signal>)
    ensures Ascending(TextLess, SubjectsOf(canonical))
  {
    var subjects := SubjectList(Select(canonical, Excites));
    TextOrders(Elements(subjects));
    SortAscending(TextLess, subjects);
  }

  lemma RankOrder(decisions: set<Decision>)
    requires forall a, b :: a in decisions && b in decisions && a.subject == b.subject ==> a == b
    ensures Orders(Outranks, decisions)
  {
    forall a | a in decisions ensures !Outranks(a, a) { TextTotal(a.subject, a.subject); }
    forall a, b | a in decisions && b in decisions && a != b ensures Outranks(a, b) || Outranks(b, a) { TextTotal(a.subject, b.subject); }
    forall a, b, c | a in decisions && b in decisions && c in decisions && Outranks(a, b) && Outranks(b, c) ensures Outranks(a, c) {
      if TextLess(a.subject, b.subject) && TextLess(b.subject, c.subject) { TextTransitive(a.subject, b.subject, c.subject); }
    }
  }

  ghost predicate OnePerSubject(decisions: seq<Decision>) {
    forall i, j :: 0 <= i < j < |decisions| ==> decisions[i].subject != decisions[j].subject
  }

  /** The wakes in rank order: all of them, each once, every one outranking those behind it. */
  lemma RankedWakes(decisions: seq<Decision>) returns (ranked: seq<Decision>)
    requires OnePerSubject(decisions)
    ensures ranked == SortUnique(Outranks, Select(decisions, (d: Decision) => d.disposition == Wake))
    ensures Ascending(Outranks, ranked) && Distinct(ranked)
    ensures Elements(ranked) == set d | d in decisions && d.disposition == Wake
  {
    var isWake := (d: Decision) => d.disposition == Wake;
    var wakes := Select(decisions, isWake);
    forall d ensures d in wakes <==> d in decisions && d.disposition == Wake { SelectMembers(decisions, isWake, d); }
    RankOrder(Elements(wakes));
    SortAscending(Outranks, wakes);
    SortElements(Outranks, wakes);
    ranked := SortUnique(Outranks, wakes);
    forall i, j | 0 <= i < j < |ranked| ensures ranked[i] != ranked[j] {
      assert ranked[i] in Elements(ranked);
    }
  }

  function Wakes(decisions: seq<Decision>): nat { |Select(decisions, (d: Decision) => d.disposition == Wake)| }

  /** The budget keeps as many wakes as it allows, the highest by score and then by subject;
      the other wakes are deferred, and nothing else about any decision changes. */
  lemma WakeBudgetIsExact(decisions: seq<Decision>, budget: nat)
    requires OnePerSubject(decisions)
    ensures var after := Budgeted(decisions, Allowed(decisions, budget));
            && Wakes(after) == (if Wakes(decisions) < budget then Wakes(decisions) else budget)
            && (forall i :: 0 <= i < |decisions| && after[i] != decisions[i] ==>
                  decisions[i].disposition == Wake && after[i] == decisions[i].(disposition := Defer))
            && (forall i, j :: 0 <= i < |decisions| && 0 <= j < |decisions| && after[i].disposition == Wake && after[j] != decisions[j]
                  ==> || decisions[i].score > decisions[j].score
                      || (decisions[i].score == decisions[j].score && TextLess(decisions[i].subject, decisions[j].subject)))
  {
    var ranked := RankedWakes(decisions);
    var allowed := Allowed(decisions, budget);
    var after := Budgeted(decisions, allowed);
    forall i, j | 0 <= i < |decisions| && 0 <= j < |decisions| && after[i].disposition == Wake && after[j] != decisions[j]
      ensures Outranks(decisions[i], decisions[j])
    {
      assert decisions[i] in allowed && decisions[j] in Elements(ranked) && decisions[j] !in allowed;
      FrontOutranks(ranked, |allowed|, decisions[i], decisions[j]);
    }
    forall d | d in allowed ensures d in decisions && d.disposition == Wake {
      var a :| 0 <= a < |allowed| && allowed[a] == d;
      assert ranked[a] == d && d in Elements(ranked);
    }
    WakesAre(decisions, allowed);
    WakeCount(decisions);
    DistinctLength(ranked);
    DistinctLength(allowed);
  }

  lemma FrontOutranks(ranked: seq<Decision>, k: nat, x: Decision, y: Decision)
    requires Ascending(Outranks, ranked) && k <= |ranked| && x in ranked[..k] && y in ranked && y !in ranked[..k]
    ensures Outranks(x, y)
  {
    assert ranked == ranked[..k] + ranked[k..];
    var a :| 0 <= a < k && ranked[..k][a] == x;
    var b :| 0 <= b < |ranked| - k && ranked[k..][b] == y;
    assert ranked[a] == x && ranked[k + b] == y;
  }

  lemma WakeCount(decisions: seq<Decision>)
    requires OnePerSubject(decisions)
    ensures Wakes(decisions) == |set d | d in decisions && d.disposition == Wake|
  {
    var isWake := (d: Decision) => d.disposition == Wake;
    SelectDistinct(decisions, isWake);
    DistinctLength(Select(decisions, isWake));
    forall d ensures d in Select(decisions, isWake) <==> d in decisions && d.disposition == Wake { SelectMembers(decisions, isWake, d); }
    assert Elements(Select(decisions, isWake)) == set d | d in decisions && d.disposition == Wake;
  }

  /** What still wakes after the budget is exactly what was allowed. */
  lemma WakesAre(decisions: seq<Decision>, allowed: seq<Decision>)
    requires OnePerSubject(decisions) && Distinct(allowed)
    requires forall d :: d in allowed ==> d in decisions && d.disposition == Wake
    ensures Wakes(Budgeted(decisions, allowed)) == |allowed|
  {
    var after := Budgeted(decisions, allowed);
    WakeCount(after);
    DistinctLength(allowed);
    forall d | d in allowed ensures d in after {
      var i :| 0 <= i < |decisions| && decisions[i] == d;
      assert after[i] == d;
    }
    assert Elements(allowed) == set d | d in after && d.disposition == Wake;
  }

  lemma PreBudgetOnePerSubject(r: Resolver, canonical: seq<Signal>)
    requires r.scale > 0.0 && AllWellFormed(canonical)
    ensures OnePerSubject(PreBudget(r, canonical))
  {
    SubjectsAscend(canonical);
    var subjects, decisions := SubjectsOf(canonical), PreBudget(r, canonical);
    forall i, j | 0 <= i < j < |decisions| ensures decisions[i].subject != decisions[j].subject {
      assert decisions[i].subject == subjects[i] && decisions[j].subject == subjects[j];
      TextTotal(subjects[i], subjects[j]);
    }
  }

  /** With a wake budget, a resolution wakes for at most that many subjects. */
  lemma ResolutionRespectsWakeBudget(r: Resolver, signals: seq<Signal>, at: int)
    requires r.scale > 0.0 && AllWellFormed(signals) && r.budget.Some? && ResolutionOf(r, signals, at).Resolved?
    ensures Wakes(ResolutionOf(r, signals, at).decisions) <= r.budget.value
  {
    CanonicalWellFormed(signals, at);
    PreBudgetOnePerSubject(r, Canonical(signals, at));
    WakeBudgetIsExact(PreBudget(r, Canonical(signals, at)), r.budget.value);
  }

  // ---------------------------------------------------------------- one more inhibitor among all signals

  lemma CanonicalWithInhibitor(signals: seq<Signal>, x: Signal, at: int) returns (p: seq<Signal>, q: seq<Signal>)
    requires x.ActiveAt(at) && x !in Active(signals, at)
    ensures Canonical(signals, at) == p + q && Canonical(signals + [x], at) == p + [x] + q
  {
    assert (signals + [x])[..|signals|] == signals;
    var active := Active(signals, at);
    assert Active(signals + [x], at) == active + [x];
    assert (active + [x])[..|active|] == active;
    SortElements(SignalLess, active);
    assert x !in SortUnique(SignalLess, active) by {
      assert forall s :: s in SortUnique(SignalLess, active) <==> s in Elements(SortUnique(SignalLess, active));
    }
    p, q := InsertSplits(SignalLess, x, SortUnique(SignalLess, active));
  }

  lemma SelectAround(p: seq<Signal>, x: Signal, q: seq<Signal>, keep: Signal -> bool)
    ensures Select(p + q, keep) == Select(p, keep) + Select(q, keep)
    ensures Select(p + [x] + q, keep) == Select(p, keep) + (if keep(x) then [x] else []) + Select(q, keep)
  {
    SelectAppend(p, q, keep);
    SelectAppend(p + [x], q, keep);
    SelectAppend(p, [x], keep);
    assert [x][..0] == [];
    assert Select([x], keep) == if keep(x) then [x] else [];
  }

  /** Over a whole resolution: one more active hard or graded inhibitor among the signals leaves
      the subjects as they are and never raises any subject's disposition before the budget. */
  lemma AddedInhibitorNeverRaises(r: Resolver, signals: seq<Signal>, x: Signal, at: int)
    requires r.WellFormed() && AllWellFormed(signals + [x]) && x.role.Inhibitory? && x.ActiveAt(at) && x !in Active(signals, at)
    ensures AllWellFormed(Canonical(signals, at)) && AllWellFormed(Canonical(signals + [x], at))
    ensures SubjectsOf(Canonical(signals + [x], at)) == SubjectsOf(Canonical(signals, at))
    ensures var before, after := PreBudget(r, Canonical(signals, at)), PreBudget(r, Canonical(signals + [x], at));
            |after| == |before| && forall i :: 0 <= i < |before| ==>
              after[i].subject == before[i].subject && Rank(after[i].disposition) <= Rank(before[i].disposition)
  {
    assert forall i :: 0 <= i < |signals| ==> (signals + [x])[i] == signals[i];
    CanonicalWellFormed(signals, at);
    CanonicalWellFormed(signals + [x], at);
    var p, q := CanonicalWithInhibitor(signals, x, at);
    SubjectsUnmoved(p, x, q);
    forall subject ensures Rank(DecisionFor(r, p + [x] + q, subject).disposition) <= Rank(DecisionFor(r, p + q, subject).disposition) {
      DecisionNeverRises(r, p, x, q, subject);
    }
    hide Canonical, SubjectsOf, DecisionFor;
  }

  lemma SubjectsUnmoved(p: seq<Signal>, x: Signal, q: seq<Signal>)
    requires x.role.Inhibitory?
    ensures SubjectsOf(p + [x] + q) == SubjectsOf(p + q)
  {
    hide Select, SortUnique;
    SelectAround(p, x, q, Excites);
    assert Select(p + [x] + q, Excites) == Select(p + q, Excites);
  }

  lemma DecisionNeverRises(r: Resolver, p: seq<Signal>, x: Signal, q: seq<Signal>, subject: string)
    requires r.WellFormed() && AllWellFormed(p + [x] + q) && AllWellFormed(p + q) && x.role.Inhibitory?
    ensures Rank(DecisionFor(r, p + [x] + q, subject).disposition) <= Rank(DecisionFor(r, p + q, subject).disposition)
  {
    var inGroup := (s: Signal) => s.role.Excitatory? && s.subject == subject;
    var inhibits := Inhibits;
    SelectAround(p, x, q, inGroup);
    SelectAround(p, x, q, inhibits);
    SelectWellFormed(p + q, inGroup);
    SelectWellFormed(p + [x] + q, inhibits);
    assert Group(p + [x] + q, subject) == Group(p + q, subject);
    assert Inhibitors(p + [x] + q) == Select(p, inhibits) + [x] + Select(q, inhibits);
    assert Inhibitors(p + q) == Select(p, inhibits) + Select(q, inhibits);
    hide Select, AllWellFormed;
    InhibitionIsMonotone(r, Group(p + q, subject), Select(p, inhibits), x, Select(q, inhibits));
  }

  // ---------------------------------------------------------------- the object

  lemma ActiveSnoc(signals: seq<Signal>, s: Signal, at: int)
    ensures Active(signals + [s], at) == Active(signals, at) + if s.ActiveAt(at) then [s] else []
  {
    assert (signals + [s])[..|signals|] == signals;
  }

  /** An index of active signals by id, without conflicts. */
  ghost predicate IndexesIds(byId: map<string, Signal>, active: seq<Signal>) {
    && (forall s :: s in active ==> s.id in byId && byId[s.id] == s)
    && (forall id :: id in byId ==> byId[id] in active && byId[id].id == id)
  }

  lemma IndexedMeansNoConflict(byId: map<string, Signal>, active: seq<Signal>)
    requires IndexesIds(byId, active)
    ensures !Conflicting(active)
  {
  }

  lemma NothingIndexed(signals: seq<Signal>, at: int)
    requires signals == []
    ensures IndexesIds(map[], Active(signals, at)) && Elements<Signal>([]) == Elements(Active(signals, at))
  {
  }

  /** One more active signal: new, already indexed, or in conflict with what its id indexes. */
  lemma IndexOne(byId: map<string, Signal>, active: seq<Signal>, kept: seq<Signal>, s: Signal)
    requires IndexesIds(byId, active) && Elements(kept) == Elements(active)
    ensures s.id in byId ==> byId[s.id] in active && byId[s.id].id == s.id
    ensures s.id in byId && byId[s.id] == s ==>
              IndexesIds(byId[s.id := s], active + [s]) && Elements(kept) == Elements(active + [s])
    ensures s.id !in byId ==> IndexesIds(byId[s.id := s], active + [s]) && Elements(kept + [s]) == Elements(active + [s])
  {
    assert forall t :: t in active + [s] <==> t in active || t == s;
    assert Elements(active + [s]) == Elements(active) + {s} && Elements(kept + [s]) == Elements(kept) + {s};
    assert s in active ==> s in Elements(kept);
  }

  class SalienceResolver {
    const r: Resolver

    constructor (r: Resolver)
      ensures this.r == r
    {
      this.r := r;
    }

    /** The active signals, each once; None when one id carries two contents. */
    method CollectActive(signals: seq<Signal>, at: int) returns (active: Option<seq<Signal>>)
      ensures active.None? <==> Conflicting(Active(signals, at))
      ensures active.Some? ==> Elements(active.value) == Elements(Active(signals, at))
    {
      var byId: map<string, Signal> := map[];
      var kept: seq<Signal> := [];
      hide Active, Conflicting, IndexesIds, Elements;
      NothingIndexed(signals[..0], at);
      for i := 0 to |signals|
        invariant IndexesIds(byId, Active(signals[..i], at)) && Elements(kept) == Elements(Active(signals[..i], at))
      {
        var s := signals[i];
        assert signals[..i + 1] == signals[..i] + [s];
        ActiveSnoc(signals[..i], s, at);
        ghost var before := Active(signals[..i], at);
        if s.validFrom <= at < s.validUntil {
          IndexOne(byId, before, kept, s);
          if s.id in byId && byId[s.id] != s {
            ConflictStays(signals, i, byId[s.id], at);
            return None;
          }
          if s.id !in byId {
            kept := kept + [s];
          }
          byId := byId[s.id := s];
        } else {
          assert before + [] == before;
        }
      }
      assert signals[..|signals|] == signals;
      IndexedMeansNoConflict(byId, Active(signals, at));
      active := Some(kept);
    }

    method Resolve(signals: seq<Signal>, at: int) returns (result: Resolution)
      requires r.scale > 0.0 && AllWellFormed(signals)
      ensures result == ResolutionOf(r, signals, at)
    {
      hide *;
      ResolutionIs(r, signals, at);
      var active := CollectActive(signals, at);
      if active.None? {
        return ConflictingContent;
      }
      SameActive(Active(signals, at), active.value);
      var canonical := SortUnique(SignalLess, active.value);
      var inhibitors, groups, found := GroupSignals(canonical);
      KeysAreSubjects(canonical, found);
      var subjects := SortUnique(TextLess, found);
      var decisions: seq<Decision> := [];
      for i := 0 to |subjects|
        invariant |decisions| == i && forall j :: 0 <= j < i ==> decisions[j] == DecisionFor(r, canonical, subjects[j])
      {
        GroupIsThere(canonical, found, groups, subjects, i);
        var decision := ResolveGroup(canonical, subjects[i], groups[subjects[i]], inhibitors);
        decisions := decisions + [decision];
      }
      assert decisions == PreBudget(r, canonical);
      var budgeted := ApplyWakeBudget(decisions);
      result := Resolved(budgeted);
    }

    /** The inhibitors, the excitatory signals by subject, and those subjects as they are found. */
    method GroupSignals(canonical: seq<Signal>) returns (inhibitors: seq<Signal>, groups: map<string, seq<Signal>>, found: seq<string>)
      ensures inhibitors == Inhibitors(canonical) && Elements(found) == groups.Keys == Elements(SubjectList(Select(canonical, Excites)))
      ensures forall subject :: subject in groups ==> groups[subject] == Group(canonical, subject)
    {
      inhibitors, groups, found := [], map[], [];
      hide Select, Inhibitors, Group, SubjectList;
      NoGroups(canonical[..0]);
      for i := 0 to |canonical|
        invariant inhibitors == Inhibitors(canonical[..i]) && Elements(found) == groups.Keys == Elements(SubjectList(Select(canonical[..i], Excites)))
        invariant forall subject :: if subject in groups then groups[subject] == Group(canonical[..i], subject) else Group(canonical[..i], subject) == []
      {
        var s := canonical[i];
        assert canonical[..i + 1] == canonical[..i] + [s];
        InhibitorsSnoc(canonical[..i], s);
        SubjectsSnoc(canonical[..i], s);
        forall subject ensures Group(canonical[..i + 1], subject)
                               == if s.role.Excitatory? && s.subject == subject then Group(canonical[..i], subject) + [s] else Group(canonical[..i], subject) {
          GroupSnoc(canonical[..i], s, subject);
        }
        if s.role.Inhibitory? {
          inhibitors := inhibitors + [s];
        } else {
          if s.subject !in groups {
            found := found + [s.subject];
          }
          groups := groups[s.subject := (if s.subject in groups then groups[s.subject] else []) + [s]];
        }
      }
      assert canonical[..|canonical|] == canonical;
    }

    method ResolveGroup(ghost canonical: seq<Signal>, subject: string, signals: seq<Signal>, inhibitors: seq<Signal>) returns (decision: Decision)
      requires r.scale > 0.0 && AllWellFormed(canonical) && inhibitors == Inhibitors(canonical) && signals == Group(canonical, subject)
      ensures decision == DecisionFor(r, canonical, subject)
    {
      SelectWellFormed(canonical, (s: Signal) => s.role.Excitatory? && s.subject == subject);
      forall x | x in inhibitors ensures x.role.Inhibitory? { SelectMembers(canonical, Inhibits, x); }
      forall s | s in signals ensures s.subject == subject {
        SelectMembers(canonical, (s: Signal) => s.role.Excitatory? && s.subject == subject, s);
      }
      decision := ResolveSubject(subject, signals, inhibitors);
    }

    method Matches(kind: string, patterns: seq<string>) returns (any: bool)
      ensures any <==> exists i :: 0 <= i < |patterns| && r.matches(kind, patterns[i])
    {
      any := false;
      for i := 0 to |patterns|
        invariant any <==> exists k :: 0 <= k < i && r.matches(kind, patterns[k])
      {
        if r.matches(kind, patterns[i]) {
          any := true;
        }
      }
    }

    /** Which inhibitors block a signal, and which of them modulate it. */
    method Oppose(subject: string, s: Signal, inhibitors: seq<Signal>) returns (blockers: set<string>, modulators: seq<Signal>)
      requires s.subject == subject && forall x :: x in inhibitors ==> x.role.Inhibitory?
      ensures blockers == Blockers(r, [s], inhibitors) && modulators == ModulatorsOf(r, s, inhibitors)
      ensures Elements(Ids(modulators)) == Modulators(r, [s], inhibitors)
      ensures blockers == {} <==> !Blocked(r, s, inhibitors)
    {
      blockers, modulators := {}, [];
      OpposedOne(r, s, inhibitors);
      NothingModulates(r, s, inhibitors[..0]);
      for i := 0 to |inhibitors|
        invariant blockers == Blockers(r, [s], inhibitors[..i]) && Elements(Ids(modulators)) == Modulators(r, [s], inhibitors[..i])
        invariant modulators == ModulatorsOf(r, s, inhibitors[..i])
      {
        var x := inhibitors[i];
        var concerned := (x.subject == "*" || x.subject == subject) && x.precedence >= s.precedence;
        if concerned {
          concerned := Matches(s.kind, x.role.inhibits);
        }
        assert concerned <==> Opposes(r, x, s);
        hide Opposes, Blockers, Modulators, ModulatorsOf, Elements, Ids, Blocked;
        assert inhibitors[..i + 1] == inhibitors[..i] + [x];
        ModulatorsSnoc(r, s, inhibitors[..i], x);
        OpposeSnoc(r, s, inhibitors[..i], x);
        IdsSnoc(modulators, x);
        if concerned && x.role.mode.Hard? {
          blockers := blockers + {x.id};
        } else if concerned {
          modulators := modulators + [x];
        }
      }
      assert inhibitors[..|inhibitors|] == inhibitors;
    }

    method AttenuationOf(modulators: seq<Signal>) returns (attenuation: real)
      requires forall x :: x in modulators ==> x.role.Inhibitory? && x.role.mode.Graded?
      ensures attenuation == Damped(modulators)
    {
      attenuation := 1.0;
      for i := 0 to |modulators|
        invariant attenuation == Damped(modulators[..i])
      {
        var x := modulators[i];
        assert modulators[..i + 1][..i] == modulators[..i];
        attenuation := attenuation * (1.0 - x.role.mode.strength * x.confidence * x.salience);
      }
      assert modulators[..|modulators|] == modulators;
    }

    method ContributionOf(s: Signal) returns (contribution: real)
      requires r.scale > 0.0 && s.expectedValue >= 0.0
      ensures contribution == Contribution(r, s)
    {
      var normalizedValue := s.expectedValue / (s.expectedValue + r.scale);
      var weighted := 0.7 * s.salience + 0.2 * s.urgency + 0.1 * normalizedValue;
      contribution := s.confidence * weighted;
      if contribution > 1.0 {
        contribution := 1.0;
      }
    }

    /** What the inhibitors leave of a signal, and which of them block or modulate it. */
    method Weigh(subject: string, s: Signal, inhibitors: seq<Signal>) returns (blockers: set<string>, modulators: set<string>, attenuation: real)
      requires s.subject == subject && forall x :: x in inhibitors ==> x.role.Inhibitory?
      ensures blockers == Blockers(r, [s], inhibitors) && modulators == Modulators(r, [s], inhibitors)
      ensures blockers == {} <==> !Blocked(r, s, inhibitors)
      ensures attenuation == Attenuation(r, s, inhibitors)
    {
      var graded;
      blockers, graded := Oppose(subject, s, inhibitors);
      hide Opposes, Damped, Attenuation, Blockers, Modulators, Blocked, Elements, Ids;
      ModulatorsGrade(r, s, inhibitors);
      AttenuationIsDamped(r, s, inhibitors);
      attenuation := AttenuationOf(graded);
      modulators := Elements(Ids(graded));
    }

    method ResolveSubject(subject: string, signals: seq<Signal>, inhibitors: seq<Signal>) returns (decision: Decision)
      requires r.scale > 0.0 && AllWellFormed(signals)
      requires (forall s :: s in signals ==> s.subject == subject) && forall x :: x in inhibitors ==> x.role.Inhibitory?
      ensures decision == DecisionOn(r, subject, signals, inhibitors)
    {
      var blockers, modulators: set<string> := {}, {};
      var effective: seq<Signal> := [];
      var maxUrgency := 0.0;
      NothingOpposed(r, inhibitors);
      hide Effective, MaxUrgency, Attenuation, Blockers, Modulators, Miss;
      for i := 0 to |signals|
        invariant blockers == Blockers(r, signals[..i], inhibitors) && modulators == Modulators(r, signals[..i], inhibitors)
        invariant effective == Effective(r, signals[..i], inhibitors) && maxUrgency == MaxUrgency(r, effective, inhibitors)
      {
        var s := signals[i];
        assert signals[..i + 1] == signals[..i] + [s];
        EffectiveSnoc(r, signals[..i], s, inhibitors);
        UrgencySnoc(r, effective, s, inhibitors);
        OpposedSnoc(r, signals[..i], s, inhibitors);
        var hard, graded, attenuation := Weigh(subject, s, inhibitors);
        blockers, modulators := blockers + hard, modulators + graded;
        if hard == {} {
          effective := effective + [s];
          var here := s.urgency * attenuation;
          maxUrgency := if here > maxUrgency then here else maxUrgency;
        }
      }
      assert signals[..|signals|] == signals;
      EffectiveWellFormed(r, signals, inhibitors);
      SurvivorsAre(r, signals, inhibitors);
      var scored := if effective != [] then effective else signals;
      var miss := MissOf(subject, scored, inhibitors);
      var score := r.round(1.0 - miss);
      hide Requests;
      var disposition := Suppress;
      if effective != [] {
        disposition := UnopposedDisposition(effective, score, maxUrgency);
      }
      decision := Decision(subject, disposition, score, Ids(signals), blockers, modulators);
    }

    method UnopposedDisposition(effective: seq<Signal>, score: real, maxUrgency: real) returns (disposition: Disposition)
      ensures disposition == Unopposed(r, effective, score, maxUrgency)
    {
      var requested := {};
      for i := 0 to |effective|
        invariant forall d :: d in requested <==> exists k :: 0 <= k < i && effective[k].suggested == d
      {
        requested := requested + {effective[i].suggested};
      }
      if ReflexProposal in requested && score >= r.wake {
        return ReflexProposal;
      }
      if Wake in requested && (score >= r.wake || maxUrgency >= r.urgency) {
        return Wake;
      }
      disposition := if score >= r.remember then Remember else Defer;
    }

    /** What a signal, damped by its modulators, leaves open. */
    method FactorOf(subject: string, s: Signal, inhibitors: seq<Signal>) returns (factor: real)
      requires r.scale > 0.0 && s.WellFormed()
      requires s.subject == subject && forall x :: x in inhibitors ==> x.role.Inhibitory?
      ensures factor == Factor(r, s, inhibitors)
    {
      hide Contribution, Attenuation, Blockers, Modulators, Blocked;
      var contribution := ContributionOf(s);
      var _, _, attenuation := Weigh(subject, s, inhibitors);
      factor := 1.0 - contribution * attenuation;
    }

    method MissOf(subject: string, scored: seq<Signal>, inhibitors: seq<Signal>) returns (miss: real)
      requires r.scale > 0.0 && AllWellFormed(scored)
      requires (forall s :: s in scored ==> s.subject == subject) && forall x :: x in inhibitors ==> x.role.Inhibitory?
      ensures miss == Miss(r, scored, inhibitors)
    {
      miss := 1.0;
      assert Miss(r, scored[..0], inhibitors) == 1.0;
      hide Miss, Factor;
      for i := 0 to |scored|
        invariant miss == Miss(r, scored[..i], inhibitors)
      {
        assert scored[..i + 1] == scored[..i] + [scored[i]];
        MissSnoc(r, scored[..i], scored[i], inhibitors);
        var factor := FactorOf(subject, scored[i], inhibitors);
        miss := miss * factor;
      }
      assert scored[..|scored|] == scored;
    }

    method ApplyWakeBudget(decisions: seq<Decision>) returns (after: seq<Decision>)
      ensures after == AfterBudget(r, decisions)
    {
      if r.budget.None? {
        return decisions;
      }
      var wakes: seq<Decision> := [];
      for i := 0 to |decisions|
        invariant wakes == Select(decisions[..i], (d: Decision) => d.disposition == Wake)
      {
        assert decisions[..i + 1][..i] == decisions[..i];
        if decisions[i].disposition == Wake {
          wakes := wakes + [decisions[i]];
        }
      }
      assert decisions[..|decisions|] == decisions;
      var ranked := SortUnique(Outranks, wakes);
      var allowed := if r.budget.value < |ranked| then ranked[..r.budget.value] else ranked;
      after := [];
      for i := 0 to |decisions|
        invariant after == Budgeted(decisions, allowed)[..i]
      {
        var d := decisions[i];
        after := after + [if d.disposition == Wake && d !in allowed then d.(disposition := Defer) else d];
      }
    }
  }

  lemma ResolutionIs(r: Resolver, signals: seq<Signal>, at: int)
    requires r.scale > 0.0 && AllWellFormed(signals)
    ensures AllWellFormed(SortUnique(SignalLess, Active(signals, at)))
    ensures ResolutionOf(r, signals, at) ==
            if Conflicting(Active(signals, at)) then ConflictingContent
            else Resolved(AfterBudget(r, PreBudget(r, SortUnique(SignalLess, Active(signals, at)))))
  {
    CanonicalWellFormed(signals, at);
    hide PreBudget, AfterBudget, AllWellFormed, SortUnique, Conflicting;
  }

  lemma {:induction false} ModulatorsGrade(r: Resolver, s: Signal, inhibitors: seq<Signal>)
    ensures forall x :: x in ModulatorsOf(r, s, inhibitors) ==> x.role.Inhibitory? && x.role.mode.Graded?
  {
    if inhibitors != [] { ModulatorsGrade(r, s, inhibitors[..|inhibitors| - 1]); }
  }

  lemma NothingModulates(r: Resolver, s: Signal, inhibitors: seq<Signal>)
    requires inhibitors == []
    ensures Blockers(r, [s], inhibitors) == {} == Modulators(r, [s], inhibitors) && ModulatorsOf(r, s, inhibitors) == []
    ensures Elements(Ids([])) == {}
  {
    assert Ids([]) == [];
  }

  lemma OpposeSnoc(r: Resolver, s: Signal, inhibitors: seq<Signal>, x: Signal)
    ensures Blockers(r, [s], inhibitors + [x]) == Blockers(r, [s], inhibitors) + if Blocks(r, x, s) then {x.id} else {}
    ensures Modulators(r, [s], inhibitors + [x]) == Modulators(r, [s], inhibitors) + if Grades(r, x, s) then {x.id} else {}
  {
    hide Blocks, Grades;
    assert s in [s];
    assert forall t :: t in inhibitors + [x] <==> t in inhibitors || t == x;
  }

  lemma IdsSnoc(signals: seq<Signal>, x: Signal)
    ensures Elements(Ids(signals + [x])) == Elements(Ids(signals)) + {x.id}
  {
    assert Ids(signals + [x]) == Ids(signals) + [x.id];
  }

  lemma NoGroups(canonical: seq<Signal>)
    requires canonical == []
    ensures Inhibitors(canonical) == [] && SubjectList(Select(canonical, Excites)) == [] && forall subject :: Group(canonical, subject) == []
  {
  }

  lemma InhibitorsSnoc(canonical: seq<Signal>, s: Signal)
    ensures Inhibitors(canonical + [s]) == if s.role.Inhibitory? then Inhibitors(canonical) + [s] else Inhibitors(canonical)
  {
    assert (canonical + [s])[..|canonical|] == canonical;
  }

  lemma GroupSnoc(canonical: seq<Signal>, s: Signal, subject: string)
    ensures Group(canonical + [s], subject)
            == if s.role.Excitatory? && s.subject == subject then Group(canonical, subject) + [s] else Group(canonical, subject)
  {
    assert (canonical + [s])[..|canonical|] == canonical;
  }

  lemma SubjectsSnoc(canonical: seq<Signal>, s: Signal)
    ensures Elements(SubjectList(Select(canonical + [s], Excites)))
            == Elements(SubjectList(Select(canonical, Excites))) + if s.role.Excitatory? then {s.subject} else {}
  {
    assert (canonical + [s])[..|canonical|] == canonical;
    var before := Select(canonical, Excites);
    assert SubjectList(before + [s]) == SubjectList(before) + [s.subject];
    if s.role.Excitatory? {
      assert Select(canonical + [s], Excites) == before + [s];
    } else {
      assert Select(canonical + [s], Excites) == before;
    }
  }

  /** The subjects in order, in whatever order they were found. */
  lemma KeysAreSubjects(canonical: seq<Signal>, found: seq<string>)
    requires Elements(found) == Elements(SubjectList(Select(canonical, Excites)))
    ensures SortUnique(TextLess, found) == SubjectsOf(canonical)
  {
    TextOrders(Elements(found));
    SortForgetsArrival(TextLess, found, SubjectList(Select(canonical, Excites)));
  }

  lemma GroupIsThere(canonical: seq<Signal>, found: seq<string>, groups: map<string, seq<Signal>>, subjects: seq<string>, i: nat)
    requires Elements(found) == groups.Keys && subjects == SortUnique(TextLess, found) && i < |subjects|
    ensures subjects[i] in groups
  {
    SortElements(TextLess, found);
    assert subjects[i] in Elements(subjects);
  }

  lemma ConflictStays(signals: seq<Signal>, i: nat, other: Signal, at: int)
    requires i < |signals| && signals[i].ActiveAt(at) && other in Active(signals[..i], at)
    requires other.id == signals[i].id && other != signals[i]
    ensures Conflicting(Active(signals, at))
  {
    ActiveElements(signals[..i], at);
    ActiveElements(signals, at);
    assert forall s :: s in Active(signals, at) <==> s in Elements(Active(signals, at));
    assert other in Elements(Active(signals[..i], at));
    assert forall s :: s in signals[..i] ==> s in signals;
  }

  lemma OpposedOne(r: Resolver, s: Signal, inhibitors: seq<Signal>)
    ensures Blockers(r, [s], inhibitors) == set x | x in inhibitors && Blocks(r, x, s) :: x.id
    ensures Modulators(r, [s], inhibitors) == set x | x in inhibitors && Grades(r, x, s) :: x.id
    ensures Blockers(r, [s], inhibitors) == {} <==> !Blocked(r, s, inhibitors)
  {
    hide Blocks, Grades;
    assert s in [s];
    if Blocked(r, s, inhibitors) {
      var x :| x in inhibitors && Blocks(r, x, s);
      assert x.id in Blockers(r, [s], inhibitors);
    }
  }

  lemma NothingOpposed(r: Resolver, inhibitors: seq<Signal>)
    ensures Blockers(r, [], inhibitors) == {} == Modulators(r, [], inhibitors)
    ensures Effective(r, [], inhibitors) == [] && MaxUrgency(r, [], inhibitors) == 0.0
  {
  }

  lemma OpposedSnoc(r: Resolver, signals: seq<Signal>, s: Signal, inhibitors: seq<Signal>)
    ensures Blockers(r, signals + [s], inhibitors) == Blockers(r, signals, inhibitors) + Blockers(r, [s], inhibitors)
    ensures Modulators(r, signals + [s], inhibitors) == Modulators(r, signals, inhibitors) + Modulators(r, [s], inhibitors)
  {
    hide Blocks, Grades;
    assert forall t :: t in signals + [s] <==> t in signals || t in [s];
  }
}
