/** The registry of rule versions: a projection of registration events, from which rulesets
    are pinned at a cursor of the log. */
module Registry {
  import opened Basics
  import opened Sequences

  datatype Ref = Ref(rule: string, version: int)

  /** A rule version; its identity is its reference, its body is everything else. */
  datatype Rule = Rule(ref: Ref, body: string)
  datatype Registered = Registered(rule: Rule, sequence: nat)

  datatype Entry = RuleRegistered(rule: Rule) | OtherEvent

  type Rules = map<Ref, Registered>

  /** Register at a sequence; None when the version already exists with another content or at
      another event. */
  function Register(rules: Rules, rule: Rule, sequence: nat): Option<Rules> {
    if rule.ref in rules then
      if rules[rule.ref] == Registered(rule, sequence) then Some(rules) else None
    else Some(rules[rule.ref := Registered(rule, sequence)])
  }

  function Apply(rules: Rules, e: Entry, sequence: nat): Option<Rules> {
    if e.RuleRegistered? then Register(rules, e.rule, sequence) else Some(rules)
  }

  /** The registry after a whole log, whose events have sequences 1, 2, …; None when one raises. */
  function Rebuild(log: seq<Entry>): Option<Rules> {
    if log == [] then Some(map[])
    else
      var before := Rebuild(log[..|log| - 1]);
      if before.None? then None else Apply(before.value, log[|log| - 1], |log|)
  }

  // ---------------------------------------------------------------- pinning

  function Eligible(rules: Rules, through: nat): set<Rule> {
    set ref | ref in rules && rules[ref].sequence <= through :: rules[ref].rule
  }

  /** The highest eligible version of each rule. */
  function Latest(rules: Rules, through: nat): set<Rule> {
    set r | r in Eligible(rules, through) &&
            forall other :: other in Eligible(rules, through) && other.ref.rule == r.ref.rule ==> other.ref.version <= r.ref.version
  }

  /** How a reference reads; rulesets are listed in the order of these texts. */
  type Rendering = Ref -> string

  predicate RuleLess(render: Rendering, a: Rule, b: Rule) { TextLess(render(a.ref), render(b.ref)) }

  ghost predicate Readable(render: Rendering) { forall a, b :: render(a) == render(b) ==> a == b }

  ghost predicate IsListing(render: Rendering, rules: set<Rule>, listed: seq<Rule>) {
    Elements(listed) == rules && Ascending((a: Rule, b: Rule) => RuleLess(render, a, b), listed)
  }

  /** The ruleset pinned at a cursor: the latest eligible versions in canonical order. */
  ghost predicate IsSnapshot(render: Rendering, rules: Rules, through: nat, ruleset: seq<Rule>) {
    IsListing(render, Latest(rules, through), ruleset)
  }

  /** The ruleset of given references: exactly those versions, all of them eligible. */
  ghost predicate IsSnapshotOf(render: Rendering, rules: Rules, through: nat, refs: set<Ref>, ruleset: seq<Rule>) {
    && (forall ref :: ref in refs ==> ref in rules && rules[ref].sequence <= through)
    && IsListing(render, set ref | ref in refs && ref in rules :: rules[ref].rule, ruleset)
  }

  function RefsOf(ruleset: seq<Rule>): set<Ref> { set r | r in ruleset :: r.ref }

  /** Every entry is filed under its own reference, at a sequence of the log. */
  ghost predicate Filed(rules: Rules, n: nat) {
    forall ref :: ref in rules ==> rules[ref].rule.ref == ref && 1 <= rules[ref].sequence <= n
  }

  lemma {:induction false} RebuiltIsFiled(log: seq<Entry>)
    requires Rebuild(log).Some?
    ensures Filed(Rebuild(log).value, |log|)
  {
    if log != [] {
      RebuiltIsFiled(log[..|log| - 1]);
    }
  }

  lemma OneRulePerRef(rules: Rules, n: nat)
    requires Filed(rules, n)
    ensures forall a, b, through :: a in Eligible(rules, through) && b in Eligible(rules, through) && a.ref == b.ref ==> a == b
  {
  }

  lemma RulesOrdered(render: Rendering, rules: set<Rule>)
    requires Readable(render) && forall a, b :: a in rules && b in rules && a.ref == b.ref ==> a == b
    ensures Orders((a: Rule, b: Rule) => RuleLess(render, a, b), rules)
  {
    var less := (a: Rule, b: Rule) => RuleLess(render, a, b);
    forall a | a in rules ensures !less(a, a) { TextTotal(render(a.ref), render(a.ref)); }
    forall a, b | a in rules && b in rules && a != b ensures less(a, b) || less(b, a) { TextTotal(render(a.ref), render(b.ref)); }
    forall a, b, c | a in rules && b in rules && c in rules && less(a, b) && less(b, c) ensures less(a, c) {
      TextTransitive(render(a.ref), render(b.ref), render(c.ref));
    }
  }

  /** A pinned ruleset lists each rule once, in one version, and there is only one such list. */
  lemma SnapshotIsCanonical(render: Rendering, log: seq<Entry>, through: nat, a: seq<Rule>, b: seq<Rule>)
    requires Readable(render) && Rebuild(log).Some?
    requires IsSnapshot(render, Rebuild(log).value, through, a) && IsSnapshot(render, Rebuild(log).value, through, b)
    ensures a == b
    ensures forall i, j :: 0 <= i < j < |a| ==> a[i].ref.rule != a[j].ref.rule && TextLess(render(a[i].ref), render(a[j].ref))
  {
    RebuiltIsFiled(log);
    OneRulePerRef(Rebuild(log).value, |log|);
    RulesOrdered(render, Elements(a));
    AscendingIsUnique((x: Rule, y: Rule) => RuleLess(render, x, y), a, b);
    forall i, j | 0 <= i < j < |a| ensures a[i].ref.rule != a[j].ref.rule && TextLess(render(a[i].ref), render(a[j].ref)) {
      assert a[i] in Elements(a) && a[j] in Elements(a);
      assert RuleLess(render, a[i], a[j]);
      TextTotal(render(a[i].ref), render(a[j].ref));
    }
  }

  lemma {:induction false} RebuildPrefix(log: seq<Entry>, n: nat)
    requires Rebuild(log).Some? && n <= |log|
    ensures Rebuild(log[..n]).Some?
    ensures forall ref :: ref in Rebuild(log[..n]).value ==>
              ref in Rebuild(log).value && Rebuild(log).value[ref] == Rebuild(log[..n]).value[ref]
    ensures forall ref :: ref in Rebuild(log).value && ref !in Rebuild(log[..n]).value ==> Rebuild(log).value[ref].sequence > n
  {
    if n == |log| {
      assert log[..n] == log;
    } else {
      RebuildPrefix(log[..|log| - 1], n);
      assert log[..|log| - 1][..n] == log[..n];
    }
  }

  /** What is eligible at a cursor is unchanged by every registration after it. */
  lemma EligibleIsStable(log: seq<Entry>, later: seq<Entry>, through: nat)
    requires Rebuild(log + later).Some? && through <= |log|
    ensures Rebuild(log).Some?
    ensures Eligible(Rebuild(log + later).value, through) == Eligible(Rebuild(log).value, through)
  {
    assert (log + later)[..|log|] == log;
    RebuildPrefix(log + later, |log|);
    RebuiltIsFiled(log);
    var before, after := Rebuild(log).value, Rebuild(log + later).value;
    assert forall ref :: ref in after && after[ref].sequence <= through ==> ref in before && before[ref] == after[ref];
  }

  /** Pinned rulesets are stable: whatever is registered after the cursor, the snapshot at the
      cursor stays what it was. */
  lemma PinnedRulesetIsStable(render: Rendering, log: seq<Entry>, later: seq<Entry>, through: nat, ruleset: seq<Rule>)
    requires Rebuild(log + later).Some? && through <= |log|
    ensures Rebuild(log).Some?
    ensures IsSnapshot(render, Rebuild(log + later).value, through, ruleset) <==> IsSnapshot(render, Rebuild(log).value, through, ruleset)
  {
    EligibleIsStable(log, later, through);
  }

  /** What epoch restore relies on: asking again at the cursor for the references that were
      stored, after any later registrations, returns the same ruleset and nothing else. */
  lemma StoredReferencesRestoreTheRuleset(render: Rendering, log: seq<Entry>, later: seq<Entry>, through: nat,
                                          ruleset: seq<Rule>, restored: seq<Rule>)
    requires Readable(render) && Rebuild(log + later).Some? && through <= |log| && Rebuild(log).Some?
    requires IsSnapshot(render, Rebuild(log).value, through, ruleset)
    ensures IsSnapshotOf(render, Rebuild(log + later).value, through, RefsOf(ruleset), restored) <==> restored == ruleset
  {
    EligibleIsStable(log, later, through);
    RebuiltIsFiled(log + later);
    var rules, refs := Rebuild(log + later).value, RefsOf(ruleset);
    assert forall r :: r in ruleset <==> r in Elements(ruleset);
    forall ref | ref in refs ensures ref in rules && rules[ref].sequence <= through && rules[ref].rule in ruleset {
      var r :| r in ruleset && r.ref == ref;
      assert r in Eligible(rules, through);
    }
    forall r | r in ruleset ensures r.ref in refs && rules[r.ref].rule == r {
      assert r in Eligible(rules, through);
    }
    assert (set ref | ref in refs && ref in rules :: rules[ref].rule) == Elements(ruleset);
    if IsSnapshotOf(render, rules, through, refs, restored) {
      OneRulePerRef(rules, |log + later|);
      RulesOrdered(render, Elements(ruleset));
      AscendingIsUnique((x: Rule, y: Rule) => RuleLess(render, x, y), restored, ruleset);
    }
  }

  // ---------------------------------------------------------------- the object

  class RuleRegistry {
    var rules: Rules
    const render: Rendering

    constructor (render: Rendering)
      ensures rules == map[] && this.render == render
    {
      rules, this.render := map[], render;
    }

    method RegisterProjection(rule: Rule, sequence: nat) returns (ok: bool)
      modifies this
      ensures ok == Register(old(rules), rule, sequence).Some?
      ensures rules == if ok then Register(old(rules), rule, sequence).value else old(rules)
    {
      if rule.ref in rules {
        var current := rules[rule.ref];
        return current.rule == rule && current.sequence == sequence;
      }
      rules := rules[rule.ref := Registered(rule, sequence)];
      ok := true;
    }

    method RebuildFrom(log: seq<Entry>) returns (ok: bool)
      modifies this
      ensures ok == Rebuild(log).Some? && (ok ==> rules == Rebuild(log).value)
    {
      rules := map[];
      for i := 0 to |log|
        invariant Rebuild(log[..i]) == Some(rules)
      {
        assert log[..i + 1][..i] == log[..i];
        if log[i].RuleRegistered? {
          ok := RegisterProjection(log[i].rule, i + 1);
          if !ok {
            if Rebuild(log).Some? { RebuildPrefix(log, i + 1); }
            return;
          }
        }
      }
      assert log[..|log|] == log;
      ok := true;
    }

    /** Keep the highest version seen of each rule, then list what was kept. */
    method Snapshot(through: nat, ghost n: nat) returns (ruleset: seq<Rule>)
      requires Filed(rules, n) && Readable(render)
      ensures IsSnapshot(render, rules, through, ruleset)
    {
      var latest := HighestVersions(rules, through, n);
      KeptIsLatest(rules, through, n, latest);
      ruleset := ListRules(latest);
    }

    static method HighestVersions(rules: Rules, through: nat, ghost n: nat) returns (latest: map<string, Rule>)
      requires Filed(rules, n)
      ensures KeepsHighest(rules, through, rules.Keys, latest)
    {
      hide *;
      NothingKept(rules, through);
      latest := map[];
      ghost var seen: set<Ref> := {};
      var rest := rules.Keys;
      while rest != {}
        invariant seen + rest == rules.Keys && KeepsHighest(rules, through, seen, latest)
        decreases |rest|
      {
        var ref :| ref in rest;
        FiledUnderItsRef(rules, n, ref);
        KeepOne(rules, through, seen, latest, ref);
        latest := Keep(rules, through, latest, ref);
        rest, seen := rest - {ref}, seen + {ref};
      }
      assert seen == rules.Keys;
    }

    /** The kept rules in the order of their references. */
    method ListRules(latest: map<string, Rule>) returns (listed: seq<Rule>)
      requires Readable(render) && forall id :: id in latest ==> latest[id].ref.rule == id
      ensures IsListing(render, latest.Values, listed)
    {
      var less := (a: Rule, b: Rule) => RuleLess(render, a, b);
      var rest := latest.Keys;
      var found: seq<Rule> := [];
      while rest != {}
        invariant rest <= latest.Keys && Elements(found) == set id | id in latest && id !in rest :: latest[id]
        decreases |rest|
      {
        var id :| id in rest;
        assert Elements(found + [latest[id]]) == Elements(found) + {latest[id]};
        rest, found := rest - {id}, found + [latest[id]];
      }
      assert Elements(found) == latest.Values;
      forall a, b | a in latest.Values && b in latest.Values && a.ref == b.ref ensures a == b {
      }
      RulesOrdered(render, Elements(found));
      SortElements(less, found);
      SortAscending(less, found);
      listed := SortUnique(less, found);
    }
  }

  /** `latest` holds, for each rule with an eligible version among `seen`, its highest one. */
  ghost predicate KeepsHighest(rules: Rules, through: nat, seen: set<Ref>, latest: map<string, Rule>) {
    && (forall id :: id in latest ==>
          var ref := latest[id].ref; ref.rule == id && ref in seen && ref in rules && rules[ref].sequence <= through && rules[ref].rule == latest[id])
    && (forall ref :: ref in seen && ref in rules && rules[ref].sequence <= through ==>
          ref.rule in latest && ref.version <= latest[ref.rule].ref.version)
  }

  lemma FiledUnderItsRef(rules: Rules, n: nat, ref: Ref)
    requires Filed(rules, n) && ref in rules
    ensures rules[ref].rule.ref == ref
  {
  }

  lemma NothingKept(rules: Rules, through: nat)
    ensures KeepsHighest(rules, through, {}, map[])
  {
  }

  function Keep(rules: Rules, through: nat, latest: map<string, Rule>, ref: Ref): map<string, Rule>
    requires ref in rules
  {
    if rules[ref].sequence <= through && (ref.rule !in latest || ref.version > latest[ref.rule].ref.version)
    then latest[ref.rule := rules[ref].rule] else latest
  }

  lemma KeepOne(rules: Rules, through: nat, seen: set<Ref>, latest: map<string, Rule>, ref: Ref)
    requires KeepsHighest(rules, through, seen, latest) && ref in rules && rules[ref].rule.ref == ref
    ensures KeepsHighest(rules, through, seen + {ref}, Keep(rules, through, latest, ref))
  {
  }

  lemma KeptIsLatest(rules: Rules, through: nat, n: nat, latest: map<string, Rule>)
    requires Filed(rules, n) && KeepsHighest(rules, through, rules.Keys, latest)
    ensures latest.Values == Latest(rules, through) && forall id :: id in latest ==> latest[id].ref.rule == id
  {
    forall r | r in latest.Values ensures r in Latest(rules, through) {
      var id :| id in latest && latest[id] == r;
      assert rules[r.ref].rule == r;
    }
    forall r | r in Latest(rules, through) ensures r in latest.Values {
      var ref :| ref in rules && rules[ref].sequence <= through && rules[ref].rule == r;
      assert ref == r.ref;
      var kept := latest[ref.rule];
      assert kept in Eligible(rules, through) && kept.ref == ref;
      assert kept == r;
    }
  }
}
