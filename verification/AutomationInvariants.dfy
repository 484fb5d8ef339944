/** What holds of every automation snapshot any sequence of creations and transitions can reach. */
module AutomationInvariants {
  import opened Common
  import opened AutomationModel

  // ----- One automation -----

  /** The place of a status in the normal course; a cancelled automation has left it. */
  function Stage(status: Status): nat {
    match status
    case Draft => 0
    case Prepared => 1
    case WaitingApproval => 2
    case Approved => 3
    case Executing => 4
    case Executed => 5
    case Verifying => 6
    case Verified => 7
    case Archived => 8
    case Cancelled => 9
  }

  predicate Live(a: Automation) {
    a.status != Archived
  }

  predicate ApprovedStatus(status: Status) {
    status in {Approved, Executing, Executed, Verifying, Verified, Archived}
  }

  /** Every stage up to the current one has a time, and times do not decrease along the stages. */
  ghost predicate TimelineOrdered(a: Automation) {
    && (forall s: Status | Stage(s) <= Stage(a.status) :: s in a.timeline)
    && (forall s: Status, t: Status | Stage(s) <= Stage(t) <= Stage(a.status) && s in a.timeline && t in a.timeline ::
          a.timeline[s] <= a.timeline[t])
  }

  ghost predicate AutomationInv(a: Automation, clock: int) {
    && (a.merchantApproved <==> ApprovedStatus(a.status))
    && (a.status == Verified || a.status == Archived ==> a.rules != [] && AllSatisfied(a.rules))
    && (a.status != Cancelled ==> TimelineOrdered(a))
    && (forall s: Status | s in a.timeline :: a.timeline[s] <= clock)
  }

  /** The next status is the next stage, the previous one, or `Cancelled`. */
  lemma TimelineAfterMove(a: Automation, b: Automation, clock: int, now: int)
    requires TimelineOrdered(a) && forall s: Status | s in a.timeline :: a.timeline[s] <= clock
    requires b.status in AllowedFrom(a.status) && b.status != Cancelled && clock <= now
    requires b.timeline == a.timeline[b.status := now]
    ensures TimelineOrdered(b)
  {
    forall s: Status | Stage(s) <= Stage(b.status) ensures s in b.timeline {
      assert Stage(s) <= Stage(a.status) || s == b.status;
    }
    forall s: Status, t: Status | Stage(s) <= Stage(t) <= Stage(b.status) && s in b.timeline && t in b.timeline
      ensures b.timeline[s] <= b.timeline[t]
    {
      StageIsInjective(s, b.status);
      StageIsInjective(t, b.status);
      if t != b.status {
        assert Stage(t) <= Stage(a.status);
      }
    }
  }

  lemma StageIsInjective(s: Status, t: Status)
    ensures Stage(s) == Stage(t) ==> s == t
  {}

  lemma MoveKeepsInv(a: Automation, b: Automation, request: Request, clock: int, now: int, executor: Option<string>)
    requires AutomationInv(a, clock) && clock <= now && Moves(a, request, now, executor) == Change(b)
    ensures AutomationInv(b, now) && Live(a) && b.id == a.id && b.key == a.key
  {
    MoveShape(a, request, now, executor);
    if b.status != Cancelled {
      TimelineAfterMove(a, b, clock, now);
    }
  }

  lemma MoveShape(a: Automation, request: Request, now: int, executor: Option<string>)
    requires a.merchantApproved <==> ApprovedStatus(a.status)
    requires a.status == Verified || a.status == Archived ==> a.rules != [] && AllSatisfied(a.rules)
    requires Moves(a, request, now, executor).Change?
    ensures
      var b := Moves(a, request, now, executor).automation;
      && b.status == request.to && b.status in AllowedFrom(a.status)
      && b.timeline == a.timeline[request.to := now]
      && b.id == a.id && b.key == a.key
      && (b.merchantApproved <==> ApprovedStatus(b.status))
      && (b.status == Verified || b.status == Archived ==> b.rules != [] && AllSatisfied(b.rules))
      && a.status != Cancelled && a.status != Archived
  {}

  /** Once the transition table allows a move, the approval, execution and executor guards never
      refuse it: only a throwing executor or unmet verification rules do. */
  lemma GuardsNeverRefuse(a: Automation, request: Request, clock: int, now: int, executor: Option<string>)
    requires AutomationInv(a, clock)
    ensures Moves(a, request, now, executor).Change? <==>
      && request.to in AllowedFrom(a.status)
      && (request.to == Executed ==> executor.Some?)
      && (request.to == Verified ==>
            var rules := ApplySignals(a, request.metrics).rules;
            rules != [] && AllSatisfied(rules))
    ensures request.to == Executed && Executed in AllowedFrom(a.status) ==> CallsExecutor(a, request)
  {}

  /** With no metrics given, verification takes every metric of the rules to be true. */
  function DefaultMetrics(rules: seq<Rule>): Signals {
    if rules == [] then map[]
    else DefaultMetrics(rules[..|rules| - 1])[rules[|rules| - 1].metric := Flag(true)]
  }

  lemma {:induction false} DefaultMetricsAreOn(rules: seq<Rule>)
    ensures forall i | 0 <= i < |rules| :: rules[i].metric in DefaultMetrics(rules)
    ensures forall m | m in DefaultMetrics(rules) :: DefaultMetrics(rules)[m] == Flag(true)
  {
    if rules != [] {
      DefaultMetricsAreOn(rules[..|rules| - 1]);
    }
  }

  /** That satisfies every rule, so a verification without metrics only fails on an empty list. */
  lemma DefaultMetricsSatisfyAll(rules: seq<Rule>)
    ensures AllSatisfied(EvaluateRules(rules, DefaultMetrics(rules)))
  {
    DefaultMetricsAreOn(rules);
  }

  // ----- The list of automations -----

  predicate DistinctIds(items: seq<Automation>) {
    forall i, j | 0 <= i < j < |items| :: items[i].id != items[j].id
  }

  predicate LiveKeysUnique(items: seq<Automation>) {
    forall a, b | a in items && b in items && a.id != b.id && Live(a) && Live(b) :: a.key != b.key
  }

  lemma {:induction false} FindSpec(items: seq<Automation>, id: string)
    ensures
      match Find(items, id)
      case Some(a) => a in items && a.id == id
      case None => forall a | a in items :: a.id != id
  {
    if items != [] {
      FindSpec(items[1..], id);
    }
  }

  lemma {:induction false} WithoutMembers(items: seq<Automation>, id: string)
    ensures forall a :: a in Without(items, id) <==> a in items && a.id != id
    ensures DistinctIds(items) ==> DistinctIds(Without(items, id))
  {
    if items != [] {
      WithoutMembers(items[1..], id);
    }
  }

  lemma {:induction false} FindWithout(items: seq<Automation>, id: string, other: string)
    ensures Find(Without(items, id), other) == if other == id then None else Find(items, other)
  {
    if items != [] {
      FindWithout(items[1..], id, other);
      assert items[0].id != id ==> Without(items, id)[1..] == Without(items[1..], id);
    }
  }

  lemma UpsertSpec(items: seq<Automation>, a: Automation)
    requires DistinctIds(items)
    ensures DistinctIds(Upsert(items, a))
    ensures forall b :: b in Upsert(items, a) <==> b == a || (b in items && b.id != a.id)
    ensures Find(Upsert(items, a), a.id) == Some(a)
    ensures forall id | id != a.id :: Find(Upsert(items, a), id) == Find(items, id)
  {
    WithoutMembers(items, a.id);
    assert Upsert(items, a)[1..] == Without(items, a.id);
    forall id | id != a.id ensures Find(Upsert(items, a), id) == Find(items, id) {
      FindWithout(items, a.id, id);
    }
  }

  // ----- Learning -----

  predicate LearningInv(l: Learning) {
    && NoDuplicates(l.approved) && NoDuplicates(l.rejected) && NoDuplicates(l.preferred)
    && forall t | t in l.approved :: t !in l.rejected
  }

  lemma LearningKeepsInv(l: Learning, template: string, lesson: Lesson)
    requires LearningInv(l)
    ensures LearningInv(UpdateLearning(l, template, lesson))
  {
    ExcludeSpec(l.approved, template);
    ExcludeSpec(l.rejected, template);
  }

  // ----- The snapshot -----

  ghost predicate SnapshotInv(s: Snapshot, clock: int) {
    && DistinctIds(s.automations)
    && LiveKeysUnique(s.automations)
    && (forall a | a in s.automations :: AutomationInv(a, clock))
    && |s.history| <= HISTORY_CAP
    && LearningInv(s.learning)
  }

  lemma TimePasses(s: Snapshot, clock: int, now: int)
    requires SnapshotInv(s, clock) && clock <= now
    ensures SnapshotInv(s, now)
  {}

  lemma TransitionKeepsInv(s: Snapshot, id: string, request: Request, clock: int, now: int, executor: Option<string>)
    requires SnapshotInv(s, clock) && clock <= now
    requires Transition(s, id, request, now, executor).Done?
    ensures SnapshotInv(Transition(s, id, request, now, executor).snapshot, now)
  {
    var a, b := Replacement(s, id, request, clock, now, executor);
    TimePasses(s, clock, now);
    ReplacingKeepsInv(s, Transition(s, id, request, now, executor).snapshot, a, b, now);
  }

  /** The automation a successful transition replaces, and what it puts in its place. */
  lemma Replacement(s: Snapshot, id: string, request: Request, clock: int, now: int, executor: Option<string>)
    returns (a: Automation, b: Automation)
    requires SnapshotInv(s, clock) && clock <= now
    requires Transition(s, id, request, now, executor).Done?
    ensures a in s.automations && Live(a) && b.id == a.id && b.key == a.key && AutomationInv(b, now)
    ensures
      var s' := Transition(s, id, request, now, executor).snapshot;
      s'.automations == Upsert(s.automations, b) && |s'.history| <= HISTORY_CAP && LearningInv(s'.learning)
  {
    FindSpec(s.automations, id);
    a, b := TransitionShape(s, id, request, now, executor);
    MoveKeepsInv(a, b, request, clock, now, executor);
    LessonsKeepInv(s.learning, b, request);
  }

  lemma TransitionShape(s: Snapshot, id: string, request: Request, now: int, executor: Option<string>)
    returns (a: Automation, b: Automation)
    requires Transition(s, id, request, now, executor).Done?
    ensures Find(s.automations, id) == Some(a) && Moves(a, request, now, executor) == Change(b)
    ensures
      var s' := Transition(s, id, request, now, executor).snapshot;
      s'.automations == Upsert(s.automations, b) && |s'.history| <= HISTORY_CAP &&
        s'.learning == LessonsOf(s.learning, b, request)
  {
    a := Find(s.automations, id).value;
    b := Moves(a, request, now, executor).automation;
  }

  lemma LessonsKeepInv(l: Learning, b: Automation, request: Request)
    requires LearningInv(l)
    ensures LearningInv(LessonsOf(l, b, request))
  {
    LearningKeepsInv(l, b.key.templateId, LearnApproved);
    LearningKeepsInv(l, b.key.templateId, LearnRejected);
    LearningKeepsInv(l, b.key.templateId, LearnVerified);
  }

  /** Putting a changed live automation in front keeps the invariant. */
  lemma ReplacingKeepsInv(s: Snapshot, s': Snapshot, a: Automation, b: Automation, now: int)
    requires SnapshotInv(s, now) && a in s.automations && Live(a)
    requires b.id == a.id && b.key == a.key && AutomationInv(b, now)
    requires s'.automations == Upsert(s.automations, b) && |s'.history| <= HISTORY_CAP && LearningInv(s'.learning)
    ensures SnapshotInv(s', now)
  {
    UpsertSpec(s.automations, b);
  }

  predicate FreshId(s: Snapshot, id: string) {
    forall a | a in s.automations :: a.id != id
  }

  lemma CreateKeepsInv(s: Snapshot, input: CreateInput, newId: string, clock: int, now: int,
    rulesOf: string -> seq<Rule>)
    requires SnapshotInv(s, clock) && clock <= now && FreshId(s, newId)
    requires Create(s, input, newId, now, rulesOf).CreatedRecord?
    ensures SnapshotInv(Create(s, input, newId, now, rulesOf).snapshot, now)
  {
    TimePasses(s, clock, now);
    var a := Create(s, input, newId, now, rulesOf).automation;
    UpsertSpec(s.automations, a);
    assert AutomationInv(a, now);
    forall b | b in s.automations && Live(b) ensures b.key != a.key {
      var i :| 0 <= i < |s.automations| && s.automations[i] == b;
    }
  }

  /** Nothing leaves a cancelled or archived automation, and the key of a cancelled one can
      never be used again: every later creation for it is a duplicate. */
  lemma CancelledKeyStaysTaken(s: Snapshot, id: string, input: CreateInput, newId: string, now: int,
    rulesOf: string -> seq<Rule>)
    requires Find(s.automations, id).Some? && Find(s.automations, id).value.status == Cancelled
    requires Find(s.automations, id).value.key == Key(input.sourceType, input.sourceId, TemplateFor(s.learning, input))
    requires InputError(input) == None
    ensures Create(s, input, newId, now, rulesOf) == NotCreated(Duplicate)
    ensures forall request: Request, executor :: Transition(s, id, request, now, executor) == Failed(InvalidTransition)
  {
    FindSpec(s.automations, id);
    var a := Find(s.automations, id).value;
    var i :| 0 <= i < |s.automations| && s.automations[i] == a;
  }

  // ----- The stored key -----

  predicate HasColon(s: string) {
    ':' in s
  }

  /** The text that is hashed into the stored key. */
  function KeyText(sourceType: string, sourceId: string, templateId: string): string {
    sourceType + ":" + sourceId + ":" + templateId
  }

  /** Source types and template ids hold no colon, so the text tells automations apart whatever
      characters the source id holds. */
  lemma KeyTextIsInjective(type1: string, source1: string, template1: string, type2: string, source2: string,
    template2: string)
    requires !HasColon(type1) && !HasColon(type2) && !HasColon(template1) && !HasColon(template2)
    requires KeyText(type1, source1, template1) == KeyText(type2, source2, template2)
    ensures type1 == type2 && source1 == source2 && template1 == template2
  {
    var text1, text2 := KeyText(type1, source1, template1), KeyText(type2, source2, template2);
    var rest1, rest2 := source1 + ":" + template1, source2 + ":" + template2;
    assert text1 == type1 + ([':'] + rest1) && text2 == type2 + ([':'] + rest2);
    PrefixBeforeColon(type1, rest1, type2, rest2);
    SuffixAfterColon(source1, template1, source2, template2);
  }

  lemma PrefixBeforeColon(a: string, x: string, b: string, y: string)
    requires !HasColon(a) && !HasColon(b) && a + ([':'] + x) == b + ([':'] + y)
    ensures a == b && x == y
  {
    var s, t := a + ([':'] + x), b + ([':'] + y);
    assert s[|a|] == ':' && s[|b|] == ':' && t[|a|] == ':' && t[|b|] == ':';
    assert a == s[..|a|] && b == t[..|b|];
    assert x == s[|a| + 1..] && y == t[|b| + 1..];
  }

  lemma SuffixAfterColon(a: string, x: string, b: string, y: string)
    requires !HasColon(x) && !HasColon(y) && a + ":" + x == b + ":" + y
    ensures a == b && x == y
  {
    var s, t := a + ":" + x, b + ":" + y;
    assert s[|a|] == ':' && s[|b|] == ':' && t[|a|] == ':' && t[|b|] == ':';
    assert a == s[..|a|] && b == t[..|b|];
    assert x == s[|a| + 1..] && y == t[|b| + 1..];
  }
}
