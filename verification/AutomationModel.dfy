/** Automations of one store: the ten statuses, the snapshot they are kept in, and what one
    transition and one creation do to that snapshot. Times are whole milliseconds. */
module AutomationModel {
  import opened Common
  import opened JsNumbers

  datatype Status =
    | Draft | Prepared | WaitingApproval | Approved | Executing
    | Executed | Verifying | Verified | Archived | Cancelled

  datatype SourceType = Operation | ExecutiveDecision | Recommendation

  /** What an automation is about; the stored key is a hash of these three. */
  datatype Key = Key(sourceType: SourceType, sourceId: string, templateId: string)

  datatype Rule = Rule(metric: string, target: string, satisfied: bool)

  datatype Automation = Automation(
    id: string, key: Key, status: Status,
    merchantApproved: bool, merchantRejected: bool, changeRequestNote: Option<string>,
    rules: seq<Rule>,
    timeline: map<Status, int>,  // when each stage was last entered; `Draft` is the creation
    executionResult: Option<string>)

  datatype EventType = Created | Moved(to: Status)

  datatype HistoryEvent = HistoryEvent(automationId: string, eventType: EventType, at: int)

  datatype NotificationType =
    | AutomationCreated | AutomationWaiting | AutomationApproved | AutomationExecuted
    | AutomationVerified | AutomationRejected | AutomationCancelled | AutomationArchived

  datatype Notification = Notification(automationId: string, kind: NotificationType, at: int)

  datatype Learning = Learning(
    approved: seq<string>, rejected: seq<string>, preferred: seq<string>)

  datatype Snapshot = Snapshot(
    automations: seq<Automation>, history: seq<HistoryEvent>,
    notifications: seq<Notification>, learning: Learning)

  const EMPTY_SNAPSHOT: Snapshot := Snapshot([], [], [], Learning([], [], []))
  const HISTORY_CAP: nat := 500

  // ----- The status machine -----

  function AllowedFrom(from: Status): set<Status> {
    match from
    case Draft => {Prepared, Cancelled}
    case Prepared => {WaitingApproval, Cancelled}
    case WaitingApproval => {Approved, Prepared, Cancelled}
    case Approved => {Executing, Cancelled}
    case Executing => {Executed, Cancelled}
    case Executed => {Verifying, Cancelled}
    case Verifying => {Verified, Executed}
    case Verified => {Archived}
    case Archived => {}
    case Cancelled => {}
  }

  // ----- Verification rules -----

  /** A merchant metric. For a text, `positive` is whether the number it spells is above zero. */
  datatype Signal = Flag(on: bool) | Number(n: JsNumber) | Text(text: string, positive: bool)

  type Signals = map<string, Signal>

  predicate Truthy(signals: Signals, metric: string) {
    metric in signals &&
    match signals[metric]
    case Flag(on) => on
    case Number(n) => !n.NaN? && n != Finite(0.0)
    case Text(text, _) => text != ""
  }

  predicate Positive(signals: Signals, metric: string) {
    metric in signals &&
    match signals[metric]
    case Flag(on) => on
    case Number(n) => n.PosInfinity? || (n.Finite? && n.value > 0.0)
    case Text(_, positive) => positive
  }

  function EvaluateRules(rules: seq<Rule>, signals: Signals): seq<Rule> {
    seq(|rules|, i requires 0 <= i < |rules| =>
      rules[i].(satisfied :=
        if rules[i].target == "true" then Truthy(signals, rules[i].metric)
        else if rules[i].target == ">0" then Positive(signals, rules[i].metric)
        else Truthy(signals, rules[i].metric)))
  }

  predicate AllSatisfied(rules: seq<Rule>) {
    forall i | 0 <= i < |rules| :: rules[i].satisfied
  }

  // ----- Learning -----

  datatype Lesson = LearnApproved | LearnRejected | LearnVerified

  function UpdateLearning(learning: Learning, template: string, lesson: Lesson): Learning {
    match lesson
    case LearnApproved =>
      Learning(Include(learning.approved, template), Exclude(learning.rejected, template),
               Include(learning.preferred, template))
    case LearnRejected =>
      learning.(approved := Exclude(learning.approved, template), rejected := Include(learning.rejected, template))
    case LearnVerified =>
      learning.(preferred := Include(learning.preferred, template))
  }

  /** The template suggested from what was learned, among candidates. */
  function SuggestTemplate(learning: Learning, candidates: seq<string>): Option<string> {
    match FirstIn(candidates, learning.preferred, true)
    case Some(t) => Some(t)
    case None =>
      match FirstIn(candidates, learning.rejected, false)
      case Some(t) => Some(t)
      case None => if candidates == [] then None else Some(candidates[0])
  }

  /** The first candidate that is in `pool` (or, with `wanted` false, that is not). */
  function FirstIn(candidates: seq<string>, pool: seq<string>, wanted: bool): Option<string> {
    if candidates == [] then None
    else if (candidates[0] in pool) == wanted then Some(candidates[0])
    else FirstIn(candidates[1..], pool, wanted)
  }

  /** With a single candidate, as on creation, learning never changes the choice. */
  lemma SingleCandidateIsAlwaysChosen(learning: Learning, candidate: string)
    ensures SuggestTemplate(learning, [candidate]) == Some(candidate)
  {
    assert [candidate][1..] == [];
    assert FirstIn([candidate][1..], learning.preferred, true) == None;
    assert FirstIn([candidate][1..], learning.rejected, false) == None;
  }

  // ----- The snapshot -----

  function Find(items: seq<Automation>, id: string): Option<Automation> {
    if items == [] then None
    else if items[0].id == id then Some(items[0])
    else Find(items[1..], id)
  }

  function Without(items: seq<Automation>, id: string): seq<Automation> {
    if items == [] then []
    else if items[0].id == id then Without(items[1..], id)
    else [items[0]] + Without(items[1..], id)
  }

  /** Newest first, at most 500. */
  function AppendHistory(history: seq<HistoryEvent>, event: HistoryEvent): seq<HistoryEvent> {
    var all := [event] + history;
    if |all| <= HISTORY_CAP then all else all[..HISTORY_CAP]
  }

  function Upsert(items: seq<Automation>, automation: Automation): seq<Automation> {
    [automation] + Without(items, automation.id)
  }

  // ----- One transition -----

  datatype Request = Request(
    to: Status, note: Option<string>, rejected: bool, metrics: Option<Signals>)

  datatype TransitionError =
    | NotFound | InvalidTransition | NotReadyForApproval | ApprovalRequired | NotApproved
    | ExecutionFailed | MissingRules | NotSatisfied

  datatype Change = Change(automation: Automation) | Refused(error: TransitionError)

  function ApplySignals(a: Automation, metrics: Option<Signals>): Automation {
    if metrics.None? then a else a.(rules := EvaluateRules(a.rules, metrics.value))
  }

  /** The automation after one requested move, or why it is refused. `executor` is what the
      Shopify executor would answer; `None` when it throws. */
  function Moves(a: Automation, request: Request, now: int, executor: Option<string>): Change {
    if request.to !in AllowedFrom(a.status) then Refused(InvalidTransition)
    else
      var moved := a.(status := request.to, timeline := a.timeline[request.to := now]);
      match request.to
      case Approved =>
        if a.status != WaitingApproval && a.status != Approved then Refused(NotReadyForApproval)
        else Change(moved.(merchantApproved := true, merchantRejected := false, changeRequestNote := None))
      case Cancelled =>
        Change(moved.(merchantRejected := request.rejected, changeRequestNote := request.note,
          merchantApproved := false))
      case Prepared =>
        if request.note.Some? && request.note.value != ""
        then Change(moved.(changeRequestNote := request.note, merchantApproved := false))
        else Change(moved)
      case Executing =>
        if !a.merchantApproved then Refused(ApprovalRequired)
        else if a.status != Approved then Refused(NotApproved)
        else Change(moved)
      case Executed =>
        if !moved.merchantApproved then Refused(ApprovalRequired)
        else if executor.None? then Refused(ExecutionFailed)
        else Change(moved.(executionResult := executor))
      case Verifying => Change(ApplySignals(moved, request.metrics))
      case Verified =>
        var checked := ApplySignals(moved, request.metrics);
        if checked.rules == [] then Refused(MissingRules)
        else if !AllSatisfied(checked.rules) then Refused(NotSatisfied)
        else Change(checked)
      case Draft => Change(moved)
      case WaitingApproval => Change(moved)
      case Archived => Change(moved)
  }

  /** The external executor is called: the move is allowed and its own guard lets it through. */
  predicate CallsExecutor(a: Automation, request: Request) {
    request.to == Executed && Executed in AllowedFrom(a.status) && a.merchantApproved
  }

  function NotificationFor(a: Automation): Option<NotificationType> {
    match a.status
    case WaitingApproval => Some(AutomationWaiting)
    case Approved => Some(AutomationApproved)
    case Executed => Some(AutomationExecuted)
    case Verified => Some(AutomationVerified)
    case Cancelled => Some(if a.merchantRejected then AutomationRejected else AutomationCancelled)
    case Archived => Some(AutomationArchived)
    case _ => None
  }

  function LessonsOf(learning: Learning, a: Automation, request: Request): Learning {
    if request.to == Approved then UpdateLearning(learning, a.key.templateId, LearnApproved)
    else if request.to == Cancelled && request.rejected then UpdateLearning(learning, a.key.templateId, LearnRejected)
    else if request.to == Verified then UpdateLearning(learning, a.key.templateId, LearnVerified)
    else learning
  }

  datatype TransitionResult = Done(snapshot: Snapshot, automation: Automation) | Failed(error: TransitionError)

  function Transition(s: Snapshot, id: string, request: Request, now: int, executor: Option<string>): TransitionResult {
    match Find(s.automations, id)
    case None => Failed(NotFound)
    case Some(a) =>
      match Moves(a, request, now, executor)
      case Refused(error) => Failed(error)
      case Change(updated) =>
        var note := NotificationFor(updated);
        Done(
          Snapshot(
            Upsert(s.automations, updated),
            AppendHistory(s.history, HistoryEvent(id, Moved(request.to), now)),
            if note.Some? then [Notification(id, note.value, now)] + s.notifications else s.notifications,
            LessonsOf(s.learning, updated, request)),
          updated)
  }

  // ----- Creation -----

  /** `inferred` is the template the title suggests. */
  datatype CreateInput = CreateInput(
    storeId: string, title: string, sourceType: SourceType, sourceId: string,
    templateId: Option<string>, inferred: string)

  datatype CreateError = MissingStore | InvalidTitle | MissingSource | Duplicate

  datatype CreateResult = CreatedRecord(snapshot: Snapshot, automation: Automation) | NotCreated(error: CreateError)

  /** The white space and line ends that trimming removes. */
  predicate IsSpace(c: char) {
    || ('\t' <= c <= '\r') || c == ' ' || c == '\U{A0}' || c == '\U{1680}' || ('\U{2000}' <= c <= '\U{200A}')
    || c == '\U{2028}' || c == '\U{2029}' || c == '\U{202F}' || c == '\U{205F}' || c == '\U{3000}'
    || c == '\U{FEFF}'
  }

  function TrimLeft(s: string): string {
    if s == "" || !IsSpace(s[0]) then s else TrimLeft(s[1..])
  }

  function Trim(s: string): string {
    TrimRight(TrimLeft(s))
  }

  function TrimRight(s: string): string {
    if s == "" || !IsSpace(s[|s| - 1]) then s else TrimRight(s[..|s| - 1])
  }

  function InputError(input: CreateInput): Option<CreateError> {
    if Trim(input.storeId) == "" then Some(MissingStore)
    else if |Trim(input.title)| < 3 then Some(InvalidTitle)
    else if Trim(input.sourceId) == "" then Some(MissingSource)
    else None
  }

  function TemplateFor(learning: Learning, input: CreateInput): string {
    if input.templateId.Some? then input.templateId.value
    else
      var suggested := SuggestTemplate(learning, [input.inferred]);
      if suggested.Some? then suggested.value else input.inferred
  }

  predicate HasLive(items: seq<Automation>, key: Key) {
    exists i | 0 <= i < |items| :: items[i].key == key && items[i].status != Archived
  }

  /** `newId` is the fresh random id, `rulesOf` the verification rules of each template. */
  function Create(s: Snapshot, input: CreateInput, newId: string, now: int,
    rulesOf: string -> seq<Rule>): CreateResult {
    match InputError(input)
    case Some(error) => NotCreated(error)
    case None =>
      var template := TemplateFor(s.learning, input);
      var key := Key(input.sourceType, input.sourceId, template);
      if HasLive(s.automations, key) then NotCreated(Duplicate)
      else
        var a := Automation(newId, key, Draft, false, false, None, rulesOf(template), map[Draft := now], None);
        CreatedRecord(
          Snapshot(
            Upsert(s.automations, a),
            AppendHistory(s.history, HistoryEvent(newId, Created, now)),
            [Notification(newId, AutomationCreated, now)] + s.notifications,
            s.learning),
          a)
  }
}
