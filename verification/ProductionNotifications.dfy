/** The production notification lists: one list per store, newest first, at most 100 entries. */
module ProductionNotifications {
  import opened Common

  /** `text` stands for the fields no operation here looks at. */
  datatype Alert = Alert(id: string, text: string, dismissed: bool, resolved: bool)

  datatype Notification = Notification(alert: Alert, read: bool)

  type Notes = seq<Notification>

  type Lists = map<string, Notes>

  const CAP := 100

  function Ids(list: Notes): (ids: seq<string>)
    ensures |ids| == |list|
    ensures forall k | 0 <= k < |list| :: ids[k] == list[k].alert.id
  {
    seq(|list|, k requires 0 <= k < |list| => list[k].alert.id)
  }

  predicate Inv(list: Notes) {
    NoDuplicates(Ids(list)) && |list| <= CAP
  }

  function IndexOf(list: Notes, id: string): (k: nat)
    ensures k <= |list|
    ensures forall j | 0 <= j < k :: list[j].alert.id != id
    ensures k < |list| ==> list[k].alert.id == id
  {
    if list == [] || list[0].alert.id == id then 0 else 1 + IndexOf(list[1..], id)
  }

  function UpsertOne(list: Notes, alert: Alert): Notes {
    var k := IndexOf(list, alert.id);
    if k < |list| then list[k := Notification(alert, list[k].read)] else [Notification(alert, false)] + list
  }

  function Merged(list: Notes, alerts: seq<Alert>): Notes {
    if alerts == [] then list else UpsertOne(Merged(list, alerts[..|alerts| - 1]), alerts[|alerts| - 1])
  }

  function Trimmed(list: Notes): Notes {
    if |list| <= CAP then list else list[..CAP]
  }

  function Dismissed(list: Notes, id: string): Notes {
    seq(|list|, k requires 0 <= k < |list| =>
      if list[k].alert.id == id then Notification(list[k].alert.(dismissed := true), true) else list[k])
  }

  function Resolved(list: Notes, id: string): Notes {
    seq(|list|, k requires 0 <= k < |list| =>
      if list[k].alert.id == id then Notification(list[k].alert.(resolved := true, dismissed := false), true)
      else list[k])
  }

  class NotificationStore {
    var lists: Lists

    constructor ()
      ensures lists == map[]
    {
      lists := map[];
    }

    function ListOf(storeId: string): Notes
      reads this
    {
      if storeId in lists then lists[storeId] else []
    }

    method Upsert(storeId: string, alerts: seq<Alert>) returns (trimmed: Notes)
      modifies this
      ensures trimmed == Trimmed(Merged(old(ListOf(storeId)), alerts))
      ensures lists == old(lists)[storeId := trimmed]
      ensures NoDuplicates(Ids(old(ListOf(storeId)))) ==> IsUpserted(old(ListOf(storeId)), trimmed, alerts)
    {
      var existing := ListOf(storeId);
      var merged := existing;
      for i := 0 to |alerts|
        invariant merged == Merged(existing, alerts[..i])
      {
        assert alerts[..i + 1][..i] == alerts[..i];
        var alert := alerts[i];
        var index := IndexOf(merged, alert.id);
        if index < |merged| {
          merged := merged[index := Notification(alert, merged[index].read)];
        } else {
          merged := [Notification(alert, false)] + merged;
        }
      }
      assert alerts[..|alerts|] == alerts;
      if NoDuplicates(Ids(existing)) {
        UpsertedList(existing, alerts);
      }
      trimmed := if |merged| <= CAP then merged else merged[..CAP];
      lists := lists[storeId := trimmed];
    }

    method Dismiss(storeId: string, id: string)
      modifies this
      ensures lists == old(lists)[storeId := Dismissed(old(ListOf(storeId)), id)]
      ensures |ListOf(storeId)| == |old(ListOf(storeId))|
      ensures forall k | 0 <= k < |ListOf(storeId)| ::
        var was, now := old(ListOf(storeId))[k], ListOf(storeId)[k];
        now == if was.alert.id == id then Notification(Alert(id, was.alert.text, true, was.alert.resolved),
          true) else was
    {
      lists := lists[storeId := Dismissed(ListOf(storeId), id)];
    }

    method Resolve(storeId: string, id: string)
      modifies this
      ensures lists == old(lists)[storeId := Resolved(old(ListOf(storeId)), id)]
      ensures |ListOf(storeId)| == |old(ListOf(storeId))|
      ensures forall k | 0 <= k < |ListOf(storeId)| ::
        var was, now := old(ListOf(storeId))[k], ListOf(storeId)[k];
        now == if was.alert.id == id then Notification(Alert(id, was.alert.text, false, true), true) else was
    {
      lists := lists[storeId := Resolved(ListOf(storeId), id)];
    }
  }

  // ----- What an upsert does to a list, said without folding -----

  /** The last of the alerts with this id. */
  function Latest(alerts: seq<Alert>, id: string): Option<Alert> {
    if alerts == [] then None
    else if alerts[|alerts| - 1].id == id then Some(alerts[|alerts| - 1])
    else Latest(alerts[..|alerts| - 1], id)
  }

  /** The ids not yet in the list, newest arrival first. */
  function NewIds(list: Notes, alerts: seq<Alert>): seq<string> {
    if alerts == [] then []
    else
      var earlier, id := NewIds(list, alerts[..|alerts| - 1]), alerts[|alerts| - 1].id;
      if id in Ids(list) || id in earlier then earlier else [id] + earlier
  }

  /** The new ids are those of the alerts which the list lacks, each once, and an id whose first
      alert came later stands before one whose first alert came earlier. */
  lemma {:induction false} NewIdsSpec(list: Notes, alerts: seq<Alert>)
    ensures forall id :: id in NewIds(list, alerts) <==> id !in Ids(list) && Latest(alerts, id).Some?
    ensures NoDuplicates(NewIds(list, alerts))
    ensures forall i, j | 0 <= i < j < |NewIds(list, alerts)| ::
      FirstArrival(alerts, NewIds(list, alerts)[j]) < FirstArrival(alerts, NewIds(list, alerts)[i])
  {
    if alerts != [] {
      var n := |alerts| - 1;
      var before, id := alerts[..n], alerts[n].id;
      NewIdsSpec(list, before);
      var earlier, ids := NewIds(list, before), NewIds(list, alerts);
      forall x
        ensures FirstArrival(alerts, x) ==
          if FirstArrival(before, x) < n || x == id then FirstArrival(before, x) else n + 1
      {
        FirstArrivalSnoc(before, alerts[n], x);
        assert before + [alerts[n]] == alerts;
      }
      forall x | x in earlier ensures FirstArrival(before, x) < n {
        ArrivedIff(before, x);
      }
      if id !in Ids(list) && id !in earlier {
        ArrivedIff(before, id);
        assert ids == [id] + earlier;
      }
    }
  }

  /** The position of the first alert with this id, or the number of alerts. */
  function FirstArrival(alerts: seq<Alert>, id: string): (k: nat)
    ensures k <= |alerts|
  {
    if alerts == [] || alerts[0].id == id then 0 else 1 + FirstArrival(alerts[1..], id)
  }

  lemma {:induction false} FirstArrivalSnoc(alerts: seq<Alert>, alert: Alert, id: string)
    ensures FirstArrival(alerts + [alert], id) ==
      if FirstArrival(alerts, id) < |alerts| || alert.id == id then FirstArrival(alerts, id) else |alerts| + 1
  {
    if alerts != [] && alerts[0].id != id {
      FirstArrivalSnoc(alerts[1..], alert, id);
      assert (alerts + [alert])[1..] == alerts[1..] + [alert];
    }
  }

  lemma {:induction false} ArrivedIff(alerts: seq<Alert>, id: string)
    ensures Latest(alerts, id).Some? <==> FirstArrival(alerts, id) < |alerts|
  {
    if alerts != [] {
      var n := |alerts| - 1;
      ArrivedIff(alerts[..n], id);
      FirstArrivalSnoc(alerts[..n], alerts[n], id);
      assert alerts[..n] + [alerts[n]] == alerts;
    }
  }

  function OldRead(list: Notes, id: string): bool {
    var k := IndexOf(list, id);
    k < |list| && list[k].read
  }

  lemma UpsertOneIds(list: Notes, alert: Alert)
    ensures Ids(UpsertOne(list, alert)) == if alert.id in Ids(list) then Ids(list) else [alert.id] + Ids(list)
  {}

  /** The new ids at the front, newest first, then every old id in its old place. */
  lemma {:induction false} MergedIds(list: Notes, alerts: seq<Alert>)
    ensures Ids(Merged(list, alerts)) == NewIds(list, alerts) + Ids(list)
  {
    if alerts != [] {
      var n := |alerts| - 1;
      MergedIds(list, alerts[..n]);
      UpsertOneIds(Merged(list, alerts[..n]), alerts[n]);
    }
  }

  lemma MergedIdsAreDistinct(list: Notes, alerts: seq<Alert>)
    requires NoDuplicates(Ids(list))
    ensures NoDuplicates(Ids(Merged(list, alerts)))
  {}

  /** Each entry shows the last alert for it, or what the old list had, and has the old list's
      read flag. */
  predicate ShowsLatest(list: Notes, alerts: seq<Alert>, note: Notification) {
    var id := note.alert.id;
    && note.read == OldRead(list, id)
    && (match Latest(alerts, id)
        case Some(alert) => note.alert == alert
        case None => IndexOf(list, id) < |list| && note == list[IndexOf(list, id)])
  }

  lemma MergeOutcome(list: Notes, alerts: seq<Alert>)
    requires NoDuplicates(Ids(list))
    ensures Ids(Merged(list, alerts)) == NewIds(list, alerts) + Ids(list)
    ensures NoDuplicates(Ids(Merged(list, alerts)))
    ensures forall note | note in Merged(list, alerts) :: ShowsLatest(list, alerts, note)
  {
    MergedIds(list, alerts);
    MergedIdsAreDistinct(list, alerts);
    forall k | 0 <= k < |Merged(list, alerts)| ensures ShowsLatest(list, alerts, Merged(list, alerts)[k]) {
      MergedShows(list, alerts, k);
    }
  }

  lemma {:induction false} MergedShows(list: Notes, alerts: seq<Alert>, k: nat)
    requires NoDuplicates(Ids(list)) && k < |Merged(list, alerts)|
    ensures ShowsLatest(list, alerts, Merged(list, alerts)[k])
  {
    if alerts == [] {
      assert Ids(list)[k] == Ids(list)[IndexOf(list, list[k].alert.id)];
    } else {
      var before := alerts[..|alerts| - 1];
      forall j | 0 <= j < |Merged(list, before)| ensures ShowsLatest(list, before, Merged(list, before)[j]) {
        MergedShows(list, before, j);
      }
      UpsertOneShows(list, alerts, k);
    }
  }

  lemma UpsertOneShows(list: Notes, alerts: seq<Alert>, k: nat)
    requires alerts != [] && k < |Merged(list, alerts)| && NoDuplicates(Ids(list))
    requires
      var was := Merged(list, alerts[..|alerts| - 1]);
      forall j | 0 <= j < |was| :: ShowsLatest(list, alerts[..|alerts| - 1], was[j])
    ensures ShowsLatest(list, alerts, Merged(list, alerts)[k])
  {
    var before, alert := alerts[..|alerts| - 1], alerts[|alerts| - 1];
    var was := Merged(list, before);
    var at := IndexOf(was, alert.id);
    MergedIds(list, before);
    MergedIdsAreDistinct(list, before);
    if at == |was| {
      if k == 0 {
        AbsentFrom(list, was, NewIds(list, before), alert.id);
      }
    } else if k != at {
      assert Ids(was)[k] != Ids(was)[at];
    }
  }

  lemma AbsentFrom(list: Notes, was: Notes, news: seq<string>, id: string)
    requires Ids(was) == news + Ids(list) && IndexOf(was, id) == |was|
    ensures IndexOf(list, id) == |list|
  {
    forall j | 0 <= j < |list| ensures list[j].alert.id != id {
      assert Ids(was)[|news| + j] == Ids(list)[j];
    }
  }

  /** What is left after trimming: a prefix, so a survivor keeps its place in the order. */
  lemma UpsertKeepsInv(list: Notes, alerts: seq<Alert>)
    requires Inv(list)
    ensures
      var after := Trimmed(Merged(list, alerts));
      && Inv(after) && after == Merged(list, alerts)[..|after|]
      && (|after| < CAP ==> after == Merged(list, alerts))
  {
    MergeOutcome(list, alerts);
    var after := Trimmed(Merged(list, alerts));
    assert Ids(after) == Ids(Merged(list, alerts))[..|after|];
    assert |after| == |Merged(list, alerts)| ==> after == Merged(list, alerts)[..|after|];
  }

  /** The new ids in front, newest arrival first, then the old ones in their old order, cut at 100; each entry
      shows its last alert or what it was, and has its old read flag, unread if new. */
  predicate IsUpserted(list: Notes, after: Notes, alerts: seq<Alert>) {
    && Ids(after) <= NewIds(list, alerts) + Ids(list)
    && |after| == (if |NewIds(list, alerts)| + |list| < 100 then |NewIds(list, alerts)| + |list| else 100)
    && forall k | 0 <= k < |after| :: ShowsLatest(list, alerts, after[k])
  }

  lemma UpsertedList(list: Notes, alerts: seq<Alert>)
    requires NoDuplicates(Ids(list))
    ensures IsUpserted(list, Trimmed(Merged(list, alerts)), alerts)
  {
    MergeOutcome(list, alerts);
    var merged, after := Merged(list, alerts), Trimmed(Merged(list, alerts));
    assert |merged| == |NewIds(list, alerts)| + |list|;
    assert Ids(after) == Ids(merged)[..|after|];
    forall k | 0 <= k < |after| ensures ShowsLatest(list, alerts, after[k]) {
      assert merged[k] in merged;
    }
  }

  // ----- Runs -----

  datatype Event =
    | Upserted(storeId: string, alerts: seq<Alert>)
    | DismissedOne(storeId: string, id: string)
    | ResolvedOne(storeId: string, id: string)

  function After(lists: Lists, e: Event): Lists {
    var list := if e.storeId in lists then lists[e.storeId] else [];
    lists[e.storeId := match e
                       case Upserted(_, alerts) => Trimmed(Merged(list, alerts))
                       case DismissedOne(_, id) => Dismissed(list, id)
                       case ResolvedOne(_, id) => Resolved(list, id)]
  }

  function Run(events: seq<Event>): Lists {
    if events == [] then map[] else After(Run(events[..|events| - 1]), events[|events| - 1])
  }

  lemma {:induction false} RunKeepsInv(events: seq<Event>)
    ensures forall storeId | storeId in Run(events) :: Inv(Run(events)[storeId])
  {
    if events != [] {
      var n := |events| - 1;
      RunKeepsInv(events[..n]);
      StepKeepsInv(Run(events[..n]), events[n]);
    }
  }

  lemma StepKeepsInv(lists: Lists, e: Event)
    requires forall storeId | storeId in lists :: Inv(lists[storeId])
    ensures forall storeId | storeId in After(lists, e) :: Inv(After(lists, e)[storeId])
  {
    var list := if e.storeId in lists then lists[e.storeId] else [];
    match e
    case Upserted(_, alerts) => UpsertKeepsInv(list, alerts);
    case DismissedOne(_, id) => assert Ids(Dismissed(list, id)) == Ids(list);
    case ResolvedOne(_, id) => assert Ids(Resolved(list, id)) == Ids(list);
  }

  predicate ReadIn(lists: Lists, storeId: string, id: string) {
    storeId in lists && OldRead(lists[storeId], id)
  }

  predicate Listed(lists: Lists, storeId: string, id: string) {
    storeId in lists && id in Ids(lists[storeId])
  }

  /** In every run a notification becomes read only by being dismissed or resolved, and stays
      read as long as it is listed. */
  lemma ReadChangesOnlyByHand(events: seq<Event>, e: Event, storeId: string, id: string)
    requires Listed(After(Run(events), e), storeId, id)
    ensures
      var byHand := (e.DismissedOne? || e.ResolvedOne?) && e.storeId == storeId && e.id == id;
      ReadIn(After(Run(events), e), storeId, id) <==> ReadIn(Run(events), storeId, id) || byHand
  {
    RunKeepsInv(events);
    if e.storeId == storeId {
      var list := if storeId in Run(events) then Run(events)[storeId] else [];
      match e
      case Upserted(_, alerts) => UpsertKeepsRead(list, alerts, id);
      case DismissedOne(_, other) => MarkingReads(list, Dismissed(list, other), other, id);
      case ResolvedOne(_, other) => MarkingReads(list, Resolved(list, other), other, id);
    }
  }

  /** The note with this id, if the list has one. */
  function NoteOf(list: Notes, id: string): Option<Notification> {
    var k := IndexOf(list, id);
    if k < |list| then Some(list[k]) else None
  }

  /** Of several marks on one notification the last decides: resolving takes a dismissal back,
      dismissing leaves a resolution; marks on different notifications do not meet, and neither
      kind adds, drops or moves an entry. */
  lemma LastMarkDecides(list: Notes, id: string, other: string)
    requires NoteOf(list, id).Some?
    ensures
      var dismissed := NoteOf(Dismissed(Resolved(list, id), id), id);
      dismissed.Some? && dismissed.value.read && dismissed.value.alert.dismissed && dismissed.value.alert.resolved
    ensures
      var resolved := NoteOf(Resolved(Dismissed(list, id), id), id);
      resolved.Some? && resolved.value.read && !resolved.value.alert.dismissed && resolved.value.alert.resolved
    ensures other != id ==>
      NoteOf(Dismissed(list, other), id) == NoteOf(list, id) && NoteOf(Resolved(list, other), id) == NoteOf(list, id)
    ensures Ids(Dismissed(list, other)) == Ids(list) && Ids(Resolved(list, other)) == Ids(list)
    ensures NoteOf(Dismissed(list, id), id).value.alert.resolved == NoteOf(list, id).value.alert.resolved
  {
    SameIndex(list, Dismissed(list, id), id);
    SameIndex(list, Resolved(list, id), id);
    SameIndex(list, Dismissed(Resolved(list, id), id), id);
    SameIndex(list, Resolved(Dismissed(list, id), id), id);
    SameIndex(list, Dismissed(list, other), id);
    SameIndex(list, Resolved(list, other), id);
  }

  lemma UpsertKeepsRead(list: Notes, alerts: seq<Alert>, id: string)
    requires Inv(list) && id in Ids(Trimmed(Merged(list, alerts)))
    ensures OldRead(Trimmed(Merged(list, alerts)), id) == OldRead(list, id)
  {
    var after := Trimmed(Merged(list, alerts));
    var j :| 0 <= j < |after| && Ids(after)[j] == id;
    MergeOutcome(list, alerts);
    assert after[IndexOf(after, id)] in Merged(list, alerts);
  }

  lemma MarkingReads(list: Notes, marked: Notes, other: string, id: string)
    requires |marked| == |list| && id in Ids(marked)
    requires forall k | 0 <= k < |list| :: marked[k].alert.id == list[k].alert.id
    requires forall k | 0 <= k < |list| :: marked[k].read == (list[k].read || list[k].alert.id == other)
    ensures OldRead(marked, id) == (OldRead(list, id) || id == other)
  {}

  lemma {:induction false} SameIndex(a: Notes, b: Notes, id: string)
    requires |a| == |b| && forall k | 0 <= k < |a| :: a[k].alert.id == b[k].alert.id
    ensures IndexOf(a, id) == IndexOf(b, id)
  {
    if a != [] {
      SameIndex(a[1..], b[1..], id);
    }
  }
}
