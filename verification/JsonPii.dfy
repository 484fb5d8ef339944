/** The privacy scan, guard and sanitiser of JSON payloads, as recursion over JSON trees.

    Which property names are prohibited, which texts hold an email address or phone number, and
    what the text redactor does are parameters. Paths are step sequences; the text of a path is
    used only where the program itself looks at it. */
module JsonPii {
  import opened Common

  datatype Json =
    | Null
    | Bool(b: bool)
    | Num(n: real)
    | Str(text: string)
    | Arr(items: seq<Json>)
    | Obj(entries: seq<Entry>)

  /** An own property; the keys of an object are distinct. */
  datatype Entry = Entry(key: string, value: Json)

  datatype PathStep = Index(i: nat) | Field(key: string)

  type Path = seq<PathStep>

  const CUSTOMER_ID: string := "shopifyCustomerId"

  /** The key that cannot be assigned on an object literal: an assignment to it sets the
      prototype instead of a property. */
  const PROTO: string := "__proto__"

  predicate WellFormed(v: Json) {
    match v
    case Arr(items) => forall i | 0 <= i < |items| :: WellFormed(items[i])
    case Obj(entries) =>
      && (forall i | 0 <= i < |entries| :: WellFormed(entries[i].value))
      && DistinctKeys(entries)
    case _ => true
  }

  predicate DistinctKeys(entries: seq<Entry>) {
    forall i, j | 0 <= i < j < |entries| :: entries[i].key != entries[j].key
  }

  // ----- The field scan -----

  predicate Reported(key: string, prohibited: string -> bool) {
    prohibited(key) && key != CUSTOMER_ID
  }

  /** The paths of all properties with a reported name, in document order. */
  function FieldPaths(v: Json, path: Path, prohibited: string -> bool): seq<Path>
    decreases v, 0
  {
    match v
    case Arr(items) => FieldPathsInItems(items, 0, path, prohibited)
    case Obj(entries) => FieldPathsInEntries(entries, path, prohibited)
    case _ => []
  }

  function FieldPathsInItems(items: seq<Json>, from: nat, path: Path, prohibited: string -> bool): seq<Path>
    decreases items
  {
    if items == [] then []
    else
      FieldPaths(items[0], path + [Index(from)], prohibited)
        + FieldPathsInItems(items[1..], from + 1, path, prohibited)
  }

  function FieldPathsInEntries(entries: seq<Entry>, path: Path, prohibited: string -> bool): seq<Path>
    decreases entries
  {
    if entries == [] then []
    else
      var next := path + [Field(entries[0].key)];
      (if Reported(entries[0].key, prohibited) then [next] else [])
        + FieldPaths(entries[0].value, next, prohibited)
        + FieldPathsInEntries(entries[1..], path, prohibited)
  }

  // ----- The value scan -----

  datatype Leaf = Leaf(path: Path, text: string)

  function StringLeaves(v: Json, path: Path): seq<Leaf>
    decreases v, 0
  {
    match v
    case Str(text) => [Leaf(path, text)]
    case Arr(items) => StringLeavesInItems(items, 0, path)
    case Obj(entries) => StringLeavesInEntries(entries, path)
    case _ => []
  }

  function StringLeavesInItems(items: seq<Json>, from: nat, path: Path): seq<Leaf>
    decreases items
  {
    if items == [] then []
    else StringLeaves(items[0], path + [Index(from)]) + StringLeavesInItems(items[1..], from + 1, path)
  }

  function StringLeavesInEntries(entries: seq<Entry>, path: Path): seq<Leaf>
    decreases entries
  {
    if entries == [] then []
    else StringLeaves(entries[0].value, path + [Field(entries[0].key)]) + StringLeavesInEntries(entries[1..], path)
  }

  // ----- What lies at a path, independently of any scan -----

  function EntryAt(entries: seq<Entry>, key: string): Option<Json> {
    if entries == [] then None
    else if entries[0].key == key then Some(entries[0].value)
    else EntryAt(entries[1..], key)
  }

  function At(v: Json, p: Path): Option<Json>
    decreases |p|
  {
    if p == [] then Some(v)
    else
      match (v, p[0])
      case (Arr(items), Index(i)) => if i < |items| then At(items[i], p[1..]) else None
      case (Obj(entries), Field(key)) =>
        var found := EntryAt(entries, key);
        if found.Some? then At(found.value, p[1..]) else None
      case _ => None
  }

  predicate Extends(p: Path, path: Path) {
    |path| <= |p| && p[..|path|] == path
  }

  /** `q` leads from `v` to a property with a reported name. */
  predicate ReportedAt(v: Json, q: Path, prohibited: string -> bool) {
    && q != [] && q[|q| - 1].Field? && Reported(q[|q| - 1].key, prohibited)
    && At(v, q).Some?
  }

  /** `q` leads from `v` to the string `text`. */
  predicate StringAt(v: Json, q: Path, text: string) {
    At(v, q) == Some(Str(text))
  }

  // ----- Document order -----

  /** The number of properties before the one with this key. */
  function PlaceOf(entries: seq<Entry>, key: string): nat {
    if entries == [] || entries[0].key == key then 0 else 1 + PlaceOf(entries[1..], key)
  }

  /** In a text of the tree `p` would be met before `q`: it leads to `q`, or turns off at an earlier item or
      property. */
  predicate Precedes(v: Json, p: Path, q: Path)
    decreases |p|
  {
    q != [] &&
    (p == [] ||
     match (v, p[0], q[0])
     case (Arr(items), Index(i), Index(j)) =>
       if i == j then i < |items| && Precedes(items[i], p[1..], q[1..]) else i < j
     case (Obj(entries), Field(key), Field(other)) =>
       if key == other
       then EntryAt(entries, key).Some? && Precedes(EntryAt(entries, key).value, p[1..], q[1..])
       else PlaceOf(entries, key) < PlaceOf(entries, other)
     case _ => false)
  }

  /** Among items numbered from `from` on. */
  predicate PrecedesInItems(items: seq<Json>, from: nat, p: Path, q: Path) {
    && p != [] && q != [] && p[0].Index? && q[0].Index? && from <= p[0].i
    && if p[0] == q[0] then p[0].i - from < |items| && Precedes(items[p[0].i - from], p[1..], q[1..])
       else p[0].i < q[0].i
  }

  predicate Before(p: Path, q: Path, n: nat, before: (Path, Path) -> bool) {
    n <= |p| && n <= |q| && before(p[n..], q[n..])
  }

  /** The paths, less their first `n` steps, come one after the other. */
  predicate InOrder(s: seq<Path>, n: nat, before: (Path, Path) -> bool) {
    forall i, j | 0 <= i < j < |s| :: Before(s[i], s[j], n, before)
  }

  lemma ConcatInOrder(a: seq<Path>, b: seq<Path>, n: nat, before: (Path, Path) -> bool)
    requires InOrder(a, n, before) && InOrder(b, n, before)
    requires forall p, q | p in a && q in b :: Before(p, q, n, before)
    ensures InOrder(a + b, n, before)
  {
    forall i, j | 0 <= i < j < |a + b| ensures Before((a + b)[i], (a + b)[j], n, before) {
      if j < |a| {
        assert Before(a[i], a[j], n, before);
      } else if |a| <= i {
        assert Before(b[i - |a|], b[j - |a|], n, before);
      }
    }
  }

  lemma WithinFirstItem(items: seq<Json>, from: nat, path: Path, p: Path, q: Path)
    requires items != [] && Extends(p, path + [Index(from)]) && Extends(q, path + [Index(from)])
    requires Precedes(items[0], p[|path| + 1..], q[|path| + 1..])
    ensures |path| <= |p| && |path| <= |q| && PrecedesInItems(items, from, p[|path|..], q[|path|..])
  {
    ExtendsStep(p, path, Index(from));
    ExtendsStep(q, path, Index(from));
  }

  lemma FirstItemAndLater(items: seq<Json>, from: nat, path: Path, p: Path, q: Path)
    requires items != [] && Extends(p, path + [Index(from)])
    requires Extends(q, path) && IntoItems(items[1..], from + 1, q[|path|..])
    ensures |path| <= |p| && PrecedesInItems(items, from, p[|path|..], q[|path|..])
  {
    ExtendsStep(p, path, Index(from));
  }

  lemma LaterItems(items: seq<Json>, from: nat, p: Path, q: Path)
    requires items != [] && PrecedesInItems(items[1..], from + 1, p, q)
    ensures PrecedesInItems(items, from, p, q)
  {}

  /** Into the first item, or on to the others. */
  lemma ItemsInOrder(items: seq<Json>, from: nat, path: Path, first: seq<Path>, rest: seq<Path>)
    requires items != []
    requires InOrder(first, |path| + 1, (p, q) => Precedes(items[0], p, q))
    requires forall p | p in first :: Extends(p, path + [Index(from)])
    requires InOrder(rest, |path|, (p, q) => PrecedesInItems(items[1..], from + 1, p, q))
    requires forall p | p in rest :: Extends(p, path) && IntoItems(items[1..], from + 1, p[|path|..])
    ensures InOrder(first + rest, |path|, (p, q) => PrecedesInItems(items, from, p, q))
  {
    var n, before := |path|, (p: Path, q: Path) => PrecedesInItems(items, from, p, q);
    forall i, j | 0 <= i < j < |first| ensures Before(first[i], first[j], n, before) {
      assert first[i] in first && first[j] in first;
      WithinFirstItem(items, from, path, first[i], first[j]);
    }
    forall i, j | 0 <= i < j < |rest| ensures Before(rest[i], rest[j], n, before) {
      assert rest[i] in rest && rest[j] in rest;
      LaterItems(items, from, rest[i][n..], rest[j][n..]);
    }
    forall p, q | p in first && q in rest ensures Before(p, q, n, before) {
      FirstItemAndLater(items, from, path, p, q);
    }
    ConcatInOrder(first, rest, n, before);
  }

  lemma WithinFirstEntry(entries: seq<Entry>, path: Path, p: Path, q: Path)
    requires entries != []
    requires Extends(p, path + [Field(entries[0].key)]) && Extends(q, path + [Field(entries[0].key)])
    requires Precedes(entries[0].value, p[|path| + 1..], q[|path| + 1..])
    ensures |path| <= |p| && |path| <= |q| && Precedes(Obj(entries), p[|path|..], q[|path|..])
  {
    ExtendsStep(p, path, Field(entries[0].key));
    ExtendsStep(q, path, Field(entries[0].key));
  }

  lemma FirstEntryAndLater(entries: seq<Entry>, path: Path, p: Path, q: Path)
    requires entries != [] && EntryAt(entries[1..], entries[0].key).None?
    requires Extends(p, path + [Field(entries[0].key)])
    requires Extends(q, path) && IntoEntries(entries[1..], q[|path|..])
    ensures |path| <= |p| && Precedes(Obj(entries), p[|path|..], q[|path|..])
  {
    ExtendsStep(p, path, Field(entries[0].key));
  }

  /** Into the first property, or on to the others. */
  lemma EntriesInOrder(entries: seq<Entry>, path: Path, first: seq<Path>, rest: seq<Path>)
    requires entries != [] && EntryAt(entries[1..], entries[0].key).None?
    requires InOrder(first, |path| + 1, (p, q) => Precedes(entries[0].value, p, q))
    requires forall p | p in first :: Extends(p, path + [Field(entries[0].key)])
    requires InOrder(rest, |path|, (p, q) => Precedes(Obj(entries[1..]), p, q))
    requires forall p | p in rest :: Extends(p, path) && IntoEntries(entries[1..], p[|path|..])
    ensures InOrder(first + rest, |path|, (p, q) => Precedes(Obj(entries), p, q))
  {
    var n, before := |path|, (p: Path, q: Path) => Precedes(Obj(entries), p, q);
    forall i, j | 0 <= i < j < |first| ensures Before(first[i], first[j], n, before) {
      assert first[i] in first && first[j] in first;
      WithinFirstEntry(entries, path, first[i], first[j]);
    }
    forall i, j | 0 <= i < j < |rest| ensures Before(rest[i], rest[j], n, before) {
      assert rest[i] in rest && rest[j] in rest;
      LaterEntries(entries, rest[i][n..], rest[j][n..]);
    }
    forall p, q | p in first && q in rest ensures Before(p, q, n, before) {
      FirstEntryAndLater(entries, path, p, q);
    }
    ConcatInOrder(first, rest, n, before);
  }

  lemma FromTheFirstItem(items: seq<Json>, s: seq<Path>, n: nat)
    requires InOrder(s, n, (p, q) => PrecedesInItems(items, 0, p, q))
    ensures InOrder(s, n, (p, q) => Precedes(Arr(items), p, q))
  {
    assert forall p, q | PrecedesInItems(items, 0, p, q) :: Precedes(Arr(items), p, q);
  }

  lemma LaterEntries(entries: seq<Entry>, p: Path, q: Path)
    requires entries != [] && EntryAt(entries[1..], entries[0].key).None?
    requires IntoEntries(entries[1..], p) && IntoEntries(entries[1..], q) && Precedes(Obj(entries[1..]), p, q)
    ensures Precedes(Obj(entries), p, q)
  {}

  /** Every two, in the order they come. */
  ghost predicate Sorted<T(!new)>(s: seq<T>, before: (T, T) -> bool) {
    forall i, j | 0 <= i < j < |s| :: before(s[i], s[j])
  }

  lemma SortedPaths(v: Json, s: seq<Path>)
    requires InOrder(s, 0, (p, q) => Precedes(v, p, q))
    ensures Sorted(s, (p, q) => Precedes(v, p, q)) && NoDuplicates(s)
  {
    forall i, j | 0 <= i < j < |s| ensures Precedes(v, s[i], s[j]) && s[i] != s[j] {
      assert Before(s[i], s[j], 0, (p, q) => Precedes(v, p, q));
      assert s[i][0..] == s[i] && s[j][0..] == s[j];
      NeverBeforeItself(v, s[i]);
    }
  }

  lemma {:induction false} NeverBeforeItself(v: Json, p: Path)
    ensures !Precedes(v, p, p)
    decreases |p|
  {
    if p != [] {
      match (v, p[0])
      case (Arr(items), Index(i)) =>
        if i < |items| {
          NeverBeforeItself(items[i], p[1..]);
        }
      case (Obj(entries), Field(key)) =>
        if EntryAt(entries, key).Some? {
          NeverBeforeItself(EntryAt(entries, key).value, p[1..]);
        }
      case _ =>
    }
  }

  lemma ExtendsStep(p: Path, path: Path, step: PathStep)
    ensures Extends(p, path + [step]) <==> Extends(p, path) && |p| > |path| && p[|path|] == step
    ensures Extends(p, path + [step]) ==> p[|path|..][1..] == p[|path + [step]|..]
  {}

  /** `q` starts at one of the items from number `from` on. */
  predicate IntoItems(items: seq<Json>, from: nat, q: Path) {
    q != [] && q[0].Index? && from <= q[0].i < from + |items|
  }

  predicate IntoEntries(entries: seq<Entry>, q: Path) {
    q != [] && q[0].Field? && EntryAt(entries, q[0].key).Some?
  }

  predicate ReportedInItems(items: seq<Json>, from: nat, q: Path, prohibited: string -> bool) {
    IntoItems(items, from, q) && ReportedAt(items[q[0].i - from], q[1..], prohibited)
  }

  predicate ReportedInEntries(entries: seq<Entry>, q: Path, prohibited: string -> bool) {
    IntoEntries(entries, q) &&
    ((|q| == 1 && Reported(q[0].key, prohibited)) || ReportedAt(EntryAt(entries, q[0].key).value, q[1..], prohibited))
  }

  lemma {:induction false} FieldPathsSpec(v: Json, path: Path, prohibited: string -> bool, p: Path)
    requires WellFormed(v)
    ensures p in FieldPaths(v, path, prohibited) <==> Extends(p, path) && ReportedAt(v, p[|path|..], prohibited)
    decreases v, 0
  {
    match v
    case Arr(items) => FieldPathsInItemsSpec(items, 0, path, prohibited, p);
    case Obj(entries) =>
      FieldPathsInEntriesSpec(entries, path, prohibited, p);
      if Extends(p, path) {
        ReportedAtEntry(entries, p[|path|..], prohibited);
      }
    case _ =>
  }

  lemma ReportedAtEntry(entries: seq<Entry>, q: Path, prohibited: string -> bool)
    ensures ReportedAt(Obj(entries), q, prohibited) <==> ReportedInEntries(entries, q, prohibited)
  {
    if IntoEntries(entries, q) {
      assert At(Obj(entries), q) == At(EntryAt(entries, q[0].key).value, q[1..]);
      if |q| == 1 {
        assert q[1..] == [];
      }
    }
  }

  lemma {:induction false} FieldPathsInItemsSpec(items: seq<Json>, from: nat, path: Path, prohibited: string -> bool,
    p: Path)
    requires forall i | 0 <= i < |items| :: WellFormed(items[i])
    ensures p in FieldPathsInItems(items, from, path, prohibited) <==>
      Extends(p, path) && ReportedInItems(items, from, p[|path|..], prohibited)
    decreases items
  {
    if items != [] {
      FieldPathsSpec(items[0], path + [Index(from)], prohibited, p);
      FieldPathsInItemsSpec(items[1..], from + 1, path, prohibited, p);
      ExtendsStep(p, path, Index(from));
      assert p in FieldPathsInItems(items, from, path, prohibited) <==>
        p in FieldPaths(items[0], path + [Index(from)], prohibited)
        || p in FieldPathsInItems(items[1..], from + 1, path, prohibited);
      if Extends(p, path) {
        ReportedInItemsSplits(items, from, p[|path|..], prohibited);
      }
    }
  }

  /** Into the first item, or into the others. */
  lemma ReportedInItemsSplits(items: seq<Json>, from: nat, q: Path, prohibited: string -> bool)
    requires items != []
    ensures ReportedInItems(items, from, q, prohibited) <==>
      (q != [] && q[0] == Index(from) && ReportedAt(items[0], q[1..], prohibited))
      || ReportedInItems(items[1..], from + 1, q, prohibited)
    ensures q != [] && q[0] == Index(from) ==> !ReportedInItems(items[1..], from + 1, q, prohibited)
  {}

  lemma {:induction false} FieldPathsInEntriesSpec(entries: seq<Entry>, path: Path, prohibited: string -> bool, p: Path)
    requires forall i | 0 <= i < |entries| :: WellFormed(entries[i].value)
    requires DistinctKeys(entries)
    ensures p in FieldPathsInEntries(entries, path, prohibited) <==>
      Extends(p, path) && ReportedInEntries(entries, p[|path|..], prohibited)
    decreases entries
  {
    if entries != [] {
      var key := entries[0].key;
      FieldPathsSpec(entries[0].value, path + [Field(key)], prohibited, p);
      FieldPathsInEntriesSpec(entries[1..], path, prohibited, p);
      EntryAtSpec(entries[1..], key);
      ExtendsStep(p, path, Field(key));
      if Extends(p, path) && |p| > |path| {
        var q := p[|path|..];
        assert p == path + [Field(key)] <==> |q| == 1 && q[0] == Field(key);
        assert q[0] == Field(key) ==>
          EntryAt(entries[1..], key).None? && EntryAt(entries, key) == Some(entries[0].value);
      }
    }
  }

  lemma {:induction false} FieldPathsInOrder(v: Json, path: Path, prohibited: string -> bool)
    requires WellFormed(v)
    ensures InOrder(FieldPaths(v, path, prohibited), |path|, (p, q) => Precedes(v, p, q))
    decreases v, 0
  {
    match v
    case Arr(items) =>
      FieldPathsInItemsInOrder(items, 0, path, prohibited);
      var all := FieldPathsInItems(items, 0, path, prohibited);
      FromTheFirstItem(items, all, |path|);
    case Obj(entries) => FieldPathsInEntriesInOrder(entries, path, prohibited);
    case _ =>
  }

  lemma {:induction false} FieldPathsInItemsInOrder(items: seq<Json>, from: nat, path: Path,
    prohibited: string -> bool)
    requires forall i | 0 <= i < |items| :: WellFormed(items[i])
    ensures InOrder(FieldPathsInItems(items, from, path, prohibited), |path|,
      (p, q) => PrecedesInItems(items, from, p, q))
    decreases items
  {
    if items != [] {
      var next := path + [Index(from)];
      var first, rest := FieldPaths(items[0], next, prohibited),
        FieldPathsInItems(items[1..], from + 1, path, prohibited);
      FieldPathsInOrder(items[0], next, prohibited);
      FieldPathsInItemsInOrder(items[1..], from + 1, path, prohibited);
      forall p | p in first ensures Extends(p, next) {
        FieldPathsSpec(items[0], next, prohibited, p);
      }
      forall p | p in rest ensures Extends(p, path) && IntoItems(items[1..], from + 1, p[|path|..]) {
        FieldPathsInItemsSpec(items[1..], from + 1, path, prohibited, p);
      }
      ItemsInOrder(items, from, path, first, rest);
    }
  }

  lemma {:induction false} FieldPathsInEntriesInOrder(entries: seq<Entry>, path: Path, prohibited: string -> bool)
    requires forall i | 0 <= i < |entries| :: WellFormed(entries[i].value)
    requires DistinctKeys(entries)
    ensures InOrder(FieldPathsInEntries(entries, path, prohibited), |path|, (p, q) => Precedes(Obj(entries), p, q))
    decreases entries
  {
    if entries != [] {
      var next := path + [Field(entries[0].key)];
      var inner, rest := FieldPaths(entries[0].value, next, prohibited),
        FieldPathsInEntries(entries[1..], path, prohibited);
      var own := if Reported(entries[0].key, prohibited) then [next] else [];
      FieldPathsInOrder(entries[0].value, next, prohibited);
      FieldPathsInEntriesInOrder(entries[1..], path, prohibited);
      forall p | p in inner ensures Extends(p, next) && |p| > |next| {
        FieldPathsSpec(entries[0].value, next, prohibited, p);
      }
      forall p | p in rest ensures Extends(p, path) && IntoEntries(entries[1..], p[|path|..]) {
        FieldPathsInEntriesSpec(entries[1..], path, prohibited, p);
      }
      EntryAtSpec(entries[1..], entries[0].key);
      OwnPathFirst(entries[0].value, next, own, inner);
      EntriesInOrder(entries, path, own + inner, rest);
    }
  }

  /** A property is met before what it holds. */
  lemma OwnPathFirst(v: Json, next: Path, own: seq<Path>, inner: seq<Path>)
    requires own == [] || own == [next]
    requires InOrder(inner, |next|, (p, q) => Precedes(v, p, q))
    requires forall p | p in inner :: Extends(p, next) && |p| > |next|
    ensures InOrder(own + inner, |next|, (p, q) => Precedes(v, p, q))
    ensures forall p | p in own + inner :: Extends(p, next)
  {
    ConcatInOrder(own, inner, |next|, (p, q) => Precedes(v, p, q));
  }

  lemma {:induction false} EntryAtSpec(entries: seq<Entry>, key: string)
    ensures EntryAt(entries, key).Some? <==> exists i :: 0 <= i < |entries| && entries[i].key == key
  {
    if entries != [] {
      EntryAtSpec(entries[1..], key);
      assert entries == [entries[0]] + entries[1..];
    }
  }

  /** The field scan is exact: it reports each property with a prohibited name, other than the
      exact key `shopifyCustomerId`, once and in document order, and nothing else. */
  lemma FieldScanIsExact(v: Json, prohibited: string -> bool)
    requires WellFormed(v)
    ensures NoDuplicates(FieldPaths(v, [], prohibited))
    ensures forall p :: p in FieldPaths(v, [], prohibited) <==> ReportedAt(v, p, prohibited)
    ensures Sorted(FieldPaths(v, [], prohibited), (p, q) => Precedes(v, p, q))
  {
    FieldPathsInOrder(v, [], prohibited);
    SortedPaths(v, FieldPaths(v, [], prohibited));
    forall p ensures p in FieldPaths(v, [], prohibited) <==> ReportedAt(v, p, prohibited) {
      FieldPathsSpec(v, [], prohibited, p);
      assert p[0..] == p;
    }
  }

  // ----- The value scan finds exactly the strings of the tree -----

  predicate StringInItems(items: seq<Json>, from: nat, q: Path, text: string) {
    IntoItems(items, from, q) && StringAt(items[q[0].i - from], q[1..], text)
  }

  predicate StringInEntries(entries: seq<Entry>, q: Path, text: string) {
    IntoEntries(entries, q) && StringAt(EntryAt(entries, q[0].key).value, q[1..], text)
  }

  lemma {:induction false} StringLeavesSpec(v: Json, path: Path, leaf: Leaf)
    requires WellFormed(v)
    ensures leaf in StringLeaves(v, path) <==> Extends(leaf.path, path) && StringAt(v, leaf.path[|path|..], leaf.text)
    decreases v, 0
  {
    match v
    case Arr(items) => StringLeavesInItemsSpec(items, 0, path, leaf);
    case Obj(entries) => StringLeavesInEntriesSpec(entries, path, leaf);
    case _ =>
      assert Extends(leaf.path, path) && leaf.path[|path|..] == [] ==> leaf.path == path;
  }

  lemma {:induction false} StringLeavesInItemsSpec(items: seq<Json>, from: nat, path: Path, leaf: Leaf)
    requires forall i | 0 <= i < |items| :: WellFormed(items[i])
    ensures leaf in StringLeavesInItems(items, from, path) <==>
      Extends(leaf.path, path) && StringInItems(items, from, leaf.path[|path|..], leaf.text)
    decreases items
  {
    if items != [] {
      StringLeavesSpec(items[0], path + [Index(from)], leaf);
      StringLeavesInItemsSpec(items[1..], from + 1, path, leaf);
      ExtendsStep(leaf.path, path, Index(from));
    }
  }

  lemma {:induction false} StringLeavesInEntriesSpec(entries: seq<Entry>, path: Path, leaf: Leaf)
    requires forall i | 0 <= i < |entries| :: WellFormed(entries[i].value)
    requires DistinctKeys(entries)
    ensures leaf in StringLeavesInEntries(entries, path) <==>
      Extends(leaf.path, path) && StringInEntries(entries, leaf.path[|path|..], leaf.text)
    decreases entries
  {
    if entries != [] {
      var key := entries[0].key;
      StringLeavesSpec(entries[0].value, path + [Field(key)], leaf);
      StringLeavesInEntriesSpec(entries[1..], path, leaf);
      EntryAtSpec(entries[1..], key);
      ExtendsStep(leaf.path, path, Field(key));
    }
  }

  function PathsOf(leaves: seq<Leaf>): seq<Path> {
    seq(|leaves|, i requires 0 <= i < |leaves| => leaves[i].path)
  }

  lemma PathsOfConcat(a: seq<Leaf>, b: seq<Leaf>)
    ensures PathsOf(a + b) == PathsOf(a) + PathsOf(b)
  {}

  lemma {:induction false} StringLeavesInOrder(v: Json, path: Path)
    requires WellFormed(v)
    ensures InOrder(PathsOf(StringLeaves(v, path)), |path|, (p, q) => Precedes(v, p, q))
    decreases v, 0
  {
    match v
    case Arr(items) =>
      StringLeavesInItemsInOrder(items, 0, path);
      FromTheFirstItem(items, PathsOf(StringLeavesInItems(items, 0, path)), |path|);
    case Obj(entries) => StringLeavesInEntriesInOrder(entries, path);
    case _ =>
  }

  lemma {:induction false} StringLeavesInItemsInOrder(items: seq<Json>, from: nat, path: Path)
    requires forall i | 0 <= i < |items| :: WellFormed(items[i])
    ensures InOrder(PathsOf(StringLeavesInItems(items, from, path)), |path|,
      (p, q) => PrecedesInItems(items, from, p, q))
    decreases items
  {
    if items != [] {
      var next := path + [Index(from)];
      var first, rest := StringLeaves(items[0], next), StringLeavesInItems(items[1..], from + 1, path);
      StringLeavesInOrder(items[0], next);
      StringLeavesInItemsInOrder(items[1..], from + 1, path);
      forall leaf | leaf in first ensures Extends(leaf.path, next) {
        StringLeavesSpec(items[0], next, leaf);
      }
      forall leaf | leaf in rest ensures Extends(leaf.path, path) &&
        IntoItems(items[1..], from + 1, leaf.path[|path|..]) {
        StringLeavesInItemsSpec(items[1..], from + 1, path, leaf);
      }
      ItemsInOrder(items, from, path, PathsOf(first), PathsOf(rest));
      PathsOfConcat(first, rest);
    }
  }

  lemma {:induction false} StringLeavesInEntriesInOrder(entries: seq<Entry>, path: Path)
    requires forall i | 0 <= i < |entries| :: WellFormed(entries[i].value)
    requires DistinctKeys(entries)
    ensures InOrder(PathsOf(StringLeavesInEntries(entries, path)), |path|, (p, q) => Precedes(Obj(entries), p, q))
    decreases entries
  {
    if entries != [] {
      var next := path + [Field(entries[0].key)];
      var first, rest := StringLeaves(entries[0].value, next), StringLeavesInEntries(entries[1..], path);
      StringLeavesInOrder(entries[0].value, next);
      StringLeavesInEntriesInOrder(entries[1..], path);
      forall leaf | leaf in first ensures Extends(leaf.path, next) {
        StringLeavesSpec(entries[0].value, next, leaf);
      }
      forall leaf | leaf in rest ensures Extends(leaf.path, path) && IntoEntries(entries[1..], leaf.path[|path|..]) {
        StringLeavesInEntriesSpec(entries[1..], path, leaf);
      }
      EntryAtSpec(entries[1..], entries[0].key);
      EntriesInOrder(entries, path, PathsOf(first), PathsOf(rest));
      PathsOfConcat(first, rest);
    }
  }

  /** The value scan collects every string of the tree, once and in document order, and nothing else. */
  lemma ValueScanIsExact(v: Json)
    requires WellFormed(v)
    ensures forall leaf :: leaf in StringLeaves(v, []) <==> StringAt(v, leaf.path, leaf.text)
    ensures Sorted(StringLeaves(v, []), (a: Leaf, b: Leaf) => Precedes(v, a.path, b.path))
    ensures NoDuplicates(PathsOf(StringLeaves(v, [])))
  {
    forall leaf ensures leaf in StringLeaves(v, []) <==> StringAt(v, leaf.path, leaf.text) {
      StringLeavesSpec(v, [], leaf);
      assert leaf.path[0..] == leaf.path;
    }
    StringLeavesInOrder(v, []);
    SortedPaths(v, PathsOf(StringLeaves(v, [])));
    SortedLeaves(v, StringLeaves(v, []));
  }

  lemma SortedLeaves(v: Json, leaves: seq<Leaf>)
    requires Sorted(PathsOf(leaves), (p, q) => Precedes(v, p, q))
    ensures Sorted(leaves, (a: Leaf, b: Leaf) => Precedes(v, a.path, b.path))
  {
    forall i, j | 0 <= i < j < |leaves| ensures Precedes(v, leaves[i].path, leaves[j].path) {
      assert Precedes(v, PathsOf(leaves)[i], PathsOf(leaves)[j]);
    }
  }

  // ----- The guard -----

  function Digits(n: nat): string {
    if n < 10 then ["0123456789"[n]] else Digits(n / 10) + ["0123456789"[n % 10]]
  }

  /** The text of a path. The text so far being empty is what the program tests, so a property
      under the empty key is written without a dot. */
  function Render(path: Path): string {
    if path == [] then ""
    else
      var before, last := Render(path[..|path| - 1]), path[|path| - 1];
      if last.Index? then before + "[" + Digits(last.i) + "]"
      else if before == "" then last.key
      else before + "." + last.key
  }

  function Number(digits: string): int
    requires forall i | 0 <= i < |digits| :: '0' <= digits[i] <= '9'
  {
    if digits == "" then 0
    else Number(digits[..|digits| - 1]) * 10 + (digits[|digits| - 1] as int - '0' as int)
  }

  /** The digits spell the number, without a leading zero. */
  lemma {:induction false} DigitsSpellTheNumber(n: nat)
    ensures forall i | 0 <= i < |Digits(n)| :: '0' <= Digits(n)[i] <= '9'
    ensures Digits(n) != "" && Number(Digits(n)) == n && (n > 0 ==> Digits(n)[0] != '0')
  {
    if n < 10 {
      DigitIsItsValue(n);
      assert Digits(n)[..0] == "";
    } else {
      DigitsSpellTheNumber(n / 10);
      DigitIsItsValue(n % 10);
      AppendDigit(Digits(n / 10), "0123456789"[n % 10]);
    }
  }

  lemma DigitIsItsValue(d: nat)
    requires d < 10
    ensures '0' <= "0123456789"[d] <= '9' && "0123456789"[d] as int == '0' as int + d
  {}

  lemma AppendDigit(digits: string, d: char)
    requires '0' <= d <= '9' && forall i | 0 <= i < |digits| :: '0' <= digits[i] <= '9'
    ensures forall i | 0 <= i < |digits + [d]| :: '0' <= (digits + [d])[i] <= '9'
    ensures Number(digits + [d]) == Number(digits) * 10 + (d as int - '0' as int)
  {
    assert (digits + [d])[..|digits|] == digits;
  }

  /** How each step is written: an item in brackets, a property after a dot, or bare while there is no text
      before it. */
  lemma TextInPlainTerms(path: Path, i: nat, key: string)
    ensures Render([]) == "" && Render([Field(key)]) == key
    ensures Render(path + [Index(i)]) == Render(path) + "[" + Digits(i) + "]"
    ensures Render(path + [Field(key)]) == if Render(path) == "" then key else Render(path) + "." + key
  {
    assert (path + [Index(i)])[..|path|] == path && (path + [Field(key)])[..|path|] == path;
    assert [Field(key)][..0] == [];
  }

  predicate EndsWith(s: string, suffix: string) {
    |suffix| <= |s| && s[|s| - |suffix|..] == suffix
  }

  predicate EndsInCustomerId(path: Path) {
    EndsWith(Render(path), CUSTOMER_ID)
  }

  /** Testing the end of the whole text is testing the end of the last key. */
  lemma TextEndsAsItsKey(path: Path)
    requires path != [] && path[|path| - 1].Field?
    ensures EndsInCustomerId(path) <==> EndsWith(path[|path| - 1].key, CUSTOMER_ID)
  {
    var before, key, text := Render(path[..|path| - 1]), path[|path| - 1].key, Render(path);
    var n := |CUSTOMER_ID|;
    if before != "" {
      assert text == before + "." + key;
      if n <= |key| {
        assert text[|text| - n..] == key[|key| - n..];
      } else if n <= |text| {
        assert text[|text| - n..][n - 1 - |key|] == '.';
        assert '.' !in CUSTOMER_ID;
      }
    }
  }

  function Filter<T>(s: seq<T>, keep: T -> bool): seq<T> {
    if s == [] then []
    else (if keep(s[0]) then [s[0]] else []) + Filter(s[1..], keep)
  }

  lemma {:induction false} FilterMembers<T>(s: seq<T>, keep: T -> bool)
    ensures forall x :: x in Filter(s, keep) <==> x in s && keep(x)
  {
    if s != [] {
      FilterMembers(s[1..], keep);
    }
  }

  lemma {:induction false} FilterKeepsOrder<T(!new)>(s: seq<T>, keep: T -> bool, before: (T, T) -> bool)
    requires Sorted(s, before)
    ensures Sorted(Filter(s, keep), before)
  {
    if s != [] {
      FilterKeepsOrder(s[1..], keep, before);
      FilterMembers(s[1..], keep);
      forall x | x in Filter(s[1..], keep) ensures before(s[0], x) {
        var i :| 0 <= i < |s[1..]| && s[1..][i] == x;
        assert s[i + 1] == x;
      }
    }
  }

  /** Adding an element at the end of the filtered sequence. */
  lemma {:induction false} FilterSnoc<T>(s: seq<T>, x: T, keep: T -> bool)
    ensures Filter(s + [x], keep) == Filter(s, keep) + (if keep(x) then [x] else [])
  {
    if s != [] {
      FilterSnoc(s[1..], x, keep);
      assert (s + [x])[1..] == s[1..] + [x];
    }
  }

  datatype Scan = Scan(fieldPaths: seq<Path>, valuePaths: seq<Leaf>)

  function ScanPayload(v: Json, prohibited: string -> bool, isPii: string -> bool): Scan {
    Scan(
      Filter(FieldPaths(v, [], prohibited), (p: Path) => !EndsInCustomerId(p)),
      Filter(StringLeaves(v, []), (leaf: Leaf) => isPii(leaf.text)))
  }

  datatype Verdict =
    | Passes
    | ProhibitedFields(paths: seq<Path>)
    | ProhibitedValues(leaves: seq<Leaf>)
    | FactsContainPii(paths: seq<Path>)

  function AssertPayloadFree(v: Json, prohibited: string -> bool, isPii: string -> bool): Verdict {
    if v.Null? then Passes
    else
      var fields := Filter(FieldPaths(v, [], prohibited), (p: Path) => !EndsInCustomerId(p));
      if |fields| > 0 then ProhibitedFields(fields)
      else
        var values := Filter(StringLeaves(v, []), (leaf: Leaf) => isPii(leaf.text));
        if |values| > 0 then ProhibitedValues(values)
        else if v.Obj? then AssertFactsFree(v, prohibited)
        else Passes
  }

  function AssertFactsFree(v: Json, prohibited: string -> bool): Verdict {
    var paths := Filter(FieldPaths(v, [], prohibited), (p: Path) => !EndsInCustomerId(p));
    if |paths| > 0 then FactsContainPii(paths) else Passes
  }

  /** A property whose name is prohibited and does not end in `shopifyCustomerId`. */
  predicate OffendingField(v: Json, p: Path, prohibited: string -> bool) {
    ReportedAt(v, p, prohibited) && !EndsWith(p[|p| - 1].key, CUSTOMER_ID)
  }

  lemma OffendingInPlainTerms(v: Json, p: Path, prohibited: string -> bool)
    ensures OffendingField(v, p, prohibited) <==>
      && At(v, p).Some? && p != [] && p[|p| - 1].Field?
      && prohibited(p[|p| - 1].key)
      && !(exists start: string :: p[|p| - 1].key == start + "shopifyCustomerId")
  {
    if p != [] && p[|p| - 1].Field? {
      var key, n := p[|p| - 1].key, |"shopifyCustomerId"|;
      if n <= |key| {
        assert key == key[..|key| - n] + key[|key| - n..];
      }
      forall start: string | key == start + "shopifyCustomerId" ensures EndsWith(key, CUSTOMER_ID) {
        assert key[|key| - n..] == "shopifyCustomerId";
      }
    }
  }

  lemma ScanIsInOrder(v: Json, prohibited: string -> bool, isPii: string -> bool)
    requires WellFormed(v)
    ensures
      var scan := ScanPayload(v, prohibited, isPii);
      && Sorted(scan.fieldPaths, (p, q) => Precedes(v, p, q))
      && Sorted(scan.valuePaths, (a: Leaf, b: Leaf) => Precedes(v, a.path, b.path))
  {
    FieldScanIsExact(v, prohibited);
    ValueScanIsExact(v);
    FilterKeepsOrder(FieldPaths(v, [], prohibited), (p: Path) => !EndsInCustomerId(p), (p, q) => Precedes(v, p, q));
    FilterKeepsOrder(StringLeaves(v, []), (leaf: Leaf) => isPii(leaf.text),
      (a: Leaf, b: Leaf) => Precedes(v, a.path, b.path));
  }

  /** The scan reports exactly the offending properties and the strings that hold customer data, in document
      order. */
  lemma ScanIsExact(v: Json, prohibited: string -> bool, isPii: string -> bool)
    requires WellFormed(v)
    ensures
      var scan := ScanPayload(v, prohibited, isPii);
      && (forall p :: p in scan.fieldPaths <==> OffendingField(v, p, prohibited))
      && (forall leaf :: leaf in scan.valuePaths <==> StringAt(v, leaf.path, leaf.text) && isPii(leaf.text))
      && Sorted(scan.fieldPaths, (p, q) => Precedes(v, p, q))
      && Sorted(scan.valuePaths, (a: Leaf, b: Leaf) => Precedes(v, a.path, b.path))
  {
    ScanIsInOrder(v, prohibited, isPii);
    FieldScanIsExact(v, prohibited);
    ValueScanIsExact(v);
    FilterMembers(FieldPaths(v, [], prohibited), (p: Path) => !EndsInCustomerId(p));
    FilterMembers(StringLeaves(v, []), (leaf: Leaf) => isPii(leaf.text));
    forall p: Path | ReportedAt(v, p, prohibited)
      ensures EndsInCustomerId(p) <==> EndsWith(p[|p| - 1].key, CUSTOMER_ID)
    {
      TextEndsAsItsKey(p);
    }
  }

  /** What the guard decides, and that it decides as the scan reports; its last check, on the
      facts, never fires. */
  lemma GuardIsExact(v: Json, prohibited: string -> bool, isPii: string -> bool)
    requires WellFormed(v)
    ensures
      var verdict, scan := AssertPayloadFree(v, prohibited, isPii), ScanPayload(v, prohibited, isPii);
      && !verdict.FactsContainPii?
      && (verdict.Passes? <==> scan == Scan([], []))
      && (verdict.ProhibitedFields? <==> exists p: Path :: OffendingField(v, p, prohibited))
      && (verdict.ProhibitedFields? ==> forall p :: p in verdict.paths <==> OffendingField(v, p, prohibited))
      && (verdict.Passes? <==>
          && (forall p: Path :: !OffendingField(v, p, prohibited))
          && (forall p: Path, text: string :: StringAt(v, p, text) ==> !isPii(text)))
      && (verdict.ProhibitedValues? ==> forall leaf ::
           leaf in verdict.leaves <==> StringAt(v, leaf.path, leaf.text) && isPii(leaf.text))
  {
    ScanIsExact(v, prohibited, isPii);
    var scan := ScanPayload(v, prohibited, isPii);
    var fields, values := scan.fieldPaths, scan.valuePaths;
    assert fields != [] ==> fields[0] in fields;
    assert values != [] ==> values[0] in values;
    forall p: Path, text: string | StringAt(v, p, text) ensures isPii(text) <==> Leaf(p, text) in values {
      assert StringAt(v, Leaf(p, text).path, Leaf(p, text).text);
    }
  }

  // ----- The sanitiser -----

  function Sanitize(v: Json, redact: string -> string): Json
    decreases v, 0
  {
    match v
    case Str(text) => Str(redact(text))
    case Arr(items) => Arr(SanitizeItems(items, redact))
    case Obj(entries) => Obj(SanitizeEntries(entries, redact))
    case _ => v
  }

  function SanitizeItems(items: seq<Json>, redact: string -> string): seq<Json>
    decreases items
  {
    if items == [] then [] else [Sanitize(items[0], redact)] + SanitizeItems(items[1..], redact)
  }

  function SanitizeEntries(entries: seq<Entry>, redact: string -> string): seq<Entry>
    decreases entries
  {
    if entries == [] then []
    else
      (if entries[0].key == PROTO then [] else [Entry(entries[0].key, Sanitize(entries[0].value, redact))])
        + SanitizeEntries(entries[1..], redact)
  }

  lemma {:induction false} SanitizedItems(items: seq<Json>, redact: string -> string)
    ensures |SanitizeItems(items, redact)| == |items|
    ensures forall i | 0 <= i < |items| :: SanitizeItems(items, redact)[i] == Sanitize(items[i], redact)
  {
    if items != [] {
      SanitizedItems(items[1..], redact);
    }
  }

  lemma {:induction false} SanitizedEntryAt(entries: seq<Entry>, redact: string -> string, key: string)
    ensures EntryAt(SanitizeEntries(entries, redact), key) ==
      var found := EntryAt(entries, key);
      if key == PROTO || found.None? then None else Some(Sanitize(found.value, redact))
  {
    if entries != [] {
      SanitizedEntryAt(entries[1..], redact, key);
      var rest := SanitizeEntries(entries[1..], redact);
      if entries[0].key == PROTO {
        assert SanitizeEntries(entries, redact) == rest;
      } else {
        var first := Entry(entries[0].key, Sanitize(entries[0].value, redact));
        assert SanitizeEntries(entries, redact) == [first] + rest;
        assert ([first] + rest)[1..] == rest;
      }
    }
  }

  /** Every path leads to the same place as before, with the redactor applied once to a string;
      only the paths through a property named `__proto__` are gone. */
  lemma {:induction false} SanitizeAt(v: Json, p: Path, redact: string -> string)
    ensures At(Sanitize(v, redact), p) ==
      var found := At(v, p);
      if Field(PROTO) in p || found.None? then None else Some(Sanitize(found.value, redact))
    decreases |p|
  {
    if p != [] {
      assert p == [p[0]] + p[1..];
      match (v, p[0])
      case (Arr(items), Index(i)) =>
        SanitizedItems(items, redact);
        if i < |items| {
          SanitizeAt(items[i], p[1..], redact);
        }
      case (Obj(entries), Field(key)) =>
        SanitizedEntryAt(entries, redact, key);
        var found := EntryAt(entries, key);
        if found.Some? {
          SanitizeAt(found.value, p[1..], redact);
        }
      case _ =>
    }
  }

  function KeysOf(entries: seq<Entry>): seq<string> {
    seq(|entries|, i requires 0 <= i < |entries| => entries[i].key)
  }

  lemma {:induction false} SanitizedKeysInOrder(entries: seq<Entry>, redact: string -> string)
    ensures KeysOf(SanitizeEntries(entries, redact)) == Filter(KeysOf(entries), key => key != "__proto__")
  {
    if entries != [] {
      SanitizedKeysInOrder(entries[1..], redact);
      assert KeysOf(entries)[1..] == KeysOf(entries[1..]);
      var rest := SanitizeEntries(entries[1..], redact);
      if entries[0].key != "__proto__" {
        var first := Entry(entries[0].key, Sanitize(entries[0].value, redact));
        assert KeysOf([first] + rest) == [first.key] + KeysOf(rest);
      }
    }
  }

  /** What lies at a path afterwards: nothing where there was nothing or the path goes through `__proto__`;
      null, a boolean or a number as it was; a string redacted once; an array of the same length; an
      object with the same keys in the same order, but for `__proto__`. */
  lemma SanitizedInPlainTerms(v: Json, p: Path, redact: string -> string)
    ensures
      var was, now := At(v, p), At(Sanitize(v, redact), p);
      && (now.Some? <==> was.Some? && Field("__proto__") !in p)
      && (now.Some? ==>
            match was.value
            case Null => now.value == Null
            case Bool(b) => now.value == Bool(b)
            case Num(n) => now.value == Num(n)
            case Str(text) => now.value == Str(redact(text))
            case Arr(items) => now.value.Arr? && |now.value.items| == |items|
            case Obj(entries) =>
              && now.value.Obj?
              && KeysOf(now.value.entries) == Filter(KeysOf(entries), key => key != "__proto__"))
  {
    SanitizeAt(v, p, redact);
    var was := At(v, p);
    if was.Some? && was.value.Arr? {
      SanitizedItems(was.value.items, redact);
    }
    if was.Some? && was.value.Obj? {
      SanitizedKeysInOrder(was.value.entries, redact);
    }
  }

  lemma {:induction false} SanitizedKeys(entries: seq<Entry>, redact: string -> string)
    requires DistinctKeys(entries)
    ensures DistinctKeys(SanitizeEntries(entries, redact))
    ensures forall e :: e in SanitizeEntries(entries, redact) ==>
      exists i :: 0 <= i < |entries| && entries[i].key == e.key && e.value == Sanitize(entries[i].value, redact)
  {
    if entries != [] {
      SanitizedKeys(entries[1..], redact);
      var rest := SanitizeEntries(entries[1..], redact);
      forall e | e in rest
        ensures e.key != entries[0].key
        ensures exists i ::
          0 <= i < |entries| && entries[i].key == e.key && e.value == Sanitize(entries[i].value, redact)
      {
        var i :| 0 <= i < |entries[1..]| && entries[1..][i].key == e.key &&
          e.value == Sanitize(entries[1..][i].value, redact);
        assert entries[i + 1] == entries[1..][i];
      }
    }
  }

  lemma {:induction false} SanitizedIsWellFormed(v: Json, redact: string -> string)
    requires WellFormed(v)
    ensures WellFormed(Sanitize(v, redact))
  {
    match v
    case Arr(items) =>
      SanitizedItems(items, redact);
      forall i | 0 <= i < |items| ensures WellFormed(SanitizeItems(items, redact)[i]) {
        SanitizedIsWellFormed(items[i], redact);
      }
    case Obj(entries) =>
      SanitizedKeys(entries, redact);
      forall i | 0 <= i < |entries| ensures WellFormed(Sanitize(entries[i].value, redact)) {
        SanitizedIsWellFormed(entries[i].value, redact);
      }
      forall e | e in SanitizeEntries(entries, redact) ensures WellFormed(e.value) {
      }
    case _ =>
  }

  /** A scan of the sanitised tree: the same properties, less those at or under a `__proto__`,
      and exactly the strings the redactor made. So the guard refuses a sanitised payload for
      its names as it refused the original, and for its values only where the redactor left
      something. */
  lemma ScansAfterSanitizing(v: Json, prohibited: string -> bool, redact: string -> string)
    requires WellFormed(v)
    ensures forall p :: p in FieldPaths(Sanitize(v, redact), [], prohibited) <==>
      p in FieldPaths(v, [], prohibited) && Field(PROTO) !in p
    ensures forall leaf :: leaf in StringLeaves(Sanitize(v, redact), []) <==>
      Field(PROTO) !in leaf.path && exists text ::
        Leaf(leaf.path, text) in StringLeaves(v, []) && leaf.text == redact(text)
  {
    var clean := Sanitize(v, redact);
    SanitizedIsWellFormed(v, redact);
    FieldScanIsExact(v, prohibited);
    FieldScanIsExact(clean, prohibited);
    ValueScanIsExact(v);
    ValueScanIsExact(clean);
    forall p
      ensures p in FieldPaths(clean, [], prohibited) <==> p in FieldPaths(v, [], prohibited) && Field(PROTO) !in p
    {
      SanitizeAt(v, p, redact);
    }
    forall leaf: Leaf
      ensures StringAt(clean, leaf.path, leaf.text) <==>
        Field(PROTO) !in leaf.path && exists text ::
          Leaf(leaf.path, text) in StringLeaves(v, []) && leaf.text == redact(text)
    {
      SanitizeAt(v, leaf.path, redact);
      var found := At(v, leaf.path);
      if StringAt(clean, leaf.path, leaf.text) {
        assert found.Some? && found.value.Str?;
        assert Leaf(leaf.path, found.value.text) in StringLeaves(v, []);
      }
      forall text | Leaf(leaf.path, text) in StringLeaves(v, []) ensures StringAt(v, leaf.path, text) {
        assert StringAt(v, Leaf(leaf.path, text).path, Leaf(leaf.path, text).text);
      }
    }
  }

  ghost predicate HasProto(v: Json) {
    exists p: Path :: Field(PROTO) in p && At(v, p).Some?
  }

  /** Names are kept exactly when no property is called `__proto__`. */
  lemma EveryPathIsKeptIff(v: Json, redact: string -> string)
    ensures (forall p: Path :: At(v, p).Some? <==> At(Sanitize(v, redact), p).Some?) <==> !HasProto(v)
  {
    forall p: Path ensures At(Sanitize(v, redact), p).Some? <==> At(v, p).Some? && Field(PROTO) !in p {
      SanitizeAt(v, p, redact);
    }
    if HasProto(v) {
      var p: Path :| Field(PROTO) in p && At(v, p).Some?;
      assert At(Sanitize(v, redact), p).None?;
    }
  }

  /** The smallest payload that loses a property: `{"__proto__": 1}` becomes `{}`. */
  lemma ProtoIsDropped(redact: string -> string)
    ensures
      var v := Obj([Entry(PROTO, Num(1.0))]);
      At(v, [Field(PROTO)]) == Some(Num(1.0)) && Sanitize(v, redact) == Obj([])
  {
    var entries := [Entry(PROTO, Num(1.0))];
    assert entries[1..] == [] && [Field(PROTO)][1..] == [];
    assert SanitizeEntries([], redact) == [] && SanitizeEntries(entries, redact) == [];
  }

  // ----- The program's loops -----

  lemma ItemPathsStep(items: seq<Json>, i: nat, path: Path, prohibited: string -> bool)
    requires i < |items|
    ensures FieldPathsInItems(items[i..], i, path, prohibited) ==
      FieldPaths(items[i], path + [Index(i)], prohibited) + FieldPathsInItems(items[i + 1..], i + 1, path, prohibited)
  {}

  lemma EntryPathsStep(entries: seq<Entry>, i: nat, path: Path, prohibited: string -> bool)
    requires i < |entries|
    ensures
      var next := path + [Field(entries[i].key)];
      FieldPathsInEntries(entries[i..], path, prohibited) ==
      (if Reported(entries[i].key, prohibited) then [next] else []) +
      FieldPaths(entries[i].value, next, prohibited) + FieldPathsInEntries(entries[i + 1..], path, prohibited)
  {}

  lemma EntryPathsTurn(entries: seq<Entry>, i: nat, path: Path, prohibited: string -> bool, before: seq<Path>,
    after: seq<Path>)
    requires i < |entries|
    requires
      var next := path + [Field(entries[i].key)];
      after == before + (if Reported(entries[i].key, prohibited) then [next] else [])
                      + FieldPaths(entries[i].value, next, prohibited)
    ensures before + FieldPathsInEntries(entries[i..], path, prohibited) ==
      after + FieldPathsInEntries(entries[i + 1..], path, prohibited)
  {
    EntryPathsStep(entries, i, path, prohibited);
  }

  lemma SanitizedEntriesStep(entries: seq<Entry>, i: nat, redact: string -> string)
    requires i < |entries|
    ensures SanitizeEntries(entries[..i + 1], redact) == SanitizeEntries(entries[..i], redact) +
      (if entries[i].key == PROTO then [] else [Entry(entries[i].key, Sanitize(entries[i].value, redact))])
    decreases i
  {
    if i == 0 {
    } else {
      SanitizedEntriesStep(entries[1..], i - 1, redact);
      assert entries[..i + 1][1..] == entries[1..][..i];
      assert entries[..i][1..] == entries[1..][..i - 1];
    }
  }

  method FindProhibitedPiiFieldPaths(value: Json, path: Path, prohibited: string -> bool) returns (matches: seq<Path>)
    ensures matches == FieldPaths(value, path, prohibited)
    decreases value, 0
  {
    match value
    case Arr(items) => matches := FindInItems(items, path, prohibited);
    case Obj(entries) => matches := FindInEntries(entries, path, prohibited);
    case _ => matches := [];
  }

  method FindInItems(items: seq<Json>, path: Path, prohibited: string -> bool) returns (matches: seq<Path>)
    ensures matches == FieldPathsInItems(items, 0, path, prohibited)
    decreases items
  {
    matches := [];
    for index := 0 to |items|
      invariant matches + FieldPathsInItems(items[index..], index, path, prohibited) ==
        FieldPathsInItems(items, 0, path, prohibited)
    {
      var found := FindProhibitedPiiFieldPaths(items[index], path + [Index(index)], prohibited);
      ItemPathsStep(items, index, path, prohibited);
      matches := matches + found;
    }
  }

  method FindInEntries(entries: seq<Entry>, path: Path, prohibited: string -> bool) returns (matches: seq<Path>)
    ensures matches == FieldPathsInEntries(entries, path, prohibited)
    decreases entries
  {
    matches := [];
    for i := 0 to |entries|
      invariant matches + FieldPathsInEntries(entries[i..], path, prohibited) ==
        FieldPathsInEntries(entries, path, prohibited)
    {
      var key, nested := entries[i].key, entries[i].value;
      var nextPath := path + [Field(key)];
      ghost var before := matches;
      if prohibited(key) && key != CUSTOMER_ID {
        matches := matches + [nextPath];
      }
      var found := FindProhibitedPiiFieldPaths(nested, nextPath, prohibited);
      matches := matches + found;
      EntryPathsTurn(entries, i, path, prohibited, before, matches);
    }
  }

  method FindProhibitedPiiValuePaths(value: Json, isPii: string -> bool) returns (matches: seq<Leaf>)
    ensures matches == Filter(StringLeaves(value, []), (leaf: Leaf) => isPii(leaf.text))
  {
    matches := [];
    var leaves := StringLeaves(value, []);
    var keep := (leaf: Leaf) => isPii(leaf.text);
    for i := 0 to |leaves|
      invariant matches == Filter(leaves[..i], keep)
    {
      FilterSnoc(leaves[..i], leaves[i], keep);
      assert leaves[..i + 1] == leaves[..i] + [leaves[i]];
      if isPii(leaves[i].text) {
        matches := matches + [leaves[i]];
      }
    }
    assert leaves[..|leaves|] == leaves;
  }

  /** `record[key] = value` on an object literal. */
  function Assign(entries: seq<Entry>, key: string, value: Json): seq<Entry> {
    if key == PROTO then entries
    else if entries == [] then [Entry(key, value)]
    else if entries[0].key == key then [Entry(key, value)] + entries[1..]
    else [entries[0]] + Assign(entries[1..], key, value)
  }

  lemma {:induction false} AssignNewKey(entries: seq<Entry>, key: string, value: Json)
    requires key != PROTO && forall e :: e in entries ==> e.key != key
    ensures Assign(entries, key, value) == entries + [Entry(key, value)]
  {
    if entries != [] {
      assert entries[0] in entries;
      AssignNewKey(entries[1..], key, value);
    }
  }

  method SanitizeJsonPayload(value: Json, redact: string -> string) returns (clean: Json)
    requires WellFormed(value)
    ensures clean == Sanitize(value, redact)
    decreases value, 0
  {
    match value
    case Str(text) => clean := Str(redact(text));
    case Arr(items) =>
      var mapped := SanitizeEach(items, redact);
      clean := Arr(mapped);
    case Obj(entries) =>
      var sanitized := SanitizeRecord(entries, redact);
      clean := Obj(sanitized);
    case _ => clean := value;
  }

  method SanitizeEach(items: seq<Json>, redact: string -> string) returns (mapped: seq<Json>)
    requires forall i | 0 <= i < |items| :: WellFormed(items[i])
    ensures mapped == SanitizeItems(items, redact)
    decreases items
  {
    mapped := [];
    for i := 0 to |items|
      invariant |mapped| == i && forall j | 0 <= j < i :: mapped[j] == Sanitize(items[j], redact)
    {
      var entry := SanitizeJsonPayload(items[i], redact);
      mapped := mapped + [entry];
    }
    SanitizedItems(items, redact);
  }

  method SanitizeRecord(entries: seq<Entry>, redact: string -> string) returns (sanitized: seq<Entry>)
    requires forall i | 0 <= i < |entries| :: WellFormed(entries[i].value)
    requires DistinctKeys(entries)
    ensures sanitized == SanitizeEntries(entries, redact)
    decreases entries
  {
    sanitized := [];
    for i := 0 to |entries|
      invariant sanitized == SanitizeEntries(entries[..i], redact)
    {
      var nested := SanitizeJsonPayload(entries[i].value, redact);
      SanitizedEntriesStep(entries, i, redact);
      SanitizedKeys(entries[..i], redact);
      if entries[i].key != PROTO {
        AssignNewKey(sanitized, entries[i].key, nested);
      }
      sanitized := Assign(sanitized, entries[i].key, nested);
    }
    assert entries[..|entries|] == entries;
  }
}
