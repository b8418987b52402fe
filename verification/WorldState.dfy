/** The deduplicating draft behind a WorldState partition (pkg/rtagent/world_state.go). */
module WorldState {
  import opened Types
  import opened Wrappers
  import Sorting
  import Text

  /** An entry or a handle of a partition. Handles have no subject. */
  datatype Item = Item(id: string, subject: string, sourceSeq: int, partition: string, body: Body)

  datatype Body =
    | EntryBody(kind: string, state: string, sourceId: Option<EventId>, authority: string, confidence: real,
                observedAt: string, toolName: string)
    | HandleBody(snapshotId: string, summary: string)

  predicate IsEntry(item: Item) {
    item.body.EntryBody?
  }

  predicate IsHandle(item: Item) {
    item.body.HandleBody? && item.subject == ""
  }

  /** The defaults of addEntry; a missing id is derived before the partition is filled in. */
  function NormalizedEntry(entry: Item, partition: string): (r: Item)
    requires IsEntry(entry)
    ensures IsEntry(r)
  {
    var body := entry.body;
    Item(
      if Text.Blank(entry.id) then Text.Trim(entry.partition) + ":" + Text.Trim(body.kind) + ":" + Text.Trim(entry.subject)
      else entry.id,
      entry.subject,
      entry.sourceSeq,
      if Text.Blank(entry.partition) then partition else entry.partition,
      body.(
        authority := if Text.Blank(body.authority) then "observed" else body.authority,
        confidence := if body.confidence == 0.0 then 1.0 else body.confidence))
  }

  function NormalizedHandle(handle: Item, partition: string, snapshotId: string): (r: Item)
    requires IsHandle(handle)
    ensures IsHandle(r)
  {
    var body := handle.body;
    handle.(
      partition := if Text.Blank(handle.partition) then partition else handle.partition,
      body := body.(snapshotId := if Text.Blank(body.snapshotId) then snapshotId else body.snapshotId))
  }

  /** What an entry comes to be in a partition: what it gives is kept; a missing id names partition, kind and
      subject as they were given; authority and confidence have defaults. */
  lemma EntryDefaults(entry: Item, partition: string)
    requires IsEntry(entry)
    ensures
      var r, given := NormalizedEntry(entry, partition), entry.body;
      && r.id == (if Text.Blank(entry.id) then Text.Trim(entry.partition) + ":" + Text.Trim(given.kind) + ":" + Text.Trim(entry.subject) else entry.id)
      && r.subject == entry.subject && r.sourceSeq == entry.sourceSeq
      && r.partition == (if Text.Blank(entry.partition) then partition else entry.partition)
      && r.body.authority == (if Text.Blank(given.authority) then "observed" else given.authority)
      && r.body.confidence == (if given.confidence == 0.0 then 1.0 else given.confidence)
      && r.body.kind == given.kind && r.body.state == given.state && r.body.sourceId == given.sourceId
      && r.body.observedAt == given.observedAt && r.body.toolName == given.toolName
  {
  }

  /** A handle takes partition and snapshot from the draft where it names none. */
  lemma HandleDefaults(handle: Item, partition: string, snapshotId: string)
    requires IsHandle(handle)
    ensures
      var r := NormalizedHandle(handle, partition, snapshotId);
      && r.id == handle.id && r.subject == handle.subject && r.sourceSeq == handle.sourceSeq && r.body.summary == handle.body.summary
      && r.partition == (if Text.Blank(handle.partition) then partition else handle.partition)
      && r.body.snapshotId == (if Text.Blank(handle.body.snapshotId) then snapshotId else handle.body.snapshotId)
  {
  }

  /****** What a history of insertions amounts to ******/

  /** The history's last item among those of highest sequence with its id. */
  ghost predicate IsLatest(history: seq<Item>, k: nat)
    requires k < |history|
  {
    forall j: nat :: j < |history| && history[j].id == history[k].id ==>
      history[j].sourceSeq < history[k].sourceSeq || (history[j].sourceSeq == history[k].sourceSeq && j <= k)
  }

  ghost predicate UniqueIds(items: seq<Item>) {
    forall i, j :: 0 <= i < j < |items| ==> items[i].id != items[j].id
  }

  /** Position of the item with an id, or the length when there is none. */
  function Position(items: seq<Item>, id: string): (i: nat)
    ensures i <= |items|
    ensures i < |items| ==> items[i].id == id
    ensures forall j :: 0 <= j < i ==> items[j].id != id
  {
    if items == [] || items[0].id == id then 0 else 1 + Position(items[1..], id)
  }

  function Add(items: seq<Item>, item: Item): seq<Item> {
    var i := Position(items, item.id);
    if i == |items| then items + [item]
    else if item.sourceSeq >= items[i].sourceSeq then items[i := item]
    else items
  }

  function AddAll(history: seq<Item>): seq<Item> {
    if history == [] then [] else Add(AddAll(history[..|history| - 1]), history[|history| - 1])
  }

  /** The order of a built partition: by subject, then by id. */
  predicate Before(a: Item, b: Item) {
    Text.Less(a.subject, b.subject) || (a.subject == b.subject && Text.Less(a.id, b.id))
  }

  function Build(history: seq<Item>): seq<Item> {
    Sorting.Sort(Before, AddAll(history))
  }

  /****** The draft ******/

  ghost predicate Indexed(items: seq<Item>, index: map<string, nat>) {
    && UniqueIds(items)
    && (forall id :: id in index <==> Position(items, id) < |items|)
    && (forall id :: id in index ==> index[id] == Position(items, id))
  }

  lemma PositionIs(items: seq<Item>, i: nat)
    requires UniqueIds(items) && i < |items|
    ensures Position(items, items[i].id) == i
  {
  }

  function PositionAfter(items: seq<Item>, item: Item, id: string): nat {
    if id == item.id then Position(items, item.id)
    else if Position(items, id) == |items| then |Add(items, item)|
    else Position(items, id)
  }

  lemma AddUnique(items: seq<Item>, item: Item)
    requires UniqueIds(items)
    ensures UniqueIds(Add(items, item))
    ensures forall id :: Position(Add(items, item), id) == PositionAfter(items, item, id)
  {
    var items', i := Add(items, item), Position(items, item.id);
    assert UniqueIds(items');
    forall id
      ensures Position(items', id) == PositionAfter(items, item, id)
    {
      var p := Position(items, id);
      if id == item.id {
        assert items'[i].id == id;
        PositionIs(items', i);
      } else if p < |items| {
        assert items'[p].id == id;
        PositionIs(items', p);
      } else {
        assert forall j :: 0 <= j < |items'| ==> items'[j].id != id;
      }
    }
  }

  lemma AddAllAppend(history: seq<Item>, item: Item)
    ensures AddAll(history + [item]) == Add(AddAll(history), item)
  {
  }

  /** The items are the deduplicated history and the index matches them exactly. */
  ghost predicate Deduplicated(items: seq<Item>, index: map<string, nat>, history: seq<Item>) {
    items == AddAll(history) && Indexed(items, index)
  }

  class PartitionDraft {
    const partition: string
    const snapshotId: string
    var entries: seq<Item>
    var handles: seq<Item>
    var entryIndex: map<string, nat>
    var handleIndex: map<string, nat>
    ghost var addedEntries: seq<Item>
    ghost var addedHandles: seq<Item>

    /** The slices are the deduplicated histories and the index maps match them exactly. */
    ghost predicate Valid()
      reads this
    {
      Deduplicated(entries, entryIndex, addedEntries) && Deduplicated(handles, handleIndex, addedHandles)
    }

    constructor (partition: string, snapshotId: string)
      ensures Valid() && addedEntries == [] && addedHandles == []
      ensures this.partition == partition && this.snapshotId == snapshotId
    {
      this.partition, this.snapshotId := partition, snapshotId;
      entries, handles, entryIndex, handleIndex := [], [], map[], map[];
      addedEntries, addedHandles := [], [];
    }

    method FillEntry(entry: Item) returns (item: Item)
      requires IsEntry(entry)
      ensures item == NormalizedEntry(entry, partition)
    {
      item := entry;
      if Text.Blank(item.id) {
        item := item.(id := Text.Trim(item.partition) + ":" + Text.Trim(item.body.kind) + ":" + Text.Trim(item.subject));
      }
      if Text.Blank(item.partition) {
        item := item.(partition := partition);
      }
      if Text.Blank(item.body.authority) {
        item := item.(body := item.body.(authority := "observed"));
      }
      if item.body.confidence == 0.0 {
        item := item.(body := item.body.(confidence := 1.0));
      }
    }

    method FillHandle(handle: Item) returns (item: Item)
      requires IsHandle(handle)
      ensures item == NormalizedHandle(handle, partition, snapshotId)
    {
      item := handle;
      if Text.Blank(item.partition) {
        item := item.(partition := partition);
      }
      if Text.Blank(item.body.snapshotId) {
        item := item.(body := item.body.(snapshotId := snapshotId));
      }
    }

    method AddEntry(entry: Item)
      requires Valid() && IsEntry(entry)
      modifies this`entries, this`entryIndex, this`addedEntries
      ensures Valid()
      ensures addedEntries == old(addedEntries) + [NormalizedEntry(entry, partition)]
    {
      var item := FillEntry(entry);
      PutEntry(item);
    }

    method PutEntry(item: Item)
      requires Deduplicated(entries, entryIndex, addedEntries)
      modifies this`entries, this`entryIndex, this`addedEntries
      ensures Deduplicated(entries, entryIndex, addedEntries) && addedEntries == old(addedEntries) + [item]
    {
      entries, entryIndex := Put(entries, entryIndex, item, addedEntries);
      addedEntries := addedEntries + [item];
    }

    /** A handle without a name is ignored. */
    method AddHandle(handle: Item)
      requires Valid() && IsHandle(handle)
      modifies this`handles, this`handleIndex, this`addedHandles
      ensures Valid()
      ensures addedHandles == if Text.Blank(handle.id) then old(addedHandles)
        else old(addedHandles) + [NormalizedHandle(handle, partition, snapshotId)]
    {
      if Text.Blank(handle.id) {
        return;
      }
      var item := FillHandle(handle);
      PutHandle(item);
    }

    method PutHandle(item: Item)
      requires Deduplicated(handles, handleIndex, addedHandles)
      modifies this`handles, this`handleIndex, this`addedHandles
      ensures Deduplicated(handles, handleIndex, addedHandles) && addedHandles == old(addedHandles) + [item]
    {
      handles, handleIndex := Put(handles, handleIndex, item, addedHandles);
      addedHandles := addedHandles + [item];
    }

    /** Sorts both slices in place. The index maps are not touched, so nothing may be added afterwards. */
    method BuildPartition()
      requires Valid()
      modifies this`entries, this`handles
      ensures entries == Build(addedEntries) && handles == Build(addedHandles)
    {
      entries := Sorting.Sort(Before, entries);
      handles := Sorting.Sort(Before, handles);
    }
  }

  /** Replaces an item of the same id unless it is newer; otherwise appends. */
  method Put(items: seq<Item>, index: map<string, nat>, item: Item, ghost history: seq<Item>)
    returns (items': seq<Item>, index': map<string, nat>)
    requires Deduplicated(items, index, history)
    ensures Deduplicated(items', index', history + [item])
  {
    AddUnique(items, item);
    AddAllAppend(history, item);
    items', index' := items, index;
    if item.id in index {
      var i := index[item.id];
      if item.sourceSeq >= items[i].sourceSeq {
        items' := items[i := item];
      }
      return;
    }
    index' := index[item.id := |items|];
    items' := items + [item];
  }

  /****** The draft is a canonical form ******/

  lemma {:induction false} AddAllUnique(history: seq<Item>)
    ensures UniqueIds(AddAll(history))
  {
    if history != [] {
      AddAllUnique(history[..|history| - 1]);
      AddUnique(AddAll(history[..|history| - 1]), history[|history| - 1]);
    }
  }

  lemma AddKeepsLatest(history: seq<Item>, k: nat)
    requires k < |history| - 1 && IsLatest(history[..|history| - 1], k)
    ensures
      var n := |history| - 1;
      IsLatest(history, if history[n].id == history[k].id && history[n].sourceSeq >= history[k].sourceSeq then n else k)
  {
  }

  /** For every id that was added the draft holds the last-added item of highest sequence, and nothing else. */
  lemma {:induction false} HoldsLatest(history: seq<Item>, id: string)
    ensures
      var items := AddAll(history);
      var p := Position(items, id);
      if p == |items| then forall k :: 0 <= k < |history| ==> history[k].id != id
      else exists k: nat :: k < |history| && IsLatest(history, k) && items[p] == history[k]
  {
    if history != [] {
      var n := |history| - 1;
      var before, item := history[..n], history[n];
      HoldsLatest(before, id);
      AddAllUnique(before);
      AddUnique(AddAll(before), item);
      var items, p := AddAll(before), Position(AddAll(before), id);
      if p < |items| {
        var k: nat :| k < n && IsLatest(before, k) && items[p] == before[k];
        AddKeepsLatest(history, k);
      } else if id == item.id {
        assert IsLatest(history, n);
      }
    }
  }

  /** No item of the history with the same id has a higher sequence. */
  ghost predicate Maximal(history: seq<Item>, x: Item) {
    x in history && forall y :: y in history && y.id == x.id ==> y.sourceSeq <= x.sourceSeq
  }

  /** Items that tie for the highest sequence of their id are equal. */
  ghost predicate NoTies(history: seq<Item>) {
    forall x, y :: Maximal(history, x) && Maximal(history, y) && x.id == y.id ==> x == y
  }

  lemma MembersAreMaximal(history: seq<Item>, x: Item)
    ensures x in AddAll(history) ==> Maximal(history, x)
    ensures NoTies(history) && Maximal(history, x) ==> x in AddAll(history)
  {
    var items := AddAll(history);
    AddAllUnique(history);
    HoldsLatest(history, x.id);
    var p := Position(items, x.id);
    if x in items {
      var i :| 0 <= i < |items| && items[i] == x;
      PositionIs(items, i);
    }
    if p < |items| {
      var k: nat :| k < |history| && IsLatest(history, k) && items[p] == history[k];
      assert Maximal(history, items[p]);
    }
  }

  lemma BeforeIsStrictOrder()
    ensures Sorting.StrictOrder(Before)
  {
    forall x
      ensures !Before(x, x)
    {
      Text.LessTotal(x.id, x.id);
      Text.LessTotal(x.subject, x.subject);
    }
    forall x, y, z | Before(x, y) && Before(y, z)
      ensures Before(x, z)
    {
      BeforeTransitive(x, y, z);
    }
    forall x, y, z | Before(x, z)
      ensures Before(x, y) || Before(y, z)
    {
      BeforeTotal(x, y);
      if Before(y, x) {
        BeforeTransitive(y, x, z);
      }
    }
  }

  lemma BeforeTransitive(x: Item, y: Item, z: Item)
    requires Before(x, y) && Before(y, z)
    ensures Before(x, z)
  {
    if Text.Less(x.subject, y.subject) && Text.Less(y.subject, z.subject) {
      Text.LessTransitive(x.subject, y.subject, z.subject);
    }
    if Text.Less(x.id, y.id) && Text.Less(y.id, z.id) {
      Text.LessTransitive(x.id, y.id, z.id);
    }
  }

  /** Items that neither precede the other agree on subject and id. */
  lemma BeforeTotal(x: Item, y: Item)
    ensures Before(x, y) || Before(y, x) || (x.subject == y.subject && x.id == y.id)
  {
    Text.LessTotal(x.subject, y.subject);
    Text.LessTotal(x.id, y.id);
  }

  /** A built partition is strictly ordered by subject and id and holds exactly the draft's items. */
  lemma BuildStrictlyOrdered(history: seq<Item>)
    ensures Sorting.StrictlySorted(Before, Build(history))
    ensures forall i, j :: 0 <= i < j < |Build(history)| ==>
      var a, b := Build(history)[i], Build(history)[j];
      Text.Less(a.subject, b.subject) || (a.subject == b.subject && Text.Less(a.id, b.id))
    ensures forall x :: x in Build(history) <==> x in AddAll(history)
  {
    var items, built := AddAll(history), Build(history);
    AddAllUnique(history);
    BeforeIsStrictOrder();
    Sorting.SortSorted(Before, items);
    forall x
      ensures x in built <==> x in items
    {
      assert x in multiset(built) <==> x in multiset(items);
    }
    forall i, j | 0 <= i < j < |built|
      ensures Before(built[i], built[j])
    {
      SortedIdsDiffer(items, built, i, j);
      BeforeTotal(built[i], built[j]);
    }
  }

  lemma SortedIdsDiffer(items: seq<Item>, built: seq<Item>, i: nat, j: nat)
    requires UniqueIds(items) && multiset(built) == multiset(items) && i < j < |built|
    ensures built[i].id != built[j].id
  {
    assert built[i] in multiset(items) && built[j] in multiset(items);
    if built[i].id == built[j].id {
      SameIdSameItem(items, built[i], built[j]);
      TwiceInMultiset(built, i, j);
      OnceInMultiset(items, built[i]);
    }
  }

  lemma SameIdSameItem(items: seq<Item>, x: Item, y: Item)
    requires UniqueIds(items) && x in items && y in items && x.id == y.id
    ensures x == y
  {
  }

  lemma TwiceInMultiset(items: seq<Item>, i: nat, j: nat)
    requires i < j < |items| && items[i] == items[j]
    ensures multiset(items)[items[i]] >= 2
  {
    assert items == items[..j] + [items[j]] + items[j + 1..];
    assert items[i] in items[..j];
  }

  lemma OnceInMultiset(items: seq<Item>, x: Item)
    requires UniqueIds(items) && x in items
    ensures multiset(items)[x] == 1
  {
    var i :| 0 <= i < |items| && items[i] == x;
    assert items == items[..i] + [x] + items[i + 1..];
    assert x !in items[..i] && x !in items[i + 1..];
  }

  lemma SameMembersSameBuild(a: seq<Item>, b: seq<Item>)
    requires forall x :: x in AddAll(a) <==> x in AddAll(b)
    ensures Build(a) == Build(b)
  {
    BuildStrictlyOrdered(a);
    BuildStrictlyOrdered(b);
    BeforeIsStrictOrder();
    Sorting.StrictlySortedUnique(Before, Build(a), Build(b));
  }

  /** Histories without ties that contain the same items build the same partition. */
  lemma SameItemsSameBuild(a: seq<Item>, b: seq<Item>)
    requires NoTies(a) && forall x :: x in a <==> x in b
    ensures Build(a) == Build(b)
  {
    forall x
      ensures Maximal(a, x) <==> Maximal(b, x)
    {
    }
    forall x
      ensures x in AddAll(a) <==> x in AddAll(b)
    {
      MembersAreMaximal(a, x);
      MembersAreMaximal(b, x);
    }
    SameMembersSameBuild(a, b);
  }

  ghost predicate OrderIndependent(history: seq<Item>) {
    forall other :: multiset(other) == multiset(history) ==> Build(other) == Build(history)
  }

  lemma SameBuildWithoutTies(history: seq<Item>)
    requires NoTies(history)
    ensures OrderIndependent(history)
  {
    forall other | multiset(other) == multiset(history)
      ensures Build(other) == Build(history)
    {
      assert forall x :: x in other <==> x in multiset(other);
      assert forall x :: x in history <==> x in multiset(history);
      SameItemsSameBuild(history, other);
    }
  }

  /** Of two items that tie, each comes out on top in some order. */
  lemma TiesMatter(history: seq<Item>, x: Item, y: Item)
    requires Maximal(history, x) && Maximal(history, y) && x.id == y.id && x != y
    ensures !OrderIndependent(history)
  {
    var hx, hy := MovedLast(history, x), MovedLast(history, y);
    LastMaximalWins(hx, x, y);
    LastMaximalWins(hy, y, x);
    assert Build(hx) != Build(hy);
  }

  /** Every insertion order builds the same entries exactly when items that tie for the highest
      sequence of an id are equal. */
  lemma CanonicalForm(history: seq<Item>)
    ensures OrderIndependent(history) <==> NoTies(history)
  {
    if NoTies(history) {
      SameBuildWithoutTies(history);
    } else {
      var x, y :| Maximal(history, x) && Maximal(history, y) && x.id == y.id && x != y;
      TiesMatter(history, x, y);
    }
  }

  ghost function MovedLast(history: seq<Item>, x: Item): (r: seq<Item>)
    requires x in history
    ensures multiset(r) == multiset(history) && r != [] && r[|r| - 1] == x
  {
    var i :| 0 <= i < |history| && history[i] == x;
    assert history == history[..i] + [x] + history[i + 1..];
    history[..i] + history[i + 1..] + [x]
  }

  lemma LastMaximalWins(history: seq<Item>, x: Item, other: Item)
    requires history != [] && history[|history| - 1] == x && x != other && x.id == other.id
    requires forall y :: y in history && y.id == x.id ==> y.sourceSeq <= x.sourceSeq
    ensures x in Build(history) && other !in Build(history)
  {
    AddAllUnique(history);
    var p := LastMaximalHeld(history, x);
    OnlyWithItsId(AddAll(history), p);
    BuildStrictlyOrdered(history);
  }

  lemma LastMaximalHeld(history: seq<Item>, x: Item) returns (p: nat)
    requires history != [] && history[|history| - 1] == x
    requires forall y :: y in history && y.id == x.id ==> y.sourceSeq <= x.sourceSeq
    ensures p < |AddAll(history)| && AddAll(history)[p] == x
  {
    var n := |history| - 1;
    HoldsLatest(history, x.id);
    p := Position(AddAll(history), x.id);
    assert history[n].id == x.id;
    var k: nat :| k < |history| && IsLatest(history, k) && AddAll(history)[p] == history[k];
    assert history[k] in history;
    assert k == n;
  }

  lemma OnlyWithItsId(items: seq<Item>, p: nat)
    requires UniqueIds(items) && p < |items|
    ensures forall y :: y in items && y.id == items[p].id ==> y == items[p]
  {
    forall i | 0 <= i < |items| && items[i].id == items[p].id
      ensures i == p
    {
      PositionIs(items, i);
      PositionIs(items, p);
    }
  }

  /** A newer item of the history has the same id. */
  ghost predicate Outranked(history: seq<Item>, x: Item) {
    exists y :: y in history && y.id == x.id && y.sourceSeq > x.sourceSeq
  }

  /** One more item leaves a built partition as it was exactly when a newer item of its id is there. */
  lemma OneMoreItem(a: seq<Item>, b: seq<Item>, x: Item)
    requires NoTies(a) && NoTies(b) && x !in a
    requires forall y :: y in b <==> y in a || y == x
    ensures Build(a) == Build(b) <==> Outranked(a, x)
  {
    if Outranked(a, x) {
      assert forall y :: Maximal(a, y) <==> Maximal(b, y);
      forall y
        ensures y in AddAll(a) <==> y in AddAll(b)
      {
        MembersAreMaximal(a, y);
        MembersAreMaximal(b, y);
      }
      SameMembersSameBuild(a, b);
    } else {
      assert Maximal(b, x);
      MembersAreMaximal(a, x);
      MembersAreMaximal(b, x);
      BuildStrictlyOrdered(a);
      BuildStrictlyOrdered(b);
      assert x in Build(b) && x !in Build(a);
    }
  }
}
