/**
 * The evidence of one dispute: what is filed with it, what is submitted later,
 * and the limits on their number and size. Disputes from before evidence had a
 * table of its own carry their first files in the dispute row itself.
 */
module Evidence {
  import opened Common

  datatype Role = Customer | Tasker

  datatype Item = Item(publicId: string, bytes: Option<nat>)

  datatype Source = Initial | Requested

  datatype Row = Row(publicId: string, bytes: Option<nat>, source: Source)

  datatype Asked = FromCustomer | FromTasker | FromBoth

  datatype RequestStatus = Pending | Overdue | Fulfilled | FulfilledLate | Cancelled

  datatype Request = Request(from: Asked, status: RequestStatus)

  datatype Policy = Policy(maxItems: nat, maxBytes: nat)

  /** `attachments` are the files in the dispute row; rows made since filing repeat them as initial rows. */
  datatype Case = Case(active: bool, attachments: seq<Item>, rows: seq<Row>, requests: seq<Request>)

  function Size(bytes: Option<nat>): nat {
    if bytes.Some? then bytes.value else 0
  }

  function TotalSize(items: seq<Item>): nat {
    if items == [] then 0 else TotalSize(items[..|items| - 1]) + Size(items[|items| - 1].bytes)
  }

  function RowsSize(rows: seq<Row>): nat {
    if rows == [] then 0 else RowsSize(rows[..|rows| - 1]) + Size(rows[|rows| - 1].bytes)
  }

  function AsRows(items: seq<Item>, source: Source): (rows: seq<Row>)
    ensures |rows| == |items|
    ensures forall i :: 0 <= i < |items| ==> rows[i] == Row(items[i].publicId, items[i].bytes, source)
  {
    seq(|items|, i requires 0 <= i < |items| => Row(items[i].publicId, items[i].bytes, source))
  }

  // ---- Dropping repeated files ----

  predicate HasId(items: seq<Item>, id: string) {
    exists i :: 0 <= i < |items| && items[i].publicId == id
  }

  /** The items whose id none of the items before them has. */
  function FirstOfEachId(items: seq<Item>): seq<Item> {
    if items == [] then []
    else
      var before := items[..|items| - 1];
      FirstOfEachId(before) + if HasId(before, items[|items| - 1].publicId) then [] else [items[|items| - 1]]
  }

  predicate DistinctIds(items: seq<Item>) {
    forall i, j :: 0 <= i < j < |items| ==> items[i].publicId != items[j].publicId
  }

  /** Dropping repeats keeps every id once, and of each id the item that came first. */
  lemma {:induction false} FirstOfEachIdIsDistinct(items: seq<Item>)
    ensures DistinctIds(FirstOfEachId(items))
    ensures forall id: string :: HasId(FirstOfEachId(items), id) <==> HasId(items, id)
    ensures forall item :: item in FirstOfEachId(items) ==> item in items
    ensures |FirstOfEachId(items)| <= |items|
  {
    if items != [] {
      var before, last := items[..|items| - 1], items[|items| - 1];
      FirstOfEachIdIsDistinct(before);
      var kept := FirstOfEachId(before);
      assert kept + [] == kept && before + [last] == items;
      forall id: string ensures HasId(FirstOfEachId(items), id) <==> HasId(items, id) {
        HasIdOfLast(before, last, id);
        HasIdOfLast(kept, last, id);
      }
      assert !HasId(before, last.publicId) ==> !HasId(kept, last.publicId);
    }
  }

  lemma HasIdOfLast(items: seq<Item>, last: Item, id: string)
    ensures HasId(items + [last], id) <==> HasId(items, id) || last.publicId == id
  {
    if HasId(items, id) {
      var i :| 0 <= i < |items| && items[i].publicId == id;
      assert (items + [last])[i].publicId == id;
    }
    if last.publicId == id {
      assert (items + [last])[|items|].publicId == id;
    }
  }

  /** The filter with a set of ids seen so far. */
  method UniqueEvidenceByPublicId(items: seq<Item>) returns (unique: seq<Item>)
    ensures unique == FirstOfEachId(items)
  {
    var seen: set<string> := {};
    unique := [];
    for i := 0 to |items|
      invariant unique == FirstOfEachId(items[..i])
      invariant forall id: string :: id in seen <==> HasId(items[..i], id)
    {
      assert items[..i + 1][..i] == items[..i];
      forall id: string ensures HasId(items[..i + 1], id) <==> HasId(items[..i], id) || items[i].publicId == id {
        assert items[..i + 1] == items[..i] + [items[i]];
        HasIdOfLast(items[..i], items[i], id);
      }
      if items[i].publicId !in seen {
        seen := seen + {items[i].publicId};
        unique := unique + [items[i]];
      }
    }
    assert items[..|items|] == items;
  }

  // ---- Capacity ----

  predicate HasInitialRows(c: Case) {
    exists i :: 0 <= i < |c.rows| && c.rows[i].source == Initial
  }

  /** Files that exist in the dispute row only. */
  function Legacy(c: Case): seq<Item> {
    if HasInitialRows(c) then [] else c.attachments
  }

  function CountNow(c: Case): nat {
    |c.rows| + |Legacy(c)|
  }

  function SizeNow(c: Case): nat {
    RowsSize(c.rows) + TotalSize(Legacy(c))
  }

  predicate WithinLimits(c: Case, p: Policy) {
    CountNow(c) <= p.maxItems && SizeNow(c) <= p.maxBytes
  }

  predicate Fits(c: Case, incoming: seq<Item>, p: Policy) {
    CountNow(c) + |incoming| <= p.maxItems && SizeNow(c) + TotalSize(incoming) <= p.maxBytes
  }

  // ---- Filing and submitting ----

  function FiledCase(items: seq<Item>, p: Policy): Option<Case> {
    var unique := FirstOfEachId(items);
    if |unique| > p.maxItems || TotalSize(unique) > p.maxBytes then None
    else Some(Case(true, unique, AsRows(unique, Initial), []))
  }

  predicate Known(c: Case, id: string) {
    id != "" && exists i :: 0 <= i < |c.rows| && c.rows[i].publicId == id
  }

  /** The items that the table does not have yet. */
  function NewItems(c: Case, items: seq<Item>): seq<Item> {
    if items == [] then []
    else NewItems(c, items[..|items| - 1]) + if Known(c, items[|items| - 1].publicId) then [] else [items[|items| - 1]]
  }

  /** The participant's open requests are fulfilled; a request to both is left to the other. */
  function Answered(r: Request, role: Role): Request {
    var asked := if role.Customer? then FromCustomer else FromTasker;
    if r.status == Pending && r.from == asked then r.(status := Fulfilled)
    else if r.status == Overdue && r.from == asked then r.(status := FulfilledLate)
    else if r.status in {Pending, Overdue} && r.from == FromBoth
    then r.(from := if role.Customer? then FromTasker else FromCustomer)
    else r
  }

  function AnsweredAll(requests: seq<Request>, role: Role): seq<Request> {
    seq(|requests|, i requires 0 <= i < |requests| => Answered(requests[i], role))
  }

  function Submitted(c: Case, role: Role, items: seq<Item>, p: Policy): Option<Case> {
    var incoming := NewItems(c, FirstOfEachId(items));
    if items == [] || !c.active then None
    else if incoming == [] then Some(c)
    else if !Fits(c, incoming, p) then None
    else Some(c.(rows := c.rows + AsRows(incoming, Requested), requests := AnsweredAll(c.requests, role)))
  }

  datatype Step =
    | Submit(role: Role, items: seq<Item>)
    | Ask(from: Asked)
    | RequestsDue
    | SetActive(active: bool)

  /** Asking, deadlines passing, closing and reopening; none of them touches evidence. */
  function Do(c: Case, step: Step, p: Policy): Case {
    match step
    case Submit(role, items) => var r := Submitted(c, role, items, p); if r.Some? then r.value else c
    case Ask(from) => c.(requests := c.requests + [Request(from, Pending)])
    case RequestsDue =>
      c.(requests := seq(|c.requests|, i requires 0 <= i < |c.requests| =>
           if c.requests[i].status == Pending then c.requests[i].(status := Overdue) else c.requests[i]))
    case SetActive(active) => c.(active := active)
  }

  function Run(start: Case, steps: seq<Step>, p: Policy): Case {
    if steps == [] then start else Do(Run(start, steps[..|steps| - 1], p), steps[|steps| - 1], p)
  }

  /** A case as filing makes it, or an older one that kept its files in its own row. */
  ghost predicate IsStart(start: Case, p: Policy) {
    start.rows == [] || exists items: seq<Item> :: FiledCase(items, p) == Some(start)
  }

  // ---- What must hold ----

  /** First the initial rows, one for each file in the dispute row or none at all, then what was submitted. */
  ghost predicate Shape(c: Case, initial: nat) {
    && (initial == 0 || initial == |c.attachments|) && initial <= |c.rows|
    && c.rows[..initial] == AsRows(c.attachments[..initial], Initial)
    && forall i :: initial <= i < |c.rows| ==> c.rows[i].source == Requested
  }

  predicate SameId(c: Case, i: int, j: int)
    requires 0 <= i < |c.rows| && 0 <= j < |c.rows|
  {
    c.rows[i].publicId == c.rows[j].publicId && c.rows[i].publicId != ""
  }

  /** No two rows have the same public id. */
  predicate DistinctRows(c: Case) {
    forall i, j :: 0 <= i < j < |c.rows| ==> !SameId(c, i, j)
  }

  lemma {:induction false} NewItemsAreNew(c: Case, items: seq<Item>)
    ensures forall item :: item in NewItems(c, items) <==> item in items && !Known(c, item.publicId)
    ensures DistinctIds(items) ==> DistinctIds(NewItems(c, items))
  {
    if items != [] {
      var before, last := items[..|items| - 1], items[|items| - 1];
      NewItemsAreNew(c, before);
      assert items == before + [last];
      if DistinctIds(items) {
        forall item | item in before ensures item.publicId != last.publicId {
        }
        assert forall i :: 0 <= i < |NewItems(c, before)| ==> NewItems(c, before)[i] in before;
      }
    }
  }

  lemma {:induction false} NothingNew(c: Case, items: seq<Item>)
    ensures NewItems(c, items) == [] <==> forall item :: item in items ==> Known(c, item.publicId)
  {
    NewItemsAreNew(c, items);
    if NewItems(c, items) != [] {
      assert NewItems(c, items)[0] in items;
    }
  }

  lemma {:induction false} RowsSizeSplits(rows: seq<Row>, items: seq<Item>, source: Source)
    ensures RowsSize(rows + AsRows(items, source)) == RowsSize(rows) + TotalSize(items)
  {
    if items == [] {
      assert rows + AsRows(items, source) == rows;
    } else {
      var before := items[..|items| - 1];
      RowsSizeSplits(rows, before, source);
      var all := rows + AsRows(items, source);
      assert all[..|all| - 1] == rows + AsRows(before, source);
      assert all[|all| - 1].bytes == items[|items| - 1].bytes;
    }
  }

  lemma SubmittedStaysDistinct(c: Case, incoming: seq<Item>)
    requires DistinctRows(c) && DistinctIds(incoming)
    requires forall item :: item in incoming ==> !Known(c, item.publicId)
    ensures DistinctRows(c.(rows := c.rows + AsRows(incoming, Requested)))
  {
    var after := c.(rows := c.rows + AsRows(incoming, Requested));
    forall i, j | 0 <= i < j < |after.rows| ensures !SameId(after, i, j) {
      if j < |c.rows| {
        assert !SameId(c, i, j);
      } else {
        var item := incoming[j - |c.rows|];
        assert item in incoming && !Known(c, item.publicId);
        if i < |c.rows| {
          assert after.rows[i] == c.rows[i];
        } else {
          assert incoming[i - |c.rows|].publicId != item.publicId;
        }
      }
    }
  }

  lemma SubmittedStaysInShape(c: Case, initial: nat, incoming: seq<Item>)
    requires Shape(c, initial)
    ensures Shape(c.(rows := c.rows + AsRows(incoming, Requested)), initial)
  {
    var after := c.(rows := c.rows + AsRows(incoming, Requested));
    assert after.rows[..initial] == c.rows[..initial];
  }

  /** What counts: the files of the dispute row, wherever they are kept, and those submitted since. */
  lemma FilesCountOnce(c: Case, initial: nat)
    requires Shape(c, initial)
    ensures CountNow(c) == |c.attachments| + |c.rows[initial..]|
    ensures SizeNow(c) == TotalSize(c.attachments) + RowsSize(c.rows[initial..])
  {
    if initial == 0 {
      assert !HasInitialRows(c);
      assert c.rows[0..] == c.rows;
    } else {
      assert c.attachments[..initial] == c.attachments;
      assert c.rows[0] == c.rows[..initial][0] == AsRows(c.attachments, Initial)[0];
      assert HasInitialRows(c);
      InitialSize(c.attachments, c.rows[initial..]);
      assert c.rows == AsRows(c.attachments, Initial) + c.rows[initial..];
    }
  }

  lemma {:induction false} InitialSize(items: seq<Item>, rest: seq<Row>)
    ensures RowsSize(AsRows(items, Initial) + rest) == TotalSize(items) + RowsSize(rest)
  {
    var all := AsRows(items, Initial) + rest;
    if rest == [] {
      assert all == [] + AsRows(items, Initial);
      RowsSizeSplits([], items, Initial);
    } else {
      InitialSize(items, rest[..|rest| - 1]);
      assert all[..|all| - 1] == AsRows(items, Initial) + rest[..|rest| - 1];
    }
  }

  lemma TailGrows(rows: seq<Row>, more: seq<Row>, from: nat)
    requires from <= |rows|
    ensures (rows + more)[from..] == rows[from..] + more
  {
  }

  /** A submission that fits leaves the case within the limits. */
  lemma FittingStaysWithin(c: Case, initial: nat, incoming: seq<Item>, p: Policy)
    requires Shape(c, initial) && Fits(c, incoming, p)
    ensures WithinLimits(c.(rows := c.rows + AsRows(incoming, Requested)), p)
  {
    var after := c.(rows := c.rows + AsRows(incoming, Requested));
    SubmittedStaysInShape(c, initial, incoming);
    FilesCountOnce(c, initial);
    FilesCountOnce(after, initial);
    RowsSizeSplits(c.rows[initial..], incoming, Requested);
    TailGrows(c.rows, AsRows(incoming, Requested), initial);
    hide Shape, CountNow, SizeNow, TotalSize, RowsSize, AsRows;
  }

  /** Kept by every step, for the number of initial rows that the case started with. */
  ghost predicate Inv(start: Case, c: Case, initial: nat, p: Policy) {
    && Shape(c, initial) && DistinctRows(c) && c.attachments == start.attachments
    && start.rows <= c.rows
    && (WithinLimits(c, p) || c.rows == start.rows)
  }

  lemma RowsDecideLimits(c: Case, other: Case, p: Policy)
    requires other.rows == c.rows && other.attachments == c.attachments
    ensures WithinLimits(other, p) <==> WithinLimits(c, p)
    ensures DistinctRows(other) <==> DistinctRows(c)
    ensures forall initial: nat :: Shape(other, initial) <==> Shape(c, initial)
  {
    assert HasInitialRows(other) <==> HasInitialRows(c);
    assert forall i, j :: 0 <= i < j < |c.rows| ==> (SameId(other, i, j) <==> SameId(c, i, j));
  }

  lemma StepKeepsInv(start: Case, c: Case, step: Step, initial: nat, p: Policy)
    requires Inv(start, c, initial, p)
    ensures Inv(start, Do(c, step, p), initial, p)
  {
    var c' := Do(c, step, p);
    if step.Submit? && c'.rows != c.rows {
      var incoming := NewItems(c, FirstOfEachId(step.items));
      var grown := c.(rows := c.rows + AsRows(incoming, Requested));
      FirstOfEachIdIsDistinct(step.items);
      NewItemsAreNew(c, FirstOfEachId(step.items));
      hide NewItems, FirstOfEachId, Known;
      SubmittedStaysDistinct(c, incoming);
      SubmittedStaysInShape(c, initial, incoming);
      FittingStaysWithin(c, initial, incoming, p);
      RowsDecideLimits(grown, c', p);
    } else {
      RowsDecideLimits(c, c', p);
    }
  }

  lemma FiledIsDistinct(c: Case)
    requires c.rows == AsRows(c.attachments, Initial) && DistinctIds(c.attachments)
    ensures DistinctRows(c)
  {
    forall i, j | 0 <= i < j < |c.rows| ensures !SameId(c, i, j) {
      assert c.attachments[i].publicId != c.attachments[j].publicId;
    }
  }

  lemma FiledIsOk(items: seq<Item>, start: Case, p: Policy)
    requires FiledCase(items, p) == Some(start)
    ensures Inv(start, start, |start.attachments|, p) && WithinLimits(start, p)
  {
    FirstOfEachIdIsDistinct(items);
    hide FirstOfEachId;
    var initial := |start.attachments|;
    FiledIsDistinct(start);
    hide DistinctRows, DistinctIds;
    assert start.attachments[..initial] == start.attachments;
    assert start.rows[..initial] == start.rows;
    FilesCountOnce(start, initial);
    assert start.rows[initial..] == [];
  }

  lemma StartIsOk(start: Case, p: Policy) returns (initial: nat)
    requires IsStart(start, p)
    ensures initial == |start.rows| && Inv(start, start, initial, p)
    ensures start.rows != [] ==> WithinLimits(start, p)
  {
    if start.rows == [] {
      initial := 0;
    } else {
      var items: seq<Item> :| FiledCase(items, p) == Some(start);
      hide FiledCase, Inv, WithinLimits;
      FiledIsOk(items, start, p);
      initial := |start.attachments|;
    }
  }

  lemma {:induction false} RunKeepsInv(start: Case, steps: seq<Step>, initial: nat, p: Policy)
    requires Inv(start, start, initial, p)
    ensures Inv(start, Run(start, steps, p), initial, p)
  {
    hide Inv, Do;
    if steps != [] {
      RunKeepsInv(start, steps[..|steps| - 1], initial, p);
      StepKeepsInv(start, Run(start, steps[..|steps| - 1], p), steps[|steps| - 1], initial, p);
    }
  }

  // ---- Main results ----

  /**
   * In every run: public ids are distinct, evidence is only added, and the case
   * is within both limits, save for an old case to which nothing was added.
   */
  lemma EvidenceStaysWithinLimits(start: Case, steps: seq<Step>, p: Policy)
    requires IsStart(start, p)
    ensures var c := Run(start, steps, p);
            && DistinctRows(c) && start.rows <= c.rows
            && (WithinLimits(c, p) || (start.rows == [] && c.rows == []))
  {
    var initial := StartIsOk(start, p);
    RunKeepsInv(start, steps, initial, p);
  }

  // ---- What the limits count ----

  function IdsOf(items: seq<Item>): seq<string> {
    seq(|items|, i requires 0 <= i < |items| => items[i].publicId)
  }

  function RowIds(rows: seq<Row>): seq<string> {
    seq(|rows|, i requires 0 <= i < |rows| => rows[i].publicId)
  }

  predicate NoRepeats(ids: seq<string>) {
    forall i, j :: 0 <= i < j < |ids| ==> ids[i] == "" || ids[i] != ids[j]
  }

  /** The files that count: those of the dispute row and those submitted since. */
  function Counted(start: Case, c: Case): seq<string>
    requires |start.rows| <= |c.rows|
  {
    IdsOf(start.attachments) + RowIds(c.rows[|start.rows|..])
  }

  /** An accepted submission that contains a file with this id. */
  predicate Accepts(c: Case, step: Step, p: Policy, id: string) {
    step.Submit? && Submitted(c, step.role, step.items, p).Some? && HasId(step.items, id)
  }

  predicate Accepted(start: Case, steps: seq<Step>, p: Policy, id: string) {
    steps != [] && (Accepted(start, steps[..|steps| - 1], p, id)
                    || Accepts(Run(start, steps[..|steps| - 1], p), steps[|steps| - 1], p, id))
  }

  /** Some accepted submission contains a file that the dispute row has already. */
  ghost predicate Resubmitted(start: Case, steps: seq<Step>, p: Policy) {
    exists id: string :: id != "" && HasId(start.attachments, id) && Accepted(start, steps, p, id)
  }

  lemma KnownAmong(c: Case, incoming: seq<Item>, id: string)
    requires id != ""
    ensures Known(c.(rows := c.rows + AsRows(incoming, Requested)), id) <==> Known(c, id) || HasId(incoming, id)
  {
    var after := c.(rows := c.rows + AsRows(incoming, Requested));
    if HasId(incoming, id) {
      var i :| 0 <= i < |incoming| && incoming[i].publicId == id;
      assert after.rows[|c.rows| + i].publicId == id;
    }
    if Known(c, id) {
      var i :| 0 <= i < |c.rows| && c.rows[i].publicId == id;
      assert after.rows[i].publicId == id;
    }
    if Known(after, id) && !Known(c, id) {
      var i :| 0 <= i < |after.rows| && after.rows[i].publicId == id;
      if i < |c.rows| {
        assert c.rows[i].publicId == id;
      } else {
        assert incoming[i - |c.rows|].publicId == id;
      }
    }
  }

  lemma NewIds(c: Case, items: seq<Item>, id: string)
    ensures HasId(NewItems(c, FirstOfEachId(items)), id) <==> HasId(items, id) && !Known(c, id)
  {
    var unique := FirstOfEachId(items);
    FirstOfEachIdIsDistinct(items);
    NewItemsAreNew(c, unique);
    hide FirstOfEachId, NewItems, Known;
    var incoming := NewItems(c, unique);
    if HasId(incoming, id) {
      var i :| 0 <= i < |incoming| && incoming[i].publicId == id;
      assert incoming[i] in unique;
      ItemHasId(unique, incoming[i]);
    }
    if HasId(items, id) && !Known(c, id) {
      assert HasId(unique, id);
      var i :| 0 <= i < |unique| && unique[i].publicId == id;
      assert unique[i] in incoming;
      ItemHasId(incoming, unique[i]);
    }
  }

  lemma KnownAfter(c: Case, step: Step, p: Policy, id: string)
    requires id != ""
    ensures Known(Do(c, step, p), id) <==> Known(c, id) || Accepts(c, step, p, id)
  {
    if step.Submit? {
      var incoming := NewItems(c, FirstOfEachId(step.items));
      NewIds(c, step.items, id);
      KnownAmong(c, incoming, id);
      hide FirstOfEachId, NewItems, Fits;
      if incoming == [] {
        assert !HasId(incoming, id);
      }
    }
  }

  /** The table has exactly the ids that were filed or accepted later. */
  lemma {:induction false} KnownExactlyIfFiledOrAccepted(start: Case, steps: seq<Step>, p: Policy, id: string)
    requires id != ""
    ensures Known(Run(start, steps, p), id) <==> Known(start, id) || Accepted(start, steps, p, id)
  {
    hide Do, Known, Accepts;
    if steps != [] {
      KnownExactlyIfFiledOrAccepted(start, steps[..|steps| - 1], p, id);
      KnownAfter(Run(start, steps[..|steps| - 1], p), steps[|steps| - 1], p, id);
    }
  }

  lemma NoRepeatsSplits(a: seq<string>, b: seq<string>)
    ensures NoRepeats(a + b) <==> NoRepeats(a) && NoRepeats(b) && forall id: string :: id in a && id in b ==> id == ""
  {
    if NoRepeats(a + b) {
      forall i, j | 0 <= i < j < |a| ensures a[i] == "" || a[i] != a[j] {
        assert (a + b)[i] == a[i] && (a + b)[j] == a[j];
      }
      forall i, j | 0 <= i < j < |b| ensures b[i] == "" || b[i] != b[j] {
        assert (a + b)[|a| + i] == b[i] && (a + b)[|a| + j] == b[j];
      }
      forall id: string | id in a && id in b ensures id == "" {
        var i :| 0 <= i < |a| && a[i] == id;
        var j :| 0 <= j < |b| && b[j] == id;
        assert (a + b)[i] == id && (a + b)[|a| + j] == id;
      }
    }
    if NoRepeats(a) && NoRepeats(b) && forall id: string :: id in a && id in b ==> id == "" {
      forall i, j | 0 <= i < j < |a + b| ensures (a + b)[i] == "" || (a + b)[i] != (a + b)[j] {
        if i < |a| <= j {
          assert a[i] in a && b[j - |a|] in b;
        } else if |a| <= i {
          assert b[i - |a|] == "" || b[i - |a|] != b[j - |a|];
        }
      }
    }
  }

  lemma IdsAreIn(items: seq<Item>, rows: seq<Row>, c: Case, id: string)
    ensures id in IdsOf(items) <==> HasId(items, id)
    ensures id != "" && c.rows == rows ==> (id in RowIds(rows) <==> Known(c, id))
  {
    if HasId(items, id) {
      var i :| 0 <= i < |items| && items[i].publicId == id;
      assert IdsOf(items)[i] == id;
    }
    if id in IdsOf(items) {
      var i :| 0 <= i < |items| && IdsOf(items)[i] == id;
      assert items[i].publicId == id;
    }
    if id != "" && c.rows == rows {
      if Known(c, id) {
        var i :| 0 <= i < |rows| && rows[i].publicId == id;
        assert RowIds(rows)[i] == id;
      }
      if id in RowIds(rows) {
        var i :| 0 <= i < |rows| && RowIds(rows)[i] == id;
        assert rows[i].publicId == id;
      }
    }
  }

  lemma DistinctRowsDoNotRepeat(c: Case)
    requires DistinctRows(c)
    ensures NoRepeats(RowIds(c.rows))
  {
    forall i, j | 0 <= i < j < |c.rows| ensures RowIds(c.rows)[i] == "" || RowIds(c.rows)[i] != RowIds(c.rows)[j] {
      assert !SameId(c, i, j);
    }
  }

  /** A case filed with rows of its own keeps every id apart, since the files in its own row are known. */
  lemma FiledNeverRepeats(start: Case, c: Case)
    requires start.rows == AsRows(start.attachments, Initial) && start.rows <= c.rows && DistinctRows(c)
    ensures NoRepeats(Counted(start, c)) && NoRepeats(IdsOf(start.attachments))
  {
    DistinctRowsDoNotRepeat(c);
    assert c.rows == start.rows + c.rows[|start.rows|..];
    assert Counted(start, c) == RowIds(c.rows);
    NoRepeatsSplits(IdsOf(start.attachments), RowIds(c.rows[|start.rows|..]));
  }

  lemma OldRepeatsIfResubmitted(start: Case, steps: seq<Step>, p: Policy)
    requires start.rows == [] && DistinctRows(Run(start, steps, p))
    ensures NoRepeats(Counted(start, Run(start, steps, p))) <==>
            NoRepeats(IdsOf(start.attachments)) && !Resubmitted(start, steps, p)
  {
    var c := Run(start, steps, p);
    var a, b := IdsOf(start.attachments), RowIds(c.rows);
    assert c.rows[0..] == c.rows;
    DistinctRowsDoNotRepeat(c);
    NoRepeatsSplits(a, b);
    hide NoRepeats, Run, HasId, IdsOf, RowIds;
    forall id: string | id != ""
      ensures id in a && id in b <==> HasId(start.attachments, id) && Accepted(start, steps, p, id)
    {
      IdsAreIn(start.attachments, c.rows, c, id);
      KnownExactlyIfFiledOrAccepted(start, steps, p, id);
    }
  }

  /**
   * In every run number and size count the files of the dispute row, wherever
   * they are kept, and those submitted since. No file is counted twice, if and
   * only if the files of the dispute row are different ones and the dispute was
   * filed with rows of its own or none of those files was submitted again: the
   * check for known files does not look into the dispute row.
   */
  lemma EveryFileCountsOnce(start: Case, steps: seq<Step>, p: Policy)
    requires IsStart(start, p)
    ensures var c := Run(start, steps, p);
            && start.rows <= c.rows && CountNow(c) == |Counted(start, c)|
            && SizeNow(c) == TotalSize(start.attachments) + RowsSize(c.rows[|start.rows|..])
            && (NoRepeats(Counted(start, c)) <==>
                NoRepeats(IdsOf(start.attachments)) && (start.rows != [] || !Resubmitted(start, steps, p)))
  {
    var initial := StartIsOk(start, p);
    RunKeepsInv(start, steps, initial, p);
    var c := Run(start, steps, p);
    FilesCountOnce(c, initial);
    hide Run, Resubmitted, FirstOfEachId, NoRepeats;
    if start.rows == [] {
      OldRepeatsIfResubmitted(start, steps, p);
    } else {
      var items: seq<Item> :| FiledCase(items, p) == Some(start);
      FiledNeverRepeats(start, c);
    }
  }

  /** An old dispute's only file is submitted again and counts as two from then on. */
  lemma OldFileCountsTwice(p: Policy)
    requires p.maxItems >= 2 && p.maxBytes >= 2
    ensures var file := Item("a", Some(1)); var start := Case(true, [file], [], []);
            var c := Run(start, [Submit(Customer, [file])], p);
            && IsStart(start, p) && CountNow(start) == 1 && CountNow(c) == 2
            && |c.rows| == 1 && c.rows[0].publicId == c.attachments[0].publicId
  {
    var file := Item("a", Some(1));
    var start := Case(true, [file], [], []);
    assert FirstOfEachId([file]) == [file];
    assert NewItems(start, [file]) == [file];
    assert TotalSize([file]) == 1;
    var steps := [Submit(Customer, [file])];
    assert steps[..0] == [];
    assert Run(start, steps, p) == Do(start, steps[0], p);
  }

  /** Submitting only what is known adds nothing and fulfils no request; anything else that is accepted does both. */
  lemma KnownEvidenceChangesNothing(c: Case, role: Role, items: seq<Item>, p: Policy)
    requires Submitted(c, role, items, p).Some?
    ensures Submitted(c, role, items, p) == Some(c) <==>
            forall id: string :: HasId(items, id) ==> Known(c, id)
    ensures !(forall id: string :: HasId(items, id) ==> Known(c, id)) ==>
            && |Submitted(c, role, items, p).value.rows| > |c.rows|
            && Submitted(c, role, items, p).value.requests == AnsweredAll(c.requests, role)
  {
    var unique := FirstOfEachId(items);
    FirstOfEachIdIsDistinct(items);
    NothingNew(c, unique);
    hide FirstOfEachId, NewItems, Known;
    if forall id: string :: HasId(items, id) ==> Known(c, id) {
      forall item | item in unique ensures Known(c, item.publicId) {
        ItemHasId(unique, item);
      }
    } else {
      var id: string :| HasId(items, id) && !Known(c, id);
      assert HasId(unique, id);
      var i :| 0 <= i < |unique| && unique[i].publicId == id;
      assert unique[i] in unique;
    }
  }

  lemma ItemHasId(items: seq<Item>, item: Item)
    requires item in items
    ensures HasId(items, item.publicId)
  {
  }

  /**
   * What answering does to one request: an open one to this participant is
   * fulfilled, late if it was overdue; one to both is left to the other; any
   * other stays as it is.
   */
  lemma AnsweringSettlesOneSide(requests: seq<Request>, role: Role, i: nat)
    requires i < |requests|
    ensures |AnsweredAll(requests, role)| == |requests|
    ensures var r, after := requests[i], AnsweredAll(requests, role)[i];
            var mine, theirs := if role == Customer then FromCustomer else FromTasker,
                                if role == Customer then FromTasker else FromCustomer;
            && (r.from == mine && r.status == Pending ==> after == Request(mine, Fulfilled))
            && (r.from == mine && r.status == Overdue ==> after == Request(mine, FulfilledLate))
            && (r.from == FromBoth && (r.status == Pending || r.status == Overdue) ==>
                  after == Request(theirs, r.status))
            && (r.from == theirs || (r.status != Pending && r.status != Overdue) ==> after == r)
  {
  }

  // ---- What is kept and what is admitted ----

  /** Sizes add up over the items, and an item of unknown size counts for nothing. */
  lemma {:induction false} SizesAddUp(item: Item, rest: seq<Item>)
    ensures TotalSize([]) == 0
    ensures TotalSize([item] + rest) == (match item.bytes case Some(bytes) => bytes case None => 0) + TotalSize(rest)
  {
    var all := [item] + rest;
    if rest == [] {
      assert all == [item];
      assert all[..0] == [];
    } else {
      SizesAddUp(item, rest[..|rest| - 1]);
      assert all[..|all| - 1] == [item] + rest[..|rest| - 1];
    }
  }

  /** Of items with one id it is the first that is kept, and the order stays. */
  lemma {:induction false} FirstIsKept(items: seq<Item>, i: nat)
    requires i < |items|
    ensures items[i] in FirstOfEachId(items) || HasId(items[..i], items[i].publicId)
    ensures FirstOfEachId(items[..i]) <= FirstOfEachId(items)
    ensures !HasId(items[..i], items[i].publicId) ==>
              |FirstOfEachId(items)| > |FirstOfEachId(items[..i])|
              && FirstOfEachId(items)[|FirstOfEachId(items[..i])|] == items[i]
  {
    var n := |items| - 1;
    hide HasId;
    if i < n {
      FirstIsKept(items[..n], i);
      assert items[..n][..i] == items[..i];
    }
  }

  /** A file without an id is never recognised. */
  predicate IsNew(c: Case, item: Item) {
    item.publicId == "" || forall i :: 0 <= i < |c.rows| ==> c.rows[i].publicId != item.publicId
  }

  /** What of a submission is new keeps its order, and nothing else is in it. */
  lemma {:induction false} NewInOrder(c: Case, items: seq<Item>, i: nat)
    requires i < |items|
    ensures NewItems(c, items[..i]) <= NewItems(c, items)
    ensures IsNew(c, items[i]) ==>
              |NewItems(c, items)| > |NewItems(c, items[..i])|
              && NewItems(c, items)[|NewItems(c, items[..i])|] == items[i]
    ensures !IsNew(c, items[i]) ==> NewItems(c, items[..i + 1]) == NewItems(c, items[..i])
  {
    var n := |items| - 1;
    assert IsNew(c, items[i]) <==> !Known(c, items[i].publicId);
    hide Known, IsNew;
    assert items[..i + 1][..i] == items[..i] && items[..n + 1] == items;
    if i < n {
      NewInOrder(c, items[..n], i);
      assert items[..n][..i] == items[..i];
    }
  }

  /** A dispute is filed with its distinct files if they keep both limits; each becomes an initial row. */
  lemma FilingRule(items: seq<Item>, p: Policy)
    ensures var unique := FirstOfEachId(items);
            && (FiledCase(items, p).Some? <==> |unique| <= p.maxItems && TotalSize(unique) <= p.maxBytes)
            && (FiledCase(items, p).Some? ==>
                  var c := FiledCase(items, p).value;
                  && c.active && c.attachments == unique && c.requests == [] && |c.rows| == |unique|
                  && forall i :: 0 <= i < |unique| ==>
                       c.rows[i] == Row(unique[i].publicId, unique[i].bytes, Initial))
  {
    hide FirstOfEachId, TotalSize;
  }

  /** The files kept in the dispute row only: all of them, unless initial rows repeat them. */
  function OnlyInDispute(c: Case): seq<Item> {
    if forall i :: 0 <= i < |c.rows| ==> c.rows[i].source != Initial then c.attachments else []
  }

  /** What comes in fits exactly if number and size keep the limits together with what is there. */
  predicate KeepsLimits(c: Case, incoming: seq<Item>, p: Policy) {
    && |c.rows| + |OnlyInDispute(c)| + |incoming| <= p.maxItems
    && RowsSize(c.rows) + TotalSize(OnlyInDispute(c)) + TotalSize(incoming) <= p.maxBytes
  }

  lemma FitsMeansKeepsLimits(c: Case, incoming: seq<Item>, p: Policy)
    ensures Fits(c, incoming, p) <==> KeepsLimits(c, incoming, p)
  {
    hide TotalSize, RowsSize;
  }

  /**
   * Submitting, exactly: something, to an active dispute, and of which the new
   * part keeps both limits; the new part is appended, in order.
   */
  lemma SubmissionRule(c: Case, role: Role, items: seq<Item>, p: Policy)
    ensures var incoming := NewItems(c, FirstOfEachId(items));
            Submitted(c, role, items, p).Some? <==>
            |items| > 0 && c.active && (incoming == [] || KeepsLimits(c, incoming, p))
    ensures Submitted(c, role, items, p).Some? ==>
              var incoming, c' := NewItems(c, FirstOfEachId(items)), Submitted(c, role, items, p).value;
              && c' == c.(rows := c.rows + AsRows(incoming, Requested), requests := c'.requests)
              && c'.requests == if incoming == [] then c.requests else AnsweredAll(c.requests, role)
  {
    var incoming := NewItems(c, FirstOfEachId(items));
    FitsMeansKeepsLimits(c, incoming, p);
    hide FirstOfEachId, NewItems, Fits, KeepsLimits, AnsweredAll;
    if incoming == [] {
      assert c.rows + AsRows(incoming, Requested) == c.rows;
    }
  }

  /** Asking adds a pending request, the deadline makes exactly the pending ones overdue; neither touches evidence. */
  lemma OtherStepsRule(c: Case, from: Asked, active: bool, p: Policy, i: nat)
    ensures var asked := Do(c, Ask(from), p);
            asked == c.(requests := asked.requests) && |asked.requests| == |c.requests| + 1
            && asked.requests[|c.requests|] == Request(from, Pending)
            && (i < |c.requests| ==> asked.requests[i] == c.requests[i])
    ensures var late := Do(c, RequestsDue, p);
            late == c.(requests := late.requests) && |late.requests| == |c.requests|
            && (i < |c.requests| ==>
                  && late.requests[i].from == c.requests[i].from
                  && late.requests[i].status == match c.requests[i].status
                                                case Pending => Overdue
                                                case Overdue => Overdue
                                                case Fulfilled => Fulfilled
                                                case FulfilledLate => FulfilledLate
                                                case Cancelled => Cancelled)
    ensures Do(c, SetActive(active), p) == Case(active, c.attachments, c.rows, c.requests)
  {
  }

  // ---- The transaction ----

  datatype Error = EmptyRequest | DisputeClosed | ItemLimit | ByteLimit

  class DisputeEvidence {
    var active: bool
    var attachments: seq<Item>
    var rows: seq<Row>
    var requests: seq<Request>

    function Snapshot(): Case
      reads this
    {
      Case(active, attachments, rows, requests)
    }

    /** Files a dispute with its first evidence. */
    constructor File(items: seq<Item>, policy: Policy)
      requires FiledCase(items, policy).Some?
      ensures FiledCase(items, policy) == Some(Snapshot())
    {
      var unique := UniqueEvidenceByPublicId(items);
      active, attachments, rows, requests := true, unique, AsRows(unique, Initial), [];
    }

    method BytesOf(items: seq<Item>) returns (bytes: nat)
      ensures bytes == TotalSize(items)
    {
      bytes := 0;
      for i := 0 to |items|
        invariant bytes == TotalSize(items[..i])
      {
        assert items[..i + 1][..i] == items[..i];
        bytes := bytes + Size(items[i].bytes);
      }
      assert items[..|items|] == items;
    }

    method RowBytes() returns (bytes: nat)
      ensures bytes == RowsSize(rows)
    {
      bytes := 0;
      for i := 0 to |rows|
        invariant bytes == RowsSize(rows[..i])
      {
        assert rows[..i + 1][..i] == rows[..i];
        bytes := bytes + Size(rows[i].bytes);
      }
      assert rows[..|rows|] == rows;
    }

    /** Counts files that exist in the dispute row only when no initial row repeats them. */
    method AssertEvidenceCapacity(incoming: seq<Item>, policy: Policy) returns (refused: Option<Error>)
      ensures refused.None? <==> Fits(Snapshot(), incoming, policy)
      ensures refused == Some(ItemLimit) <==> CountNow(Snapshot()) + |incoming| > policy.maxItems
      ensures refused.Some? ==> refused.value in {ItemLimit, ByteLimit}
      ensures refused.None? <==> KeepsLimits(Snapshot(), incoming, policy)
      ensures refused == Some(ItemLimit) <==>
        |rows| + |OnlyInDispute(Snapshot())| + |incoming| > policy.maxItems
    {
      var legacy := attachments;
      if exists i :: 0 <= i < |rows| && rows[i].source == Initial {
        legacy := [];
      }
      assert legacy == Legacy(Snapshot());
      var currentBytes := RowBytes();
      var legacyBytes := BytesOf(legacy);
      var incomingBytes := BytesOf(incoming);
      if |rows| + |legacy| + |incoming| > policy.maxItems {
        return Some(ItemLimit);
      }
      if currentBytes + legacyBytes + incomingBytes > policy.maxBytes {
        return Some(ByteLimit);
      }
      return None;
    }

    method FindNewItems(unique: seq<Item>) returns (incoming: seq<Item>)
      ensures incoming == NewItems(Snapshot(), unique)
    {
      incoming := [];
      for i := 0 to |unique|
        invariant incoming == NewItems(Snapshot(), unique[..i])
      {
        assert unique[..i + 1][..i] == unique[..i];
        if unique[i].publicId == "" || forall k :: 0 <= k < |rows| ==> rows[k].publicId != unique[i].publicId {
          incoming := incoming + [unique[i]];
        }
      }
      assert unique[..|unique|] == unique;
    }

    /** The number of items added; those the case already has are ignored. */
    method AddComplaintEvidence(role: Role, items: seq<Item>, policy: Policy) returns (r: Result<nat, Error>)
      modifies this
      ensures r.Success? <==> Submitted(old(Snapshot()), role, items, policy).Some?
      ensures r.Success? ==> Submitted(old(Snapshot()), role, items, policy) == Some(Snapshot())
      ensures r.Success? ==> r.value == |rows| - |old(rows)|
      ensures r.Failure? ==> Snapshot() == old(Snapshot())
      ensures r.Failure? && r.error == EmptyRequest <==> items == []
      ensures r.Failure? && r.error == DisputeClosed <==> items != [] && !old(active)
    {
      hide FirstOfEachId, NewItems, Fits;
      if items == [] {
        return Failure(EmptyRequest);
      }
      var unique := UniqueEvidenceByPublicId(items);
      if !active {
        return Failure(DisputeClosed);
      }
      var incoming := FindNewItems(unique);
      if incoming == [] {
        return Success(0);
      }
      var refused := AssertEvidenceCapacity(incoming, policy);
      if refused.Some? {
        return Failure(refused.value);
      }
      rows := rows + AsRows(incoming, Requested);
      FulfilRequests(role);
      return Success(|incoming|);
    }

    /** Three updates: what was pending, what was overdue, and requests that were made to both. */
    method FulfilRequests(role: Role)
      modifies this`requests
      ensures requests == AnsweredAll(old(requests), role)
    {
      var asked := if role.Customer? then FromCustomer else FromTasker;
      var other := if role.Customer? then FromTasker else FromCustomer;
      var asPending := requests;
      requests := seq(|asPending|, i requires 0 <= i < |asPending| =>
        var r := asPending[i]; if r.status == Pending && r.from == asked then r.(status := Fulfilled) else r);
      var asOverdue := requests;
      requests := seq(|asOverdue|, i requires 0 <= i < |asOverdue| =>
        var r := asOverdue[i]; if r.status == Overdue && r.from == asked then r.(status := FulfilledLate) else r);
      var toBoth := requests;
      requests := seq(|toBoth|, i requires 0 <= i < |toBoth| =>
        var r := toBoth[i]; if r.status in {Pending, Overdue} && r.from == FromBoth then r.(from := other) else r);
    }
  }
}
