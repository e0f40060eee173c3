/**
 The prompt queue table: rows with explicit positions, unique per channel and session,
 which refine one sequence of prompts per channel and session. An UPDATE is modelled
 row by row, in ascending position order, with the uniqueness check made at each row.
 */
module PromptQueue {
  import opened Common

  datatype Key = Key(channel: string, session: string)

  /** A stored row; its id is the table's key. */
  datatype Row = Row(key: Key, position: int, text: string, createdAt: int)

  type Table = map<string, Row>

  /** A prompt of the queue the rows stand for. */
  datatype Prompt = Prompt(id: string, text: string, createdAt: int)

  type Queues = map<Key, seq<Prompt>>

  datatype StoreError = LimitReached | UnknownItem | Integrity

  /** The distance an item is moved out of the way before its queue is renumbered. */
  const PARKED: nat := 1000000

  // ----- The sequences -----

  function Q(qs: Queues, k: Key): seq<Prompt> {
    if k in qs then qs[k] else []
  }

  function IndexOf(q: seq<Prompt>, id: string): (i: nat)
    ensures i <= |q|
    ensures i < |q| ==> q[i].id == id
    ensures forall j :: 0 <= j < i ==> q[j].id != id
  {
    if q == [] || q[0].id == id then 0 else 1 + IndexOf(q[1..], id)
  }

  function Without(q: seq<Prompt>, id: string): seq<Prompt> {
    var i := IndexOf(q, id);
    if i < |q| then q[..i] + q[i + 1..] else q
  }

  function Clamp(position: int, n: nat): (p: nat)
    ensures p <= n
  {
    Max(0, Min(position, n))
  }

  function InsertAt(q: seq<Prompt>, i: nat, p: Prompt): seq<Prompt>
    requires i <= |q|
  {
    q[..i] + [p] + q[i..]
  }

  /** Remove, then insert at the clamped index. */
  function Moved(q: seq<Prompt>, id: string, position: int): seq<Prompt>
    requires IndexOf(q, id) < |q|
  {
    var rest := Without(q, id);
    InsertAt(rest, Clamp(position, |rest|), q[IndexOf(q, id)])
  }

  function Edited(q: seq<Prompt>, id: string, text: string): seq<Prompt> {
    var i := IndexOf(q, id);
    if i < |q| then q[i := q[i].(text := text)] else q
  }

  // ----- The rows stand for the sequences -----

  /** Row i of a queue is its prompt i, and the queue has no other row. */
  ghost predicate RowsOf(rows: Table, k: Key, q: seq<Prompt>) {
    && (forall i :: 0 <= i < |q| ==> q[i].id in rows && rows[q[i].id] == Row(k, i, q[i].text, q[i].createdAt))
    && (forall id :: id in rows && rows[id].key == k ==> 0 <= rows[id].position < |q| && q[rows[id].position].id == id)
  }

  ghost predicate Represents(rows: Table, qs: Queues) {
    forall k :: RowsOf(rows, k, Q(qs, k))
  }

  /** A statement that leaves other queues alone, and this one consistent, keeps the table consistent. */
  lemma Replaced(rows: Table, qs: Queues, rows': Table, k: Key, q': seq<Prompt>)
    requires Represents(rows, qs) && RowsOf(rows', k, q')
    requires forall id :: id in rows && rows[id].key != k ==> id in rows' && rows'[id] == rows[id]
    requires forall id :: id in rows' && rows'[id].key != k ==> id in rows && rows'[id] == rows[id]
    ensures Represents(rows', qs[k := q'])
  {
    var qs' := qs[k := q'];
    forall other ensures RowsOf(rows', other, Q(qs', other)) {
      assert RowsOf(rows, other, Q(qs, other));
    }
  }

  function Matching(rows: Table, k: Key): set<string> {
    set id | id in rows && rows[id].key == k
  }

  /** UNIQUE(channel, session_id, position): some other row already sits there. */
  predicate Taken(rows: Table, id: string, k: Key, position: int) {
    exists other :: other in rows && other != id && rows[other].key == k && rows[other].position == position
  }

  function Ids(q: seq<Prompt>): seq<string> {
    seq(|q|, i requires 0 <= i < |q| => q[i].id)
  }

  lemma {:induction false} DistinctCard(ids: seq<string>, s: set<string>)
    requires forall i, j :: 0 <= i < j < |ids| ==> ids[i] != ids[j]
    requires forall id :: id in s <==> id in ids
    ensures |s| == |ids|
  {
    if ids == [] {
      assert s == {};
    } else {
      var last := ids[|ids| - 1];
      DistinctCard(ids[..|ids| - 1], s - {last});
    }
  }

  lemma MatchingIsQueue(rows: Table, qs: Queues, k: Key)
    requires Represents(rows, qs)
    ensures forall id :: id in Matching(rows, k) <==> id in Ids(Q(qs, k))
    ensures |Matching(rows, k)| == |Q(qs, k)|
  {
    var q := Q(qs, k);
    assert RowsOf(rows, k, q);
    forall id | id in Matching(rows, k) ensures id in Ids(q) {
      assert Ids(q)[rows[id].position] == id;
    }
    forall id | id in Ids(q) ensures id in Matching(rows, k) {
      var i :| 0 <= i < |Ids(q)| && Ids(q)[i] == id;
      assert q[i].id == id;
    }
    assert forall i :: 0 <= i < |q| ==> rows[q[i].id].position == i;
    DistinctCard(Ids(q), Matching(rows, k));
  }

  /** The rows determine the sequences. */
  lemma RepresentsOne(rows: Table, a: Queues, b: Queues, k: Key)
    requires Represents(rows, a) && Represents(rows, b)
    ensures Q(a, k) == Q(b, k)
  {
    MatchingIsQueue(rows, a, k);
    MatchingIsQueue(rows, b, k);
    assert RowsOf(rows, k, Q(a, k)) && RowsOf(rows, k, Q(b, k));
    forall i | 0 <= i < |Q(a, k)| ensures Q(a, k)[i] == Q(b, k)[i] {
      assert rows[Q(a, k)[i].id].position == i;
    }
  }

  class QueueStore {
    var rows: Table
    ghost var queues: Queues

    ghost predicate Valid()
      reads this
    {
      Represents(rows, queues)
    }

    constructor ()
      ensures Valid() && rows == map[] && queues == map[]
    {
      rows := map[];
      queues := map[];
    }

    /** One row of an UPDATE; false is the IntegrityError. */
    method SetPosition(id: string, position: int) returns (ok: bool)
      requires id in rows
      modifies this`rows
      ensures ok == !Taken(old(rows), id, old(rows)[id].key, position)
      ensures rows == if ok then old(rows)[id := old(rows)[id].(position := position)] else old(rows)
    {
      var row := rows[id];
      ok := true;
      var others := rows.Keys - {id};
      while others != {}
        invariant others <= rows.Keys - {id}
        invariant rows == old(rows)
        invariant ok == !exists other ::
          other in rows.Keys - {id} - others && rows[other].key == row.key && rows[other].position == position
        decreases |others|
      {
        var other :| other in others;
        if rows[other].key == row.key && rows[other].position == position {
          ok := false;
        }
        others := others - {other};
      }
      if ok {
        rows := rows[id := row.(position := position)];
      }
    }

    /** SELECT ... ORDER BY position. */
    method List(k: Key) returns (items: seq<Prompt>)
      requires Valid()
      ensures items == Q(queues, k)
    {
      items := [];
      var rest := Matching(rows, k);
      ghost var q := Q(queues, k);
      assert RowsOf(rows, k, q);
      while rest != {}
        invariant |items| <= |q| && items == q[..|items|]
        invariant rest == From(rows, k, |items|)
        decreases |rest|
      {
        NextInOrder(rows, k, q, |items|);
        var first :| first in rest && forall id :: id in rest ==> rows[first].position <= rows[id].position;
        assert first == q[|items|].id;
        items := items + [Prompt(first, rows[first].text, rows[first].createdAt)];
        rest := rest - {first};
      }
      NothingLeft(rows, k, q, |items|);
    }

    method Enqueue(id: string, k: Key, text: string, limit: int, now: int) returns (r: Result<Row, StoreError>)
      requires Valid()
      modifies this
      ensures Valid()
      ensures r == if |Q(old(queues), k)| >= limit then Err(LimitReached)
                   else if id in old(rows) then Err(Integrity)
                   else Ok(Row(k, |Q(old(queues), k)|, text, now))
      ensures queues == if r.Ok? then old(queues)[k := Q(old(queues), k) + [Prompt(id, text, now)]] else old(queues)
      ensures queues == Step(old(queues), Op.Add(Prompt(id, text, now), k, limit))
    {
      HomeIsRow(rows, queues, id);
      MatchingIsQueue(rows, queues, k);
      var count := |Matching(rows, k)|;
      if count >= limit {
        return Err(LimitReached);
      }
      if id in rows {
        return Err(Integrity);
      }
      AppendKeeps(rows, queues, k, id, text, now);
      rows := rows[id := Row(k, count, text, now)];
      queues := queues[k := Q(queues, k) + [Prompt(id, text, now)]];
      return Ok(Row(k, count, text, now));
    }

    method Edit(id: string, text: string) returns (r: Option<Row>)
      requires Valid()
      modifies this
      ensures Valid()
      ensures r == if id in old(rows) then Some(old(rows)[id].(text := text)) else None
      ensures queues == Step(old(queues), Op.Edit(id, text))
    {
      HomeIsRow(rows, queues, id);
      if id !in rows {
        return None;
      }
      EditKeeps(rows, queues, id, text);
      queues := queues[rows[id].key := Edited(Q(queues, rows[id].key), id, text)];
      rows := rows[id := rows[id].(text := text)];
      return Some(rows[id]);
    }

    method Clear(k: Key) returns (removed: nat)
      requires Valid()
      modifies this
      ensures Valid()
      ensures removed == |Q(old(queues), k)|
      ensures queues == Step(old(queues), Op.Clear(k))
    {
      MatchingIsQueue(rows, queues, k);
      removed := |Matching(rows, k)|;
      ClearKeeps(rows, queues, k);
      rows := rows - Matching(rows, k);
      queues := queues[k := []];
    }

    /** The rows above the deleted one move down in ascending order, so none meets its neighbour. */
    method Delete(id: string) returns (r: Option<Row>)
      requires Valid()
      modifies this
      ensures Valid()
      ensures r == if id in old(rows) then Some(old(rows)[id]) else None
      ensures queues == Step(old(queues), Op.Delete(id))
    {
      HomeIsRow(rows, queues, id);
      if id !in rows {
        return None;
      }
      var row := rows[id];
      var q := List(row.key);
      assert RowsOf(rows, row.key, q);
      DeleteKeeps(rows, queues, id);
      CloseUp(id, q);
      queues := queues[row.key := Without(Q(queues, row.key), id)];
      return Some(row);
    }

    /** Delete one row, then UPDATE queue SET position = position - 1 above it, row by row. */
    method CloseUp(id: string, q: seq<Prompt>)
      requires id in rows && RowsOf(rows, rows[id].key, q)
      modifies this`rows
      ensures rows == Closing(old(rows), old(rows)[id], id, |q|)
    {
      var row := rows[id];
      ghost var before := rows;
      PositionIsIndex(before, row.key, q, id);
      rows := rows - {id};
      var i := row.position + 1;
      while i < |q|
        invariant row.position < i <= |q|
        invariant rows == Closing(before, row, id, i)
      {
        ClosingStep(before, q, id, i);
        var ok := SetPosition(q[i].id, rows[q[i].id].position - 1);
        assert ok;
        i := i + 1;
      }
    }

    /** UPDATE queue SET position = position + 1000000 for one queue, row by row. */
    method Park(k: Key, ghost q: seq<Prompt>, ids: seq<string>) returns (ok: bool)
      requires RowsOf(rows, k, q) && ids == Ids(q)
      modifies this`rows
      ensures ok == (|q| <= PARKED)
      ensures ok ==> rows == Parking(old(rows), k, |q|)
    {
      ghost var before := rows;
      var i := 0;
      while i < |ids|
        invariant 0 <= i <= |ids|
        invariant rows == Parking(before, k, i)
        invariant i == 0 || |q| <= PARKED
      {
        assert q[i].id == ids[i];
        ParkingStep(before, k, q, i);
        ok := SetPosition(ids[i], rows[ids[i]].position + PARKED);
        if !ok {
          return;
        }
        i := i + 1;
      }
      ok := true;
    }

    /** One UPDATE per id, in the new order. */
    method Renumber(k: Key, ghost before: Table, ghost moved: seq<Prompt>, order: seq<string>)
      requires Rearranges(before, k, moved) && order == Ids(moved) && |moved| <= PARKED
      requires forall id :: id in before && before[id].key == k ==> before[id].position >= 0
      requires rows == Renumbering(before, k, order, 0)
      modifies this`rows
      ensures rows == Renumbering(before, k, order, |order|)
    {
      var index := 0;
      while index < |order|
        invariant 0 <= index <= |order|
        invariant rows == Renumbering(before, k, order, index)
      {
        RenumberingStep(before, k, moved, index);
        var ok := SetPosition(order[index], index);
        assert ok;
        index := index + 1;
      }
    }

    /** Park the whole queue, then renumber it in its new order; a failed row rolls everything back. */
    method Move(id: string, position: int) returns (r: Result<seq<Prompt>, StoreError>)
      requires Valid()
      modifies this
      ensures Valid()
      ensures id !in old(rows) ==> r == Err(UnknownItem) && rows == old(rows) && queues == old(queues)
      ensures id in old(rows) && |Q(old(queues), old(rows)[id].key)| > PARKED ==>
        r == Err(Integrity) && rows == old(rows) && queues == old(queues)
      ensures id in old(rows) && |Q(old(queues), old(rows)[id].key)| <= PARKED ==>
        var k := old(rows)[id].key;
        var q := Q(old(queues), k);
        IndexOf(q, id) < |q| && queues == old(queues)[k := Moved(q, id, position)] && r == Ok(Moved(q, id, position))
      ensures queues == Step(old(queues), Op.Move(id, position))
    {
      HomeIsRow(rows, queues, id);
      if id !in rows {
        return Err(UnknownItem);
      }
      var k := rows[id].key;
      var before := rows;
      ghost var q := Q(queues, k);
      assert Represents(before, queues) && RowsOf(before, k, q);
      var items := List(k);
      var ids := Ids(items);
      var ok := Park(k, q, ids);
      if !ok {
        rows := before;
        return Err(Integrity);
      }
      MovedRearranges(before, k, q, id, position);
      MovedOrder(before, k, q, id, position);
      ghost var moved := Moved(q, id, position);
      ParkedAll(before, k, q, moved);
      var order := Reorder(ids, id, position);
      MovedLength(q, id, position);
      Renumber(k, before, moved, order);
      RenumberedKeeps(before, queues, k, moved);
      queues := queues[k := moved];
      items := List(k);
      r := Ok(items);
    }
  }

  // ----- Reading a queue in order -----

  function From(rows: Table, k: Key, n: nat): set<string> {
    set id | id in Matching(rows, k) && rows[id].position >= n
  }

  /** The prompt at the next index is the one row with the smallest position left. */
  lemma NextInOrder(rows: Table, k: Key, q: seq<Prompt>, n: nat)
    requires RowsOf(rows, k, q) && From(rows, k, n) != {}
    ensures n < |q| && q[n].id in From(rows, k, n)
    ensures forall id :: id in From(rows, k, n) ==> rows[q[n].id].position <= rows[id].position
    ensures forall id :: id in From(rows, k, n) && rows[id].position <= n ==> id == q[n].id
    ensures From(rows, k, n) - {q[n].id} == From(rows, k, n + 1)
  {
    var id :| id in From(rows, k, n);
    assert rows[q[n].id].position == n;
  }

  lemma NothingLeft(rows: Table, k: Key, q: seq<Prompt>, n: nat)
    requires RowsOf(rows, k, q) && n <= |q|
    ensures From(rows, k, n) == {} ==> n == |q|
  {
    if n < |q| {
      assert q[n].id in From(rows, k, n);
    }
  }

  // ----- The statements keep rows and sequences together -----

  lemma AppendKeeps(rows: Table, qs: Queues, k: Key, id: string, text: string, now: int)
    requires Represents(rows, qs) && id !in rows
    ensures Represents(rows[id := Row(k, |Q(qs, k)|, text, now)], qs[k := Q(qs, k) + [Prompt(id, text, now)]])
    ensures !Taken(rows, id, k, |Q(qs, k)|)
  {
    assert RowsOf(rows, k, Q(qs, k));
    Replaced(rows, qs, rows[id := Row(k, |Q(qs, k)|, text, now)], k, Q(qs, k) + [Prompt(id, text, now)]);
  }

  lemma EditKeeps(rows: Table, qs: Queues, id: string, text: string)
    requires Represents(rows, qs) && id in rows
    ensures Represents(rows[id := rows[id].(text := text)], qs[rows[id].key := Edited(Q(qs, rows[id].key), id, text)])
  {
    var k := rows[id].key;
    PositionIsIndex(rows, k, Q(qs, k), id);
    Replaced(rows, qs, rows[id := rows[id].(text := text)], k, Edited(Q(qs, k), id, text));
  }

  /** An item's position is its index in its queue. */
  lemma PositionIsIndex(rows: Table, k: Key, q: seq<Prompt>, id: string)
    requires RowsOf(rows, k, q) && id in rows && rows[id].key == k
    ensures rows[id].position == IndexOf(q, id) < |q|
  {
    var i := IndexOf(q, id);
    assert i <= rows[id].position;
    assert rows[q[i].id].position == i;
  }

  lemma ClearKeeps(rows: Table, qs: Queues, k: Key)
    requires Represents(rows, qs)
    ensures Represents(rows - Matching(rows, k), qs[k := []])
  {
    Replaced(rows, qs, rows - Matching(rows, k), k, []);
  }

  // ----- Deleting -----

  /** The table after the rows up to index i have moved down. */
  function Closing(before: Table, row: Row, id: string, i: int): Table {
    map other | other in before && other != id ::
      if before[other].key == row.key && row.position < before[other].position < i
      then before[other].(position := before[other].position - 1) else before[other]
  }

  lemma ClosingStep(before: Table, q: seq<Prompt>, id: string, i: int)
    requires id in before && RowsOf(before, before[id].key, q)
    requires before[id].position < i < |q|
    ensures var next := q[i].id;
      var rows := Closing(before, before[id], id, i);
      && next in rows && rows[next].key == before[id].key && rows[next].position == i
      && !Taken(rows, next, before[id].key, i - 1)
      && rows[next := rows[next].(position := i - 1)] == Closing(before, before[id], id, i + 1)
  {
    var next := q[i].id;
    assert before[next].position == i;
    assert forall other :: other in before && before[other].key == before[id].key && before[other].position == i ==>
      other == next;
    assert forall other :: other in before && before[other].key == before[id].key ==>
      before[other].position == before[id].position ==> other == id;
  }

  lemma DeleteKeeps(before: Table, qs: Queues, id: string)
    requires Represents(before, qs) && id in before
    ensures Represents(Closing(before, before[id], id, |Q(qs, before[id].key)|),
                       qs[before[id].key := Without(Q(qs, before[id].key), id)])
  {
    var k := before[id].key;
    var q := Q(qs, k);
    assert RowsOf(before, k, q);
    PositionIsIndex(before, k, q, id);
    ClosedRows(before, q, id, Without(q, id), |q|);
    Replaced(before, qs, Closing(before, before[id], id, |q|), k, Without(q, id));
  }

  lemma ClosedRows(before: Table, q: seq<Prompt>, id: string, q': seq<Prompt>, n: nat)
    requires id in before && RowsOf(before, before[id].key, q) && n == |q|
    requires 0 <= before[id].position < n && q' == q[..before[id].position] + q[before[id].position + 1..]
    ensures RowsOf(Closing(before, before[id], id, n), before[id].key, q')
  {
    var k, p, rows := before[id].key, before[id].position, Closing(before, before[id], id, n);
    forall i | 0 <= i < |q'| ensures q'[i].id in rows && rows[q'[i].id] == Row(k, i, q'[i].text, q'[i].createdAt) {
      var x := q[if i < p then i else i + 1];
      assert q'[i] == x && before[x.id].position != p;
    }
    forall other | other in rows && rows[other].key == k
      ensures 0 <= rows[other].position < |q'| && q'[rows[other].position].id == other {
      var r := before[other].position;
      assert q[r].id == other && q[p].id == id;
    }
  }

  // ----- Moving -----

  /** The table after the first i rows of the queue are parked. */
  function Parking(before: Table, k: Key, i: nat): Table {
    map id | id in before ::
      if before[id].key == k && before[id].position < i
      then before[id].(position := before[id].position + PARKED) else before[id]
  }

  /** Parking row i meets another row exactly when the queue is too long, and then at its very first row. */
  lemma ParkingStep(before: Table, k: Key, q: seq<Prompt>, i: nat)
    requires RowsOf(before, k, q) && i < |q|
    requires i == 0 || |q| <= PARKED
    ensures var next := q[i].id;
      var rows := Parking(before, k, i);
      && next in rows && rows[next].key == k && rows[next].position == i
      && (Taken(rows, next, k, i + PARKED) <==> |q| > PARKED)
      && rows[next := rows[next].(position := i + PARKED)] == Parking(before, k, i + 1)
  {
    var next := q[i].id;
    var rows := Parking(before, k, i);
    assert before[next].position == i;
    assert forall id :: id in before && before[id].key == k && before[id].position == i ==> id == next;
    if |q| > PARKED {
      var other := q[PARKED].id;
      assert rows[other].position == PARKED && other != next;
    }
  }

  /** The ids in their new order. */
  function Reorder(ids: seq<string>, id: string, position: int): seq<string> {
    var rest := Dropped(ids, id);
    var p := Clamp(position, |rest|);
    rest[..p] + [id] + rest[p..]
  }

  function Dropped(ids: seq<string>, id: string): seq<string> {
    if ids == [] then [] else (if ids[0] == id then [] else [ids[0]]) + Dropped(ids[1..], id)
  }

  lemma {:induction false} DroppedIsWithout(q: seq<Prompt>, id: string)
    requires forall i, j :: 0 <= i < j < |q| ==> q[i].id != q[j].id
    ensures Dropped(Ids(q), id) == Ids(Without(q, id))
  {
    if q != [] {
      assert Ids(q)[1..] == Ids(q[1..]);
      DroppedIsWithout(q[1..], id);
      if q[0].id == id {
        assert IndexOf(q[1..], id) == |q[1..]|;
        assert Without(q, id) == q[1..];
      } else {
        WithoutCons(q, id);
        IdsCons(q[0], Without(q[1..], id));
      }
    }
  }

  lemma WithoutCons(q: seq<Prompt>, id: string)
    requires q != [] && q[0].id != id
    ensures Without(q, id) == [q[0]] + Without(q[1..], id)
  {
    var i := IndexOf(q[1..], id);
    assert IndexOf(q, id) == i + 1;
    if i < |q[1..]| {
      assert q[1..][i + 1..] == q[i + 2..];
      assert q[..i + 1] == [q[0]] + q[1..][..i];
    }
  }

  lemma IdsCons(x: Prompt, q: seq<Prompt>)
    ensures Ids([x] + q) == [x.id] + Ids(q)
  {
  }

  lemma MovedOrder(before: Table, k: Key, q: seq<Prompt>, id: string, position: int)
    requires RowsOf(before, k, q) && id in before && before[id].key == k
    ensures IndexOf(q, id) < |q| && Reorder(Ids(q), id, position) == Ids(Moved(q, id, position))
  {
    PositionIsIndex(before, k, q, id);
    assert forall i :: 0 <= i < |q| ==> before[q[i].id].position == i;
    DroppedIsWithout(q, id);
    ReorderedIds(Without(q, id), q[IndexOf(q, id)], Clamp(position, |Without(q, id)|));
  }

  lemma ReorderedIds(rest: seq<Prompt>, p: Prompt, i: nat)
    requires i <= |rest|
    ensures Ids(rest)[..i] + [p.id] + Ids(rest)[i..] == Ids(InsertAt(rest, i, p))
  {
  }

  function Place(order: seq<string>, id: string): (i: nat)
    ensures i <= |order|
    ensures i < |order| ==> order[i] == id
    ensures forall j :: 0 <= j < i ==> order[j] != id
  {
    if order == [] || order[0] == id then 0 else 1 + Place(order[1..], id)
  }

  predicate Carries(row: Row, k: Key, p: Prompt) {
    row.key == k && row.text == p.text && row.createdAt == p.createdAt
  }

  /** The same prompts as the queue's rows, each once, in some order. */
  ghost predicate Rearranges(before: Table, k: Key, q: seq<Prompt>) {
    && (forall j :: 0 <= j < |q| ==> q[j].id in before && Carries(before[q[j].id], k, q[j]))
    && (forall i, j :: 0 <= i < j < |q| ==> q[i].id != q[j].id)
    && (forall id :: id in before && before[id].key == k ==> Place(Ids(q), id) < |q|)
  }

  lemma PlaceOfId(q: seq<Prompt>, j: nat)
    requires j < |q| && forall i, j :: 0 <= i < j < |q| ==> q[i].id != q[j].id
    ensures Place(Ids(q), q[j].id) == j
  {
    assert Ids(q)[j] == q[j].id;
    assert forall i :: 0 <= i < j ==> Ids(q)[i] == q[i].id;
  }

  /** The table after the first `index` rows of the new order got their final positions. */
  function Renumbering(before: Table, k: Key, order: seq<string>, index: nat): Table {
    map id | id in before ::
      if before[id].key != k then before[id]
      else if Place(order, id) < index then before[id].(position := Place(order, id))
      else before[id].(position := before[id].position + PARKED)
  }

  lemma ParkedAll(before: Table, k: Key, q: seq<Prompt>, moved: seq<Prompt>)
    requires RowsOf(before, k, q) && Rearranges(before, k, moved)
    ensures Parking(before, k, |q|) == Renumbering(before, k, Ids(moved), 0)
  {
  }

  /** Final positions lie below every parked one, so none of them is taken. */
  lemma RenumberingStep(before: Table, k: Key, moved: seq<Prompt>, index: nat)
    requires Rearranges(before, k, moved) && index < |moved| <= PARKED
    requires forall id :: id in before && before[id].key == k ==> before[id].position >= 0
    ensures var next := Ids(moved)[index];
      var rows := Renumbering(before, k, Ids(moved), index);
      && next in rows && rows[next].key == k && !Taken(rows, next, k, index)
      && rows[next := rows[next].(position := index)] == Renumbering(before, k, Ids(moved), index + 1)
  {
    PlaceOfId(moved, index);
    var rows := Renumbering(before, k, Ids(moved), index);
    var next := moved[index].id;
    assert forall id :: id in before && before[id].key == k && Place(Ids(moved), id) == index ==> id == next;
    assert rows[next := rows[next].(position := index)] == Renumbering(before, k, Ids(moved), index + 1);
  }

  lemma RenumberedKeeps(before: Table, qs: Queues, k: Key, moved: seq<Prompt>)
    requires Represents(before, qs) && Rearranges(before, k, moved)
    ensures Represents(Renumbering(before, k, Ids(moved), |moved|), qs[k := moved])
  {
    forall j | 0 <= j < |moved| ensures Place(Ids(moved), moved[j].id) == j {
      PlaceOfId(moved, j);
    }
    Replaced(before, qs, Renumbering(before, k, Ids(moved), |moved|), k, moved);
  }

  lemma MovedLength(q: seq<Prompt>, id: string, position: int)
    requires IndexOf(q, id) < |q|
    ensures |Without(q, id)| == |q| - 1 && |Moved(q, id, position)| == |q|
  {
  }

  lemma WithoutIndex(q: seq<Prompt>, id: string, r: nat)
    requires IndexOf(q, id) < |q| && r < |q| - 1
    ensures |Without(q, id)| == |q| - 1 && Without(q, id)[r] == if r < IndexOf(q, id) then q[r] else q[r + 1]
  {
  }

  lemma InsertIndex(q: seq<Prompt>, i: nat, p: Prompt, j: nat)
    requires i <= |q| && j <= |q|
    ensures |InsertAt(q, i, p)| == |q| + 1
    ensures InsertAt(q, i, p)[j] == if j == i then p else q[if j < i then j else j - 1]
  {
  }

  /** Where entry j of the new queue was, when entry i moved to place p. */
  function SourceOf(i: nat, p: nat, j: nat): nat {
    if j == p then i
    else
      var r := if j < p then j else j - 1;
      if r < i then r else r + 1
  }

  lemma ReinsertedIndex(q: seq<Prompt>, i: nat, p: nat, j: nat)
    requires i < |q| && p < |q| && j < |q|
    ensures SourceOf(i, p, j) < |q|
    ensures InsertAt(q[..i] + q[i + 1..], p, q[i])[j] == q[SourceOf(i, p, j)]
  {
    InsertIndex(q[..i] + q[i + 1..], p, q[i], j);
  }

  lemma MovedIs(q: seq<Prompt>, id: string, position: int)
    requires IndexOf(q, id) < |q|
    ensures var i := IndexOf(q, id);
      Moved(q, id, position) == InsertAt(q[..i] + q[i + 1..], Clamp(position, |q| - 1), q[i])
  {
  }

  lemma MovedIndex(q: seq<Prompt>, id: string, position: int, j: nat)
    requires IndexOf(q, id) < |q| && j < |q|
    ensures |Moved(q, id, position)| == |q|
    ensures Moved(q, id, position)[j] == q[Source(q, id, position, j)]
  {
    MovedIs(q, id, position);
    ReinsertedIndex(q, IndexOf(q, id), Clamp(position, |q| - 1), j);
  }

  /** Moving permutes the queue. */
  lemma MovedRearranges(before: Table, k: Key, q: seq<Prompt>, id: string, position: int)
    requires RowsOf(before, k, q) && id in before && before[id].key == k
    ensures IndexOf(q, id) < |q|
    ensures Rearranges(before, k, Moved(q, id, position))
  {
    PositionIsIndex(before, k, q, id);
    var m := Moved(q, id, position);
    forall j | 0 <= j < |q| ensures |m| == |q| && m[j] == q[Source(q, id, position, j)] {
      MovedIndex(q, id, position, j);
    }
    forall i, j | 0 <= i < j < |m| ensures m[i].id != m[j].id {
      SourcesDiffer(q, id, position, i, j);
      assert before[m[i].id].position != before[m[j].id].position;
    }
    forall other | other in before && before[other].key == k ensures Place(Ids(m), other) < |m| {
      MovedPlace(q, id, position, m, before[other].position);
    }
  }

  lemma MovedPlace(q: seq<Prompt>, id: string, position: int, m: seq<Prompt>, r: nat)
    requires r < |q| == |m| && IndexOf(q, id) < |q| && m == Moved(q, id, position)
    ensures Place(Ids(m), q[r].id) < |m|
  {
    var j := Target(q, id, position, r);
    MovedIndex(q, id, position, j);
    assert Ids(m)[j] == q[r].id;
  }

  lemma SourcesDiffer(q: seq<Prompt>, id: string, position: int, i: nat, j: nat)
    requires IndexOf(q, id) < |q| && i < j < |q|
    ensures Source(q, id, position, i) != Source(q, id, position, j)
  {
  }

  /** Where entry j of the moved queue came from, and where entry r of the queue goes. */
  function Source(q: seq<Prompt>, id: string, position: int, j: nat): (r: nat)
    requires IndexOf(q, id) < |q| && j < |q|
    ensures r < |q|
  {
    SourceOf(IndexOf(q, id), Clamp(position, |q| - 1), j)
  }

  function Target(q: seq<Prompt>, id: string, position: int, r: nat): (j: nat)
    requires IndexOf(q, id) < |q| && r < |q|
    ensures j < |q| && Source(q, id, position, j) == r
  {
    var i, p := IndexOf(q, id), Clamp(position, |q| - 1);
    if r == i then p
    else
      var t := if r < i then r else r - 1;
      if t < p then t else t + 1
  }

  // ----- Laws of the sequences -----

  ghost predicate DistinctIds(q: seq<Prompt>) {
    forall i, j :: 0 <= i < j < |q| ==> q[i].id != q[j].id
  }

  lemma IndexIs(q: seq<Prompt>, id: string, i: nat)
    requires i < |q| && q[i].id == id && forall j :: 0 <= j < i ==> q[j].id != id
    ensures IndexOf(q, id) == i
  {
  }

  lemma InsertedCut(q: seq<Prompt>, i: nat, p: Prompt, q': seq<Prompt>)
    requires i <= |q| && q' == InsertAt(q, i, p) && IndexOf(q, p.id) == |q|
    ensures |q'| == |q| + 1 && q'[..i] + q'[i + 1..] == q && IndexOf(q', p.id) == i
  {
    assert q'[i + 1..] == q[i..];
    assert q'[..i] == q[..i];
    IndexIs(q', p.id, i);
  }

  /** Taking out what was put in gives back the same queue. */
  lemma WithoutInserted(q: seq<Prompt>, i: nat, p: Prompt)
    requires i <= |q| && IndexOf(q, p.id) == |q|
    ensures Without(InsertAt(q, i, p), p.id) == q
    ensures IndexOf(InsertAt(q, i, p), p.id) == i
  {
    InsertedCut(q, i, p, InsertAt(q, i, p));
  }

  lemma WithoutHasNone(q: seq<Prompt>, id: string)
    requires DistinctIds(q) && IndexOf(q, id) < |q|
    ensures IndexOf(Without(q, id), id) == |Without(q, id)| == |q| - 1
  {
    var i, rest := IndexOf(q, id), Without(q, id);
    forall r | 0 <= r < |rest| ensures rest[r].id != id {
      WithoutIndex(q, id, r);
      assert q[i].id == id;
    }
  }

  /** An index is clamped to the nearest place there is. */
  lemma ClampIs(position: int, n: nat)
    ensures 0 <= position <= n ==> Clamp(position, n) == position
    ensures position < 0 ==> Clamp(position, n) == 0
    ensures position > n ==> Clamp(position, n) == n
  {
  }

  /** An edit changes the text of the item, and nothing else; without the item it changes nothing. */
  lemma EditedIff(q: seq<Prompt>, id: string, text: string, e: seq<Prompt>)
    requires DistinctIds(q)
    ensures e == Edited(q, id, text) <==>
      |e| == |q| && forall i :: 0 <= i < |q| ==> e[i] == if q[i].id == id then q[i].(text := text) else q[i]
  {
    var i := IndexOf(q, id);
    assert forall j :: 0 <= j < |q| && q[j].id == id ==> j == i;
  }

  /** A removal leaves the others, in their order, and takes one item if it is there. */
  lemma WithoutIff(q: seq<Prompt>, id: string, rest: seq<Prompt>)
    requires DistinctIds(q)
    ensures rest == Without(q, id) <==>
      if forall i :: 0 <= i < |q| ==> q[i].id != id then rest == q
      else exists i :: 0 <= i < |q| && q[i].id == id && rest == q[..i] + q[i + 1..]
  {
    var i := IndexOf(q, id);
    assert forall j :: 0 <= j < |q| && q[j].id == id ==> j == i;
  }

  /** A move puts the item at the clamped index and leaves the others, in their order, alone; nothing else does. */
  lemma MovedIff(q: seq<Prompt>, id: string, position: int, m: seq<Prompt>)
    requires DistinctIds(q) && IndexOf(q, id) < |q|
    ensures m == Moved(q, id, position) <==>
            && |m| == |q| && IndexOf(m, id) == Clamp(position, |q| - 1)
            && m[IndexOf(m, id)] == q[IndexOf(q, id)] && Without(m, id) == Without(q, id)
  {
    var rest, p, x := Without(q, id), Clamp(position, |q| - 1), q[IndexOf(q, id)];
    WithoutHasNone(q, id);
    MovedLength(q, id, position);
    if m == Moved(q, id, position) {
      MovedTo(rest, p, x, m);
    } else if IndexOf(m, id) == p && |m| == |q| {
      PutBack(m, id);
    }
  }

  lemma MovedTo(rest: seq<Prompt>, p: nat, x: Prompt, m: seq<Prompt>)
    requires p <= |rest| && IndexOf(rest, x.id) == |rest| && m == InsertAt(rest, p, x)
    ensures IndexOf(m, x.id) == p && |m| == |rest| + 1 && m[p] == x && Without(m, x.id) == rest
  {
    WithoutInserted(rest, p, x);
  }

  lemma PutBack(m: seq<Prompt>, id: string)
    requires IndexOf(m, id) < |m|
    ensures |Without(m, id)| == |m| - 1
    ensures m == InsertAt(Without(m, id), IndexOf(m, id), m[IndexOf(m, id)])
  {
    var i := IndexOf(m, id);
    CutAndBack(m, i, Without(m, id));
  }

  lemma CutAndBack(m: seq<Prompt>, i: nat, rest: seq<Prompt>)
    requires i < |m| && rest == m[..i] + m[i + 1..]
    ensures |rest| == |m| - 1 && m == InsertAt(rest, i, m[i])
  {
    assert rest[..i] == m[..i] && rest[i..] == m[i + 1..];
  }

  /** Moving an item back to where it was undoes the move. */
  lemma MoveBack(q: seq<Prompt>, id: string, position: int)
    requires DistinctIds(q) && IndexOf(q, id) < |q|
    ensures IndexOf(Moved(q, id, position), id) < |q| == |Moved(q, id, position)|
    ensures DistinctIds(Moved(q, id, position))
    ensures Moved(Moved(q, id, position), id, IndexOf(q, id)) == q
  {
    var m := Moved(q, id, position);
    MovedIff(q, id, position, m);
    MovedDistinct(q, id, position);
    MovedIff(m, id, IndexOf(q, id), q);
  }

  lemma MovedDistinct(q: seq<Prompt>, id: string, position: int)
    requires DistinctIds(q) && IndexOf(q, id) < |q|
    ensures DistinctIds(Moved(q, id, position))
  {
    var m := Moved(q, id, position);
    MovedLength(q, id, position);
    forall i, j | 0 <= i < j < |m| ensures m[i].id != m[j].id {
      MovedIndex(q, id, position, i);
      MovedIndex(q, id, position, j);
      SourcesDiffer(q, id, position, i, j);
    }
  }

  // ----- Whole runs of operations -----

  datatype Op =
    | Add(item: Prompt, key: Key, limit: int)
    | Edit(id: string, text: string)
    | Delete(id: string)
    | Clear(key: Key)
    | Move(id: string, position: int)

  ghost predicate Holds(qs: Queues, k: Key, id: string) {
    IndexOf(Q(qs, k), id) < |Q(qs, k)|
  }

  ghost predicate Stored(qs: Queues, id: string) {
    exists k :: Holds(qs, k, id)
  }

  ghost function Home(qs: Queues, id: string): (k: Key)
    requires Stored(qs, id)
    ensures Holds(qs, k, id)
  {
    var k :| Holds(qs, k, id); k
  }

  /** What one operation makes of the queues, whether it succeeds or fails. */
  ghost function Step(qs: Queues, op: Op): Queues {
    match op
    case Add(item, k, limit) => if |Q(qs, k)| >= limit || Stored(qs, item.id) then qs else qs[k := Q(qs, k) + [item]]
    case Edit(id, text) => if Stored(qs, id) then qs[Home(qs, id) := Edited(Q(qs, Home(qs, id)), id, text)] else qs
    case Delete(id) => if Stored(qs, id) then qs[Home(qs, id) := Without(Q(qs, Home(qs, id)), id)] else qs
    case Clear(k) => qs[k := []]
    case Move(id, position) =>
      if !Stored(qs, id) || |Q(qs, Home(qs, id))| > PARKED then qs
      else qs[Home(qs, id) := Moved(Q(qs, Home(qs, id)), id, position)]
  }

  ghost function Run(qs: Queues, ops: seq<Op>): Queues
    decreases |ops|
  {
    if ops == [] then qs else Run(Step(qs, ops[0]), ops[1..])
  }

  /** An id is stored exactly when it has a row, and its home is its row's queue. */
  lemma HomeIsRow(rows: Table, qs: Queues, id: string)
    requires Represents(rows, qs)
    ensures Stored(qs, id) <==> id in rows
    ensures id in rows ==> Home(qs, id) == rows[id].key
  {
    if id in rows {
      assert RowsOf(rows, rows[id].key, Q(qs, rows[id].key));
      PositionIsIndex(rows, rows[id].key, Q(qs, rows[id].key), id);
      assert Holds(qs, rows[id].key, id);
    }
    if Stored(qs, id) {
      var k := Home(qs, id);
      assert RowsOf(rows, k, Q(qs, k));
      assert Q(qs, k)[IndexOf(Q(qs, k), id)].id == id;
    }
  }

  /** Does this operation name the item, or clear its queue? */
  predicate Disturbs(op: Op, k: Key, id: string) {
    match op
    case Add(_, _, _) => false
    case Edit(_, _) => false
    case Delete(other) => other == id
    case Clear(other) => other == k
    case Move(other, _) => other == id
  }

  predicate InOrder(q: seq<Prompt>, a: string, b: string) {
    IndexOf(q, a) < IndexOf(q, b) < |q|
  }

  /** First come, first served: over any run that neither removes nor moves two prompts, their order stands. */
  lemma {:induction false} OrderStands(qs: Queues, ops: seq<Op>, k: Key, a: string, b: string)
    requires InOrder(Q(qs, k), a, b)
    requires forall i :: 0 <= i < |ops| ==> !Disturbs(ops[i], k, a) && !Disturbs(ops[i], k, b)
    ensures InOrder(Q(Run(qs, ops), k), a, b)
    decreases |ops|
  {
    if ops != [] {
      OrderStandsOnce(qs, ops[0], k, a, b);
      OrderStands(Step(qs, ops[0]), ops[1..], k, a, b);
    }
  }

  lemma OrderStandsOnce(qs: Queues, op: Op, k: Key, a: string, b: string)
    requires InOrder(Q(qs, k), a, b) && !Disturbs(op, k, a) && !Disturbs(op, k, b)
    ensures InOrder(Q(Step(qs, op), k), a, b)
  {
    var q := Q(qs, k);
    StepOnOne(qs, op, k);
    match op
    case Add(item, _, _) => InOrderAppended(q, item, a, b);
    case Edit(id, text) => InOrderEdited(q, id, text, a, b);
    case Delete(id) => InOrderWithout(q, id, a, b);
    case Clear(_) => assert Q(Step(qs, op), k) == q;
    case Move(id, position) => if IndexOf(q, id) < |q| { InOrderMoved(q, id, position, a, b); }
  }

  function Applied(q: seq<Prompt>, op: Op): seq<Prompt> {
    match op
    case Add(item, _, _) => q + [item]
    case Edit(id, text) => Edited(q, id, text)
    case Delete(id) => Without(q, id)
    case Clear(_) => []
    case Move(id, position) => if IndexOf(q, id) < |q| then Moved(q, id, position) else q
  }

  /** An operation changes one queue at most, and that one by its own sequence operation. */
  lemma StepOnOne(qs: Queues, op: Op, k: Key)
    ensures Q(Step(qs, op), k) == Q(qs, k)
         || (Q(Step(qs, op), k) == Applied(Q(qs, k), op) && (op.Clear? || op.Add? ==> op.key == k))
    ensures op.Clear? && op.key != k ==> Q(Step(qs, op), k) == Q(qs, k)
  {
  }

  lemma InOrderAppended(q: seq<Prompt>, item: Prompt, a: string, b: string)
    requires InOrder(q, a, b)
    ensures InOrder(q + [item], a, b)
  {
    IndexIs(q + [item], a, IndexOf(q, a));
    IndexIs(q + [item], b, IndexOf(q, b));
  }

  lemma InOrderEdited(q: seq<Prompt>, id: string, text: string, a: string, b: string)
    requires InOrder(q, a, b)
    ensures InOrder(Edited(q, id, text), a, b)
  {
    IndexEdited(q, id, text, a);
    IndexEdited(q, id, text, b);
  }

  lemma InOrderWithout(q: seq<Prompt>, id: string, a: string, b: string)
    requires InOrder(q, a, b) && a != id && b != id
    ensures InOrder(Without(q, id), a, b)
  {
    var i, j := IndexOf(q, a), IndexOf(q, b);
    assert q[i].id == a && q[j].id == b;
    IndexWithout(q, id, a);
    IndexWithout(q, id, b);
  }

  lemma InOrderMoved(q: seq<Prompt>, id: string, position: int, a: string, b: string)
    requires InOrder(q, a, b) && a != id && b != id && IndexOf(q, id) < |q|
    ensures InOrder(Moved(q, id, position), a, b)
  {
    var rest := Without(q, id);
    InOrderWithout(q, id, a, b);
    IndexInserted(rest, Clamp(position, |rest|), q[IndexOf(q, id)], a);
    IndexInserted(rest, Clamp(position, |rest|), q[IndexOf(q, id)], b);
  }

  lemma IndexEdited(q: seq<Prompt>, id: string, text: string, a: string)
    ensures |Edited(q, id, text)| == |q| && IndexOf(Edited(q, id, text), a) == IndexOf(q, a)
  {
    if IndexOf(q, a) < |q| {
      IndexIs(Edited(q, id, text), a, IndexOf(q, a));
    }
  }

  lemma IndexWithout(q: seq<Prompt>, id: string, a: string)
    requires a != id && IndexOf(q, a) < |q|
    ensures IndexOf(Without(q, id), a) == if IndexOf(q, id) < IndexOf(q, a) then IndexOf(q, a) - 1 else IndexOf(q, a)
    ensures IndexOf(Without(q, id), a) < |Without(q, id)|
  {
    var i := IndexOf(q, a);
    IndexIs(Without(q, id), a, if IndexOf(q, id) < i then i - 1 else i);
  }

  lemma IndexInserted(q: seq<Prompt>, i: nat, p: Prompt, a: string)
    requires i <= |q| && a != p.id && IndexOf(q, a) < |q|
    ensures IndexOf(InsertAt(q, i, p), a) == if i <= IndexOf(q, a) then IndexOf(q, a) + 1 else IndexOf(q, a)
  {
    var n := IndexOf(q, a);
    IndexIs(InsertAt(q, i, p), a, if i <= n then n + 1 else n);
  }

  /** Queues an operation does not name stay as they are. */
  lemma OthersUntouched(rows: Table, qs: Queues, op: Op, k: Key)
    requires Represents(rows, qs)
    requires match op
      case Add(_, other, _) => other != k
      case Clear(other) => other != k
      case Edit(id, _) => id !in rows || rows[id].key != k
      case Delete(id) => id !in rows || rows[id].key != k
      case Move(id, _) => id !in rows || rows[id].key != k
    ensures Q(Step(qs, op), k) == Q(qs, k)
  {
    match op
    case Add(_, _, _) =>
    case Clear(_) =>
    case Edit(id, _) => HomeIsRow(rows, qs, id);
    case Delete(id) => HomeIsRow(rows, qs, id);
    case Move(id, _) => HomeIsRow(rows, qs, id);
  }
}
