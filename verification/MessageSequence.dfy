/** The position of a message in its conversation: backfilled by ranking, then counted on by insertion. */
module MessageSequence {

  /** A stored message as far as its order goes. Ids stand for the unique, ordered row ids. */
  datatype Stored = Stored(session: nat, createdAt: int, sequence: int)

  type Table = map<nat, Stored>

  /** Ordered by creation time, and by id among equals. */
  predicate NotAfter(t: Table, a: nat, b: nat)
    requires a in t && b in t
  {
    t[a].createdAt < t[b].createdAt || (t[a].createdAt == t[b].createdAt && a <= b)
  }

  /** The rows of the same conversation up to and including this one. */
  function Earlier(t: Table, id: nat): set<nat>
    requires id in t
  {
    set e | e in t && t[e].session == t[id].session && NotAfter(t, e, id)
  }

  /** What the correlated sub-query counts. */
  function Rank(t: Table, id: nat): nat
    requires id in t
  {
    |Earlier(t, id)|
  }

  function OfSession(t: Table, session: nat): set<nat> {
    set e | e in t && t[e].session == session
  }

  /** The table after the backfill: every row carries its rank, and nothing else changes. */
  ghost predicate Ranked(before: Table, after: Table) {
    && after.Keys == before.Keys
    && forall id :: id in before ==> after[id] == before[id].(sequence := Rank(before, id))
  }

  /** What the backfill is for: in every conversation the positions run from 1 to its length, in order of creation time,
      and of id among equals; nothing else changes. */
  ghost predicate Positioned(before: Table, after: Table) {
    && after.Keys == before.Keys
    && (forall id :: id in before ==>
          && after[id].session == before[id].session && after[id].createdAt == before[id].createdAt
          && 1 <= after[id].sequence <= |set e | e in before && before[e].session == before[id].session|)
    && forall a, b :: a in before && b in before && before[a].session == before[b].session ==>
         (after[a].sequence < after[b].sequence <==>
            || before[a].createdAt < before[b].createdAt
            || (before[a].createdAt == before[b].createdAt && a < b))
  }

  // ---- Counting ----

  lemma {:induction false} SmallerSubset(a: set<nat>, b: set<nat>)
    requires a <= b
    ensures |a| <= |b| && (a != b ==> |a| < |b|)
    decreases |b|
  {
    if a != {} {
      var x :| x in a;
      SmallerSubset(a - {x}, b - {x});
      if a != b {
        assert a - {x} != b - {x} by { OneMore(a, b, x); }
      }
    } else if b != {} {
      var x :| x in b;
    }
  }

  lemma {:induction false} OneMore(a: set<nat>, b: set<nat>, x: nat)
    requires x in a && x in b && a != b
    ensures a - {x} != b - {x}
  {
    assert a == a - {x} + {x} && b == b - {x} + {x};
  }

  function UpTo(n: nat): set<nat> {
    if n == 0 then {} else UpTo(n - 1) + {n}
  }

  lemma {:induction false} UpToIs(n: nat)
    ensures |UpTo(n)| == n && forall k :: k in UpTo(n) <==> 1 <= k <= n
  {
    if n > 0 {
      UpToIs(n - 1);
    }
  }

  /** Earlier in the conversation is lower in rank. */
  lemma {:induction false} RankFollowsOrder(t: Table, a: nat, b: nat)
    requires a in t && b in t && t[a].session == t[b].session && a != b && NotAfter(t, a, b)
    ensures Rank(t, a) < Rank(t, b)
  {
    assert b in Earlier(t, b) && b !in Earlier(t, a);
    assert Earlier(t, a) <= Earlier(t, b);
    SmallerSubset(Earlier(t, a), Earlier(t, b));
  }

  /** The ranks of some rows of a conversation. */
  function Ranks(t: Table, ids: set<nat>): set<nat>
    requires forall id :: id in ids ==> id in t
  {
    set id | id in ids :: Rank(t, id)
  }

  lemma {:induction false} RanksDiffer(t: Table, session: nat, ids: set<nat>)
    requires ids <= OfSession(t, session)
    ensures |Ranks(t, ids)| == |ids|
    decreases |ids|
  {
    if ids != {} {
      var x :| x in ids;
      var rest := ids - {x};
      RanksDiffer(t, session, rest);
      forall id | id in rest ensures Rank(t, id) != Rank(t, x) {
        if NotAfter(t, id, x) {
          RankFollowsOrder(t, id, x);
        } else {
          RankFollowsOrder(t, x, id);
        }
      }
      assert Rank(t, x) !in Ranks(t, rest);
      assert Ranks(t, ids) == Ranks(t, rest) + {Rank(t, x)};
    }
  }

  lemma {:induction false} RankInRange(t: Table, id: nat)
    requires id in t
    ensures 1 <= Rank(t, id) <= |OfSession(t, t[id].session)|
  {
    assert id in Earlier(t, id);
    SmallerSubset({id}, Earlier(t, id));
    SmallerSubset(Earlier(t, id), OfSession(t, t[id].session));
  }

  /** In every conversation the ranks are a permutation of 1 to n, in order of creation time and id. */
  lemma {:induction false} RanksArePermutation(t: Table, session: nat)
    ensures Ranks(t, OfSession(t, session)) == UpTo(|OfSession(t, session)|)
    ensures forall a, b :: a in OfSession(t, session) && b in OfSession(t, session) ==>
                             (Rank(t, a) < Rank(t, b) <==>
                                || t[a].createdAt < t[b].createdAt
                                || (t[a].createdAt == t[b].createdAt && a < b))
  {
    hide Rank;
    var ids := OfSession(t, session);
    RanksDiffer(t, session, ids);
    UpToIs(|ids|);
    forall id | id in ids ensures Rank(t, id) in UpTo(|ids|) {
      RankInRange(t, id);
    }
    assert Ranks(t, ids) <= UpTo(|ids|);
    SmallerSubset(Ranks(t, ids), UpTo(|ids|));
    forall a, b | a in ids && b in ids
      ensures Rank(t, a) < Rank(t, b)
         <==> t[a].createdAt < t[b].createdAt || (t[a].createdAt == t[b].createdAt && a < b)
    {
      RankIsOrder(t, a, b);
    }
  }

  lemma {:induction false} RankIsOrder(t: Table, a: nat, b: nat)
    requires a in t && b in t && t[a].session == t[b].session
    ensures Rank(t, a) < Rank(t, b)
       <==> t[a].createdAt < t[b].createdAt || (t[a].createdAt == t[b].createdAt && a < b)
  {
    hide Rank;
    OrderIsTotal(t, a, b);
    if a != b && NotAfter(t, a, b) {
      RankFollowsOrder(t, a, b);
    } else if a != b {
      RankFollowsOrder(t, b, a);
    }
  }

  lemma {:induction false} OrderIsTotal(t: Table, a: nat, b: nat)
    requires a in t && b in t
    ensures NotAfter(t, a, b) || NotAfter(t, b, a)
    ensures NotAfter(t, a, b) && NotAfter(t, b, a) ==> a == b
    ensures NotAfter(t, a, a)
  {
  }

  // ---- The window function ----

  /** The rank in the window function's sense: the row's place in its conversation, put in order. */
  ghost predicate InOrder(t: Table, session: nat, s: seq<nat>) {
    && (forall id :: id in s <==> id in OfSession(t, session))
    && forall i, j :: 0 <= i < j < |s| ==>
         && s[i] in t && s[j] in t
         && (t[s[i]].createdAt < t[s[j]].createdAt || (t[s[i]].createdAt == t[s[j]].createdAt && s[i] < s[j]))
  }

  function Elements(s: seq<nat>): set<nat> {
    set i | 0 <= i < |s| :: s[i]
  }

  lemma {:induction false} DistinctCount(s: seq<nat>)
    requires forall i, j :: 0 <= i < j < |s| ==> s[i] != s[j]
    ensures |Elements(s)| == |s|
  {
    if s != [] {
      var front, last := s[..|s| - 1], s[|s| - 1];
      DistinctCount(front);
      assert Elements(s) == Elements(front) + {last} by {
        forall x | x in Elements(s) ensures x in Elements(front) + {last} {
          var i :| 0 <= i < |s| && s[i] == x;
          if i < |s| - 1 {
            assert front[i] == x;
          }
        }
        forall x | x in Elements(front) ensures x in Elements(s) {
          var i :| 0 <= i < |front| && front[i] == x;
          assert s[i] == x;
        }
        assert s[|s| - 1] in Elements(s);
      }
      assert last !in Elements(front);
    }
  }

  /** ROW_NUMBER and the correlated count agree: in any correct ordering of a conversation, the row at position
      i, counted from one, has rank i. */
  lemma {:induction false} RowNumberIsRank(t: Table, session: nat, s: seq<nat>, i: nat)
    requires InOrder(t, session, s) && i < |s|
    ensures s[i] in t && Rank(t, s[i]) == i + 1
  {
    assert s[i] in s;
    var prefix := s[..i + 1];
    forall e | e in Earlier(t, s[i]) ensures e in Elements(prefix) {
      assert e in s;
      var j :| 0 <= j < |s| && s[j] == e;
      if j > i {
        OrderIsTotal(t, e, s[i]);
      }
      assert prefix[j] == e;
    }
    forall e | e in Elements(prefix) ensures e in Earlier(t, s[i]) {
      var j :| 0 <= j < |prefix| && prefix[j] == e;
      assert s[j] == e && s[j] in s;
      OrderIsTotal(t, e, e);
    }
    assert Earlier(t, s[i]) == Elements(prefix);
    DistinctCount(prefix);
  }

  // ---- The table ----

  /** No two messages of a conversation share a position. */
  ghost predicate Sequenced(t: Table) {
    forall a, b :: a in t && b in t && a != b && t[a].session == t[b].session ==> t[a].sequence != t[b].sequence
  }

  lemma {:induction false} RankedIsPositioned(before: Table, after: Table)
    requires Ranked(before, after)
    ensures Positioned(before, after)
  {
    hide Rank;
    forall id | id in before
      ensures 1 <= after[id].sequence <= |set e | e in before && before[e].session == before[id].session|
    {
      RankInRange(before, id);
      assert OfSession(before, before[id].session) == set e | e in before && before[e].session == before[id].session;
    }
    forall a, b | a in before && b in before && before[a].session == before[b].session
      ensures after[a].sequence < after[b].sequence
         <==> before[a].createdAt < before[b].createdAt || (before[a].createdAt == before[b].createdAt && a < b)
    {
      RankIsOrder(before, a, b);
    }
  }

  lemma {:induction false} RankedIsSequenced(before: Table, after: Table)
    requires Ranked(before, after)
    ensures Sequenced(after)
  {
    hide Rank;
    forall a, b | a in after && b in after && a != b && after[a].session == after[b].session
      ensures after[a].sequence != after[b].sequence
    {
      OrderIsTotal(before, a, b);
      if NotAfter(before, a, b) {
        RankFollowsOrder(before, a, b);
      } else {
        RankFollowsOrder(before, b, a);
      }
    }
  }

  class AssistantMessages {
    var rows: Table

    constructor (rows: Table)
      ensures this.rows == rows
    {
      this.rows := rows;
    }

    /** The statement for SQLite: each row is given the count of the rows up to it. */
    method BackfillByCount()
      modifies this
      ensures Ranked(old(rows), rows) && Sequenced(rows) && Positioned(old(rows), rows)
    {
      var t := rows;
      var left := t.Keys;
      while left != {}
        invariant left <= t.Keys && rows.Keys == t.Keys
        invariant forall id :: id in left ==> rows[id] == t[id]
        invariant forall id :: id in t && id !in left ==> rows[id] == t[id].(sequence := Rank(t, id))
        decreases left
      {
        var id :| id in left;
        rows := rows[id := t[id].(sequence := |set e | e in t && t[e].session == t[id].session && NotAfter(t, e, id)|)];
        left := left - {id};
      }
      RankedIsSequenced(t, rows);
      RankedIsPositioned(t, rows);
    }

    /** The statement for the other back ends: the rows are taken in order, and each conversation numbers its own. */
    method BackfillByWindow()
      modifies this
      ensures Ranked(old(rows), rows) && Sequenced(rows) && Positioned(old(rows), rows)
    {
      hide Rank, OfSession, NotAfter, Number, Numbered, TakenFirst, IsFirst;
      var t := rows;
      var left, numbered: map<nat, nat> := t.Keys, map[];
      NothingNumbered(t);
      while left != {}
        invariant left <= t.Keys && rows.Keys == t.Keys
        invariant TakenFirst(t, left)
        invariant Numbered(t, left, numbered)
        invariant forall id :: id in left ==> rows[id] == t[id]
        invariant forall id :: id in t && id !in left ==> rows[id] == t[id].(sequence := Rank(t, id))
        decreases left
      {
        FirstExists(t, left);
        var id :| id in left && IsFirst(t, left, id);
        NextRank(t, left, numbered, id);
        var position := Number(numbered, t[id].session) + 1;
        rows := rows[id := t[id].(sequence := position)];
        numbered, left := numbered[t[id].session := position], left - {id};
      }
      RankedIsSequenced(t, rows);
      RankedIsPositioned(t, rows);
    }

    /** One more than the highest position of the conversation. */
    method NextSequence(session: nat) returns (next: int)
      ensures next >= 1 && forall id :: id in rows && rows[id].session == session ==> rows[id].sequence < next
      ensures next > 1 ==> exists id :: id in rows && rows[id].session == session && rows[id].sequence == next - 1
    {
      var highest, left := 0, rows.Keys;
      while left != {}
        invariant left <= rows.Keys && highest >= 0
        invariant forall id :: id in rows && id !in left && rows[id].session == session ==> rows[id].sequence <= highest
        invariant highest > 0 ==> exists id :: id in rows && rows[id].session == session && rows[id].sequence == highest
        decreases left
      {
        var id :| id in left;
        if rows[id].session == session && rows[id].sequence > highest {
          highest := rows[id].sequence;
        }
        left := left - {id};
      }
      next := highest + 1;
    }

    /** A new message comes last in its conversation; the others keep their places. */
    method Add(id: nat, session: nat, createdAt: int)
      requires id !in rows
      modifies this
      ensures rows.Keys == old(rows).Keys + {id} && rows[id].session == session && rows[id].createdAt == createdAt
      ensures forall e :: e in old(rows) ==> rows[e] == old(rows)[e]
      ensures forall e :: e in old(rows) && old(rows)[e].session == session ==> old(rows)[e].sequence < rows[id].sequence
      ensures Sequenced(old(rows)) ==> Sequenced(rows)
    {
      var next := NextSequence(session);
      rows := rows[id := Stored(session, createdAt, next)];
    }
  }

  function Number(numbered: map<nat, nat>, session: nat): nat {
    if session in numbered then numbered[session] else 0
  }

  /** So far every conversation has numbered those of its rows that were taken. */
  ghost predicate Numbered(t: Table, left: set<nat>, numbered: map<nat, nat>) {
    forall s: nat :: Number(numbered, s) == |OfSession(t, s) - left|
  }

  predicate IsFirst(t: Table, left: set<nat>, id: nat)
    requires left <= t.Keys && id in left
  {
    forall e :: e in left ==> NotAfter(t, id, e)
  }

  ghost predicate TakenFirst(t: Table, left: set<nat>)
    requires left <= t.Keys
  {
    forall a, b :: a in t && a !in left && b in left ==> NotAfter(t, a, b)
  }

  lemma {:induction false} FirstExists(t: Table, left: set<nat>)
    requires left != {} && left <= t.Keys
    ensures exists id :: id in left && IsFirst(t, left, id)
    decreases left
  {
    hide NotAfter, IsFirst;
    var x :| x in left;
    var rest := left - {x};
    if rest == {} {
      FirstAlone(t, left, x);
    } else {
      FirstExists(t, rest);
      var y :| y in rest && IsFirst(t, rest, y);
      FirstOfMore(t, left, x, y);
    }
  }

  lemma {:induction false} FirstAlone(t: Table, left: set<nat>, x: nat)
    requires left <= t.Keys && x in left && left - {x} == {}
    ensures IsFirst(t, left, x)
  {
    assert forall e :: e in left ==> e == x by {
      forall e | e in left ensures e == x {
        assert e !in left - {x};
      }
    }
  }

  lemma {:induction false} FirstOfMore(t: Table, left: set<nat>, x: nat, y: nat)
    requires left <= t.Keys && x in left && y in left - {x} && IsFirst(t, left - {x}, y)
    ensures IsFirst(t, left, x) || IsFirst(t, left, y)
  {
    var first := if NotAfter(t, x, y) then x else y;
    forall e | e in left ensures NotAfter(t, first, e) {
      if e != x {
        assert e in left - {x};
      }
    }
  }

  lemma {:induction false} NothingNumbered(t: Table)
    ensures Numbered(t, t.Keys, map[]) && TakenFirst(t, t.Keys)
  {
    forall s: nat ensures Number(map[], s) == |OfSession(t, s) - t.Keys| {
      assert OfSession(t, s) - t.Keys == {};
    }
  }

  /** The first row left is one behind those of its conversation that were taken before. */
  lemma {:induction false} NextRank(t: Table, left: set<nat>, numbered: map<nat, nat>, id: nat)
    requires left <= t.Keys && id in left && IsFirst(t, left, id) && TakenFirst(t, left) && Numbered(t, left, numbered)
    ensures var next := Number(numbered, t[id].session) + 1;
            && Rank(t, id) == next && Numbered(t, left - {id}, numbered[t[id].session := next])
            && TakenFirst(t, left - {id})
  {
    hide NotAfter;
    var session := t[id].session;
    var taken := OfSession(t, session) - left;
    var next := Number(numbered, session) + 1;
    TakenAreEarlier(t, left, id);
    forall s: nat ensures Number(numbered[session := next], s) == |OfSession(t, s) - (left - {id})| {
      if s == session {
        assert OfSession(t, s) - (left - {id}) == OfSession(t, s) - left + {id};
      } else {
        assert OfSession(t, s) - (left - {id}) == OfSession(t, s) - left;
        assert Number(numbered[session := next], s) == Number(numbered, s);
      }
    }
  }

  lemma {:induction false} TakenAreEarlier(t: Table, left: set<nat>, id: nat)
    requires left <= t.Keys && id in left && IsFirst(t, left, id) && TakenFirst(t, left)
    ensures Earlier(t, id) == OfSession(t, t[id].session) - left + {id}
  {
    hide NotAfter;
    var taken := OfSession(t, t[id].session) - left;
    OrderIsTotal(t, id, id);
    forall e | e in Earlier(t, id) ensures e in taken + {id} {
      if e in left {
        OrderIsTotal(t, e, id);
      }
    }
  }
}
