/** The session data source (src/data/sessions.ts): the fixture list newest
    first, and lookup by id. */
module SessionsData {
  import opened Optional
  import opened SessionTypes
  import opened StableSort
  import opened MockSession

  /** The comparator `b.createdAt - a.createdAt` sorts ascending by the
      negated timestamp. */
  function NewestFirstKey(s: Session): real {
    -(s.createdAt as real)
  }

  /** `listSessions`: a sorted copy of the fixtures, newest first, sessions
      created at the same instant in fixture order. */
  function ListSessions(fixtures: seq<Session>): (r: seq<Session>)
    ensures multiset(r) == multiset(fixtures)
    ensures forall i, j :: 0 <= i < j < |r| ==> r[i].createdAt >= r[j].createdAt
    ensures forall t :: SameInstant(r, t) == SameInstant(fixtures, t)
  {
    var r := SortBy(fixtures, NewestFirstKey);
    SortBySorted(fixtures, NewestFirstKey);
    assert forall i, j :: 0 <= i < j < |r| ==> NewestFirstKey(r[i]) <= NewestFirstKey(r[j]);
    forall t ensures SameInstant(r, t) == SameInstant(fixtures, t) {
      SortByStable(fixtures, NewestFirstKey, -(t as real));
      SameInstantIsWithKey(r, t);
      SameInstantIsWithKey(fixtures, t);
    }
    r
  }

  /** The sessions created at instant `t`, in list order. */
  function SameInstant(sessions: seq<Session>, t: int): (r: seq<Session>)
    ensures forall i :: 0 <= i < |r| ==> r[i].createdAt == t
  {
    if sessions == [] then []
    else (if sessions[0].createdAt == t then [sessions[0]] else []) + SameInstant(sessions[1..], t)
  }

  lemma {:induction false} SameInstantIsWithKey(sessions: seq<Session>, t: int)
    ensures SameInstant(sessions, t) == WithKey(sessions, NewestFirstKey, -(t as real))
  {
    if sessions != [] {
      SameInstantIsWithKey(sessions[1..], t);
    }
  }

  /** Any list that is a newest-first ordering of the fixtures keeping
      same-instant sessions in fixture order is the listed one. */
  lemma ListSessionsUnique(fixtures: seq<Session>, other: seq<Session>)
    requires forall i, j :: 0 <= i < j < |other| ==> other[i].createdAt >= other[j].createdAt
    requires forall t :: SameInstant(other, t) == SameInstant(fixtures, t)
    ensures other == ListSessions(fixtures)
  {
    var r := ListSessions(fixtures);
    forall k ensures WithKey(other, NewestFirstKey, k) == WithKey(r, NewestFirstKey, k) {
      if k.Floor as real == k {
        var t := -(k.Floor);
        assert -(t as real) == k;
        SameInstantIsWithKey(other, t);
        SameInstantIsWithKey(r, t);
      } else {
        WithKeyNotInteger(other, k);
        WithKeyNotInteger(r, k);
      }
    }
    StableSortUnique(other, r, NewestFirstKey);
  }

  /** No session has a non-integral key. */
  lemma WithKeyNotInteger(sessions: seq<Session>, k: real)
    requires k.Floor as real != k
    ensures WithKey(sessions, NewestFirstKey, k) == []
  {
    var w := WithKey(sessions, NewestFirstKey, k);
    assert |w| > 0 ==> (-(w[0].createdAt)) as real == k;
  }

  /** `fetchSessionById`: exactly the fixture lookup. */
  function FetchSessionById(fixtures: seq<Session>, id: string): (r: Option<Session>)
    ensures r == GetMockSessionById(fixtures, id)
    ensures r.Some? ==> r.value in fixtures && r.value.id == id
  {
    GetMockSessionById(fixtures, id)
  }
}
