/** The list operations behind the add, remove and update handlers: the
    ordered stakeholder list is replaced by a filtered or mapped copy. */
module Store {
  import opened Records

  /** The ids present in a list of records. */
  function Ids(s: seq<Stakeholder>): set<int> {
    set i | 0 <= i < |s| :: s[i].id
  }

  /** No two records of the list share an id. */
  predicate UniqueIds(s: seq<Stakeholder>) {
    forall i, j :: 0 <= i < j < |s| ==> s[i].id != s[j].id
  }

  lemma IdsCons(s: seq<Stakeholder>)
    requires s != []
    ensures Ids(s) == {s[0].id} + Ids(s[1..])
  {
  }

  /** Appending a record whose id is fresh keeps the ids unique. */
  lemma AppendFreshKeepsUnique(s: seq<Stakeholder>, r: Stakeholder)
    requires UniqueIds(s) && r.id !in Ids(s)
    ensures UniqueIds(s + [r])
    ensures Ids(s + [r]) == Ids(s) + {r.id}
  {
    var t := s + [r];
    forall i, j | 0 <= i < j < |t| ensures t[i].id != t[j].id {
      if j == |s| {
        assert t[i].id == s[i].id;
      }
    }
    assert forall i :: 0 <= i < |s| ==> t[i] == s[i];
    assert t[|s|] == r;
  }

  /** `s.filter(x => x.id !== id)`: the records whose id differs from id. */
  function Without(s: seq<Stakeholder>, id: int): (r: seq<Stakeholder>)
    ensures |r| <= |s|
    ensures forall x :: x in r <==> x in s && x.id != id
  {
    if s == [] then [] else (if s[0].id == id then [] else [s[0]]) + Without(s[1..], id)
  }

  /** Removal keeps the survivors in their original order: it distributes
      over concatenation. */
  lemma {:induction false} WithoutAppend(a: seq<Stakeholder>, b: seq<Stakeholder>, id: int)
    ensures Without(a + b, id) == Without(a, id) + Without(b, id)
  {
    if a == [] {
      assert a + b == b;
    } else {
      assert (a + b)[0] == a[0];
      assert (a + b)[1..] == a[1..] + b;
      WithoutAppend(a[1..], b, id);
    }
  }

  /** Removing an id no record has changes nothing. */
  lemma {:induction false} WithoutAbsent(s: seq<Stakeholder>, id: int)
    requires id !in Ids(s)
    ensures Without(s, id) == s
  {
    if s != [] {
      IdsCons(s);
      WithoutAbsent(s[1..], id);
    }
  }

  /** Removal takes exactly the id away from the set of ids. */
  lemma {:induction false} WithoutIds(s: seq<Stakeholder>, id: int)
    ensures Ids(Without(s, id)) == Ids(s) - {id}
  {
  }

  /** Removing twice is removing once. */
  lemma WithoutIdempotent(s: seq<Stakeholder>, id: int)
    ensures Without(Without(s, id), id) == Without(s, id)
  {
    WithoutIds(s, id);
    WithoutAbsent(Without(s, id), id);
  }

  /** The tail of a list with unique ids has unique ids and lacks the
      head's id. */
  lemma UniqueTail(s: seq<Stakeholder>)
    requires s != [] && UniqueIds(s)
    ensures UniqueIds(s[1..]) && s[0].id !in Ids(s[1..])
  {
  }

  /** Putting a record with a fresh id in front keeps the ids unique. */
  lemma ConsFreshUnique(x: Stakeholder, s: seq<Stakeholder>)
    requires UniqueIds(s) && x.id !in Ids(s)
    ensures UniqueIds([x] + s)
  {
  }

  /** With unique ids, removing a present id drops exactly one record and
      keeps the rest unique. */
  lemma {:induction false} WithoutPresent(s: seq<Stakeholder>, id: int)
    requires UniqueIds(s) && id in Ids(s)
    ensures |Without(s, id)| == |s| - 1
    ensures UniqueIds(Without(s, id))
  {
    IdsCons(s);
    UniqueTail(s);
    if s[0].id == id {
      WithoutAbsent(s[1..], id);
    } else {
      WithoutPresent(s[1..], id);
      WithoutIds(s[1..], id);
      ConsFreshUnique(s[0], Without(s[1..], id));
    }
  }

  /** What removal does to the ids, gathered for the remove handler. */
  lemma WithoutProperties(s: seq<Stakeholder>, id: int)
    ensures Ids(Without(s, id)) == Ids(s) - {id}
    ensures id !in Ids(s) ==> Without(s, id) == s
    ensures UniqueIds(s) && id in Ids(s) ==> |Without(s, id)| == |s| - 1 && UniqueIds(Without(s, id))
  {
    WithoutIds(s, id);
    if id !in Ids(s) {
      WithoutAbsent(s, id);
    }
    if UniqueIds(s) && id in Ids(s) {
      WithoutPresent(s, id);
    }
  }

  /** `s.map(x => x.id === id ? { ...x, [field]: ... } : x)`: every record
      with the id gets the field replaced, every other record is kept. */
  function Updated(s: seq<Stakeholder>, id: int, f: Field, value: string, parsed: int): (r: seq<Stakeholder>)
    ensures |r| == |s|
    ensures forall i :: 0 <= i < |s| ==> r[i] == if s[i].id == id then SetField(s[i], f, value, parsed) else s[i]
  {
    if s == [] then []
    else [if s[0].id == id then SetField(s[0], f, value, parsed) else s[0]] + Updated(s[1..], id, f, value, parsed)
  }

  /** An update keeps the length, the order of ids and every field other
      than the one named; only records with the id can change, and those
      hold the new value in that field. */
  lemma UpdatedChangesOnlyField(s: seq<Stakeholder>, id: int, f: Field, value: string, parsed: int)
    ensures var r := Updated(s, id, f, value, parsed);
      |r| == |s| &&
      (forall i :: 0 <= i < |s| ==> r[i].id == s[i].id) &&
      (forall i :: 0 <= i < |s| && s[i].id != id ==> r[i] == s[i]) &&
      (forall i, g :: 0 <= i < |s| && g != f ==> Get(r[i], g) == Get(s[i], g)) &&
      (forall i :: 0 <= i < |s| && s[i].id == id ==>
         Get(r[i], f) == if f in {Influence, Support, Engagement} then Number(parsed) else Text(value))
  {
  }

  /** An update leaves the set of ids, and their uniqueness, as it was. */
  lemma UpdatedKeepsIds(s: seq<Stakeholder>, id: int, f: Field, value: string, parsed: int)
    ensures Ids(Updated(s, id, f, value, parsed)) == Ids(s)
    ensures UniqueIds(s) ==> UniqueIds(Updated(s, id, f, value, parsed))
  {
  }
}
