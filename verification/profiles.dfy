/** The profile record shown on a card, the hard-coded seed list and the
    removal of a dismissed profile from the live list. */
module Profiles {

  /** One profile. Only `id` takes part in the stack logic; the other
      attributes are carried along unchanged. */
  datatype User = User(
    id: int,
    firstName: string,
    secondName: string,
    age: int,
    mutualFriends: int,
    imageName: string,
    occupation: string)

  /** The seed profiles differ only in their id and second name. */
  function Michael(id: int, secondName: string): User {
    User(id, "Michael", secondName, 27, 0, "michael", "Judge")
  }

  /** The list the stack starts with: five profiles whose ids are 0..4, in order. */
  function SeedUsers(): (s: seq<User>)
    ensures |s| == 5
    ensures forall i :: 0 <= i < |s| ==> s[i].id == i
  {
    [Michael(0, "0"), Michael(1, "1"), Michael(2, "2"), Michael(3, "3"), Michael(4, "4")]
  }

  /** No two live profiles share an id. */
  predicate DistinctIds(users: seq<User>) {
    forall i, j :: 0 <= i < j < |users| ==> users[i].id != users[j].id
  }

  /** The number of profiles in `users` whose id is `id`. */
  function CountId(users: seq<User>, id: int): (n: nat)
    ensures n <= |users|
    ensures n == 0 <==> forall u :: u in users ==> u.id != id
  {
    if users == [] then 0
    else (if users[0].id == id then 1 else 0) + CountId(users[1..], id)
  }

  /** `users.removeAll { $0.id == id }`: every profile with that id is dropped,
      the others are kept in their order. */
  function Without(users: seq<User>, id: int): seq<User> {
    if users == [] then []
    else (if users[0].id == id then [] else [users[0]]) + Without(users[1..], id)
  }

  /** A profile survives removal exactly when it was live and carries another id. */
  lemma {:induction false} WithoutMembers(users: seq<User>, id: int, u: User)
    ensures u in Without(users, id) <==> u in users && u.id != id
  {
    if users != [] {
      WithoutMembers(users[1..], id, u);
      assert users == [users[0]] + users[1..];
    }
  }

  /** Removal distributes over concatenation: the survivors of a list are the
      survivors of its first part followed by those of its second part, so the
      relative order of the kept profiles never changes. */
  lemma {:induction false} WithoutConcat(a: seq<User>, b: seq<User>, id: int)
    ensures Without(a + b, id) == Without(a, id) + Without(b, id)
  {
    if a == [] {
      assert a + b == b;
    } else {
      assert (a + b)[1..] == a[1..] + b;
      WithoutConcat(a[1..], b, id);
    }
  }

  /** Removing an id that is not present changes nothing. */
  lemma {:induction false} WithoutAbsent(users: seq<User>, id: int)
    requires forall u :: u in users ==> u.id != id
    ensures Without(users, id) == users
  {
    if users != [] {
      assert users[0] in users;
      forall u | u in users[1..] ensures u.id != id {
        assert u in users;
      }
      WithoutAbsent(users[1..], id);
      assert [users[0]] + users[1..] == users;
    }
  }

  /** The list shrinks by exactly the number of profiles carrying the id. */
  lemma {:induction false} WithoutCount(users: seq<User>, id: int)
    ensures |Without(users, id)| == |users| - CountId(users, id)
  {
    if users != [] {
      WithoutCount(users[1..], id);
    }
  }

  /** With distinct ids an id occurs at most once. */
  lemma {:induction false} DistinctCount(users: seq<User>, id: int)
    requires DistinctIds(users)
    ensures CountId(users, id) <= 1
    ensures CountId(users, id) == 1 <==> exists u :: u in users && u.id == id
  {
    if users != [] {
      assert DistinctIds(users[1..]) by {
        forall i, j | 0 <= i < j < |users[1..]| ensures users[1..][i].id != users[1..][j].id {
          assert users[1..][i] == users[i + 1] && users[1..][j] == users[j + 1];
        }
      }
      DistinctCount(users[1..], id);
      if users[0].id == id {
        forall u | u in users[1..] ensures u.id != id {
          var k :| 0 <= k < |users[1..]| && users[1..][k] == u;
          assert users[k + 1] == u;
        }
      }
    }
  }

  /** Dismissing a present profile from a list with distinct ids removes exactly one entry. */
  lemma WithoutPresent(users: seq<User>, id: int)
    requires DistinctIds(users)
    requires exists u :: u in users && u.id == id
    ensures |Without(users, id)| == |users| - 1
  {
    WithoutCount(users, id);
    DistinctCount(users, id);
  }

  /** Removal keeps the ids distinct. */
  lemma {:induction false} WithoutDistinct(users: seq<User>, id: int)
    requires DistinctIds(users)
    ensures DistinctIds(Without(users, id))
  {
    if users != [] {
      var tail := users[1..];
      assert DistinctIds(tail) by {
        forall i, j | 0 <= i < j < |tail| ensures tail[i].id != tail[j].id {
          assert tail[i] == users[i + 1] && tail[j] == users[j + 1];
        }
      }
      WithoutDistinct(tail, id);
      var rest := Without(tail, id);
      var head := if users[0].id == id then [] else [users[0]];
      forall v | v in rest ensures v.id != users[0].id {
        WithoutMembers(tail, id, v);
        var k :| 0 <= k < |tail| && tail[k] == v;
        assert users[k + 1] == v;
      }
      forall i, j | 0 <= i < j < |head + rest| ensures (head + rest)[i].id != (head + rest)[j].id {
        if head == [] {
          assert (head + rest)[i] == rest[i] && (head + rest)[j] == rest[j];
        } else if i == 0 {
          assert (head + rest)[j] == rest[j - 1];
          assert rest[j - 1] in rest;
        } else {
          assert (head + rest)[i] == rest[i - 1] && (head + rest)[j] == rest[j - 1];
        }
      }
    }
  }

  /** The live list after dismissing the ids in `ids`, one after the other. */
  function RemoveEach(users: seq<User>, ids: seq<int>): seq<User>
    decreases |ids|
  {
    if ids == [] then users else RemoveEach(Without(users, ids[0]), ids[1..])
  }

  /** After a series of dismissals a profile is still live exactly when it was
      live before and its id was never dismissed. */
  lemma {:induction false} RemoveEachMembers(users: seq<User>, ids: seq<int>, u: User)
    ensures u in RemoveEach(users, ids) <==> u in users && u.id !in ids
    decreases |ids|
  {
    if ids != [] {
      RemoveEachMembers(Without(users, ids[0]), ids[1..], u);
      WithoutMembers(users, ids[0], u);
      assert ids == [ids[0]] + ids[1..];
    }
  }

  /** Dismissing every id that occurs empties the list. */
  lemma DismissAll(users: seq<User>, ids: seq<int>)
    requires forall u :: u in users ==> u.id in ids
    ensures RemoveEach(users, ids) == []
  {
    var r := RemoveEach(users, ids);
    if r != [] {
      RemoveEachMembers(users, ids, r[0]);
      assert false;
    }
  }

  /** Dismissing the seed profiles from the top one down leaves nothing. */
  lemma SeedDismissAll()
    ensures RemoveEach(SeedUsers(), [4, 3, 2, 1, 0]) == []
  {
    var s := SeedUsers();
    forall u | u in s ensures u.id in [4, 3, 2, 1, 0] {
      var k :| 0 <= k < |s| && s[k] == u;
    }
    DismissAll(s, [4, 3, 2, 1, 0]);
  }

  /** Dismissing id 2 from the seed list leaves ids 0, 1, 3, 4 in that order. */
  lemma SeedWithoutTwo()
    ensures var s := SeedUsers(); Without(s, 2) == [s[0], s[1], s[3], s[4]]
  {
    var s := SeedUsers();
    var a, b, c, d, e := s[0], s[1], s[2], s[3], s[4];
    assert s == [a, b, c, d, e];
    assert Without([e], 2) == [e] by { assert [e][1..] == []; }
    assert Without([d, e], 2) == [d, e] by { assert [d, e][1..] == [e]; }
    assert Without([c, d, e], 2) == [d, e] by { assert [c, d, e][1..] == [d, e]; }
    assert Without([b, c, d, e], 2) == [b, d, e] by { assert [b, c, d, e][1..] == [c, d, e]; }
    assert Without([a, b, c, d, e], 2) == [a, b, d, e] by { assert [a, b, c, d, e][1..] == [b, c, d, e]; }
  }
}
