/** The stack of profile cards: the live list, the window of rendered cards,
    the width and offset of each card, and removal on dismissal. */
module Stack {
  import opened Profiles
  import opened Gesture

  /** `users.map { $0.id }.max() ?? 0`: the largest live id, or 0 when no
      profile is left. */
  function MaxId(users: seq<User>): (m: int)
    ensures users == [] ==> m == 0
    ensures forall u :: u in users ==> u.id <= m
    ensures users != [] ==> exists u :: u in users && u.id == m
  {
    if users == [] then 0
    else if |users| == 1 then users[0].id
    else
      var rest := MaxId(users[1..]);
      assert forall u :: u in users ==> u == users[0] || u in users[1..];
      if users[0].id >= rest then users[0].id else rest
  }

  /** The closed range `(maxId - 3)...maxId` that decides whether a card is rendered. */
  predicate InWindow(maxId: int, id: int) {
    maxId - 3 <= id <= maxId
  }

  /** The window holds exactly the four ids from `maxId - 3` up to `maxId`. */
  lemma WindowIds(maxId: int, id: int)
    ensures InWindow(maxId, id) <==> id in {maxId - 3, maxId - 2, maxId - 1, maxId}
  {
  }

  /** The vertical offset of a card: 10 per step between its id and the last
      position `count - 1` of the live list. */
  function CardOffset(count: int, id: int): (r: real)
    ensures r == 0.0 <==> id == count - 1
    ensures r > 0.0 <==> id < count - 1
  {
    (count - 1 - id) as real * 10.0
  }

  /** The width of a card: what its offset takes away from the geometry width. */
  function CardWidth(geometryWidth: real, count: int, id: int): (r: real)
    ensures r + CardOffset(count, id) == geometryWidth
  {
    geometryWidth - (count - 1 - id) as real * 10.0
  }

  /** For a fixed list, each id step moves a card up by 10 and widens it by 10. */
  lemma LayoutStep(geometryWidth: real, count: int, id: int)
    ensures CardOffset(count, id + 1) == CardOffset(count, id) - 10.0
    ensures CardWidth(geometryWidth, count, id + 1) == CardWidth(geometryWidth, count, id) + 10.0
  {
  }

  /** For a fixed list, a larger id means a strictly smaller offset and a strictly larger width. */
  lemma LayoutMonotone(geometryWidth: real, count: int, i: int, j: int)
    requires i < j
    ensures CardOffset(count, j) < CardOffset(count, i)
    ensures CardWidth(geometryWidth, count, i) < CardWidth(geometryWidth, count, j)
  {
  }

  /** One rendered card: its profile, frame width and vertical offset. */
  datatype Card = Card(user: User, width: real, offset: real)

  /** The card drawn for `u`, laid out against a live list of `count` profiles. */
  function CardFor(u: User, geometryWidth: real, count: int): (c: Card)
    ensures c.user == u && c.width + c.offset == geometryWidth
    ensures c.offset == 0.0 <==> u.id == count - 1
  {
    Card(u, CardWidth(geometryWidth, count, u.id), CardOffset(count, u.id))
  }

  /** The cards drawn for `users`, in list order, keeping those inside the
      window of `maxId`; `count` is the size of the whole live list. */
  function StackCards(users: seq<User>, count: int, maxId: int, geometryWidth: real): seq<Card>
    decreases |users|
  {
    if users == [] then []
    else
      var u := users[|users| - 1];
      StackCards(users[..|users| - 1], count, maxId, geometryWidth)
        + (if InWindow(maxId, u.id) then [CardFor(u, geometryWidth, count)] else [])
  }

  /** What the stack view draws for a live list. */
  function Rendered(users: seq<User>, geometryWidth: real): seq<Card> {
    StackCards(users, |users|, MaxId(users), geometryWidth)
  }

  /** A card is drawn exactly for each profile inside the window. */
  lemma {:induction false} StackCardsMembers(users: seq<User>, count: int, maxId: int, geometryWidth: real, c: Card)
    ensures c in StackCards(users, count, maxId, geometryWidth)
      <==> exists u :: u in users && InWindow(maxId, u.id) && c == CardFor(u, geometryWidth, count)
    decreases |users|
  {
    if users != [] {
      var init := users[..|users| - 1];
      StackCardsMembers(init, count, maxId, geometryWidth, c);
      assert users == init + [users[|users| - 1]];
      assert forall u :: u in users <==> u in init || u == users[|users| - 1];
    }
  }

  /** A profile is drawn iff `maxId - 3 <= id <= maxId`, with its card laid out
      against the whole live list. */
  lemma RenderedMembers(users: seq<User>, geometryWidth: real, c: Card)
    ensures c in Rendered(users, geometryWidth)
      <==> exists u :: u in users && InWindow(MaxId(users), u.id) && c == CardFor(u, geometryWidth, |users|)
  {
    StackCardsMembers(users, |users|, MaxId(users), geometryWidth, c);
  }

  /** With distinct ids, no more cards are drawn than there are window ids in `window`. */
  lemma {:induction false} StackCardsBound(users: seq<User>, count: int, maxId: int, geometryWidth: real, window: set<int>)
    requires DistinctIds(users)
    requires forall u :: u in users && InWindow(maxId, u.id) ==> u.id in window
    ensures |StackCards(users, count, maxId, geometryWidth)| <= |window|
    decreases |users|
  {
    if users != [] {
      var n := |users| - 1;
      var init, last := users[..n], users[n];
      assert DistinctIds(init) by {
        forall i, j | 0 <= i < j < |init| ensures init[i].id != init[j].id {
          assert init[i] == users[i] && init[j] == users[j];
        }
      }
      if InWindow(maxId, last.id) {
        assert last in users;
        forall u | u in init && InWindow(maxId, u.id) ensures u.id in window - {last.id} {
          var k :| 0 <= k < n && init[k] == u;
          assert users[k] == u;
        }
        StackCardsBound(init, count, maxId, geometryWidth, window - {last.id});
      } else {
        forall u | u in init && InWindow(maxId, u.id) ensures u.id in window {
          assert u in users;
        }
        StackCardsBound(init, count, maxId, geometryWidth, window);
      }
    }
  }

  /** With distinct ids at most four cards are drawn. */
  lemma RenderedAtMostFour(users: seq<User>, geometryWidth: real)
    requires DistinctIds(users)
    ensures |Rendered(users, geometryWidth)| <= 4
  {
    var m := MaxId(users);
    var window := {m - 3, m - 2, m - 1, m};
    assert |window| == 4;
    forall u | u in users && InWindow(m, u.id) ensures u.id in window {
      WindowIds(m, u.id);
    }
    StackCardsBound(users, |users|, m, geometryWidth, window);
  }

  /** A non-empty list always draws the card of the profile holding the largest id. */
  lemma TopCardRendered(users: seq<User>, geometryWidth: real)
    requires users != []
    ensures exists c :: c in Rendered(users, geometryWidth) && c.user.id == MaxId(users)
  {
    var m := MaxId(users);
    assert exists u :: u in users && u.id == m;
    var u :| u in users && u.id == m;
    RenderedMembers(users, geometryWidth, CardFor(u, geometryWidth, |users|));
  }

  /** An empty list draws nothing. */
  lemma RenderedEmpty(geometryWidth: real)
    ensures Rendered([], geometryWidth) == []
  {
  }

  /** While the ids are exactly the positions 0..count-1 (as in the seed list),
      the profile with the largest id is drawn at full width with no offset and
      every other drawn card is pushed down and narrower. */
  lemma ConsecutiveLayout(users: seq<User>, geometryWidth: real)
    requires users != []
    requires forall i :: 0 <= i < |users| ==> users[i].id == i
    ensures MaxId(users) == |users| - 1
    ensures forall c :: c in Rendered(users, geometryWidth) && c.user.id == MaxId(users) ==>
      c.offset == 0.0 && c.width == geometryWidth
    ensures forall c :: c in Rendered(users, geometryWidth) && c.user.id != MaxId(users) ==>
      c.offset > 0.0 && c.width < geometryWidth
  {
    var m := MaxId(users);
    var w :| w in users && w.id == m;
    var k :| 0 <= k < |users| && users[k] == w;
    assert users[|users| - 1] in users;
    assert m == |users| - 1;
    forall c | c in Rendered(users, geometryWidth)
      ensures c.user.id == m ==> c.offset == 0.0 && c.width == geometryWidth
      ensures c.user.id != m ==> c.offset > 0.0 && c.width < geometryWidth
    {
      RenderedMembers(users, geometryWidth, c);
      var u :| u in users && InWindow(m, u.id) && c == CardFor(u, geometryWidth, |users|);
      var j :| 0 <= j < |users| && users[j] == u;
    }
  }

  /** The cards of a list split in two are the cards of its first part followed
      by those of its second part: cards are drawn in list order. */
  lemma {:induction false} StackCardsConcat(a: seq<User>, b: seq<User>, count: int, maxId: int, geometryWidth: real)
    ensures StackCards(a + b, count, maxId, geometryWidth)
      == StackCards(a, count, maxId, geometryWidth) + StackCards(b, count, maxId, geometryWidth)
    decreases |b|
  {
    if b == [] {
      assert a + b == a;
    } else {
      var init := b[..|b| - 1];
      assert (a + b)[..|a + b| - 1] == a + init;
      assert (a + b)[|a + b| - 1] == b[|b| - 1];
      StackCardsConcat(a, init, count, maxId, geometryWidth);
    }
  }

  /** Appending a profile to the list draws its card after the others, if it is in the window. */
  lemma StackCardsSnoc(users: seq<User>, u: User, count: int, maxId: int, geometryWidth: real)
    ensures StackCards(users + [u], count, maxId, geometryWidth)
      == StackCards(users, count, maxId, geometryWidth)
        + (if InWindow(maxId, u.id) then [CardFor(u, geometryWidth, count)] else [])
  {
    assert (users + [u])[..|users|] == users;
  }

  /** The cards of five profiles with ids 0..4 against the window of 4. */
  lemma FiveStackCards(a: User, b: User, c: User, d: User, e: User, geometryWidth: real)
    requires a.id == 0 && b.id == 1 && c.id == 2 && d.id == 3 && e.id == 4
    ensures StackCards([a, b, c, d, e], 5, 4, geometryWidth) == [
      CardFor(b, geometryWidth, 5), CardFor(c, geometryWidth, 5),
      CardFor(d, geometryWidth, 5), CardFor(e, geometryWidth, 5)]
  {
    StackCardsSnoc([], a, 5, 4, geometryWidth);
    assert [] + [a] == [a];
    StackCardsSnoc([a], b, 5, 4, geometryWidth);
    assert [a] + [b] == [a, b];
    StackCardsSnoc([a, b], c, 5, 4, geometryWidth);
    assert [a, b] + [c] == [a, b, c];
    StackCardsSnoc([a, b, c], d, 5, 4, geometryWidth);
    assert [a, b, c] + [d] == [a, b, c, d];
    StackCardsSnoc([a, b, c, d], e, 5, 4, geometryWidth);
    assert [a, b, c, d] + [e] == [a, b, c, d, e];
  }

  /** A list whose ids are 0..4, in order, draws ids 1..4 (id 0 is outside the
      window of 4), the last one at full width and offset 0. */
  lemma FiveConsecutiveRendered(s: seq<User>, geometryWidth: real)
    requires |s| == 5 && forall i :: 0 <= i < 5 ==> s[i].id == i
    ensures Rendered(s, geometryWidth) == [
        Card(s[1], geometryWidth - 30.0, 30.0),
        Card(s[2], geometryWidth - 20.0, 20.0),
        Card(s[3], geometryWidth - 10.0, 10.0),
        Card(s[4], geometryWidth, 0.0)]
  {
    assert s == [s[0], s[1], s[2], s[3], s[4]];
    ConsecutiveLayout(s, geometryWidth);
    FiveStackCards(s[0], s[1], s[2], s[3], s[4], geometryWidth);
  }

  /** The seed list is drawn as ids 1..4 with offsets 30, 20, 10, 0. */
  lemma SeedRendered(geometryWidth: real)
    ensures var s := SeedUsers();
      Rendered(s, geometryWidth) == [
        Card(s[1], geometryWidth - 30.0, 30.0),
        Card(s[2], geometryWidth - 20.0, 20.0),
        Card(s[3], geometryWidth - 10.0, 10.0),
        Card(s[4], geometryWidth, 0.0)]
  {
    FiveConsecutiveRendered(SeedUsers(), geometryWidth);
  }

  /** The cards of four profiles with ids 0, 1, 3, 4 against the window of 4. */
  lemma GapStackCards(a: User, b: User, d: User, e: User, geometryWidth: real)
    requires a.id == 0 && b.id == 1 && d.id == 3 && e.id == 4
    ensures StackCards([a, b, d, e], 4, 4, geometryWidth) == [
      CardFor(b, geometryWidth, 4), CardFor(d, geometryWidth, 4), CardFor(e, geometryWidth, 4)]
  {
    StackCardsSnoc([], a, 4, 4, geometryWidth);
    assert [] + [a] == [a];
    StackCardsSnoc([a], b, 4, 4, geometryWidth);
    assert [a] + [b] == [a, b];
    StackCardsSnoc([a, b], d, 4, 4, geometryWidth);
    assert [a, b] + [d] == [a, b, d];
    StackCardsSnoc([a, b, d], e, 4, 4, geometryWidth);
    assert [a, b, d] + [e] == [a, b, d, e];
  }

  /** The layout counts the whole live list, not a card's rank: in a list with
      ids 0, 1, 3, 4 the card of id 4 is drawn 10 above the top position and
      10 wider than the geometry, and id 3 takes the top position. */
  lemma GapRendered(r: seq<User>, geometryWidth: real)
    requires |r| == 4 && r[0].id == 0 && r[1].id == 1 && r[2].id == 3 && r[3].id == 4
    ensures Rendered(r, geometryWidth) == [
        Card(r[1], geometryWidth - 20.0, 20.0),
        Card(r[2], geometryWidth, 0.0),
        Card(r[3], geometryWidth + 10.0, -10.0)]
  {
    assert r == [r[0], r[1], r[2], r[3]];
    assert MaxId(r) == 4 by {
      forall u | u in r ensures u.id <= 4 {
        var k :| 0 <= k < 4 && r[k] == u;
      }
      assert r[3] in r;
    }
    GapStackCards(r[0], r[1], r[2], r[3], geometryWidth);
  }

  /** Dismissing id 2 from the seed list leaves ids 0, 1, 3, 4, drawn with
      offsets 20, 0 and -10 for ids 1, 3 and 4. */
  lemma AfterRemovingTwo(geometryWidth: real)
    ensures var s := SeedUsers();
      Rendered(Without(s, 2), geometryWidth) == [
        Card(s[1], geometryWidth - 20.0, 20.0),
        Card(s[3], geometryWidth, 0.0),
        Card(s[4], geometryWidth + 10.0, -10.0)]
  {
    var s := SeedUsers();
    SeedWithoutTwo();
    GapRendered(Without(s, 2), geometryWidth);
  }

  /** The stack view: owns the live list of profiles and removes a profile
      when its card reports a dismissal. */
  class ContentView {
    var users: seq<User>

    /** Live ids are unique. */
    ghost predicate Valid()
      reads this
    {
      DistinctIds(users)
    }

    constructor ()
      ensures Valid() && users == SeedUsers()
    {
      users := SeedUsers();
    }

    /** The removal callback handed to every card: drops every live profile
        with the dismissed profile's id, keeping the rest in order. */
    method Remove(removedUser: User)
      requires Valid()
      modifies this
      ensures Valid()
      ensures users == Without(old(users), removedUser.id)
    {
      WithoutDistinct(users, removedUser.id);
      users := Without(users, removedUser.id);
    }

    /** One render pass: walks the live list in order and lays out the card of
        every profile inside the window. */
    method Body(geometryWidth: real) returns (cards: seq<Card>)
      requires Valid()
      ensures cards == Rendered(users, geometryWidth)
      ensures |cards| <= 4
      ensures users != [] ==> exists c :: c in cards && c.user.id == MaxId(users)
    {
      var count := |users|;
      var maxId := MaxId(users);
      cards := [];
      var i := 0;
      while i < count
        invariant 0 <= i <= count
        invariant cards == StackCards(users[..i], count, maxId, geometryWidth)
      {
        var u := users[i];
        assert users[..i + 1][..i] == users[..i];
        if InWindow(maxId, u.id) {
          cards := cards + [Card(u, CardWidth(geometryWidth, count, u.id), CardOffset(count, u.id))];
        }
        i := i + 1;
      }
      assert users[..count] == users;
      RenderedAtMostFour(users, geometryWidth);
      if users != [] {
        TopCardRendered(users, geometryWidth);
      }
    }

    /** A drag on `card` ends. The card measures the drag against its own
        frame width, which the stack gives it from the stack's geometry width;
        on a dismissal its callback removes the card's profile from the live list. */
    method EndDrag(card: CardView, value: Size, geometryWidth: real)
      requires Valid()
      requires CardWidth(geometryWidth, |users|, card.user.id) > 0.0
      modifies this, card
      ensures Valid()
      ensures Classify(value, CardWidth(geometryWidth, old(|users|), card.user.id)) == Dismiss
        ==> users == Without(old(users), card.user.id) && card.translation == old(card.translation)
      ensures Classify(value, CardWidth(geometryWidth, old(|users|), card.user.id)) == SnapBack
        ==> users == old(users) && card.translation == Zero
    {
      var cardWidth := CardWidth(geometryWidth, |users|, card.user.id);
      var removed := card.OnEnded(value, cardWidth);
      if removed != [] {
        Remove(removed[0]);
      }
    }
  }
}
