/** The controller's operations on its player list: lookups and filters by id and by location. */
module PlayerLists {
  import opened Geometry
  import opened CoveyTypes

  /** `map(player => player.id)`. */
  function PlayerIds(ps: seq<Player>): (r: seq<PlayerId>)
    ensures |r| == |ps|
    ensures forall k :: 0 <= k < |ps| ==> r[k] == ps[k].id
    ensures forall p :: p in ps ==> p.id in r
  {
    if ps == [] then [] else [ps[0].id] + PlayerIds(ps[1..])
  }

  /** No two players of the list share an id. */
  ghost predicate DistinctIds(ps: seq<Player>)
  {
    forall p, q :: p in ps && q in ps && p.id == q.id ==> p == q
  }

  /** `find(player => player.id === id)`. */
  function FindPlayer(ps: seq<Player>, id: PlayerId): (r: Player?)
    ensures r != null ==> r in ps && r.id == id
    ensures r == null <==> forall p :: p in ps ==> p.id != id
  {
    if ps == [] then null
    else if ps[0].id == id then ps[0]
    else FindPlayer(ps[1..], id)
  }

  /** `filter(player => player.id !== id)`. */
  function WithoutPlayer(ps: seq<Player>, id: PlayerId): (r: seq<Player>)
    ensures forall p :: p in r ==> p in ps && p.id != id
    ensures forall p :: p in ps && p.id != id ==> p in r
    ensures |r| <= |ps|
  {
    if ps == [] then []
    else
      var rest := WithoutPlayer(ps[1..], id);
      assert ps == [ps[0]] + ps[1..];
      if ps[0].id == id then rest else [ps[0]] + rest
  }

  /**
   * The filter keeps list order: a player added at the end is kept, last,
   * exactly when its id differs.
   */
  lemma {:induction false} WithoutPlayerSnoc(ps: seq<Player>, p: Player, id: PlayerId)
    ensures WithoutPlayer(ps + [p], id) == WithoutPlayer(ps, id) + (if p.id != id then [p] else [])
  {
    if ps != [] {
      assert (ps + [p])[1..] == ps[1..] + [p];
      WithoutPlayerSnoc(ps[1..], p, id);
    }
  }

  /** Filtering a list out by id keeps its ids distinct. */
  lemma WithoutPlayerKeepsDistinct(ps: seq<Player>, id: PlayerId)
    requires DistinctIds(ps)
    ensures DistinctIds(WithoutPlayer(ps, id))
  {
  }

  /**
   * `filter(player => player.isWithin(area))`, with the containment test a
   * parameter: the players for which `within` holds, in list order.
   */
  function PlayersWithin(ps: seq<Player>, box: BoundingBox,
                         within: (UserLocation, BoundingBox) -> bool): (r: seq<Player>)
    reads ps
    ensures forall p :: p in r ==> p in ps && within(p.location, box)
    ensures forall p :: p in ps && within(p.location, box) ==> p in r
    ensures |r| <= |ps|
  {
    if ps == [] then []
    else
      var rest := PlayersWithin(ps[1..], box, within);
      assert ps == [ps[0]] + ps[1..];
      if within(ps[0].location, box) then [ps[0]] + rest else rest
  }

  /**
   * The filter keeps list order: a player added at the end is kept, last,
   * exactly when the containment test places it inside the box.
   */
  lemma {:induction false} PlayersWithinSnoc(ps: seq<Player>, p: Player, box: BoundingBox,
                                             within: (UserLocation, BoundingBox) -> bool)
    ensures PlayersWithin(ps + [p], box, within)
            == PlayersWithin(ps, box, within) + (if within(p.location, box) then [p] else [])
  {
    if ps != [] {
      assert (ps + [p])[1..] == ps[1..] + [p];
      PlayersWithinSnoc(ps[1..], p, box, within);
    }
  }
}
