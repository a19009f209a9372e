/**
 * The Spotify token store: for every registered town, a map from player to
 * the player's parsed Spotify token. The source keeps it in a static field;
 * here it is one explicitly shared object. Players are keyed by reference,
 * as the source's `Map<Player, SpotifyToken>` does.
 */
module Spotify {
  import opened Optional
  import opened CoveyTypes

  type TownId = string

  /** A parsed Spotify token: the access token and its expiry (stored, never checked). */
  datatype SpotifyToken = SpotifyToken(accessToken: string, expiry: int)

  type TokenMaps = map<TownId, map<Player, SpotifyToken>>

  /** The access token stored for (town, player), or None when the town or the player is unknown. */
  function Lookup(m: TokenMaps, town: TownId, player: Player): Option<string>
  {
    if town in m && player in m[town] then Some(m[town][player].accessToken) else None
  }

  /** The store after `addTownPlayerToClient`. */
  function Put(m: TokenMaps, town: TownId, player: Player, token: SpotifyToken): TokenMaps
  {
    if town in m then m[town := m[town][player := token]] else m
  }

  /** The store after `removeTownPlayerFromClient`. */
  function Drop(m: TokenMaps, town: TownId, player: Player): TokenMaps
  {
    if town in m then m[town := m[town] - {player}] else m
  }

  class SpotifyClient {
    var townsToPlayerMaps: TokenMaps

    constructor ()
      ensures townsToPlayerMaps == map[]
    {
      townsToPlayerMaps := map[];
    }

    /** `getTokenForTownPlayer`: a lookup that never fails. */
    method GetTokenForTownPlayer(town: TownId, player: Player) returns (r: Option<string>)
      ensures r == Lookup(townsToPlayerMaps, town, player)
      ensures r.Some? ==> town in townsToPlayerMaps && player in townsToPlayerMaps[town]
    {
      if town in townsToPlayerMaps {
        var playerToToken := townsToPlayerMaps[town];
        if player in playerToToken {
          r := Some(playerToToken[player].accessToken);
        } else {
          r := None;
        }
      } else {
        r := None;
      }
    }

    /** `addTownToClient`: the town gets a fresh, empty player map. */
    method AddTownToClient(town: TownId)
      modifies this
      ensures townsToPlayerMaps == old(townsToPlayerMaps)[town := map[]]
    {
      townsToPlayerMaps := townsToPlayerMaps[town := map[]];
    }

    /** `removeTownFromClient`: the town's map goes, with every token in it. */
    method RemoveTownFromClient(town: TownId)
      modifies this
      ensures townsToPlayerMaps == old(townsToPlayerMaps) - {town}
    {
      townsToPlayerMaps := townsToPlayerMaps - {town};
    }

    /** `addTownPlayerToClient`: stores the token if the town is registered, else does nothing. */
    method AddTownPlayerToClient(town: TownId, player: Player, token: SpotifyToken)
      modifies this
      ensures townsToPlayerMaps == Put(old(townsToPlayerMaps), town, player, token)
    {
      if town in townsToPlayerMaps {
        var playerToToken := townsToPlayerMaps[town];
        townsToPlayerMaps := townsToPlayerMaps[town := playerToToken[player := token]];
      }
    }

    /** `removeTownPlayerFromClient`: drops the player's token if the town is registered. */
    method RemoveTownPlayerFromClient(town: TownId, player: Player)
      modifies this
      ensures townsToPlayerMaps == Drop(old(townsToPlayerMaps), town, player)
    {
      if town in townsToPlayerMaps {
        var playerToToken := townsToPlayerMaps[town];
        townsToPlayerMaps := townsToPlayerMaps[town := playerToToken - {player}];
      }
    }
  }

  /** Get after put, on a registered town, returns the access token put. */
  lemma GetAfterPut(m: TokenMaps, town: TownId, player: Player, token: SpotifyToken)
    requires town in m
    ensures Lookup(Put(m, town, player, token), town, player) == Some(token.accessToken)
  {
  }

  /** Put on an unregistered town changes nothing. */
  lemma PutUnregisteredTown(m: TokenMaps, town: TownId, player: Player, token: SpotifyToken)
    requires town !in m
    ensures Put(m, town, player, token) == m
  {
  }

  /** Put changes no other (town, player) entry. */
  lemma PutKeepsOthers(m: TokenMaps, town: TownId, player: Player, token: SpotifyToken,
                       town': TownId, player': Player)
    requires town' != town || player' != player
    ensures Lookup(Put(m, town, player, token), town', player') == Lookup(m, town', player')
  {
  }

  /** After removing a player, its lookup is absent and every other entry is as before. */
  lemma DropRemovesOnlyThatEntry(m: TokenMaps, town: TownId, player: Player,
                                 town': TownId, player': Player)
    ensures Lookup(Drop(m, town, player), town, player) == None
    ensures town' != town || player' != player ==>
              Lookup(Drop(m, town, player), town', player') == Lookup(m, town', player')
  {
  }

  /** After removing a town, no player of it has a token; other towns are untouched. */
  lemma RemoveTownForgetsAll(m: TokenMaps, town: TownId, player: Player, town': TownId)
    requires town' != town
    ensures Lookup(m - {town}, town, player) == None
    ensures Lookup(m - {town}, town', player) == Lookup(m, town', player)
  {
  }

  /** Registering a town again discards every token stored for it. */
  lemma AddTownDiscardsTokens(m: TokenMaps, town: TownId, player: Player)
    ensures Lookup(m[town := map[]], town, player) == None
    ensures town in m[town := map[]]
  {
  }

  /**
   * Towns are independent: the same token stored for players of two
   * registered towns is retrieved, equal, from each.
   */
  lemma TownsAreIndependent(m: TokenMaps, town1: TownId, player1: Player,
                            town2: TownId, player2: Player, token: SpotifyToken)
    requires town1 in m && town2 in m && town1 != town2
    ensures var m' := Put(Put(m, town1, player1, token), town2, player2, token);
            Lookup(m', town1, player1) == Lookup(m', town2, player2) == Some(token.accessToken)
  {
  }
}
