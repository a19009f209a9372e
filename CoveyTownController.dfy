/**
 * The town controller: the in-memory state of one town (its players,
 * sessions, listeners and conversation areas) and the operations that change
 * it. Every listener notification is recorded, in delivery order, in a ghost
 * log.
 */
module Town {
  import opened Optional
  import opened Geometry
  import opened CoveyTypes
  import opened ListOps
  import opened ConversationAreas
  import opened PlayerLists
  import opened Sessions
  import opened Spotify

  /** An observer of a town's events; listeners are told apart by reference. */
  class Listener {
    constructor ()
    {
    }
  }

  /** The handle of a repeating timer. */
  type TimerHandle = nat

  /** The events a listener is told about, with what it can read of their subject at that moment. */
  datatype TownEvent =
    | PlayerJoined(player: PlayerId)
    | PlayerMoved(player: PlayerId, location: UserLocation)
    | PlayerDisconnected(player: PlayerId)
    | AreaUpdated(areaLabel: string, occupants: seq<PlayerId>)
    | AreaDestroyed(areaLabel: string)
    | TownDestroyed
    | ChatMessage(message: string)

  /** One event delivered to one listener. */
  datatype Notification = Notification(listener: Listener, event: TownEvent)

  /** What a `forEach` over the listeners delivers: the event once to each, in list order. */
  function Broadcast(listeners: seq<Listener>, event: TownEvent): seq<Notification>
  {
    if listeners == [] then [] else [Notification(listeners[0], event)] + Broadcast(listeners[1..], event)
  }

  /** A broadcast holds exactly one notification per listener, the k-th for the k-th listener. */
  lemma {:induction false} BroadcastDelivers(listeners: seq<Listener>, event: TownEvent)
    ensures |Broadcast(listeners, event)| == |listeners|
    ensures forall k :: 0 <= k < |listeners| ==> Broadcast(listeners, event)[k] == Notification(listeners[k], event)
  {
    if listeners != [] {
      BroadcastDelivers(listeners[1..], event);
    }
  }

  /** Broadcasting to one more listener delivers one more notification, last. */
  lemma BroadcastSnoc(listeners: seq<Listener>, l: Listener, event: TownEvent)
    ensures Broadcast(listeners + [l], event) == Broadcast(listeners, event) + [Notification(l, event)]
  {
    var lhs, rhs := Broadcast(listeners + [l], event), Broadcast(listeners, event) + [Notification(l, event)];
    BroadcastDelivers(listeners + [l], event);
    BroadcastDelivers(listeners, event);
    assert |lhs| == |rhs|;
    forall k | 0 <= k < |lhs| ensures lhs[k] == rhs[k] {
    }
  }

  /** The event that follows taking a player out of an area, given what is left of its occupants. */
  function RemovalEvent(areaLabel: string, occupants: seq<PlayerId>): TownEvent
  {
    if occupants == [] then AreaDestroyed(areaLabel) else AreaUpdated(areaLabel, occupants)
  }

  /** `forEach(player => { player.activeConversationArea = area; })`. */
  method SetActiveArea(ps: seq<Player>, area: ConversationArea)
    modifies ps
    ensures forall p :: p in ps ==> p.activeConversationArea == area
    ensures forall p :: p in ps ==> p.location == old(p.location)
  {
    for k := 0 to |ps|
      invariant forall p :: p in ps ==> p.location == old(p.location)
      invariant forall p :: p in ps[..k] ==> p.activeConversationArea == area
    {
      assert ps[k] in ps;
      ps[k].activeConversationArea := area;
      assert ps[..k + 1] == ps[..k] + [ps[k]];
    }
    assert ps[..|ps|] == ps;
  }

  class TownController {
    const coveyTownID: TownId
    var friendlyName: string
    var isPubliclyListed: bool
    const townUpdatePassword: string
    const capacity: nat

    var players: seq<Player>
    var sessions: seq<PlayerSession>
    var listeners: seq<Listener>
    var conversationAreas: seq<ConversationArea>

    /** The song-polling timer, once one has been started. */
    var intervalID: Option<TimerHandle>
    /** The timers handed to `clearInterval`, in order. */
    ghost var clearedIntervals: seq<TimerHandle>
    /** Every notification delivered to a listener, in order. */
    ghost var log: seq<Notification>

    /** Areas do not overlap and have unique labels; players have unique ids. */
    ghost predicate Valid()
      reads this`conversationAreas, this`players
    {
      WellFormed(conversationAreas) && DistinctIds(players)
    }

    /** The player's active area, if it has one, is listed and lists the player. */
    ghost predicate Registered(p: Player)
      reads this`conversationAreas, p, conversationAreas
    {
      var a := p.activeConversationArea;
      a != null ==> a in conversationAreas && p.id in a.occupantsByID
    }

    /** Every player of the town is registered in its active area. */
    ghost predicate ActiveConsistent()
      reads this`players, this`conversationAreas, players, conversationAreas
    {
      forall p :: p in players ==> Registered(p)
    }

    /**
     * A new town. Its id is the friendly name when that is the configured demo
     * town id, else a generated id; the id and the update password are random
     * in the source and given here.
     */
    constructor (friendlyName: string, isPubliclyListed: bool, demoTownID: Option<string>,
                 generatedID: TownId, updatePassword: string)
      ensures coveyTownID == if demoTownID == Some(friendlyName) then friendlyName else generatedID
      ensures this.friendlyName == friendlyName && this.isPubliclyListed == isPubliclyListed
      ensures townUpdatePassword == updatePassword && capacity == 50
      ensures players == [] && sessions == [] && listeners == [] && conversationAreas == []
      ensures intervalID == None && clearedIntervals == [] && log == []
      ensures Valid() && ActiveConsistent()
    {
      coveyTownID := if demoTownID == Some(friendlyName) then friendlyName else generatedID;
      capacity := 50;
      townUpdatePassword := updatePassword;
      this.isPubliclyListed := isPubliclyListed;
      this.friendlyName := friendlyName;
      players, sessions, listeners, conversationAreas := [], [], [], [];
      intervalID := None;
      clearedIntervals, log := [], [];
    }

    /** `occupancy`: the number of subscribed listeners. */
    function Occupancy(): nat
      reads this`listeners
    {
      |listeners|
    }

    /**
     * `getSessionByToken`: the first session with that token, or null when
     * there is none. The lookup is defined by FindSession; its contract is
     * repeated here so that the controller's getter states its own promise.
     */
    function GetSessionByToken(token: string): (r: PlayerSession?)
      reads this`sessions
      ensures r != null ==> r in sessions && r.sessionToken == token
      ensures r == null <==> forall s :: s in sessions ==> s.sessionToken != token
      ensures r != null ==> exists k :: 0 <= k < |sessions| && sessions[k] == r
                                        && forall j :: 0 <= j < k ==> sessions[j].sessionToken != token
    {
      FindSession(sessions, token)
    }

    /** Delivers an event to every listener, in list order. */
    method Emit(event: TownEvent)
      modifies this`log
      ensures log == old(log) + Broadcast(listeners, event)
    {
      for i := 0 to |listeners|
        invariant log == old(log) + Broadcast(listeners[..i], event)
      {
        BroadcastSnoc(listeners[..i], listeners[i], event);
        assert listeners[..i + 1] == listeners[..i] + [listeners[i]];
        log := log + [Notification(listeners[i], event)];
      }
      assert listeners[..|listeners|] == listeners;
    }

    /** `beginUpdatePlayerSongs`: starts the polling timer unless one is already recorded. */
    method BeginUpdatePlayerSongs(timer: TimerHandle)
      modifies this`intervalID
      ensures intervalID == if old(intervalID) == None then Some(timer) else old(intervalID)
    {
      if intervalID == None {
        intervalID := Some(timer);
      }
    }

    /** `forceEndUpdatePlayerSongs`: clears the recorded timer, but keeps it recorded. */
    method ForceEndUpdatePlayerSongs()
      modifies this`clearedIntervals
      ensures clearedIntervals == old(clearedIntervals) + (if intervalID.Some? then [intervalID.value] else [])
      ensures intervalID == old(intervalID)
    {
      if intervalID.Some? {
        clearedIntervals := clearedIntervals + [intervalID.value];
      }
    }

    /**
     * `addPlayer`: registers a session and the player, then asks the video
     * service for the session's video token. `videoToken` is the service's
     * answer, None when its promise rejects. On a token, the session keeps it,
     * the player is announced and `ok` holds. On a rejection, the source's own
     * promise rejects (`ok` is false): the session and the player stay
     * registered, the session has no video token and nothing is announced.
     * Player ids are random in the source, so the new id is assumed to be
     * unused.
     */
    method AddPlayer(newPlayer: Player, sessionToken: string, videoToken: Option<string>)
      returns (session: PlayerSession, ok: bool)
      requires Valid() && ActiveConsistent()
      requires newPlayer.activeConversationArea == null
      requires forall p :: p in players ==> p.id != newPlayer.id
      modifies this`players, this`sessions, this`log
      ensures fresh(session) && session.player == newPlayer && session.sessionToken == sessionToken
      ensures session.videoToken == videoToken && session.spotifyToken == None
      ensures ok <==> videoToken.Some?
      ensures sessions == old(sessions) + [session]
      ensures players == old(players) + [newPlayer]
      ensures log == old(log) + (if ok then Broadcast(listeners, PlayerJoined(newPlayer.id)) else [])
      ensures Valid() && ActiveConsistent()
    {
      session := new PlayerSession(newPlayer, sessionToken);
      sessions := sessions + [session];
      players := players + [newPlayer];
      if videoToken == None {
        return session, false;
      }
      session.SetVideoToken(videoToken);
      Emit(PlayerJoined(newPlayer.id));
      ok := true;
    }

    /**
     * `removePlayerFromConversationArea`: takes the first copy of the player's
     * id out of the area; an area left empty is taken out of the town and
     * reported destroyed, otherwise it is reported updated. The player's own
     * active area is not touched. The caller must pass a listed area that
     * lists the player: the source would otherwise splice at index -1.
     */
    method RemovePlayerFromConversationArea(player: Player, conversation: ConversationArea)
      requires Valid()
      requires conversation in conversationAreas && player.id in conversation.occupantsByID
      modifies this`conversationAreas, this`log, conversation`occupantsByID
      ensures conversation.occupantsByID == RemoveFirst(old(conversation.occupantsByID), player.id)
      ensures conversationAreas == if conversation.occupantsByID == []
                                   then RemoveFirst<ConversationArea>(old(conversationAreas), conversation)
                                   else old(conversationAreas)
      ensures conversation in conversationAreas <==> conversation.occupantsByID != []
      ensures log == old(log) + Broadcast(listeners, RemovalEvent(conversation.areaLabel, conversation.occupantsByID))
      ensures Valid()
      ensures forall q :: q in players && q.id != player.id && old(Registered(q)) ==> Registered(q)
    {
      RemoveFirstIsSplice(conversation.occupantsByID, player.id);
      conversation.occupantsByID := SpliceOne(conversation.occupantsByID, IndexOf(conversation.occupantsByID, player.id));
      if |conversation.occupantsByID| == 0 {
        RemoveFirstIsSplice(conversationAreas, conversation);
        var k := IndexOf(conversationAreas, conversation);
        RemoveAtKeepsWellFormed(conversationAreas, k);
        UniqueLabelsNoRepeat(conversationAreas, k);
        conversationAreas := SpliceOne(conversationAreas, k);
        Emit(AreaDestroyed(conversation.areaLabel));
      } else {
        Emit(AreaUpdated(conversation.areaLabel, conversation.occupantsByID));
      }
      forall q | q in players && q.id != player.id && old(Registered(q))
        ensures Registered(q)
      {
        var a := q.activeConversationArea;
        if a == conversation {
          RemoveFirstMembers(old(conversation.occupantsByID), player.id, q.id);
        } else if a != null && conversation.occupantsByID == [] {
          RemoveFirstMembers<ConversationArea>(old(conversationAreas), conversation, a);
        }
      }
    }

    /**
     * `destroySession`: forgets the player's Spotify token, drops every player
     * with the session's player id and every session with its token, reports
     * the disconnection and then takes the player out of its active area.
     */
    method DestroySession(session: PlayerSession, spotify: SpotifyClient)
      requires Valid() && ActiveConsistent()
      requires Registered(session.player)
      modifies this`players, this`sessions, this`conversationAreas, this`log, session.player.activeConversationArea, spotify
      ensures players == WithoutPlayer(old(players), session.player.id)
      ensures forall p :: p in players ==> p.id != session.player.id
      ensures sessions == WithoutSession(old(sessions), session.sessionToken)
      ensures GetSessionByToken(session.sessionToken) == null
      ensures var p := FindPlayer(old(players), session.player.id);
              spotify.townsToPlayerMaps == if p != null then Drop(old(spotify.townsToPlayerMaps), coveyTownID, p)
                                           else old(spotify.townsToPlayerMaps)
      ensures var a := session.player.activeConversationArea;
              a == null ==> (conversationAreas == old(conversationAreas)
                             && log == old(log) + Broadcast(listeners, PlayerDisconnected(session.player.id)))
      ensures var a := session.player.activeConversationArea;
              a != null ==> (a.occupantsByID == RemoveFirst(old(a.occupantsByID), session.player.id)
                             && conversationAreas == (if a.occupantsByID == []
                                                      then RemoveFirst<ConversationArea>(old(conversationAreas), a)
                                                      else old(conversationAreas))
                             && log == old(log) + Broadcast(listeners, PlayerDisconnected(session.player.id))
                                      + Broadcast(listeners, RemovalEvent(a.areaLabel, a.occupantsByID)))
      ensures forall b :: b in old(conversationAreas) && b != session.player.activeConversationArea ==>
                b.occupantsByID == old(b.occupantsByID)
      ensures Valid() && ActiveConsistent()
    {
      var id := session.player.id;
      ForgetPlayer(session, spotify);
      Emit(PlayerDisconnected(id));
      var conversation := session.player.activeConversationArea;
      if conversation != null {
        RemovePlayerFromConversationArea(session.player, conversation);
      }
      forall q | q in players
        ensures Registered(q)
      {
        assert q in old(players) && q.id != id;
      }
    }

    /**
     * The first steps of `destroySession`: forgets the Spotify token of the
     * player found under the session's player id, if any, then drops every
     * player with that id and every session with the session's token. The
     * conversation areas are not touched.
     */
    method ForgetPlayer(session: PlayerSession, spotify: SpotifyClient)
      requires Valid() && ActiveConsistent()
      modifies this`players, this`sessions, spotify
      ensures players == WithoutPlayer(old(players), session.player.id)
      ensures sessions == WithoutSession(old(sessions), session.sessionToken)
      ensures var p := FindPlayer(old(players), session.player.id);
              spotify.townsToPlayerMaps == if p != null then Drop(old(spotify.townsToPlayerMaps), coveyTownID, p)
                                           else old(spotify.townsToPlayerMaps)
      ensures Valid() && ActiveConsistent()
    {
      var id := session.player.id;
      var p := FindPlayer(players, id);
      if p != null {
        spotify.RemoveTownPlayerFromClient(coveyTownID, p);
      }
      players := WithoutPlayer(players, id);
      WithoutPlayerKeepsDistinct(old(players), id);
      sessions := WithoutSession(sessions, session.sessionToken);
    }

    /**
     * `updatePlayerLocation`: moves the player and makes its active area the
     * listed area whose label its client declared, if any. When that area
     * differs from the previous one, the player leaves the previous area (as
     * in RemovePlayerFromConversationArea) and is appended to the new one,
     * which is reported updated. The move itself is reported last, once.
     */
    method UpdatePlayerLocation(player: Player, location: UserLocation)
      requires Valid() && ActiveConsistent() && player in players
      modifies player, this`conversationAreas, this`log, conversationAreas
      ensures player.location == location
      ensures player.activeConversationArea == FindByLabel(old(conversationAreas), location.conversationLabel)
      ensures var prev, next := old(player.activeConversationArea), player.activeConversationArea;
              next == prev ==>
                && conversationAreas == old(conversationAreas)
                && (forall b :: b in old(conversationAreas) ==> b.occupantsByID == old(b.occupantsByID))
                && log == old(log) + Broadcast(listeners, PlayerMoved(player.id, location))
      ensures var prev, next := old(player.activeConversationArea), player.activeConversationArea;
              next != prev ==>
                && (prev != null ==> prev.occupantsByID == RemoveFirst(old(prev.occupantsByID), player.id))
                && (next != null ==> next.occupantsByID == old(next.occupantsByID) + [player.id])
                && conversationAreas == (if prev != null && prev.occupantsByID == []
                                         then RemoveFirst<ConversationArea>(old(conversationAreas), prev)
                                         else old(conversationAreas))
                && (forall b :: b in old(conversationAreas) && b != prev && b != next ==>
                      b.occupantsByID == old(b.occupantsByID))
                && log == old(log)
                          + (if prev != null then Broadcast(listeners, RemovalEvent(prev.areaLabel, prev.occupantsByID)) else [])
                          + (if next != null then Broadcast(listeners, AreaUpdated(next.areaLabel, next.occupantsByID)) else [])
                          + Broadcast(listeners, PlayerMoved(player.id, location))
      ensures Valid() && ActiveConsistent()
    {
      assert Registered(player);
      var conversation := FindByLabel(conversationAreas, location.conversationLabel);
      var prevConversation := player.activeConversationArea;
      player.location := location;
      player.activeConversationArea := conversation;
      if conversation != prevConversation {
        SwitchConversationArea(player, prevConversation, conversation);
      }
      Emit(PlayerMoved(player.id, location));
      forall q | q in players
        ensures Registered(q)
      {
        if q != player {
          assert q.id != player.id;
          assert old(Registered(q));
        }
      }
    }

    /**
     * The part of `updatePlayerLocation` that runs when the player's active
     * area changes (already set to next): the player leaves the previous area,
     * if any, as in RemovePlayerFromConversationArea, then joins the next one,
     * if any. Every other player registered before stays registered, and the
     * player is registered in its new active area.
     */
    method SwitchConversationArea(player: Player, prev: ConversationArea?, next: ConversationArea?)
      requires Valid() && prev != next && player.activeConversationArea == next
      requires prev != null ==> prev in conversationAreas && player.id in prev.occupantsByID
      requires next != null ==> next in conversationAreas
      modifies this`conversationAreas, this`log, prev, next
      ensures prev != null ==> prev.occupantsByID == RemoveFirst(old(prev.occupantsByID), player.id)
      ensures next != null ==> next.occupantsByID == old(next.occupantsByID) + [player.id]
      ensures conversationAreas == if prev != null && prev.occupantsByID == []
                                   then RemoveFirst<ConversationArea>(old(conversationAreas), prev)
                                   else old(conversationAreas)
      ensures log == old(log)
                     + (if prev != null then Broadcast(listeners, RemovalEvent(prev.areaLabel, prev.occupantsByID)) else [])
                     + (if next != null then Broadcast(listeners, AreaUpdated(next.areaLabel, next.occupantsByID)) else [])
      ensures Valid() && Registered(player)
      ensures forall q :: q in players && q.id != player.id && old(Registered(q)) ==> Registered(q)
    {
      ghost var removal: seq<Notification> := [];
      ghost var joining: seq<Notification> := [];
      ghost var left: seq<PlayerId> := [];
      if prev != null {
        RemovePlayerFromConversationArea(player, prev);
        removal := Broadcast(listeners, RemovalEvent(prev.areaLabel, prev.occupantsByID));
        left := prev.occupantsByID;
      }
      ghost var logRemoved := log;
      assert logRemoved == old(log) + removal;
      if next != null {
        if prev != null {
          RemoveFirstMembers<ConversationArea>(old(conversationAreas), prev, next);
        }
        JoinConversationArea(player, next);
        joining := Broadcast(listeners, AreaUpdated(next.areaLabel, next.occupantsByID));
      }
      assert log == logRemoved + joining;
      assert prev != null ==> prev.occupantsByID == left;
      forall q | q in players && q.id != player.id && old(Registered(q))
        ensures Registered(q)
      {
        var a := q.activeConversationArea;
        if a != null && a != prev && a != next {
          assert a.occupantsByID == old(a.occupantsByID);
        }
      }
    }

    /**
     * The step of `updatePlayerLocation` that enters a listed area: appends
     * the player's id to its occupants and reports it updated. Every player
     * registered before stays registered, and the player is registered once
     * the area is its active one.
     */
    method JoinConversationArea(player: Player, conversation: ConversationArea)
      requires conversation in conversationAreas
      modifies conversation`occupantsByID, this`log
      ensures conversation.occupantsByID == old(conversation.occupantsByID) + [player.id]
      ensures log == old(log) + Broadcast(listeners, AreaUpdated(conversation.areaLabel, conversation.occupantsByID))
      ensures forall q :: q in players && old(Registered(q)) ==> Registered(q)
      ensures player.activeConversationArea == conversation ==> Registered(player)
    {
      conversation.occupantsByID := conversation.occupantsByID + [player.id];
      Emit(AreaUpdated(conversation.areaLabel, conversation.occupantsByID));
    }

    /**
     * `addConversationArea`: refuses, changing nothing, an area whose label is
     * in use, whose topic is empty or whose box overlaps a listed area;
     * otherwise installs it as InstallArea does. The containment test of
     * players is a parameter.
     */
    method AddConversationArea(area: ConversationArea, within: (UserLocation, BoundingBox) -> bool)
      returns (ok: bool)
      requires Valid() && ActiveConsistent()
      modifies this`conversationAreas, this`log, area`occupantsByID, players
      ensures ok <==> Admissible(old(conversationAreas), area)
      ensures forall p :: p in players ==> p.location == old(p.location)
      ensures !ok ==> && conversationAreas == old(conversationAreas)
                      && log == old(log)
                      && area.occupantsByID == old(area.occupantsByID)
                      && forall p :: p in players ==> p.activeConversationArea == old(p.activeConversationArea)
      ensures ok ==> && conversationAreas == old(conversationAreas) + [area]
                     && area.occupantsByID == PlayerIds(old(PlayersWithin(players, area.boundingBox, within)))
                     && (forall p :: p in players ==>
                           p.activeConversationArea == if within(p.location, area.boundingBox) then area
                                                       else old(p.activeConversationArea))
                     && log == old(log) + Broadcast(listeners, AreaUpdated(area.areaLabel, area.occupantsByID))
      ensures Valid() && ActiveConsistent()
    {
      if FindByLabel(conversationAreas, Some(area.areaLabel)) != null {
        return false;
      }
      if area.topic == "" {
        return false;
      }
      if FindOverlapping(conversationAreas, area.boundingBox) != null {
        return false;
      }
      InstallArea(area, within);
      ok := true;
    }

    /**
     * What `addConversationArea` does with an admissible area: lists it last,
     * makes it the active area of every player the containment test places
     * inside its box, sets its occupants to those players' ids in player order
     * (whatever occupants it came with) and reports it updated.
     */
    method InstallArea(area: ConversationArea, within: (UserLocation, BoundingBox) -> bool)
      requires Valid() && ActiveConsistent() && Admissible(conversationAreas, area)
      modifies this`conversationAreas, this`log, area`occupantsByID, players
      ensures conversationAreas == old(conversationAreas) + [area]
      ensures area.occupantsByID == PlayerIds(old(PlayersWithin(players, area.boundingBox, within)))
      ensures forall p :: p in players ==> p.location == old(p.location)
      ensures forall p :: p in players ==>
                p.activeConversationArea == if within(p.location, area.boundingBox) then area
                                            else old(p.activeConversationArea)
      ensures log == old(log) + Broadcast(listeners, AreaUpdated(area.areaLabel, area.occupantsByID))
      ensures Valid() && ActiveConsistent()
    {
      AppendAdmissible(conversationAreas, area);
      AdmissibleIsNew(conversationAreas, area);
      conversationAreas := conversationAreas + [area];
      var inside := PlayersWithin(players, area.boundingBox, within);
      forall i | 0 <= i < |inside|
        ensures inside[i] in players
      {
        assert inside[i] in inside;
      }
      SetActiveArea(inside, area);
      forall p | p in players
        ensures p.location == old(p.location)
        ensures p.activeConversationArea == if p in inside then area else old(p.activeConversationArea)
      {
      }
      area.occupantsByID := PlayerIds(inside);
      Emit(AreaUpdated(area.areaLabel, area.occupantsByID));
      forall q | q in players
        ensures Registered(q)
      {
        if q in inside {
          assert q.id in area.occupantsByID;
        } else {
          assert old(Registered(q));
        }
      }
    }

    /** `addTownListener`: subscribes a listener, last. */
    method AddTownListener(listener: Listener)
      modifies this`listeners
      ensures listeners == old(listeners) + [listener]
      ensures Occupancy() == old(Occupancy()) + 1
    {
      listeners := listeners + [listener];
    }

    /**
     * `removeTownListener`: unsubscribes every copy of a listener; a listener
     * that is not subscribed leaves the list as it is.
     */
    method RemoveTownListener(listener: Listener)
      modifies this`listeners
      ensures listeners == RemoveAll(old(listeners), listener)
      ensures listener !in listeners
      ensures listener !in old(listeners) ==> listeners == old(listeners)
      ensures Occupancy() == old(Occupancy()) - multiset(old(listeners))[listener]
    {
      listeners := RemoveAll(listeners, listener);
      if listener !in old(listeners) {
        RemoveAllAbsent(old(listeners), listener);
      }
      assert |multiset(listeners)| == |multiset(old(listeners))| - multiset(old(listeners))[listener];
    }

    /** `onChatMessage`: passes a chat message to every listener. */
    method OnChatMessage(message: string)
      modifies this`log
      ensures log == old(log) + Broadcast(listeners, ChatMessage(message))
    {
      Emit(ChatMessage(message));
    }

    /** `disconnectAllPlayers`: tells every listener that the town is destroyed. */
    method DisconnectAllPlayers()
      modifies this`log
      ensures log == old(log) + Broadcast(listeners, TownDestroyed)
    {
      Emit(TownDestroyed);
    }
  }
}
