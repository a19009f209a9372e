# Covey.Town town controller — a Dafny model

Covey.Town is a virtual meeting space. Each town runs on the server as one
`CoveyTownController`. The controller holds four lists:

- the players in the town;
- their sessions (a player bound to a secret session token);
- the listeners subscribed to the town's events;
- the active conversation areas.

A conversation area is a labelled, non-overlapping rectangle with a topic and
a list of occupant ids. Players join a town and move about. When the label
their client declares names a listed area, they enter that area. They leave
the town when their session is destroyed. Areas are created on request: the
label must be unused, the topic non-empty, and the box must overlap no other
area. An area is deleted once its last occupant leaves. Every change is
reported to each listener in turn.

Beside the controller, the model covers two small state holders:

- the Spotify client's token store, a map from town id to a map from player
  to the player's Spotify token;
- the `PlayerSession` object.

The model is imperative where the source is. The controller, the sessions,
the players, the areas and the token store are classes whose fields the
methods update in place. Their contracts state the whole new state. They are
proved to preserve the town's invariants:

- areas never overlap;
- area labels are unique;
- player ids are unique;
- every player's active area, if it has one, is listed and lists the player.

Listener notifications go to a ghost log. Each `forEach` over the listeners
appends one notification per listener, in list order. The overlap test, the
array operations (`findIndex`, `splice`, `filter`, `find`) and the token-map
updates are pure functions, with lemmas about them.

Files:

- `Optional.dfy`: the option type.
- `Geometry.dfy`: bounding boxes and `boxesOverlap`.
- `ListOps.dfy`: `findIndex`, `splice(i, 1)` and `filter` on sequences.
- `CoveyTypes.dfy`: players, conversation areas and locations.
- `ConversationAreas.dfy`: lookups in the area list and its invariants.
- `PlayerLists.dfy`: lookups and filters on the player list.
- `PlayerSession.dfy`: sessions.
- `SpotifyClient.dfy`: the token store.
- `CoveyTownController.dfy`: the controller.

## Model

| member | source | states |
|---|---|---|
| Geometry.BoxesOverlap | services/townService/src/lib/CoveyTownController.ts:301-308 | `boxesOverlap`: the boxes overlap unless one lies entirely on one side of the other on some axis, a shared edge counting as on one side; its meaning is given by the lemmas below |
| Geometry.ToRectPoints | services/townService/src/lib/CoveyTownController.ts:303 | the derived spans are centred on the box centre, and are as wide and as high as the box |
| Geometry.BoxesOverlapSymmetric | services/townService/src/lib/CoveyTownController.ts:301-308 | `boxesOverlap(a, b)` equals `boxesOverlap(b, a)` |
| Geometry.SharedVerticalEdgeIsNoOverlap | services/townService/src/lib/CoveyTownController.ts:306-307 | boxes that meet only along a vertical edge do not overlap, in either order (the span tests use `>=`) |
| Geometry.SharedHorizontalEdgeIsNoOverlap | services/townService/src/lib/CoveyTownController.ts:306-307 | boxes that meet only along a horizontal edge do not overlap, in either order |
| Geometry.OverlapIsCommonInteriorPoint | services/townService/src/lib/CoveyTownController.ts:294-308 | for boxes of positive size, the test holds iff some point lies strictly inside both boxes (the boxes are open rectangles) |
| Geometry.BoxOverlapsItself | services/townService/src/lib/CoveyTownController.ts:281-283 | a box of positive size overlaps itself, so the same region cannot be added twice |
| ListOps.IndexOf | services/townService/src/lib/CoveyTownController.ts:251 | `findIndex`: -1 iff the element is absent; otherwise the first index holding it |
| ListOps.SpliceOne | services/townService/src/lib/CoveyTownController.ts:251 | `splice(i, 1)` with i in range removes exactly the element at i; a start past the end removes nothing |
| ListOps.RemoveFirst | services/townService/src/lib/CoveyTownController.ts:251-253 | removing the first copy of a present element shortens the list by one |
| ListOps.RemoveFirstIsSplice | services/townService/src/lib/CoveyTownController.ts:251-253 | for a present element, `splice(findIndex(x), 1)` removes the first copy of x |
| ListOps.RemoveFirstMultiset | services/townService/src/lib/CoveyTownController.ts:251 | exactly one copy of x goes: the multiset of the result is the old multiset less one x |
| ListOps.RemoveFirstMembers | services/townService/src/lib/CoveyTownController.ts:251-253 | every other element stays; x stays only if it occurred more than once |
| ListOps.AbsentElementSplicesLast | services/townService/src/lib/CoveyTownController.ts:251-253 | for an absent element, `splice(findIndex(x), 1)` drops the last element, which is why callers must pass a present one |
| ListOps.RemoveAll | services/townService/src/lib/CoveyTownController.ts:327 | `filter(v => v !== x)` leaves no x; every other element keeps its count |
| ListOps.RemoveAllSnoc | services/townService/src/lib/CoveyTownController.ts:327 | the filter keeps list order: an element added last is kept, last, exactly when it is not x; so the listeners left after an unsubscribe keep their subscription order |
| ListOps.RemoveAllAbsent | services/townService/src/lib/CoveyTownController.ts:323-327 | filtering out an element that is not there changes nothing |
| ListOps.RemoveAllIdempotent | services/townService/src/lib/CoveyTownController.ts:326-328 | filtering the same element out twice is the same as once |
| CoveyTypes.ConversationArea.constructor | services/townService/src/lib/CoveyTownController.ts:268-269 | an area holds the label, topic, box and occupants it is built with |
| CoveyTypes.Player.constructor | frontend/src/classes/Player.ts:16-21 | a player holds its id, user name and location, and starts with no active area |
| ConversationAreas.FindByLabel | services/townService/src/lib/CoveyTownController.ts:197 | finds a listed area with the declared label; null iff no listed area has it (an absent label matches none) |
| ConversationAreas.FindOverlapping | services/townService/src/lib/CoveyTownController.ts:281-282 | finds a listed area whose box overlaps the given one; null iff none does |
| ConversationAreas.AdmissibleIsNew | services/townService/src/lib/CoveyTownController.ts:274-286 | an area that passes the three checks is not already listed |
| ConversationAreas.AppendAdmissible | services/townService/src/lib/CoveyTownController.ts:274-286 | appending an area that passes the label and overlap checks keeps the list free of overlaps and label clashes |
| ConversationAreas.RemoveAtKeepsWellFormed | services/townService/src/lib/CoveyTownController.ts:253 | taking one area out keeps the list free of overlaps and label clashes |
| ConversationAreas.UniqueLabelsNoRepeat | services/townService/src/lib/CoveyTownController.ts:253 | with unique labels, the spliced-out area occurs nowhere else in the list |
| ConversationAreas.FindByLabelUnique | services/townService/src/lib/CoveyTownController.ts:197 | with unique labels, a listed area's own label finds that very area |
| PlayerLists.PlayerIds | services/townService/src/lib/CoveyTownController.ts:289 | `map(player => player.id)`: the ids of the players, position by position |
| PlayerLists.FindPlayer | services/townService/src/lib/CoveyTownController.ts:172 | finds a player with the id; null iff there is none |
| PlayerLists.WithoutPlayer | services/townService/src/lib/CoveyTownController.ts:176 | keeps exactly the players whose id differs |
| PlayerLists.WithoutPlayerSnoc | services/townService/src/lib/CoveyTownController.ts:176 | the filter keeps list order: a player added last is kept, last, exactly when its id differs |
| PlayerLists.WithoutPlayerKeepsDistinct | services/townService/src/lib/CoveyTownController.ts:176 | filtering by id keeps player ids distinct |
| PlayerLists.PlayersWithin | services/townService/src/lib/CoveyTownController.ts:287 | keeps exactly the players that the containment test places inside the box |
| PlayerLists.PlayersWithinSnoc | services/townService/src/lib/CoveyTownController.ts:287 | the filter keeps player-list order: a player added last is kept, last, exactly when it is inside the box; so a new area's occupants are in player order |
| Sessions.PlayerSession.constructor | services/townService/src/types/PlayerSession.ts:10-25 | fixes the player and the session token; both other tokens start absent |
| Sessions.PlayerSession.SetVideoToken | services/townService/src/types/PlayerSession.ts:35-41 | the video token becomes the value set; the Spotify token, player and session token are unchanged |
| Sessions.PlayerSession.SetSpotifyToken | services/townService/src/types/PlayerSession.ts:27-33 | the Spotify token becomes the value set; the video token, player and session token are unchanged |
| Sessions.FindSession | services/townService/src/lib/CoveyTownController.ts:341 | finds the first session with the token: no earlier session has it; null iff there is none |
| Sessions.WithoutSession | services/townService/src/lib/CoveyTownController.ts:178 | keeps exactly the sessions whose token differs |
| Sessions.WithoutSessionSnoc | services/townService/src/lib/CoveyTownController.ts:178 | the filter keeps list order: a session added last is kept, last, exactly when its token differs |
| Sessions.NoSessionAfterFilter | services/townService/src/lib/CoveyTownController.ts:178 | after the filter, no session with that token can be found |
| Spotify.SpotifyClient.constructor | services/townService/src/lib/SpotifyClient.ts:48-51 | the store starts empty |
| Spotify.SpotifyClient.GetTokenForTownPlayer | services/townService/src/lib/SpotifyClient.ts:85-94 | returns the stored access token; returns None, never an error, when the town or the player is unknown |
| Spotify.SpotifyClient.AddTownToClient | services/townService/src/lib/SpotifyClient.ts:133-137 | maps the town to an empty player map; other towns are unchanged |
| Spotify.SpotifyClient.RemoveTownFromClient | services/townService/src/lib/SpotifyClient.ts:145-147 | deletes the town's entry and nothing else |
| Spotify.SpotifyClient.AddTownPlayerToClient | services/townService/src/lib/SpotifyClient.ts:157-166 | stores the token under (town, player) if the town is registered, and changes nothing otherwise |
| Spotify.SpotifyClient.RemoveTownPlayerFromClient | services/townService/src/lib/SpotifyClient.ts:175-178 | deletes the (town, player) entry if the town is registered |
| Spotify.GetAfterPut | services/townService/src/lib/SpotifyClient.test.ts:174-177 | on a registered town, the lookup after a put returns the access token put |
| Spotify.PutUnregisteredTown | services/townService/src/lib/SpotifyClient.ts:158-165 | a put on an unregistered town leaves the store as it was |
| Spotify.PutKeepsOthers | services/townService/src/lib/SpotifyClient.ts:157-166 | a put changes the lookup of no other (town, player) pair |
| Spotify.DropRemovesOnlyThatEntry | services/townService/src/lib/SpotifyClient.test.ts:179-186 | after a remove, the lookup of that pair is None, and every other pair looks up as before |
| Spotify.RemoveTownForgetsAll | services/townService/src/lib/SpotifyClient.test.ts:207-216 | after removing a town, none of its players has a token; other towns are untouched |
| Spotify.AddTownDiscardsTokens | services/townService/src/lib/SpotifyClient.ts:133-137 | registering a town again discards every token stored for it, and the town stays registered |
| Spotify.TownsAreIndependent | services/townService/src/lib/SpotifyClient.test.ts:158-172 | the same token stored for players of two registered towns is retrieved, equal, from each |
| Town.BroadcastDelivers | services/townService/src/lib/CoveyTownController.ts:161 | a `forEach` over the listeners delivers one notification per listener, the k-th to the k-th listener |
| Town.BroadcastSnoc | services/townService/src/lib/CoveyTownController.ts:161 | one more listener at the end receives one more notification, last |
| Town.SetActiveArea | services/townService/src/lib/CoveyTownController.ts:288 | every listed player's active area becomes the new area; locations are unchanged |
| Town.TownController.constructor | services/townService/src/lib/CoveyTownController.ts:115-122 | the town id is the friendly name when that is the demo town id, else the generated id; capacity 50; all lists empty; no timer, none cleared; the invariants hold |
| Town.TownController.Occupancy | services/townService/src/lib/CoveyTownController.ts:38-40 | the number of subscribed listeners; AddTownListener and RemoveTownListener state how it changes |
| Town.TownController.GetSessionByToken | services/townService/src/lib/CoveyTownController.ts:340-342 | returns the first session with the token: no earlier session has it; null iff no session has it |
| Town.TownController.Emit | services/townService/src/lib/CoveyTownController.ts:161 | the log grows by exactly one broadcast of the event |
| Town.TownController.BeginUpdatePlayerSongs | services/townService/src/lib/CoveyTownController.ts:127-131 | a timer is recorded only when none is recorded yet |
| Town.TownController.ForceEndUpdatePlayerSongs | services/townService/src/lib/CoveyTownController.ts:136-140 | clears the recorded timer if there is one, but leaves it recorded |
| Town.TownController.AddPlayer | services/townService/src/lib/CoveyTownController.ts:148-164 | appends a fresh session for the player and then the player, in both outcomes. With a video token from the service: the session holds it, one joined broadcast goes out, and the call succeeds. When the service fails: the session has no video token, nothing is announced, and the call fails. The session never has a Spotify token; the invariants are kept |
| Town.TownController.RemovePlayerFromConversationArea | services/townService/src/lib/CoveyTownController.ts:250-258 | removes the first copy of the player's id; an emptied area leaves the list and a destroyed event is broadcast, otherwise an updated one is; the invariants are kept, and so is every other player's registration |
| Town.TownController.DestroySession | services/townService/src/lib/CoveyTownController.ts:171-184 | no player with the id and no session with the token remains, so the token lookup finds none; the Spotify entry of the player found is dropped; one disconnected broadcast; then the id leaves the player's active area, as in the removal above; other areas are unchanged; the invariants are kept |
| Town.TownController.ForgetPlayer | services/townService/src/lib/CoveyTownController.ts:172-178 | the Spotify token of the player found under the id is dropped; the players and sessions are filtered; the invariants are kept |
| Town.TownController.UpdatePlayerLocation | services/townService/src/lib/CoveyTownController.ts:196-214 | sets the location, and sets the active area to the listed area with the declared label or none. The same area: no occupant list and no area list changes, and only a moved broadcast. A new area: the player leaves the old one (removal broadcast) and is appended to the new one (updated broadcast), and the moved broadcast comes last. The invariants are kept |
| Town.TownController.SwitchConversationArea | services/townService/src/lib/CoveyTownController.ts:203-211 | the player leaves the previous area and is appended to the next; the removal broadcast comes before the update broadcast; the player and every other registered player end up registered |
| Town.TownController.JoinConversationArea | services/townService/src/lib/CoveyTownController.ts:207-210 | appends the id and broadcasts the area as updated; no registration is lost |
| Town.TownController.AddConversationArea | services/townService/src/lib/CoveyTownController.ts:273-292 | succeeds iff the label is unused, the topic non-empty and the box overlaps no listed area. On refusal, nothing changes: no area, occupant list, active area or log entry. On success, the area is appended, its occupants are the ids of the players inside it in player order, those players' active area is the new area, and one updated broadcast goes out. The invariants are kept either way |
| Town.TownController.InstallArea | services/townService/src/lib/CoveyTownController.ts:285-291 | the success half of area creation, with the same postconditions |
| Town.TownController.AddTownListener | services/townService/src/lib/CoveyTownController.ts:316-318 | appends the listener; the occupancy grows by one |
| Town.TownController.RemoveTownListener | services/townService/src/lib/CoveyTownController.ts:320-328 | removes every copy of the listener; a listener that is not subscribed leaves the list as it was; the occupancy drops by the number of copies |
| Town.TownController.OnChatMessage | services/townService/src/lib/CoveyTownController.ts:330-332 | broadcasts the chat message once to every listener |
| Town.TownController.DisconnectAllPlayers | services/townService/src/lib/CoveyTownController.ts:344-346 | broadcasts town-destroyed once to every listener |

## Left out

- `updatePlayerSongs` and `changePlayerSong` (CoveyTownController.ts:89-113, 226-239) are left out. They are asynchronous: they poll Spotify over HTTP on a timer and await the answers. Of the timer, only its handle is modelled: the handle is a parameter of `BeginUpdatePlayerSongs`, and each `clearInterval` is recorded in a ghost list.
- The Spotify HTTP calls (SpotifyClient.ts:105-125 and 182-240) and the environment-checking singleton `getInstance` (:60-75) are I/O. The token store is one explicit `SpotifyClient` object, passed to `DestroySession`, instead of a static field.
- `JSON.parse` in `addTownPlayerToClient` (SpotifyClient.ts:160-164) is left out. The model takes the token already parsed, as an access token and an expiry.
- Town.TownController.AddPlayer: the answer of the Twilio video service is a parameter, None when the service's promise rejects. The model does not capture other work interleaving with the `await` (CoveyTownController.ts:155-158). The source draws the player id at random; the model requires that id to be unused, so that player ids stay unique.
- Listeners cannot fail or call back into the controller. In the source, each `forEach` over the listeners (CoveyTownController.ts:161, 179, 209, 213, 254, 256, 290, 331, 345) stops at the first callback that throws, and the rest of the operation is skipped. For example, `destroySession` would then not remove the player from its area. The model's broadcasts always reach every listener and the operation always completes.
- The random town id, update password and session token (nanoid) are parameters.
- The conversation area type (`ServerConversationArea`, declared in the client library) is not part of this model. The `ConversationArea` class is reconstructed from the fields the controller uses.
- `Player.isWithin` is a parameter of `AddConversationArea` and `InstallArea`: the server's `types/Player.ts` is not part of this model. The server's `Player` class is reconstructed from its uses in the controller, with the fields of `frontend/src/classes/Player.ts`; its song field is left out.
- Coordinates are exact reals, not JavaScript floating-point numbers.
- Chat messages are opaque strings.
- The console logging is left out.
- The express routes in `router/towns.ts` and the frontend files are not part of this model.
- The getters and the setters of `friendlyName` and `isPubliclyListed` are plain field reads and writes.
- Town.TownController.RemovePlayerFromConversationArea requires that the area is listed and lists the player. Otherwise the source's `findIndex` returns -1, and `splice(-1, 1)` would delete the last element (`ListOps.AbsentElementSplicesLast`).
- Town.TownController.UpdatePlayerLocation requires the player to be in the town, and so registered in its active area. The source accepts any player. A player that has left the town may still hold an active area that no longer lists its id. Moving that player to another area then hits `findIndex` returning -1 (CoveyTownController.ts:205, 251). If the old area still has occupants, `splice(-1, 1)` removes its last occupant. If it was already destroyed, it has no occupants, and the second `findIndex` at :253 also returns -1, so the town's last listed area is deleted.
- Town.TownController.DestroySession requires the session's player to be registered in its active area, for the same reason.
- The invariant relating players to areas goes one way only. A player's active area lists the player, but an area's occupant list may hold ids of players that have since moved on. `addConversationArea` reassigns the players inside a new area without removing them from their old area (CoveyTownController.ts:288). Areas with no occupants can exist too: a new area may start empty (:287-289).
- Players are keyed by reference in the token store, as in the source's `Map<Player, SpotifyToken>`.
