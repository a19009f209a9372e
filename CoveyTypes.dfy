/**
 * The entities the town controller works on: players, whose location and
 * active conversation area it updates in place, and conversation areas, whose
 * occupant lists it updates in place. Both are objects shared between the
 * controller's lists, the sessions and the players' area references.
 */
module CoveyTypes {
  import opened Optional
  import opened Geometry

  type PlayerId = string

  datatype Direction = Front | Back | Left | Right

  /** Where a player is, and the conversation area its client says it is in. */
  datatype UserLocation = UserLocation(
    x: real,
    y: real,
    rotation: Direction,
    moving: bool,
    conversationLabel: Option<string>)

  /** A labelled region of the town and the ids of the players in it, in order of arrival. */
  class ConversationArea {
    const areaLabel: string
    const topic: string
    const boundingBox: BoundingBox
    var occupantsByID: seq<PlayerId>

    constructor (areaLabel: string, topic: string, boundingBox: BoundingBox, occupantsByID: seq<PlayerId>)
      ensures this.areaLabel == areaLabel && this.topic == topic && this.boundingBox == boundingBox
      ensures this.occupantsByID == occupantsByID
    {
      this.areaLabel := areaLabel;
      this.topic := topic;
      this.boundingBox := boundingBox;
      this.occupantsByID := occupantsByID;
    }
  }

  /** A connected user: a fixed id, a location and the area it is currently in, if any. */
  class Player {
    const id: PlayerId
    const userName: string
    var location: UserLocation
    var activeConversationArea: ConversationArea?

    constructor (id: PlayerId, userName: string, location: UserLocation)
      ensures this.id == id && this.userName == userName && this.location == location
      ensures activeConversationArea == null
    {
      this.id := id;
      this.userName := userName;
      this.location := location;
      activeConversationArea := null;
    }
  }
}
