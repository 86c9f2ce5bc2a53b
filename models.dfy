/** The records of the planner package: rooms, the generator's parameters, requests and responses. */
module Models {

  /** One rectangle of a floor plan; sizes in metres and square metres, (x, y) its top-left corner. */
  datatype Room = Room(name: string, area: real, width: real, height: real, x: real, y: real)

  /** The parameters `generateRooms` reads; nothing in the package updates them. */
  datatype FloorPlanGenerator = FloorPlanGenerator(
    totalArea: real,
    rooms: int,
    style: string,
    features: seq<string>)

  /** The request body, already decoded from JSON. */
  datatype PlanRequest = PlanRequest(area: int, rooms: int, style: string, features: seq<string>)

  /** One plan variant; `roomData` holds the room list that the source serialises as JSON text. */
  datatype PlanResponse = PlanResponse(
    id: string,
    title: string,
    area: int,
    rooms: int,
    style: string,
    features: seq<string>,
    floorPlan: string,
    render3D: string,
    createdAt: string,
    updatedAt: string,
    roomData: seq<Room>)

  /** What the image-generation collaborator hands back when it succeeds. */
  datatype AIGenerationResponse = AIGenerationResponse(
    roomData: seq<Room>,
    floorPlanURL: string,
    render3DURL: string)
}
