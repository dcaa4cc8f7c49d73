/** The socket.io objects the handlers act on: one connection, and the server with its emission log. */
module Transport {
  import opened SocketTypes

  /** What a connection is, for the handlers: its data bag and the rooms it has joined. */
  datatype Session = Session(data: SocketData, rooms: set<string>)

  class Socket {
    const id: string
    var data: SocketData
    var rooms: set<string>

    /**
     * A new connection as `handleConnection` leaves it: socket.io puts it in the room
     * named by its id, and its data bag says "user" with nothing else set.
     */
    constructor (id: string)
      ensures this.id == id && data == InitialSocketData && rooms == {id}
    {
      this.id := id;
      data := InitialSocketData;
      rooms := {id};
    }

    function View(): Session
      reads this
    {
      Session(data, rooms)
    }
  }

  /** The socket.io server; every emission through it is appended to `log`. */
  class Io {
    /** ADMIN_ROOM, whose value is configured outside the core. */
    const adminRoom: string
    var log: seq<Emission>

    constructor (adminRoom: string)
      ensures this.adminRoom == adminRoom && log == []
    {
      this.adminRoom := adminRoom;
      log := [];
    }
  }
}
