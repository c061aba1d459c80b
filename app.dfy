/** app.js: the flash middleware that runs before every route, and the socket.io
    `join` handler. */
module App {
  import opened Prelude
  import opened Runtime

  /** `res.locals.error` and `res.locals.success` as the views receive them. */
  datatype FlashLocals = FlashLocals(error: Option<string>, success: Option<string>)

  /** Moves both flash fields into the view locals (a falsy one becomes null), deletes
      them from the session and calls `next()`; nothing else in the session changes. */
  method Flash(s: Session) returns (locals: FlashLocals, r: Response)
    modifies s
    ensures locals == FlashLocals(OrNull(old(s.error)), OrNull(old(s.success)))
    ensures s.Data() == old(s.Data()).(error := None, success := None)
    ensures r == Next
  {
    locals := FlashLocals(OrNull(s.error), OrNull(s.success));
    s.error := None;
    s.success := None;
    r := Next;
  }

  /** A flash message is shown on one request only: the next request sees none. */
  method FlashShownOnce(s: Session) returns (first: FlashLocals, second: FlashLocals)
    modifies s
    ensures first == FlashLocals(OrNull(old(s.error)), OrNull(old(s.success)))
    ensures second == FlashLocals(None, None)
  {
    var r;
    first, r := Flash(s);
    second, r := Flash(s);
  }

  /** `socket.on('join', room => socket.join(room))`: any room name is joined, with no
      check of who asks; nothing is emitted. */
  method OnJoin(io: Io, socket: SocketId, room: string)
    modifies io
    ensures socket in io.rooms && room in io.rooms[socket]
    ensures io.rooms == old(io.rooms)[socket := (if socket in old(io.rooms) then old(io.rooms)[socket] else {}) + {room}]
    ensures io.log == old(io.log)
  {
    var joined := if socket in io.rooms then io.rooms[socket] else {};
    io.rooms := io.rooms[socket := joined + {room}];
  }
}
