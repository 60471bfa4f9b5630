/**
 * Outbound effects, recorded instead of performed: emits to a room
 * (`io.to(rid).emit`), to the user's own socket (`socket.emit`), to every
 * other socket (`socket.broadcast.emit`), the socket joining a room tag, and
 * the calls into the ban module.
 */
module Events {
  import opened JsValues
  import opened Records

  datatype Payload =
    | GuidOnly(guid: string)                              // leave, passthrough, joke, fact
    | Update(guid: string, userPublic: Public)            // update
    | UpdateAll(usersPublic: map<string, Public>)         // updateAll
    | RoomInfo(room: Value, isOwner: bool, isPublic: bool) // room
    | Reason(reason: string)                              // loginFail, commandFail
    | Said(guid: string, text: string)                    // talk
    | AlertText(text: string)                             // alert
    | Media(guid: string, vid: Value)                     // youtube, image, video
    | Swag(guid: string, swag: bool)                      // backflip
    | Aimed(guid: string, target: string)                 // asshole, owo
    | NoData                                              // vaporwave, unvaporwave

  datatype Event =
    | RoomEmit(rid: string, name: string, payload: Payload)
    | SocketEmit(guid: string, name: string, payload: Payload)
    | BroadcastEmit(exceptGuid: string, name: string, payload: Payload)
    | SocketJoin(guid: string, rid: string)
    | BanHandle(guid: string)
    | BanKick(ip: string, reason: string)
    | BanAdd(target: Value, minutes: Value, why: Value)
}
